/** The fixed registry of National Electricity Market regions the bot knows
    how to announce for, and the lookup from a region identifier to the
    display name used in toots (gridbot.go, `RegionIDToRegionString`). */
module Regions {
  import opened Wrappers

  type RegionID = string

  /** Reference table of the supported regions, independent of the lookup
      function below. */
  const RegionNames: map<RegionID, string> :=
    map[
      "QLD1" := "Queensland",
      "NSW1" := "New South Wales",
      "SA1" := "South Australia",
      "TAS1" := "Tasmania",
      "VIC1" := "Victoria"
    ]

  /** The error text Go's `fmt.Errorf("unknown region ID: %s", …)` produces. */
  function UnknownRegionError(regionId: RegionID): (r: string)
    ensures |r| > |regionId| && r[|r| - |regionId|..] == regionId
  {
    "unknown region ID: " + regionId
  }

  /** A switch over the five supported identifiers; anything else is an error. */
  function RegionIDToRegionString(regionId: RegionID): (r: Result<string, string>)
    ensures r.Success? <==> regionId in {"QLD1", "NSW1", "SA1", "TAS1", "VIC1"}
    ensures r.Success? ==> |r.value| > 0
    ensures r.Failure? ==> r.error == UnknownRegionError(regionId)
  {
    match regionId
    case "QLD1" => Success("Queensland")
    case "NSW1" => Success("New South Wales")
    case "SA1" => Success("South Australia")
    case "TAS1" => Success("Tasmania")
    case "VIC1" => Success("Victoria")
    case _ => Failure(UnknownRegionError(regionId))
  }

  /** The lookup agrees with the reference table on every identifier. */
  lemma LookupMatchesRegistry(regionId: RegionID)
    ensures regionId in RegionNames ==> RegionIDToRegionString(regionId) == Success(RegionNames[regionId])
    ensures regionId !in RegionNames ==> RegionIDToRegionString(regionId) == Failure(UnknownRegionError(regionId))
  {
  }

  /** Distinct regions get distinct display names, so a toot's region name
      identifies the region it is about. */
  lemma DisplayNamesAreDistinct(a: RegionID, b: RegionID)
    requires RegionIDToRegionString(a).Success? && RegionIDToRegionString(b).Success?
    requires a != b
    ensures RegionIDToRegionString(a).value != RegionIDToRegionString(b).value
  {
  }
}
