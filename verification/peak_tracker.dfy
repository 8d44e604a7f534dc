/** Reduction of one batch of AEMO intervals to the batch's price peak
    (gridbot.go, `processInterval` and `resetIntervalChannel`).

    Prices are exact reals standing for the source's `float64` RRP values
    (dollars per MWh); times are whole minutes since an arbitrary epoch. */
module PeakTracker {

  type Price = real
  type Time = int

  /** The `PeriodType` tag of the records that may influence a peak. */
  const ForecastPeriod: string := "FORECAST"

  /** Forecasts settling more than eight hours after "now" are ignored. */
  const HorizonMinutes: int := 8 * 60

  /** The price a batch's peak starts from; far below any real RRP. */
  const SentinelRRP: Price := -20000.0

  /** One record of the AEMO price-and-demand report. The demand and
      generation fields the source also carries play no part here. */
  datatype Interval = Interval(
    settlementDate: Time,
    regionId: string,
    rrp: Price,
    periodType: string)

  /** The running peak: the `peakRRP`/`peakTime` pair of a GridBot. */
  datatype Peak = Peak(rrp: Price, time: Time)

  /** An interval survives the filters when it is a forecast and does not
      settle after `now` plus the horizon. */
  predicate Survives(i: Interval, now: Time) {
    i.periodType == ForecastPeriod && !(i.settlementDate > now + HorizonMinutes)
  }

  /** Whether an interval takes part never depends on its price: an ACTUAL
      record is ignored however extreme its price. */
  lemma SurvivalIgnoresPrice(i: Interval, now: Time, price: Price)
    ensures Survives(i, now) <==> Survives(i.(rrp := price), now)
  {
  }

  /** A forecast that is within the horizon stays within it as the clock
      advances. */
  lemma SurvivalIsMonotoneInNow(i: Interval, now: Time, later: Time)
    requires now <= later
    requires Survives(i, now)
    ensures Survives(i, later)
  {
  }

  /** Folds one interval into the running peak. */
  function ProcessInterval(p: Peak, i: Interval, now: Time): (r: Peak)
    ensures !Survives(i, now) ==> r == p
    ensures r.rrp >= p.rrp
    ensures Survives(i, now) ==> r.rrp >= i.rrp
    ensures r == p || (Survives(i, now) && r == Peak(i.rrp, i.settlementDate))
    ensures r != p ==> i.rrp > p.rrp
  {
    if i.periodType != ForecastPeriod then p
    else if i.settlementDate > now + HorizonMinutes then p
    else if i.rrp > p.rrp then Peak(i.rrp, i.settlementDate)
    else p
  }

  /** Folds a whole batch, in arrival order, into `start`. */
  function DrainBatch(start: Peak, batch: seq<Interval>, now: Time): (r: Peak)
    ensures r.rrp >= start.rrp
    ensures forall j :: 0 <= j < |batch| && Survives(batch[j], now) ==> batch[j].rrp <= r.rrp
    decreases |batch|
  {
    if |batch| == 0 then start
    else
      var prefix := DrainBatch(start, batch[..|batch| - 1], now);
      assert forall j :: 0 <= j < |batch| - 1 ==> batch[..|batch| - 1][j] == batch[j];
      ProcessInterval(prefix, batch[|batch| - 1], now)
  }

  /** `k` is the first surviving interval whose price beats the start and
      every surviving price before it (ties keep the earlier interval). */
  ghost predicate FirstStrictMax(start: Peak, batch: seq<Interval>, now: Time, k: int) {
    && 0 <= k < |batch|
    && Survives(batch[k], now)
    && batch[k].rrp > start.rrp
    && forall j :: 0 <= j < k && Survives(batch[j], now) ==> batch[j].rrp < batch[k].rrp
  }

  /** Declarative meaning of a batch peak: an upper bound of every surviving
      price that is either the untouched start or the first surviving
      interval reaching the maximum. */
  ghost predicate IsBatchPeak(start: Peak, batch: seq<Interval>, now: Time, r: Peak) {
    && (forall j :: 0 <= j < |batch| && Survives(batch[j], now) ==> batch[j].rrp <= r.rrp)
    && (r == start
        || exists k :: FirstStrictMax(start, batch, now, k) && r == Peak(batch[k].rrp, batch[k].settlementDate))
  }

  /** The fold computes a batch peak. */
  lemma {:induction false} DrainBatchIsBatchPeak(start: Peak, batch: seq<Interval>, now: Time)
    ensures IsBatchPeak(start, batch, now, DrainBatch(start, batch, now))
    decreases |batch|
  {
    if |batch| > 0 {
      var n := |batch| - 1;
      var prefix := batch[..n];
      var p := DrainBatch(start, prefix, now);
      var x := batch[n];
      DrainBatchIsBatchPeak(start, prefix, now);
      assert forall j :: 0 <= j < n ==> prefix[j] == batch[j];
      var r := DrainBatch(start, batch, now);
      assert r == ProcessInterval(p, x, now);
      if r == p {
        if p != start {
          var k :| FirstStrictMax(start, prefix, now, k) && p == Peak(prefix[k].rrp, prefix[k].settlementDate);
          assert FirstStrictMax(start, batch, now, k);
        }
      } else {
        assert r == Peak(x.rrp, x.settlementDate);
        assert FirstStrictMax(start, batch, now, n);
      }
    }
  }

  /** A batch peak that moved off the start pins down every other batch peak. */
  lemma RaisedBatchPeakIsUnique(start: Peak, batch: seq<Interval>, now: Time, r1: Peak, r2: Peak)
    requires IsBatchPeak(start, batch, now, r1)
    requires IsBatchPeak(start, batch, now, r2)
    requires r1 != start
    ensures r1 == r2
  {
    var k1 :| FirstStrictMax(start, batch, now, k1) && r1 == Peak(batch[k1].rrp, batch[k1].settlementDate);
    assert batch[k1].rrp <= r2.rrp;
    assert r2 != start;
    var k2 :| FirstStrictMax(start, batch, now, k2) && r2 == Peak(batch[k2].rrp, batch[k2].settlementDate);
    assert batch[k2].rrp <= r1.rrp;
    assert !(k1 < k2) && !(k2 < k1);
  }

  /** At most one peak satisfies the declarative description. */
  lemma BatchPeakIsUnique(start: Peak, batch: seq<Interval>, now: Time, r1: Peak, r2: Peak)
    requires IsBatchPeak(start, batch, now, r1)
    requires IsBatchPeak(start, batch, now, r2)
    ensures r1 == r2
  {
    if r1 != start {
      RaisedBatchPeakIsUnique(start, batch, now, r1, r2);
    } else if r2 != start {
      RaisedBatchPeakIsUnique(start, batch, now, r2, r1);
    }
  }

  /** The fold result is exactly the peak the declarative description names. */
  lemma DrainBatchCharacterization(start: Peak, batch: seq<Interval>, now: Time, r: Peak)
    ensures IsBatchPeak(start, batch, now, r) <==> r == DrainBatch(start, batch, now)
  {
    DrainBatchIsBatchPeak(start, batch, now);
    if IsBatchPeak(start, batch, now, r) {
      BatchPeakIsUnique(start, batch, now, r, DrainBatch(start, batch, now));
    }
  }

  /** Draining a batch whose survivors never beat the start's price leaves the
      start untouched, whatever the non-surviving records hold. */
  lemma {:induction false} DrainBatchWithoutHigherSurvivor(start: Peak, batch: seq<Interval>, now: Time)
    requires forall j :: 0 <= j < |batch| && Survives(batch[j], now) ==> batch[j].rrp <= start.rrp
    ensures DrainBatch(start, batch, now) == start
  {
    DrainBatchIsBatchPeak(start, batch, now);
    assert !exists k :: FirstStrictMax(start, batch, now, k);
  }

  /** The start time only shows through when nothing survives above the start
      price: restarting from the same price at the resulting peak's time gives
      the same peak again. */
  lemma RedrainFromResultTime(p: Price, t: Time, batch: seq<Interval>, now: Time)
    ensures
      var d := DrainBatch(Peak(p, t), batch, now);
      DrainBatch(Peak(p, d.time), batch, now) == d
  {
    var d := DrainBatch(Peak(p, t), batch, now);
    DrainBatchIsBatchPeak(Peak(p, t), batch, now);
    if d != Peak(p, t) {
      var k :| FirstStrictMax(Peak(p, t), batch, now, k) && d == Peak(batch[k].rrp, batch[k].settlementDate);
      assert FirstStrictMax(Peak(p, d.time), batch, now, k);
    }
    assert IsBatchPeak(Peak(p, d.time), batch, now, d);
    DrainBatchCharacterization(Peak(p, d.time), batch, now, d);
  }

  /** The loop form of the main loop's `for i := range gb.input`: the
      intervals of one batch pulled from the input channel one at a time and
      folded into the peak, ending at the declarative batch peak. */
  method DrainChannel(start: Peak, batch: seq<Interval>, now: Time) returns (peak: Peak)
    ensures IsBatchPeak(start, batch, now, peak)
    ensures peak.rrp >= start.rrp
  {
    peak := start;
    var k := 0;
    while k < |batch|
      invariant 0 <= k <= |batch|
      invariant peak == DrainBatch(start, batch[..k], now)
    {
      assert batch[..k + 1][..k] == batch[..k];
      peak := ProcessInterval(peak, batch[k], now);
      k := k + 1;
    }
    assert batch[..k] == batch;
    DrainBatchIsBatchPeak(start, batch, now);
  }
}
