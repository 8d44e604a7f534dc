/** One GridBot per region: construction with region validation
    (`NewGridBot`) and the batch loop (`Mainloop`) as a pure step function
    over a sequence of batches. Each batch is the set of intervals sent on
    the input channel before it is closed; closing the channel ends the
    batch, after which the bot decides once and resets its peak price. */
module GridBot {
  import opened Wrappers
  import opened Regions
  import opened PeakTracker
  import opened Decision

  /** The parts of a GridBot's configuration the core reads. The Mastodon
      credentials and server address only matter to dispatch. */
  datatype GridBotCfg = GridBotCfg(regionId: RegionID, testMode: bool)

  datatype GridBot = GridBot(
    cfg: GridBotCfg,
    regionString: string,
    tootState: TootState,
    peak: Peak)

  /** One batch: its intervals and the "now" against which the horizon is
      measured. */
  datatype Batch = Batch(now: Time, intervals: seq<Interval>)

  /** The bot after one batch and the toot (if any) handed to dispatch. */
  datatype Step = Step(bot: GridBot, toot: Option<Toot>)

  /** The bot after a run of batches and the decision of every batch. */
  datatype Run = Run(bot: GridBot, toots: seq<Option<Toot>>)

  /** Between batches the peak price sits at the sentinel. */
  predicate Idle(gb: GridBot) {
    gb.peak.rrp == SentinelRRP
  }

  /** Starts a new batch: only the peak price returns to the sentinel; the
      peak time of the previous batch stays. */
  function ResetIntervalChannel(gb: GridBot): (r: GridBot)
    ensures Idle(r)
    ensures r.peak.time == gb.peak.time
    ensures r.cfg == gb.cfg && r.regionString == gb.regionString && r.tootState == gb.tootState
  {
    gb.(peak := gb.peak.(rrp := SentinelRRP))
  }

  /** The error text of a rejected configuration. */
  function BadRegionError(regionId: RegionID): (r: string)
    ensures |r| > |UnknownRegionError(regionId)|
    ensures r[|r| - |UnknownRegionError(regionId)|..] == UnknownRegionError(regionId)
  {
    "failed to convert region ID \"" + regionId + "\" to string: " + UnknownRegionError(regionId)
  }

  /** Builds a bot for a supported region, idle and with nothing announced;
      any other region identifier is an error. */
  function NewGridBot(cfg: GridBotCfg): (r: Result<GridBot, string>)
    ensures r.Success? <==> cfg.regionId in RegionNames
    ensures r.Success? ==>
      && r.value.cfg == cfg
      && r.value.regionString == RegionNames[cfg.regionId]
      && r.value.tootState == InitialTootState
      && Idle(r.value)
    ensures r.Failure? ==> r.error == BadRegionError(cfg.regionId)
  {
    LookupMatchesRegistry(cfg.regionId);
    match RegionIDToRegionString(cfg.regionId)
    case Failure(_) => Failure(BadRegionError(cfg.regionId))
    case Success(s) =>
      Success(ResetIntervalChannel(GridBot(cfg, s, InitialTootState, Peak(0.0, ZeroTime))))
  }

  /** One turn of the main loop: drain the whole batch into the peak, decide
      once, then reset the peak price for the next batch. The announced state
      is already updated when the toot goes to dispatch, so no dispatch
      outcome can roll it back. */
  function ProcessBatch(gb: GridBot, batch: Batch): (r: Step)
    ensures Idle(r.bot)
    ensures r.bot.cfg == gb.cfg && r.bot.regionString == gb.regionString
    ensures r.toot.None? ==> r.bot.tootState == gb.tootState
    ensures r.toot.Some? ==> r.toot.value.region == gb.regionString
    ensures r.toot.Some? ==>
      && r.bot.tootState.lastToot == r.toot
      && r.bot.tootState.lastTootedPeakTime == r.bot.peak.time
    ensures r.bot.peak.time == DrainBatch(gb.peak, batch.intervals, batch.now).time
    ensures r.toot.Some? <==> TootIsDue(DrainBatch(gb.peak, batch.intervals, batch.now), gb.tootState)
    ensures r.toot.Some? ==>
      r.bot.tootState.lastTootedPeakRRP == DrainBatch(gb.peak, batch.intervals, batch.now).rrp
    ensures
      var d := DrainBatch(gb.peak, batch.intervals, batch.now);
      var last := gb.tootState.lastTootedPeakRRP;
      && (r.toot.Some? && d.rrp < InterestingPeakRRP ==>
            r.toot.value == CancelledToot(gb.regionString, last, gb.tootState.lastTootedPeakTime))
      && (r.toot.Some? && d.rrp > InterestingPeakRRP && d.rrp > last ==>
            r.toot.value == PeakToot(gb.regionString, d.rrp, d.time))
      && (r.toot.Some? && InterestingPeakRRP < d.rrp <= last ==>
            r.toot.value == DowngradeToot(gb.regionString, last, d.rrp, d.time))
  {
    var peak := DrainBatch(gb.peak, batch.intervals, batch.now);
    var d := ConsiderPostingToot(gb.regionString, peak, gb.tootState);
    TootIsDueExactly(gb.regionString, peak, gb.tootState);
    Step(ResetIntervalChannel(gb.(tootState := d.state, peak := peak)), d.toot)
  }

  /** The main loop over a sequence of batches, one decision per batch. */
  function Mainloop(gb: GridBot, batches: seq<Batch>): (r: Run)
    ensures |r.toots| == |batches|
    ensures r.bot.cfg == gb.cfg && r.bot.regionString == gb.regionString
    ensures |batches| > 0 ==> Idle(r.bot)
    decreases |batches|
  {
    if |batches| == 0 then Run(gb, [])
    else
      var before := Mainloop(gb, batches[..|batches| - 1]);
      var step := ProcessBatch(before.bot, batches[|batches| - 1]);
      Run(step.bot, before.toots + [step.toot])
  }

  /** The decision of batch `k` is made after all of batch `k`'s intervals,
      from the state the earlier batches left. */
  lemma {:induction false} MainloopDecidesOncePerBatch(gb: GridBot, batches: seq<Batch>, k: int)
    requires 0 <= k < |batches|
    ensures Mainloop(gb, batches).toots[k] == ProcessBatch(Mainloop(gb, batches[..k]).bot, batches[k]).toot
    decreases |batches|
  {
    var n := |batches| - 1;
    if k < n {
      assert batches[..n][..k] == batches[..k];
      MainloopDecidesOncePerBatch(gb, batches[..n], k);
    }
  }

  /** Running two stretches of batches one after the other is running them
      together. */
  lemma {:induction false} MainloopConcatenates(gb: GridBot, xs: seq<Batch>, ys: seq<Batch>)
    ensures Mainloop(gb, xs + ys).bot == Mainloop(Mainloop(gb, xs).bot, ys).bot
    ensures Mainloop(gb, xs + ys).toots == Mainloop(gb, xs).toots + Mainloop(Mainloop(gb, xs).bot, ys).toots
    decreases |ys|
  {
    if |ys| > 0 {
      var m := |ys| - 1;
      assert (xs + ys)[..|xs + ys| - 1] == xs + ys[..m];
      MainloopConcatenates(gb, xs, ys[..m]);
    } else {
      assert xs + ys == xs;
    }
  }

  /** The announced state stays coherent over any run from a coherent bot. */
  lemma {:induction false} MainloopPreservesCoherence(gb: GridBot, batches: seq<Batch>)
    requires Coherent(gb.tootState)
    ensures Coherent(Mainloop(gb, batches).bot.tootState)
    decreases |batches|
  {
    if |batches| > 0 {
      var before := Mainloop(gb, batches[..|batches| - 1]);
      MainloopPreservesCoherence(gb, batches[..|batches| - 1]);
      var batch := batches[|batches| - 1];
      DecisionPreservesCoherence(before.bot.regionString,
        DrainBatch(before.bot.peak, batch.intervals, batch.now), before.bot.tootState);
    }
  }

  /** Idempotence at batch level: the same batch (with the same "now") sent
      twice in a row toots at most once. */
  lemma SameBatchTwiceTootsOnce(gb: GridBot, batch: Batch)
    requires Idle(gb)
    ensures ProcessBatch(ProcessBatch(gb, batch).bot, batch).toot.None?
  {
    var s1 := ProcessBatch(gb, batch);
    var d := DrainBatch(gb.peak, batch.intervals, batch.now);
    RedrainFromResultTime(SentinelRRP, gb.peak.time, batch.intervals, batch.now);
    assert s1.bot.peak == Peak(SentinelRRP, d.time);
    assert DrainBatch(s1.bot.peak, batch.intervals, batch.now) == d;
    SecondDecisionIsSilent(gb.regionString, d, gb.tootState);
  }

  /** A batch with no surviving price above the sentinel (for example one
      holding only ACTUAL records) toots exactly when the last tooted price
      was interesting, and then it cancels that earlier peak. */
  lemma PeaklessBatchCancelsInterestingPeak(gb: GridBot, batch: Batch)
    requires Idle(gb)
    requires forall j :: 0 <= j < |batch.intervals| && Survives(batch.intervals[j], batch.now)
               ==> batch.intervals[j].rrp <= SentinelRRP
    ensures ProcessBatch(gb, batch).toot.Some? <==> gb.tootState.lastTootedPeakRRP > InterestingPeakRRP
    ensures ProcessBatch(gb, batch).toot.Some? ==>
      ProcessBatch(gb, batch).toot.value
        == CancelledToot(gb.regionString, gb.tootState.lastTootedPeakRRP, gb.tootState.lastTootedPeakTime)
  {
    DrainBatchWithoutHigherSurvivor(gb.peak, batch.intervals, batch.now);
  }

  /** A freshly built bot never toots about a batch whose records are all
      non-forecasts, however high their prices. */
  lemma FreshBotIgnoresNonForecasts(cfg: GridBotCfg, batch: Batch)
    requires NewGridBot(cfg).Success?
    requires forall j :: 0 <= j < |batch.intervals| ==> batch.intervals[j].periodType != ForecastPeriod
    ensures ProcessBatch(NewGridBot(cfg).value, batch).toot.None?
  {
    PeaklessBatchCancelsInterestingPeak(NewGridBot(cfg).value, batch);
  }

  /** The intended reading of a batch in which no forecast survives: a peak
      still at the sentinel means "no peak", so nothing is decided and the
      announced state stays. Every other batch is processed as written. */
  function ProcessBatchIgnoringPeakless(gb: GridBot, batch: Batch): (r: Step)
    ensures Idle(r.bot)
    ensures r.bot.cfg == gb.cfg && r.bot.regionString == gb.regionString
    ensures r.toot.None? ==> r.bot.tootState == gb.tootState
    ensures r.toot.Some? ==> DrainBatch(gb.peak, batch.intervals, batch.now).rrp != SentinelRRP
  {
    var peak := DrainBatch(gb.peak, batch.intervals, batch.now);
    if peak.rrp == SentinelRRP then Step(ResetIntervalChannel(gb.(peak := peak)), None)
    else ProcessBatch(gb, batch)
  }

  /** With the sentinel read as "no peak", a batch without a surviving price
      above the sentinel never toots and leaves the announced state alone,
      whatever was announced before. */
  lemma PeaklessBatchIsIgnored(gb: GridBot, batch: Batch)
    requires Idle(gb)
    requires forall j :: 0 <= j < |batch.intervals| && Survives(batch.intervals[j], batch.now)
               ==> batch.intervals[j].rrp <= SentinelRRP
    ensures ProcessBatchIgnoringPeakless(gb, batch).toot.None?
    ensures ProcessBatchIgnoringPeakless(gb, batch).bot.tootState == gb.tootState
  {
    DrainBatchWithoutHigherSurvivor(gb.peak, batch.intervals, batch.now);
  }

  /** On every batch with a surviving price above the sentinel the corrected
      step is the step as written. */
  lemma IgnoringPeaklessAgreesOnRealPeaks(gb: GridBot, batch: Batch, k: int)
    requires Idle(gb)
    requires 0 <= k < |batch.intervals| && Survives(batch.intervals[k], batch.now)
    requires batch.intervals[k].rrp > SentinelRRP
    ensures ProcessBatchIgnoringPeakless(gb, batch) == ProcessBatch(gb, batch)
  {
  }
}
