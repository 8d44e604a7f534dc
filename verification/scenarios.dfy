/** The scenarios of the repository's GridBot tests, replayed on the model.
    "Now" is one fixed instant far after `ZeroTime`, as the clock is far
    after Go's zero time; the tests place forecasts one, two and three hours
    after it. */
module Scenarios {
  import opened Wrappers
  import opened PeakTracker
  import opened Decision
  import opened GridBot

  const QldCfg: GridBotCfg := GridBotCfg("QLD1", true)

  const Now: Time := 28_000_000
  const H1: Time := Now + 60
  const H2: Time := Now + 120
  const H3: Time := Now + 180

  function Forecast(rrp: Price, time: Time): Interval {
    Interval(time, "QLD1", rrp, ForecastPeriod)
  }

  /** Three forecasts an hour apart around a peak of `rrp` two hours after now. */
  function PeakBatch(rrp: Price): Batch {
    Batch(Now, [Forecast(rrp / 2.0, H1), Forecast(rrp, H2), Forecast(rrp / 2.0, H3)])
  }

  /** The peak of a `PeakBatch` drained from the sentinel is its middle forecast. */
  lemma PeakBatchPeak(rrp: Price, t: Time)
    requires rrp > 0.0
    ensures DrainBatch(Peak(SentinelRRP, t), PeakBatch(rrp).intervals, Now) == Peak(rrp, H2)
  {
    var xs := PeakBatch(rrp).intervals;
    var start := Peak(SentinelRRP, t);
    assert xs[..2][..1] == xs[..1] && xs[..1][..0] == [];
    assert xs[..3] == xs;
    assert DrainBatch(start, xs[..1], Now) == Peak(rrp / 2.0, H1);
    assert DrainBatch(start, xs[..2], Now) == Peak(rrp, H2);
  }

  /** An unsupported region such as NT1 is refused. */
  lemma BadRegionIsRefused()
    ensures NewGridBot(GridBotCfg("NT1", true)) == Failure(BadRegionError("NT1"))
  {
  }

  /** A single interesting forecast is tooted; the ACTUAL record at twice the
      price an hour later is ignored. */
  lemma BasicIntervalScenario()
    ensures NewGridBot(QldCfg).Success?
    ensures
      var gb := NewGridBot(QldCfg).value;
      var batch := Batch(Now, [Forecast(501.0, H1), Interval(H2, "QLD1", 1002.0, "ACTUAL")]);
      var s := ProcessBatch(gb, batch);
      && gb.regionString == "Queensland"
      && s.toot == Some(PeakToot("Queensland", 501.0, H1))
      && s.bot.tootState.lastTootedPeakRRP == 501.0
      && s.bot.tootState.lastTootedPeakTime == H1
  {
    var gb := NewGridBot(QldCfg).value;
    var xs := [Forecast(501.0, H1), Interval(H2, "QLD1", 1002.0, "ACTUAL")];
    assert xs[..1][..0] == [] && xs[..2] == xs;
    assert DrainBatch(gb.peak, xs[..1], Now) == Peak(501.0, H1);
    assert DrainBatch(gb.peak, xs, Now) == Peak(501.0, H1);
  }

  /** An idle Queensland bot in a given announced state. */
  function QldBot(st: TootState): GridBot {
    GridBot(QldCfg, "Queensland", st, Peak(SentinelRRP, H2))
  }

  /** The bot after each batch of the peak scenario, and the toot it chose. */
  function After(n: nat): (r: Step)
    requires 1 <= n <= 5
  {
    var toot :=
      if n == 1 || n == 3 then Some(PeakToot("Queensland", 1500.0, H2))
      else if n == 2 then Some(CancelledToot("Queensland", 1500.0, H2))
      else if n == 4 then Some(DowngradeToot("Queensland", 1500.0, 1000.0, H2))
      else None;
    var price := if n == 1 || n == 3 then 1500.0 else if n == 2 then 499.0 else 1000.0;
    var last := if n == 5 then After(4).toot else toot;
    Step(QldBot(TootState(price, H2, last)), toot)
  }

  lemma PeakScenarioStep1()
    ensures NewGridBot(QldCfg).Success?
    ensures ProcessBatch(NewGridBot(QldCfg).value, PeakBatch(1500.0)) == After(1)
  {
    PeakBatchPeak(1500.0, ZeroTime);
  }

  lemma PeakScenarioStep2()
    ensures ProcessBatch(After(1).bot, PeakBatch(499.0)) == After(2)
  {
    PeakBatchPeak(499.0, H2);
  }

  lemma PeakScenarioStep3()
    ensures ProcessBatch(After(2).bot, PeakBatch(1500.0)) == After(3)
  {
    PeakBatchPeak(1500.0, H2);
  }

  lemma PeakScenarioStep4()
    ensures ProcessBatch(After(3).bot, PeakBatch(1000.0)) == After(4)
  {
    PeakBatchPeak(1000.0, H2);
  }

  lemma PeakScenarioStep5()
    ensures ProcessBatch(After(4).bot, PeakBatch(1010.0)) == After(5)
  {
    PeakBatchPeak(1010.0, H2);
  }

  /** Peak, cancellation, restored peak, downgrade, then a marginal rise that
      is dampened. */
  lemma BasicPeakScenario()
    ensures NewGridBot(QldCfg).Success?
    ensures
      Mainloop(NewGridBot(QldCfg).value,
        [PeakBatch(1500.0), PeakBatch(499.0), PeakBatch(1500.0), PeakBatch(1000.0), PeakBatch(1010.0)]).toots
      == [ Some(PeakToot("Queensland", 1500.0, H2)),
           Some(CancelledToot("Queensland", 1500.0, H2)),
           Some(PeakToot("Queensland", 1500.0, H2)),
           Some(DowngradeToot("Queensland", 1500.0, 1000.0, H2)),
           None ]
  {
    var gb := NewGridBot(QldCfg).value;
    PeakScenarioStep1();
    PeakScenarioStep2();
    PeakScenarioStep3();
    PeakScenarioStep4();
    PeakScenarioStep5();
    var bs := [PeakBatch(1500.0), PeakBatch(499.0), PeakBatch(1500.0), PeakBatch(1000.0), PeakBatch(1010.0)];
    assert bs[..1][..0] == [];
    assert bs[..2][..1] == bs[..1];
    assert bs[..3][..2] == bs[..2];
    assert bs[..4][..3] == bs[..3];
    assert bs[..5][..4] == bs[..4];
    assert bs[..5] == bs;
    assert Mainloop(gb, bs[..1]) == Run(After(1).bot, [After(1).toot]);
    assert Mainloop(gb, bs[..2]) == Run(After(2).bot, [After(1).toot, After(2).toot]);
    assert Mainloop(gb, bs[..3]) == Run(After(3).bot, [After(1).toot, After(2).toot, After(3).toot]);
    assert Mainloop(gb, bs[..4]) == Run(After(4).bot, [After(1).toot, After(2).toot, After(3).toot, After(4).toot]);
  }

  /** The bot after tooting a 1500 peak two hours after now. */
  function AnnouncedBot(): GridBot {
    QldBot(TootState(1500.0, H2, Some(PeakToot("Queensland", 1500.0, H2))))
  }

  /** As written, an empty batch cancels the announced 1500 peak, and the next
      batch holding that same peak announces it again. */
  lemma PeaklessBatchRetootsAnnouncedPeak()
    ensures
      var s1 := ProcessBatch(AnnouncedBot(), Batch(Now, []));
      var s2 := ProcessBatch(s1.bot, Batch(Now, [Forecast(1500.0, H2)]));
      && s1.toot == Some(CancelledToot("Queensland", 1500.0, H2))
      && s2.toot == Some(PeakToot("Queensland", 1500.0, H2))
  {
    var s1 := ProcessBatch(AnnouncedBot(), Batch(Now, []));
    var xs := [Forecast(1500.0, H2)];
    assert xs[..0] == [];
    assert DrainBatch(s1.bot.peak, xs, Now) == Peak(1500.0, H2);
  }

  /** With the sentinel read as "no peak", the same two batches toot nothing:
      the empty batch is ignored and the peak was already announced. */
  lemma PeaklessBatchIgnoredKeepsAnnouncedPeak()
    ensures
      var s1 := ProcessBatchIgnoringPeakless(AnnouncedBot(), Batch(Now, []));
      var s2 := ProcessBatchIgnoringPeakless(s1.bot, Batch(Now, [Forecast(1500.0, H2)]));
      && s1.toot == None
      && s2.toot == None
  {
    var s1 := ProcessBatchIgnoringPeakless(AnnouncedBot(), Batch(Now, []));
    var xs := [Forecast(1500.0, H2)];
    assert xs[..0] == [];
    assert DrainBatch(s1.bot.peak, xs, Now) == Peak(1500.0, H2);
  }
}
