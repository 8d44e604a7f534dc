/** The decision whether a batch's peak is worth a toot, and which kind
    (gridbot.go, `considerPostingToot` and `FloatEquals`).

    A toot is modelled by its kind and the values its template is filled
    with (region display name, prices in dollars per MWh, settlement time);
    the rendering of those values into text is not part of this model. */
module Decision {
  import opened Wrappers
  import opened PeakTracker

  /** A peak above this price is worth announcing at all. */
  const InterestingPeakRRP: Price := 500.0

  /** Below this change, at an unchanged peak time, a peak is not re-announced. */
  const UninterestingDeltaRRP: Price := 50.0

  /** Tolerance of the source's floating-point equality. */
  const FloatEpsilon: Price := 0.00000001

  function Abs(x: real): (r: real)
    ensures r >= 0.0 && (r == x || r == -x)
  {
    if x < 0.0 then -x else x
  }

  /** Prices closer together than `FloatEpsilon` count as the same. */
  predicate FloatEquals(a: Price, b: Price)
    ensures a == b ==> FloatEquals(a, b)
    ensures FloatEquals(a, b) ==> a - b < UninterestingDeltaRRP && b - a < UninterestingDeltaRRP
  {
    Abs(a - b) < FloatEpsilon
  }

  /** Float-tolerant equality does not depend on the order of its arguments. */
  lemma FloatEqualsIsSymmetric(a: Price, b: Price)
    ensures FloatEquals(a, b) <==> FloatEquals(b, a)
  {
  }

  datatype Toot =
    | PeakToot(region: string, rrp: Price, time: Time)
    | DowngradeToot(region: string, oldRrp: Price, newRrp: Price, time: Time)
    | CancelledToot(region: string, oldRrp: Price, oldTime: Time)

  /** What a GridBot remembers about what it last announced. */
  datatype TootState = TootState(
    lastTootedPeakRRP: Price,
    lastTootedPeakTime: Time,
    lastToot: Option<Toot>)

  /** The announced state of a freshly built GridBot: Go's zero values. */
  const ZeroTime: Time := 0
  const InitialTootState: TootState := TootState(0.0, ZeroTime, None)

  /** The toot chosen for a batch (if any) and the state after choosing it. */
  datatype Decision = Decision(toot: Option<Toot>, state: TootState)

  /** The peak is, up to float tolerance, the one last tooted about. */
  predicate AlreadyTooted(peak: Peak, st: TootState)
    ensures peak == Peak(st.lastTootedPeakRRP, st.lastTootedPeakTime) ==> AlreadyTooted(peak, st)
    ensures AlreadyTooted(peak, st) ==> UninterestingChange(peak, st)
  {
    FloatEquals(st.lastTootedPeakRRP, peak.rrp) && st.lastTootedPeakTime == peak.time
  }

  /** The peak sits at the last tooted time and moved by less than the delta. */
  predicate UninterestingChange(peak: Peak, st: TootState)
    ensures peak.time != st.lastTootedPeakTime ==> !UninterestingChange(peak, st)
    ensures peak == Peak(st.lastTootedPeakRRP, st.lastTootedPeakTime) ==> UninterestingChange(peak, st)
  {
    Abs(peak.rrp - st.lastTootedPeakRRP) < UninterestingDeltaRRP && st.lastTootedPeakTime == peak.time
  }

  /** The guards of the source, checked in order: already tooted, too small a
      change, cancel, new peak or downgrade, otherwise nothing. A chosen toot
      becomes the last tooted state before it is handed to dispatch. */
  function ConsiderPostingToot(region: string, peak: Peak, st: TootState): (d: Decision)
    ensures d.toot.None? ==> d.state == st
    ensures d.toot.Some? ==> d.state == TootState(peak.rrp, peak.time, d.toot)
    ensures d.toot.Some? ==> !AlreadyTooted(peak, st) && !UninterestingChange(peak, st)
    ensures d.toot.Some? ==> d.toot.value.region == region
  {
    if AlreadyTooted(peak, st) then Decision(None, st)
    else if UninterestingChange(peak, st) then Decision(None, st)
    else
      var toot :=
        if peak.rrp < InterestingPeakRRP && st.lastTootedPeakRRP > InterestingPeakRRP then
          Some(CancelledToot(region, st.lastTootedPeakRRP, st.lastTootedPeakTime))
        else if peak.rrp > InterestingPeakRRP then
          if peak.rrp > st.lastTootedPeakRRP then Some(PeakToot(region, peak.rrp, peak.time))
          else Some(DowngradeToot(region, st.lastTootedPeakRRP, peak.rrp, peak.time))
        else None;
      if toot.None? then Decision(None, st)
      else Decision(toot, TootState(peak.rrp, peak.time, toot))
  }

  /** Idempotence: an already tooted peak produces nothing and changes nothing. */
  lemma AlreadyTootedIsSilent(region: string, peak: Peak, st: TootState)
    requires FloatEquals(st.lastTootedPeakRRP, peak.rrp)
    requires st.lastTootedPeakTime == peak.time
    ensures ConsiderPostingToot(region, peak, st) == Decision(None, st)
  {
  }

  /** Deciding twice on the same peak toots at most once, and the second
      decision leaves the state where the first put it. */
  lemma SecondDecisionIsSilent(region: string, peak: Peak, st: TootState)
    ensures
      var d1 := ConsiderPostingToot(region, peak, st);
      ConsiderPostingToot(region, peak, d1.state) == Decision(None, d1.state)
  {
  }

  /** Dampening: at an unchanged peak time a change smaller than the delta
      produces nothing and changes nothing. */
  lemma SmallChangeIsSilent(region: string, peak: Peak, st: TootState)
    requires st.lastTootedPeakTime == peak.time
    requires -UninterestingDeltaRRP < peak.rrp - st.lastTootedPeakRRP < UninterestingDeltaRRP
    ensures ConsiderPostingToot(region, peak, st) == Decision(None, st)
  {
  }

  /** Cancellation: a peak falling from above the threshold to below it, and
      not dampened, is announced as averted, quoting the previously tooted
      price and time whatever the new price is; the new, uninteresting price
      is remembered. */
  lemma CancellationQuotesPreviousPeak(region: string, peak: Peak, st: TootState)
    requires peak.rrp < InterestingPeakRRP < st.lastTootedPeakRRP
    requires !UninterestingChange(peak, st)
    ensures
      var d := ConsiderPostingToot(region, peak, st);
      && d.toot == Some(CancelledToot(region, st.lastTootedPeakRRP, st.lastTootedPeakTime))
      && d.state.lastTootedPeakRRP == peak.rrp
      && d.state.lastTootedPeakTime == peak.time
  {
  }

  /** After a cancellation no further uninteresting peak toots: the averted
      peak is cancelled exactly once. */
  lemma CancellationIsNotRepeated(region: string, p1: Peak, p2: Peak, st: TootState)
    requires ConsiderPostingToot(region, p1, st).toot.Some?
    requires ConsiderPostingToot(region, p1, st).toot.value.CancelledToot?
    requires p2.rrp <= InterestingPeakRRP
    ensures ConsiderPostingToot(region, p2, ConsiderPostingToot(region, p1, st).state).toot.None?
  {
  }

  /** New peak: an undampened interesting peak above the last tooted price is
      announced as a new peak at its own price and time, however small the
      rise (at a new peak time no delta applies). */
  lemma HigherInterestingPeakIsNewPeak(region: string, peak: Peak, st: TootState)
    requires InterestingPeakRRP < peak.rrp
    requires st.lastTootedPeakRRP < peak.rrp
    requires !UninterestingChange(peak, st)
    ensures ConsiderPostingToot(region, peak, st).toot == Some(PeakToot(region, peak.rrp, peak.time))
  {
  }

  /** Escalation: an interesting peak at least the delta above the last tooted
      price is announced as a new peak, whatever its time. */
  lemma EscalationTootsNewPeak(region: string, peak: Peak, st: TootState)
    requires peak.rrp > InterestingPeakRRP
    requires peak.rrp >= st.lastTootedPeakRRP + UninterestingDeltaRRP
    ensures ConsiderPostingToot(region, peak, st).toot == Some(PeakToot(region, peak.rrp, peak.time))
  {
    HigherInterestingPeakIsNewPeak(region, peak, st);
  }

  /** Downgrade: an interesting peak not above the last tooted price, and not
      dampened, is announced as a downgrade quoting both prices at the new
      peak's time. */
  lemma LowerInterestingPeakIsDowngrade(region: string, peak: Peak, st: TootState)
    requires InterestingPeakRRP < peak.rrp <= st.lastTootedPeakRRP
    requires !UninterestingChange(peak, st)
    ensures ConsiderPostingToot(region, peak, st).toot
         == Some(DowngradeToot(region, st.lastTootedPeakRRP, peak.rrp, peak.time))
  {
  }

  /** A peak of exactly the threshold never toots: it is neither interesting
      nor below the threshold, so even an interesting predecessor is not
      cancelled. */
  lemma ThresholdPeakIsSilent(region: string, peak: Peak, st: TootState)
    requires peak.rrp == InterestingPeakRRP
    ensures ConsiderPostingToot(region, peak, st) == Decision(None, st)
  {
  }

  /** A toot is due when the change is not dampened and the peak is either
      interesting or cancels an interesting predecessor. */
  predicate TootIsDue(peak: Peak, st: TootState) {
    && !UninterestingChange(peak, st)
    && (peak.rrp > InterestingPeakRRP
        || (peak.rrp < InterestingPeakRRP && st.lastTootedPeakRRP > InterestingPeakRRP))
  }

  /** The decision toots exactly when a toot is due. */
  lemma TootIsDueExactly(region: string, peak: Peak, st: TootState)
    ensures ConsiderPostingToot(region, peak, st).toot.Some? <==> TootIsDue(peak, st)
  {
  }

  /** The last toot agrees with the last tooted price and time, as every
      toot chosen by `ConsiderPostingToot` leaves them. */
  predicate Coherent(st: TootState) {
    match st.lastToot
    case None => true
    case Some(PeakToot(_, rrp, time)) =>
      rrp == st.lastTootedPeakRRP && time == st.lastTootedPeakTime && rrp > InterestingPeakRRP
    case Some(DowngradeToot(_, oldRrp, newRrp, time)) =>
      && newRrp == st.lastTootedPeakRRP && time == st.lastTootedPeakTime
      && InterestingPeakRRP < newRrp <= oldRrp
    case Some(CancelledToot(_, oldRrp, _)) =>
      st.lastTootedPeakRRP < InterestingPeakRRP < oldRrp
  }

  lemma InitialTootStateIsCoherent()
    ensures Coherent(InitialTootState)
  {
  }

  /** Every decision keeps the announced state coherent. */
  lemma DecisionPreservesCoherence(region: string, peak: Peak, st: TootState)
    requires Coherent(st)
    ensures Coherent(ConsiderPostingToot(region, peak, st).state)
  {
  }
}
