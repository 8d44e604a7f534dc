# gridbot peak tracking and toot decisions, in Dafny

This project models the decision core of the AEMO "gridbot": one bot per
National Electricity Market region reads batches of half-hourly price
intervals, reduces each batch to its price peak, and decides whether that
peak deserves a toot (a new peak, a downgrade of an earlier peak, or the
cancellation of an averted one). The model is functional: intervals, the
running peak and the last-tooted state are immutable records; the decision
is a pure function; the bot's main loop is a step function iterated over a
sequence of batches.

Files:

- `wrappers.dfy` — `Option` and `Result`.
- `regions.dfy` — module `Regions`: the five supported region identifiers and
  their display names.
- `peak_tracker.dfy` — module `PeakTracker`: intervals, the forecast and
  eight-hour horizon filters, and the reduction of a batch to its peak.
- `decision.dfy` — module `Decision`: the thresholds, float-tolerant
  equality, toot kinds, and `ConsiderPostingToot`.
- `gridbot.dfy` — module `GridBot`: bot construction with region validation
  and the batch loop.
- `scenarios.dfy` — module `Scenarios`: the repository's GridBot tests
  replayed on the model.

Representation choices:

- Prices are `real`. They stand for the source's `float64` RRP values in
  dollars per MWh. Float equality becomes `|a - b| < 1/100000000` on reals.
- Times are `int` minutes since an arbitrary epoch. Go's zero `time.Time`
  is `ZeroTime` (0).
- "Now" is a parameter of each batch. The scenarios put it at a fixed
  instant far after `ZeroTime`, as a real clock is far after Go's zero
  time.
- A toot is a datatype carrying its kind, the region's display name, the
  price or prices, and the time. It is not a rendered string.
- Dispatch is outside the step function. `ProcessBatch` returns the chosen
  toot together with the already updated state. No dispatch outcome can
  roll that state back.

Behaviours of the code worth knowing:

- A batch in which no forecast survives the filters (for example one
  holding only ACTUAL records) leaves the peak at the −20000 sentinel. It
  also keeps the previous batch's peak time, because the reset touches only
  the price. The decision then treats the sentinel as a real low price. If
  the last tooted price was above 500, the bot toots a cancellation of
  that peak (`GridBot.PeaklessBatchCancelsInterestingPeak`). The program
  means non-forecasts to be ignored: the comment at gridbot.go:216 says
  data that isn't a forecast is ignored, and the test at
  gridbot_test.go:113-117 adds an ACTUAL record to make sure it is not
  tooted. That holds only while the last tooted price is at most 500, for
  instance for a fresh bot (`GridBot.FreshBotIgnoresNonForecasts`). See
  "## Findings".
- Dampening comes before cancellation. A drop from above 500 to below 500
  by less than 50, at the same peak time, is not cancelled (for example
  520 to 499).
- A peak of exactly 500 never toots, even when an interesting peak came
  before it. The cancellation needs a price strictly below 500
  (`Decision.ThresholdPeakIsSilent`).

## Model

| member | source | states |
|---|---|---|
| Regions.RegionIDToRegionString | gridbot.go:85-100 | Succeeds exactly for QLD1, NSW1, SA1, TAS1 and VIC1 with a non-empty name; anything else is the "unknown region ID" error |
| Regions.UnknownRegionError | gridbot.go:98 | The lookup error text ends with the offending region identifier |
| Regions.LookupMatchesRegistry | gridbot.go:85-100 | The lookup agrees, for every identifier, with the reference table of the five regions and their names |
| Regions.DisplayNamesAreDistinct | gridbot.go:85-100 | Two different supported regions never share a display name |
| PeakTracker.ProcessInterval | gridbot.go:215-229 | A non-FORECAST interval, or one settling after now + 8 h, leaves the peak unchanged; otherwise the peak price becomes the larger of the two, and only a strictly higher price replaces the peak |
| PeakTracker.SurvivalIgnoresPrice | gridbot.go:217-223 | Whether an interval takes part never depends on its price, so an ACTUAL record is ignored at any price |
| PeakTracker.SurvivalIsMonotoneInNow | gridbot.go:220-223 | A forecast within eight hours of now stays within the horizon at any later now |
| PeakTracker.DrainBatch | gridbot.go:165-168 | Folding a batch never lowers the start price and ends at or above every surviving price |
| PeakTracker.DrainBatchIsBatchPeak | gridbot.go:225-228 | The fold ends at the start peak, or at the first surviving interval that beats the start and every earlier survivor; either way it bounds every surviving price |
| PeakTracker.BatchPeakIsUnique | gridbot.go:225-228 | At most one peak satisfies that description, so ties keep the earliest interval |
| PeakTracker.DrainBatchCharacterization | gridbot.go:215-229 | A peak satisfies the declarative description if and only if it is what the fold computes |
| PeakTracker.DrainBatchWithoutHigherSurvivor | gridbot.go:217-228 | If no surviving interval beats the start price, the fold returns the start untouched, whatever the filtered records hold |
| PeakTracker.RedrainFromResultTime | gridbot.go:157-160 | Restarting from the same price at the previous result's time gives the same peak, so the carried-over peak time shows only when nothing survives |
| PeakTracker.DrainChannel | gridbot.go:165-168 | Reading the batch one interval at a time yields the batch peak of the declarative description |
| Decision.ConsiderPostingToot | gridbot.go:174-213 | No toot leaves the state untouched; a toot names the region, is never about an already tooted or dampened peak, and becomes the last toot together with the new peak's price and time |
| Decision.FloatEquals | gridbot.go:81-83 | Equal prices are float-equal, and float-equal prices are always within the 50 dampening delta of each other |
| Decision.FloatEqualsIsSymmetric | gridbot.go:81-83 | Float equality does not depend on argument order |
| Decision.AlreadyTooted | gridbot.go:176-183 | The last tooted peak itself counts as already tooted, and an already tooted peak is always an uninteresting change, so the guard at line 176 is subsumed by the one at line 181 |
| Decision.UninterestingChange | gridbot.go:181 | A peak at a new time is never dampened, whatever its price; the last tooted peak itself is dampened |
| Decision.AlreadyTootedIsSilent | gridbot.go:176-178 | A peak equal to the last tooted one within 1e-8, at the same time, yields no toot and no state change |
| Decision.SecondDecisionIsSilent | gridbot.go:205-206 | Deciding on the same peak twice in a row toots at most once, and the second decision changes nothing |
| Decision.SmallChangeIsSilent | gridbot.go:181-183 | At an unchanged peak time a price change strictly between -50 and 50 yields no toot and no state change |
| Decision.CancellationQuotesPreviousPeak | gridbot.go:186-189 | An undampened fall from above 500 to below 500 yields a cancellation quoting the previous price and time, whatever the new price; the new price and time become the last tooted ones |
| Decision.CancellationIsNotRepeated | gridbot.go:186-201 | After a cancellation, no peak of at most 500 toots again |
| Decision.EscalationTootsNewPeak | gridbot.go:190-194 | Corollary: a peak above 500 and at least 50 above the last tooted price, at any time, yields a new-peak toot for that price and time |
| Decision.HigherInterestingPeakIsNewPeak | gridbot.go:190-194 | An undampened peak above 500 and above the last tooted price, however small the rise, yields a new-peak toot at its own price and time |
| Decision.LowerInterestingPeakIsDowngrade | gridbot.go:195-198 | An undampened peak above 500 but not above the last tooted price yields a downgrade quoting the old and the new price at the new time |
| Decision.ThresholdPeakIsSilent | gridbot.go:186-201 | A peak of exactly 500 never toots and changes nothing |
| Decision.TootIsDueExactly | gridbot.go:174-201 | A toot is chosen if and only if the change is not dampened and the peak is above 500 or cancels a last tooted price above 500 (`TootIsDue`) |
| Decision.InitialTootStateIsCoherent | gridbot.go:26-28 | The zero-valued announced state of a new bot is coherent |
| Decision.DecisionPreservesCoherence | gridbot.go:205-207 | Every decision keeps the last toot consistent with the last tooted price and time |
| GridBot.ResetIntervalChannel | gridbot.go:157-160 | The reset puts the peak price back to -20000 and changes nothing else, not even the peak time |
| GridBot.NewGridBot | gridbot.go:102-113 | A bot is built exactly for the five supported regions, with the region's name, zero announced state and the sentinel peak price; any other region gives the conversion error |
| GridBot.BadRegionError | gridbot.go:106 | The construction error ends with the lookup error for the refused identifier |
| GridBot.ProcessBatch | gridbot.go:165-170 | After a batch the bot is idle again with the batch peak's time; it toots exactly when a toot is due for the drained peak; below 500 the toot cancels the last tooted price and time, above 500 it is a new peak at the drained price and time when that beats the last tooted price and otherwise a downgrade quoting both; without a toot the announced state is unchanged; with one the drained peak's price and time and the toot are recorded before dispatch |
| GridBot.Mainloop | gridbot.go:162-172 | A run makes exactly one decision per batch and leaves the bot idle and its region unchanged |
| GridBot.MainloopDecidesOncePerBatch | gridbot.go:164-171 | The decision of batch k is made once, after all of batch k, from the state the earlier batches left |
| GridBot.MainloopConcatenates | gridbot.go:164-171 | Running two stretches of batches one after the other equals running them together |
| GridBot.MainloopPreservesCoherence | gridbot.go:164-171 | Over any run the last toot stays consistent with the last tooted price and time |
| GridBot.SameBatchTwiceTootsOnce | gridbot.go:157-178 | The same batch sent twice in a row never toots the second time |
| GridBot.PeaklessBatchCancelsInterestingPeak | gridbot.go:186-189 | A batch with no surviving price above the sentinel toots if and only if the last tooted price exceeds 500, and then it cancels that peak |
| GridBot.FreshBotIgnoresNonForecasts | gridbot_test.go:113-126 | A freshly built bot never toots about a batch of only non-forecast records, however high their prices |
| GridBot.ProcessBatchIgnoringPeakless | gridbot.go:157-170 | The corrected step: a toot is only ever about a batch whose peak moved off the sentinel, and without a toot the announced state stays |
| GridBot.PeaklessBatchIsIgnored | gridbot.go:216-223 | With the sentinel read as no peak, a batch without a surviving price above it never toots and keeps the announced state, from any idle bot |
| GridBot.IgnoringPeaklessAgreesOnRealPeaks | gridbot.go:165-170 | The corrected step equals the step as written on every batch with a surviving price above the sentinel |
| Scenarios.PeakBatchPeak | gridbot_test.go:154-156 | The three-interval test batch peaks at its middle forecast |
| Scenarios.BadRegionIsRefused | gridbot_test.go:82-90 | NT1 is refused with the conversion error |
| Scenarios.BasicIntervalScenario | gridbot_test.go:92-133 | A forecast of 501 an hour ahead is tooted as a new peak; an ACTUAL record at 1002 is ignored |
| Scenarios.PeakScenarioStep1 | gridbot_test.go:151-164 | A first peak of 1500 is tooted as a new peak |
| Scenarios.PeakScenarioStep2 | gridbot_test.go:169-179 | A fall to 499 cancels the 1500 peak and records 499 |
| Scenarios.PeakScenarioStep3 | gridbot_test.go:184-190 | A return to 1500 is tooted as a new peak |
| Scenarios.PeakScenarioStep4 | gridbot_test.go:192-198 | A fall to 1000 is a downgrade quoting 1500 and 1000 |
| Scenarios.PeakScenarioStep5 | gridbot_test.go:200-212 | A rise to 1010 is dampened: no toot |
| Scenarios.BasicPeakScenario | gridbot_test.go:134-212 | The whole five-batch run produces new peak, cancellation, new peak, downgrade, nothing |
| Scenarios.PeaklessBatchRetootsAnnouncedPeak | gridbot.go:186-194 | As written, after a 1500 peak two hours after now an empty batch cancels it and the next batch holding it announces it again |
| Scenarios.PeaklessBatchIgnoredKeepsAnnouncedPeak | gridbot.go:176-178 | With the correction the same two batches toot nothing |

## Findings

| source | as written | input that shows it | evidently intended | confidence | as-written member | corrected member |
|---|---|---|---|---|---|---|
| gridbot.go:186-189 | A batch with no surviving forecast keeps the peak at the −20000 sentinel, and the decision treats it as a real price below 500, cancelling an announced peak | Last toot 1500 at minute 120; an empty batch toots a cancellation of 1500 at 120; the next batch with 1500 at 120 toots a new peak again | Non-forecasts and empty batches are ignored (comment at gridbot.go:216, test at gridbot_test.go:113-117), so a peak still at the sentinel means "no peak" | medium, not executed | Scenarios.PeaklessBatchRetootsAnnouncedPeak | GridBot.ProcessBatchIgnoringPeakless |

`GridBot.Mainloop` keeps the step as written, so the run-level lemmas
describe the program as it behaves. `GridBot.PeaklessBatchIsIgnored`
proves the intended property of the corrected step, and
`GridBot.IgnoringPeaklessAgreesOnRealPeaks` shows that the two steps
differ only on peakless batches.

## Left out

- Dispatch (`sendToot`, the Mastodon client, test mode, and reconnecting after a failed post) is external I/O. The model stops at the toot handed to dispatch.
- `BuildGridBots` (credential JSON parsing and the fallback to a single QLD1 bot) is configuration glue.
- Rendering of toots (`%.2f` dollars per kWh after dividing by 1000, and `15:04` local time) is text formatting. A toot is its kind and values.
- `SendTestToot`, `ListenForToots` and the intro toot are dispatch-only or empty.
- Goroutines and channels are replaced by a step over a list of batches. Closing the input channel is the end of a batch.
- The routing of a fetched report to the bots by region identifier is not part of this model. Nothing in the core files does that routing.
- The AEMO fetch, gzip handling and rate limiting, plot rendering, configuration loading, and `JSONTime.UnmarshalJSON` are left out. They are I/O or parsing plumbing.
- The `slog` logging (gridbot.go:163, 167, 203 and 211) is a side effect with no bearing on decisions or state, and is left out.
- Demand and generation fields of an interval are not used by the core and are left out.
- PeakTracker.ProcessInterval: the source reads the clock afresh for every interval. The model uses one "now" per batch.
- Decision.ConsiderPostingToot: prices are exact reals, so the model ignores float64 rounding in `peakRRP - lastTootedPeakRRP`.
