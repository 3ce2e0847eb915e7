# Beacon calibration core of AirLocatorSwift, in Dafny

AirLocatorSwift calibrates an iBeacon's *measured power*: the phone ranges one beacon
region for a 20-second dwell, collects the RSSI values reported in each ranging callback,
and reduces them to one integer. `CalibrationCalculator` is that core. It is a small state
machine (`calibrating`, `rangedBeacons`, `percentComplete`, `progressHandler`) with four
operations: start, batch arrival, cancel and timer expiry. The timer expiry runs a
reduction. The reduction collects the readings of batches that saw at most one beacon and
flags batches that saw several. It sorts the readings ascending, keeps the window
`[c/10, c/10 + 8c/10)` of the `c` sorted readings and averages it, truncating toward zero.
For example, 15 readings keep sorted indices 1 to 12, dropping one at the bottom and
two at the top. It reports one of four error codes: 1 more than one beacon, 2 cancelled, 3 no beacon,
4 already in progress.

Files:
- `wrappers.dfy`: `Option`, for the source's optionals.
- `sorting.dfy`: the ascending sort of the readings, and the proof that the sorted
  permutation of a multiset of readings is unique.
- `reduction.dfy`: the reduction, first as pure functions (`Collected`, `HasMulti`,
  `Window`, `Mean`, `TrimmedPower`, `FinishOutcome`) with lemmas, then as the loop method
  `ReduceBatches`, proved equal to `FinishOutcome`.
- `calculator.dfy`: the class `CalibrationCalculator`. Each lock-protected method is one
  atomic method. Ghost logs record every completion-handler and progress-handler call, and
  ghost counters account for every session. There are also two client scenarios.

Points where the code's behaviour is easy to misread, kept as written:
- A batch is appended even when no calibration is running.
- The scan does not stop at a multi-beacon batch. Readings from single-reading batches
  before and after it are still collected and averaged, so code 1 comes with a computed
  measuredPower.
- "No beacon" (code 3) overrides code 1.
- The mean is truncated toward zero (`integerValue`), not rounded.
- There is no fall-back to the full set for small counts. With one reading the window is
  empty.
- The "already in progress" answer goes to the completion handler fixed at construction.
  That is the same handler that later receives the running session's own completion.
- The completion handler is never cleared. `percentComplete` is reset only at start, and
  its growth is not capped at 1.

## Model

| member | source | states |
|---|---|---|
| `Sorting.Sort` | AirLocatorSwift/CalibrationCalculator.swift:144-145 | the sorted readings are exactly as many as the readings put in; that they are ascending and a permutation is `Sorting.SortSorted` |
| `Sorting.SortSorted` | AirLocatorSwift/CalibrationCalculator.swift:144-145 | the sorted readings are ascending and are a permutation of the readings put in |
| `Sorting.SortedPermutationUnique` | AirLocatorSwift/CalibrationCalculator.swift:144-145 | two ascending sequences with the same readings are equal, so the sorted order is fully determined by the readings |
| `Sorting.SortOrderIndependent` | AirLocatorSwift/CalibrationCalculator.swift:144-145 | sorting gives the same sequence for any arrival order of the same readings |
| `Reduction.Usable` | AirLocatorSwift/CalibrationCalculator.swift:120-126 | one batch adds at most one reading, and it adds the whole batch exactly when the batch saw at most one beacon |
| `Reduction.Collected` | AirLocatorSwift/CalibrationCalculator.swift:119-136 | the enumeration collects at most one reading per batch |
| `Reduction.HasMulti` | AirLocatorSwift/CalibrationCalculator.swift:120-123 | the multi-beacon flag is set exactly when some batch that saw a beacon contributes nothing to the collected readings |
| `Reduction.MultiBatchSkipped` | AirLocatorSwift/CalibrationCalculator.swift:119-136 | a batch with two or more readings sets the multi-beacon flag and contributes nothing; the batches before and after it are collected as if it were absent (the loop never breaks) |
| `Reduction.SingleBatchCollected` | AirLocatorSwift/CalibrationCalculator.swift:124-126 | a batch with one reading contributes exactly that reading, at its place in arrival order |
| `Reduction.EmptyBatchSkipped` | AirLocatorSwift/CalibrationCalculator.swift:124-126 | an empty batch contributes nothing |
| `Reduction.CollectedMembers` | AirLocatorSwift/CalibrationCalculator.swift:119-136 | a value is among the collected readings if and only if some batch consisted of exactly that one reading |
| `Reduction.CollectedPermutation` | AirLocatorSwift/CalibrationCalculator.swift:129-136 | reordering the batches permutes the collected readings and does not change them as a multiset |
| `Reduction.HasMultiPermutation` | AirLocatorSwift/CalibrationCalculator.swift:119-123 | whether some batch saw several beacons does not depend on the order of the batches |
| `Reduction.Window` | AirLocatorSwift/CalibrationCalculator.swift:143-147 | the kept range `(c/10, 8c/10)` lies within the `c` readings, is non-empty from two readings on, starts at the floor of 10% of `c`, and drops as many readings at the top as at the bottom or up to two more |
| `Reduction.Mean` | AirLocatorSwift/CalibrationCalculator.swift:149 | the truncated average lies between the least and the greatest of the values averaged |
| `Reduction.TruncDivBounds` | AirLocatorSwift/CalibrationCalculator.swift:149 | the quotient is truncated toward zero: for a non-negative sum it is the floor, for a negative sum the ceiling |
| `Reduction.MeanBounds` | AirLocatorSwift/CalibrationCalculator.swift:149 | the truncated mean (the body of `Mean`) of a non-empty window lies between any lower and upper bound of its values |
| `Reduction.KeptMeanBounds` | AirLocatorSwift/CalibrationCalculator.swift:146-149 | for ascending readings, the mean of the kept window lies between the window's first and last element |
| `Reduction.TrimmedPower` | AirLocatorSwift/CalibrationCalculator.swift:143-149 | from two readings on, measuredPower lies between some two of the collected readings |
| `Reduction.TrimmedPowerBounds` | AirLocatorSwift/CalibrationCalculator.swift:143-149 | from two readings on, measuredPower lies between the first and the last kept sorted reading |
| `Reduction.TrimmedPowerOrderIndependent` | AirLocatorSwift/CalibrationCalculator.swift:143-149 | measuredPower depends only on the multiset of collected readings, not on their arrival order |
| `Reduction.FinishOutcome` | AirLocatorSwift/CalibrationCalculator.swift:110-151 | code 2 exactly when not calibrating; code 3 exactly when calibrating and no reading was collected, overriding code 1; code 1 exactly when some batch saw several beacons and readings were collected; no error exactly when every batch saw at most one beacon and some reading was collected; measuredPower 0 for codes 2 and 3, the trimmed mean otherwise |
| `Reduction.FinishOutcomeOrderIndependent` | AirLocatorSwift/CalibrationCalculator.swift:110-151 | the completion of a finish does not depend on the order in which the batches arrived |
| `Reduction.ReduceBatches` | AirLocatorSwift/CalibrationCalculator.swift:110-151 | the dispatched block's loop over the batches, with its mutable error and `allBeacons`, computes exactly `FinishOutcome` |
| `Calculator.CalibrationCalculator.constructor` | AirLocatorSwift/CalibrationCalculator.swift:19-34 | a new calculator keeps the given completion handler, is idle, has no batches, zero progress and no progress handler, and has reported nothing |
| `Calculator.CalibrationCalculator.DidRangeBeacons` | AirLocatorSwift/CalibrationCalculator.swift:36-52 | the batch is appended at the end and earlier batches are unchanged, whether or not calibrating; progress grows by one tick of 1/20, and is reported, only when a progress handler is set, so it never decreases; nothing else changes |
| `Calculator.CalibrationCalculator.PerformCalibration` | AirLocatorSwift/CalibrationCalculator.swift:54-83 | when idle: calibrating, batches emptied, progress 0, the given handler stored, no completion; when calibrating: no field changes and exactly one completion (0, code 4) is emitted |
| `Calculator.CalibrationCalculator.TimerElapsed` | AirLocatorSwift/CalibrationCalculator.swift:98-166 | exactly one completion is emitted and it is `FinishOutcome` of the state before; afterwards not calibrating, no batches, no progress handler, progress kept; the session and completion accounting (`Valid`) holds |
| `Calculator.CalibrationCalculator.CancelCalibration` | AirLocatorSwift/CalibrationCalculator.swift:85-96 | a no-op unless calibrating; otherwise ends the session at once with exactly one completion (0, code 2), whatever was collected |
| `Calculator.RedundantStartScenario` | AirLocatorSwift/CalibrationCalculator.swift:71-78 | a second start during a session gets (0, code 4); the session's own completion is still that of all its batches; the completion handler is called exactly twice |
| `Calculator.CancelScenario` | AirLocatorSwift/CalibrationCalculator.swift:85-92 | a cancel after any batches yields (0, code 2); a second cancel yields nothing; progress reached one tick per batch; the completion handler is called exactly once |

## Left out

- CoreLocation: the location manager, the beacon region, and starting and stopping ranging are not modelled. A beacon is reduced to its integer RSSI, and a ranging callback to the batch of RSSI values it reports.
- The run-loop timer is not modelled. Its expiry is the method `TimerElapsed`, which may be called while the timer is armed (ghost `timerArmed`). `timer.fire()` in cancel is a direct call.
- Locks and dispatch queues are not modelled. Each locked method is one atomic step. The progress update that runs on the main queue outside the lock is folded into `DidRangeBeacons`. The completion that the finishing block dispatches is folded into `TimerElapsed`. Interleavings between these steps are therefore not captured.
- Floating point: `percentComplete` is an integer count of 1/20 steps. The window bounds `Int(c * 0.1)` and `Int(c - 2 * c * 0.1)` are taken in exact arithmetic as `c/10` and `8c/10`. Double rounding is not modelled.
- NSError domain and user-info strings: only the integer code is kept.
- Handlers: closures are not modelled. A handler is an identity. Every completion goes to the one completion handler fixed at construction (a constant field), and the `completions` log stands for its calls.
- Reduction.TrimmedPower: with exactly one collected reading the kept window is empty. Foundation's `@avg` on an empty array is not part of this model, so the model yields 0 there and no lemma states anything about that case.
- The success-path trap: the completion call at line 154 force-unwraps the error, which is nil when the reduction succeeds, so in the source a successful calibration traps instead of delivering its value. The model delivers the error as an `Option` and keeps the computed value.
- Sorting.Sort: its own contract states only the length of the result, because ascending order and permutation in every caller's context made the proofs too slow; both are proved once, in `Sorting.SortSorted`.
- Sorting: the in-place `sortUsingDescriptors` library call is modelled by a pure insertion-sort function. Only its result matters.
