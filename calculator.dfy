/**
 * The calibration state machine of `CalibrationCalculator`.  Each lock-protected method
 * is one atomic method; the notifications the source dispatches to the main queue are
 * returned and appended to ghost logs, so that "exactly one completion per session" can
 * be stated as an invariant.  Handlers are closures in the source; here a progress
 * handler is known only by an identity chosen by its caller, and the completion handler
 * fixed at construction receives every entry of `completions`.
 */
module Calculator {
  import opened Wrappers
  import opened Reduction

  /** The identity of a progress handler closure. */
  type HandlerId = nat

  /** One call of the progress handler: which handler, and `percentComplete` as ticks of 1/20. */
  datatype ProgressReport = ProgressReport(handler: HandlerId, ticks: nat)

  class CalibrationCalculator {
    /** The completion handler given at construction; it is never replaced or cleared. */
    const completionHandler: HandlerId
    var calibrating: bool
    var rangedBeacons: seq<seq<int>>
    /**
     * `percentComplete`, counted in ticks of 1/20: the dwell lasts 20 seconds and one
     * ranging callback arrives per second.
     */
    var progressTicks: nat
    var progressHandler: Option<HandlerId>

    /** The dwell timer is scheduled and not yet fired or invalidated. */
    ghost var timerArmed: bool
    /** Every call of `completionHandler`, in order. */
    ghost var completions: seq<Completion>
    /** Every call of a progress handler, in order. */
    ghost var progressReports: seq<ProgressReport>
    ghost var sessionsStarted: nat
    ghost var sessionsFinished: nat
    ghost var startsRejected: nat

    /**
     * Every session that was started has finished exactly once or is still live (its
     * timer armed), and the completion handler was called once per finished session and
     * once per rejected start.
     */
    ghost predicate Accounted()
      reads this
    {
      sessionsStarted == sessionsFinished + (if timerArmed then 1 else 0) &&
      |completions| == sessionsFinished + startsRejected
    }

    /**
     * Between operations: a session is live exactly while `calibrating`, its progress
     * handler is set exactly then, and the progress made so far is one tick per batch
     * received in the session.
     */
    ghost predicate Valid()
      reads this
    {
      Accounted() &&
      timerArmed == calibrating &&
      (progressHandler.Some? <==> calibrating) &&
      (calibrating ==> progressTicks == |rangedBeacons|)
    }

    /** `init(region:completionHandler:)`: idle, nothing ranged, nothing reported. */
    constructor (handler: HandlerId)
      ensures completionHandler == handler
      ensures Valid()
      ensures !calibrating && rangedBeacons == [] && progressTicks == 0 && progressHandler == None
      ensures completions == [] && progressReports == []
      ensures sessionsStarted == 0 && startsRejected == 0
    {
      completionHandler := handler;
      calibrating := false;
      rangedBeacons := [];
      progressTicks := 0;
      progressHandler := None;
      timerArmed := false;
      completions := [];
      progressReports := [];
      sessionsStarted, sessionsFinished, startsRejected := 0, 0, 0;
    }

    /**
     * `locationManager(_:didRangeBeacons:inRegion:)`: the batch is appended whether or
     * not a calibration is running; progress moves one tick, and is reported, only when
     * a progress handler is registered.
     */
    method DidRangeBeacons(batch: seq<int>)
      requires Valid()
      modifies this
      ensures Valid()
      ensures rangedBeacons == old(rangedBeacons) + [batch]
      ensures calibrating == old(calibrating) && progressHandler == old(progressHandler)
      ensures progressTicks == old(progressTicks) + (if progressHandler.Some? then 1 else 0)
      ensures progressReports == old(progressReports) +
                (if progressHandler.Some? then [ProgressReport(progressHandler.value, progressTicks)] else [])
      ensures timerArmed == old(timerArmed) && completions == old(completions)
      ensures sessionsStarted == old(sessionsStarted) && sessionsFinished == old(sessionsFinished)
      ensures startsRejected == old(startsRejected)
    {
      rangedBeacons := rangedBeacons + [batch];
      if progressHandler.Some? {
        progressTicks := progressTicks + 1;
        progressReports := progressReports + [ProgressReport(progressHandler.value, progressTicks)];
      }
    }

    /**
     * `performCalibrationWithProgressHandler`: when idle, starts a session with an empty
     * window, zero progress, the given handler and an armed timer; when a session is
     * running, changes nothing and answers at once with measuredPower 0 and code 4.
     */
    method PerformCalibration(handler: HandlerId) returns (reply: Option<Completion>)
      requires Valid()
      modifies this
      ensures Valid()
      ensures !old(calibrating) ==>
                reply == None &&
                calibrating && rangedBeacons == [] && progressTicks == 0 &&
                progressHandler == Some(handler) &&
                completions == old(completions) &&
                sessionsStarted == old(sessionsStarted) + 1 && startsRejected == old(startsRejected)
      ensures old(calibrating) ==>
                reply == Some(Completion(0, Some(AlreadyInProgress))) &&
                calibrating && rangedBeacons == old(rangedBeacons) &&
                progressTicks == old(progressTicks) && progressHandler == old(progressHandler) &&
                completions == old(completions) + [reply.value] &&
                sessionsStarted == old(sessionsStarted) && startsRejected == old(startsRejected) + 1
      ensures progressReports == old(progressReports) && sessionsFinished == old(sessionsFinished)
    {
      if !calibrating {
        calibrating := true;
        rangedBeacons := [];
        progressTicks := 0;
        progressHandler := Some(handler);
        timerArmed := true;
        sessionsStarted := sessionsStarted + 1;
        reply := None;
      } else {
        reply := Some(Completion(0, Some(AlreadyInProgress)));
        completions := completions + [reply.value];
        startsRejected := startsRejected + 1;
      }
    }

    /**
     * `timerElapsed` and the block it dispatches: reduces the batches (or reports the
     * cancellation), calls the completion handler once, and ends the session.  Progress
     * is not reset.  It runs only while the timer is armed: at the natural end of the
     * dwell, or when `CancelCalibration` fires the timer early.
     */
    method TimerElapsed() returns (done: Completion)
      requires Accounted() && timerArmed
      modifies this
      ensures Valid()
      ensures done == FinishOutcome(old(calibrating), old(rangedBeacons))
      ensures completions == old(completions) + [done]
      ensures !calibrating && rangedBeacons == [] && progressHandler == None
      ensures progressTicks == old(progressTicks) && progressReports == old(progressReports)
      ensures sessionsStarted == old(sessionsStarted) && sessionsFinished == old(sessionsFinished) + 1
      ensures startsRejected == old(startsRejected)
    {
      var measuredPower, errorCode := ReduceBatches(calibrating, rangedBeacons);
      done := Completion(measuredPower, errorCode);
      completions := completions + [done];
      calibrating := false;
      rangedBeacons := [];
      progressHandler := None;
      timerArmed := false;
      sessionsFinished := sessionsFinished + 1;
    }

    /**
     * `cancelCalibration`: nothing happens unless a session is running; otherwise the
     * session is marked cancelled and the timer fired at once, so the single completion
     * of the session carries code 2 and measuredPower 0 whatever was collected.
     */
    method CancelCalibration() returns (done: Option<Completion>)
      requires Valid()
      modifies this
      ensures Valid()
      ensures !old(calibrating) ==>
                done == None && rangedBeacons == old(rangedBeacons) &&
                progressHandler == old(progressHandler) &&
                completions == old(completions) && sessionsFinished == old(sessionsFinished)
      ensures old(calibrating) ==>
                done == Some(Completion(0, Some(Cancelled))) &&
                rangedBeacons == [] && progressHandler == None &&
                completions == old(completions) + [done.value] &&
                sessionsFinished == old(sessionsFinished) + 1
      ensures !calibrating && progressTicks == old(progressTicks)
      ensures progressReports == old(progressReports)
      ensures sessionsStarted == old(sessionsStarted) && startsRejected == old(startsRejected)
    {
      done := None;
      if calibrating {
        calibrating := false;
        var c := TimerElapsed();
        done := Some(c);
      }
    }
  }

  /**
   * A second start during a session is answered with code 4 and leaves the session
   * alone: its own completion, at the end of the dwell, is that of the batches it
   * received, and the completion handler has been called exactly twice.
   */
  method RedundantStartScenario(first: HandlerId, second: HandlerId, batches: seq<seq<int>>)
    returns (reply: Option<Completion>, final: Completion, ghost calls: nat)
    ensures reply == Some(Completion(0, Some(AlreadyInProgress)))
    ensures final == FinishOutcome(true, batches)
    ensures calls == 2
  {
    var calculator := new CalibrationCalculator(0);
    var started := calculator.PerformCalibration(first);
    reply := calculator.PerformCalibration(second);
    var i := 0;
    while i < |batches|
      invariant 0 <= i <= |batches|
      invariant calculator.Valid() && calculator.calibrating
      invariant calculator.rangedBeacons == batches[..i]
      invariant calculator.progressHandler == Some(first)
      invariant calculator.completions == [reply.value]
    {
      assert batches[..i + 1] == batches[..i] + [batches[i]];
      calculator.DidRangeBeacons(batches[i]);
      i := i + 1;
    }
    assert batches[..i] == batches;
    final := calculator.TimerElapsed();
    calls := |calculator.completions|;
  }

  /**
   * Cancelling after any batches yields code 2, never a computed value; a second
   * cancel does nothing; and progress reached one tick per batch received.
   */
  method CancelScenario(handler: HandlerId, batches: seq<seq<int>>)
    returns (first: Option<Completion>, second: Option<Completion>, ticks: nat, ghost calls: nat)
    ensures first == Some(Completion(0, Some(Cancelled)))
    ensures second == None
    ensures ticks == |batches|
    ensures calls == 1
  {
    var calculator := new CalibrationCalculator(0);
    var started := calculator.PerformCalibration(handler);
    var i := 0;
    while i < |batches|
      invariant 0 <= i <= |batches|
      invariant calculator.Valid() && calculator.calibrating
      invariant calculator.progressTicks == i
      invariant calculator.completions == []
    {
      calculator.DidRangeBeacons(batches[i]);
      i := i + 1;
    }
    ticks := calculator.progressTicks;
    first := calculator.CancelCalibration();
    second := calculator.CancelCalibration();
    calls := |calculator.completions|;
  }
}
