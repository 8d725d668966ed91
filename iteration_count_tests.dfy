/** Clients of the criterion, one method per test case of the NUnit fixture
    (same names), and two extra clients, CloneIsIndependent and
    CallsComposeToRun, that the fixture does not have. Each is proved from the class's contracts alone. */
module IterationCountStopCriteriumTest {
  import opened SolverTypes
  import opened IterationCountModel
  import opened IterationCountCriterium

  /** A constant vector of length three, as the tests pass (its contents play
      no part in any verdict). */
  function Dense(value: int): (v: seq<int>) {
    [value, value, value]
  }

  /** Creating with limit -1 is rejected with an out-of-range error. */
  method CreateWithIllegalMinimumIterationsThrowsArgumentOutOfRangeException()
    returns (r: Result<IterationCountStopCriterium>)
    ensures r.Err? && r.error.ArgumentOutOfRange?
  {
    r := IterationCountStopCriterium.TryCreate(-1);
  }

  /** Creating with limit 10 succeeds; beyond the fixture's non-null check this
      also states the limit it holds, which the fixture reads elsewhere. */
  method Create() returns (r: Result<IterationCountStopCriterium>)
    ensures r.Ok? && r.value.maximumNumberOfIterations == 10
  {
    r := IterationCountStopCriterium.TryCreate(10);
  }

  /** The limit reads back as 10, and after resetting it to the default it is
      the default and no longer 10. */
  method ResetMaximumIterations() returns (before: int, after: int)
    ensures before == 10
    ensures after != 10 && after == DefaultMaximumNumberOfIterations
  {
    var criterium := new IterationCountStopCriterium(10);
    before := criterium.maximumNumberOfIterations;
    criterium.ResetMaximumNumberOfIterationsToDefault();
    after := criterium.maximumNumberOfIterations;
  }

  /** Asking with iteration -1 is rejected with an out-of-range error. */
  method DetermineStatusWithIllegalIterationNumberThrowsArgumentOutOfRangeException()
    returns (r: Result<IterationStatus>)
    ensures r.Err? && r.error.ArgumentOutOfRange?
  {
    var criterium := new IterationCountStopCriterium(10);
    r := criterium.DetermineStatus(-1, Dense(1), Dense(2), Dense(3));
  }

  /** With limit 10, iteration 5 continues and iteration 10 stops. */
  method DetermineStatus() returns (status: Result<IterationStatus>, status2: Result<IterationStatus>)
    ensures status == Ok(Continue)
    ensures status2 == Ok(StoppedWithoutConvergence)
  {
    var criterium := new IterationCountStopCriterium(10);
    status := criterium.DetermineStatus(5, Dense(1), Dense(2), Dense(3));
    status2 := criterium.DetermineStatus(10, Dense(1), Dense(2), Dense(3));
  }

  /** After a verdict, Reset brings the status back to Continue. */
  method ResetCalculationState() returns (status: Result<IterationStatus>, afterReset: IterationStatus)
    ensures status == Ok(Continue)
    ensures afterReset == Continue
  {
    var criterium := new IterationCountStopCriterium(10);
    status := criterium.DetermineStatus(5, Dense(1), Dense(2), Dense(3));
    criterium.Reset();
    afterReset := criterium.status;
  }

  /** A clone carries the original's limit. */
  method Clone() returns (original: int, cloned: int)
    ensures original == 10 && cloned == original
  {
    var criterium := new IterationCountStopCriterium(10);
    original := criterium.maximumNumberOfIterations;
    var clone := criterium.Clone();
    cloned := clone.maximumNumberOfIterations;
  }

  /** Not a test case of the fixture. A clone is a separate object: a verdict computed on the clone leaves the
      original's status alone. */
  method CloneIsIndependent() returns (originalStatus: IterationStatus, cloneStatus: IterationStatus)
    ensures originalStatus == Continue
    ensures cloneStatus == StoppedWithoutConvergence
  {
    var criterium := new IterationCountStopCriterium(10);
    var clone := criterium.Clone();
    var _ := clone.DetermineStatus(10, Dense(1), Dense(2), Dense(3));
    originalStatus := criterium.status;
    cloneStatus := clone.status;
  }

  /** Not a test case of the fixture. Method calls on one object compose to
      Run: after a sequence of calls the object's state is Run of its first
      state over those calls, so every lemma about Run applies to it. */
  method CallsComposeToRun() returns (before: CriteriumState, after: CriteriumState)
    ensures before == Initial(10)
    ensures after == Run(before, [DetermineStatusCall(5), ResetMaximumCall, DetermineStatusCall(10), ResetCall])
    ensures after.maximum == DefaultMaximumNumberOfIterations && after.status == Continue
  {
    var criterium := new IterationCountStopCriterium(10);
    before := criterium.Snapshot();
    ghost var calls: seq<Call> := [];

    var _ := criterium.DetermineStatus(5, Dense(1), Dense(2), Dense(3));
    RunAppend(before, calls, DetermineStatusCall(5));
    calls := calls + [DetermineStatusCall(5)];
    assert criterium.Snapshot() == Run(before, calls);

    criterium.ResetMaximumNumberOfIterationsToDefault();
    RunAppend(before, calls, ResetMaximumCall);
    calls := calls + [ResetMaximumCall];
    assert criterium.Snapshot() == Run(before, calls);

    var _ := criterium.DetermineStatus(10, Dense(1), Dense(2), Dense(3));
    RunAppend(before, calls, DetermineStatusCall(10));
    calls := calls + [DetermineStatusCall(10)];
    assert criterium.Snapshot() == Run(before, calls);

    criterium.Reset();
    RunAppend(before, calls, ResetCall);
    calls := calls + [ResetCall];
    after := criterium.Snapshot();
  }
}
