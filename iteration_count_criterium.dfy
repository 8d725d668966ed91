/** The iteration-count stop criterion as the object the solvers hold: a
    configured limit and a last status, both updated in place. Every method is
    proved to perform the matching transition of IterationCountModel. */
module IterationCountCriterium {
  import opened SolverTypes
  import opened IterationCountModel

  class IterationCountStopCriterium {
    var maximumNumberOfIterations: int
    var status: IterationStatus

    /** The object's state as a value of the model. */
    function Snapshot(): (st: CriteriumState)
      reads this
    {
      CriteriumState(maximumNumberOfIterations, status)
    }

    /** The object invariant: a non-negative limit, and a status that only
        this criterion's own verdicts can produce. */
    ghost predicate Valid()
      reads this
    {
      LimitValid(Snapshot()) &&
      (status == Continue || status == StoppedWithoutConvergence)
    }

    /** Construction with a non-negative limit; the status starts at Continue. */
    constructor (maximum: int)
      requires 0 <= maximum
      ensures Valid() && Snapshot() == Initial(maximum)
      ensures maximumNumberOfIterations == maximum && status == Continue
    {
      maximumNumberOfIterations := maximum;
      status := Continue;
    }

    /** Construction with the argument check: a negative limit yields the
        out-of-range error and no object. */
    static method TryCreate(maximum: int) returns (r: Result<IterationCountStopCriterium>)
      ensures r.Err? <==> maximum < 0
      ensures r.Err? ==> r.error == ArgumentOutOfRange("maximumNumberOfIterations")
      ensures r.Ok? ==> fresh(r.value) && r.value.Valid() && r.value.Snapshot() == Initial(maximum)
    {
      match CheckMaximum(maximum)
      case Err(e) =>
        r := Err(e);
      case Ok(m) =>
        var c := new IterationCountStopCriterium(m);
        r := Ok(c);
    }

    /** The verdict for an iteration index. The three vectors are accepted and
        ignored: the verdict depends on the index and the limit alone. */
    method DetermineStatus<V>(iterationNumber: int, solutionVector: V, sourceVector: V, residualVector: V)
      returns (r: Result<IterationStatus>)
      requires Valid()
      modifies this`status
      ensures Valid()
      ensures (r, Snapshot()) == Determine(old(Snapshot()), iterationNumber)
      ensures 0 <= iterationNumber ==> r == Ok(status) && (status == StoppedWithoutConvergence <==> maximumNumberOfIterations <= iterationNumber)
    {
      if iterationNumber < 0 {
        r := Err(ArgumentOutOfRange("iterationNumber"));
        return;
      }
      if iterationNumber >= maximumNumberOfIterations {
        status := StoppedWithoutConvergence;
      } else {
        status := Continue;
      }
      r := Ok(status);
    }

    /** Clears the evaluation state; the configured limit is kept. */
    method Reset()
      requires Valid()
      modifies this`status
      ensures Valid()
      ensures Snapshot() == ResetStatus(old(Snapshot()))
      ensures status == Continue && maximumNumberOfIterations == old(maximumNumberOfIterations)
    {
      status := Continue;
    }

    /** Restores the configured limit to the library default; the last
        verdict is kept. */
    method ResetMaximumNumberOfIterationsToDefault()
      requires Valid()
      modifies this`maximumNumberOfIterations
      ensures Valid()
      ensures Snapshot() == ResetMaximumToDefault(old(Snapshot()))
      ensures maximumNumberOfIterations == DefaultMaximumNumberOfIterations && status == old(status)
    {
      maximumNumberOfIterations := DefaultMaximumNumberOfIterations;
    }

    /** A new, separate criterion of the same kind with the same limit. */
    method Clone() returns (c: IterationCountStopCriterium)
      requires Valid()
      ensures fresh(c) && c.Valid()
      ensures c.Snapshot() == CloneState(Snapshot())
      ensures c.maximumNumberOfIterations == maximumNumberOfIterations && c.status == Continue
    {
      c := new IterationCountStopCriterium(maximumNumberOfIterations);
    }
  }
}
