/** The iteration-count stop criterion as a state machine on values: the
    configured limit, the last computed status, and one transition per
    operation of the criterion. The class in IterationCountCriterium is proved
    to follow these transitions. */
module IterationCountModel {
  import opened SolverTypes

  /** The library-wide default limit restored by ResetMaximumNumberOfIterationsToDefault. */
  const DefaultMaximumNumberOfIterations: int := 1000

  /** The state of one criterion: its configuration and its last verdict. */
  datatype CriteriumState = CriteriumState(maximum: int, status: IterationStatus)

  /** The configuration invariant: the limit is never negative. */
  predicate LimitValid(st: CriteriumState) {
    st.maximum >= 0
  }

  /** The constructor's argument check: a negative limit is rejected with an
      out-of-range error, every other limit is accepted unchanged. */
  function CheckMaximum(maximum: int): (r: Result<int>)
    ensures r.Ok? <==> 0 <= maximum
    ensures r.Ok? ==> r.value == maximum
    ensures r.Err? ==> r.error == ArgumentOutOfRange("maximumNumberOfIterations")
  {
    if maximum < 0 then Err(ArgumentOutOfRange("maximumNumberOfIterations")) else Ok(maximum)
  }

  /** A freshly constructed criterion: the given limit, nothing computed yet. */
  function Initial(maximum: int): (st: CriteriumState)
    requires 0 <= maximum
    ensures LimitValid(st) && st.maximum == maximum && st.status == Continue
  {
    CriteriumState(maximum, Continue)
  }

  /** The verdict for a valid iteration index: the criterion only ever answers
      Continue or StoppedWithoutConvergence, and it stops exactly when the
      index has reached the limit. */
  function StatusAt(maximum: int, iteration: nat): (s: IterationStatus)
    ensures s == Continue || s == StoppedWithoutConvergence
    ensures s == StoppedWithoutConvergence <==> maximum <= iteration
  {
    if iteration >= maximum then StoppedWithoutConvergence else Continue
  }

  /** DetermineStatus: a negative index is rejected and leaves the state as it
      was; otherwise the verdict is stored as the new status and returned.
      The configuration never changes. */
  function Determine(st: CriteriumState, iteration: int): (r: (Result<IterationStatus>, CriteriumState))
    ensures r.1.maximum == st.maximum
    ensures r.0.Err? <==> iteration < 0
    ensures r.0.Err? ==> r.0.error == ArgumentOutOfRange("iterationNumber") && r.1 == st
    ensures r.0.Ok? ==> r.0.value == r.1.status
    ensures r.0.Ok? ==> (r.1.status == StoppedWithoutConvergence <==> st.maximum <= iteration)
    ensures r.0.Ok? ==> (r.1.status == Continue <==> iteration < st.maximum)
  {
    if iteration < 0 then
      (Err(ArgumentOutOfRange("iterationNumber")), st)
    else
      var s := StatusAt(st.maximum, iteration);
      (Ok(s), st.(status := s))
  }

  /** Reset: the evaluation state goes back to Continue, the limit stays. */
  function ResetStatus(st: CriteriumState): (r: CriteriumState)
    ensures r.status == Continue && r.maximum == st.maximum
  {
    st.(status := Continue)
  }

  /** ResetMaximumNumberOfIterationsToDefault: the limit becomes the library
      default, the last verdict stays. */
  function ResetMaximumToDefault(st: CriteriumState): (r: CriteriumState)
    ensures r.maximum == DefaultMaximumNumberOfIterations && r.maximum != 10
    ensures r.status == st.status
  {
    st.(maximum := DefaultMaximumNumberOfIterations)
  }

  /** Clone: a criterion of the same kind with the same limit and no
      evaluation history. */
  function CloneState(st: CriteriumState): (r: CriteriumState)
    ensures r.maximum == st.maximum && r.status == Continue
    ensures LimitValid(st) ==> LimitValid(r)
  {
    CriteriumState(st.maximum, Continue)
  }

  /** The operations that change a criterion's state. */
  datatype Call =
    | DetermineStatusCall(iteration: int)
    | ResetCall
    | ResetMaximumCall

  /** The state after one operation. */
  function Apply(st: CriteriumState, call: Call): (r: CriteriumState)
    ensures call.DetermineStatusCall? && call.iteration < 0 ==> r == st
    ensures call.ResetCall? ==> r.status == Continue
    ensures !call.ResetMaximumCall? ==> r.maximum == st.maximum
  {
    match call
    case DetermineStatusCall(i) => Determine(st, i).1
    case ResetCall => ResetStatus(st)
    case ResetMaximumCall => ResetMaximumToDefault(st)
  }

  /** The state after a sequence of operations, applied in order. */
  function Run(st: CriteriumState, calls: seq<Call>): (r: CriteriumState)
    decreases |calls|
  {
    if calls == [] then st
    else Apply(Run(st, calls[..|calls| - 1]), calls[|calls| - 1])
  }

  /** Running one more operation is applying it to the state reached so far. */
  lemma RunAppend(st: CriteriumState, calls: seq<Call>, call: Call)
    ensures Run(st, calls + [call]) == Apply(Run(st, calls), call)
  {
    assert (calls + [call])[..|calls|] == calls;
  }

  /** No sequence of operations can make the limit negative. */
  lemma {:induction false} RunPreservesLimitValid(st: CriteriumState, calls: seq<Call>)
    requires LimitValid(st)
    ensures LimitValid(Run(st, calls))
    decreases |calls|
  {
    if calls != [] {
      RunPreservesLimitValid(st, calls[..|calls| - 1]);
    }
  }

  /** Starting from a verdict of its own, the iteration-count criterion never
      reports Converged, Diverged or Indeterminate, whatever is called. */
  lemma {:induction false} RunReportsOnlyCountStatuses(st: CriteriumState, calls: seq<Call>)
    requires st.status == Continue || st.status == StoppedWithoutConvergence
    ensures Run(st, calls).status == Continue || Run(st, calls).status == StoppedWithoutConvergence
    decreases |calls|
  {
    if calls != [] {
      RunReportsOnlyCountStatuses(st, calls[..|calls| - 1]);
    }
  }

  /** DetermineStatus and Reset never touch the configuration: only
      ResetMaximumNumberOfIterationsToDefault changes the limit. */
  lemma {:induction false} RunWithoutResetMaximumKeepsLimit(st: CriteriumState, calls: seq<Call>)
    requires forall k :: 0 <= k < |calls| ==> !calls[k].ResetMaximumCall?
    ensures Run(st, calls).maximum == st.maximum
    decreases |calls|
  {
    if calls != [] {
      var prefix := calls[..|calls| - 1];
      assert forall k :: 0 <= k < |prefix| ==> prefix[k] == calls[k];
      RunWithoutResetMaximumKeepsLimit(st, prefix);
    }
  }

  /** Whatever was called before, Reset leaves the status at Continue and the
      limit where it was. */
  lemma ResetAfterAnyRun(st: CriteriumState, calls: seq<Call>)
    ensures Run(st, calls + [ResetCall]).status == Continue
    ensures Run(st, calls + [ResetCall]).maximum == Run(st, calls).maximum
  {
    assert (calls + [ResetCall])[..|calls|] == calls;
  }

  /** Right after a valid DetermineStatus(i), whatever came before, the
      status is the verdict for i under the limit then in force: earlier
      verdicts do not carry over. */
  lemma LatestVerdictWins(st: CriteriumState, calls: seq<Call>, iteration: nat)
    ensures Run(st, calls + [DetermineStatusCall(iteration)]).status
            == StatusAt(Run(st, calls).maximum, iteration)
  {
    assert (calls + [DetermineStatusCall(iteration)])[..|calls|] == calls;
  }

  /** Asking twice with the same index and nothing in between gives the same
      answer and the same state. */
  lemma DetermineIsIdempotent(st: CriteriumState, iteration: int)
    ensures Determine(Determine(st, iteration).1, iteration) == Determine(st, iteration)
  {
  }

  /** Once the limit is reached the criterion keeps stopping for every later
      index: the verdict is monotone in the iteration index. */
  lemma StoppedIsMonotone(maximum: int, i: nat, j: nat)
    requires i <= j
    requires StatusAt(maximum, i) == StoppedWithoutConvergence
    ensures StatusAt(maximum, j) == StoppedWithoutConvergence
  {
  }
}
