# Iteration-count stop criterion

A model of Math.NET Numerics' `IterationCountStopCriterium<T>`, the stop
criterion that iterative linear solvers (conjugate gradient, BiCGStab, GMRES
and the like) consult after every iteration. It holds a configured limit,
`MaximumNumberOfIterations`, and the last computed `Status`. Given an
iteration index it answers `Continue` while the index is below the limit and
`StoppedWithoutConvergence` once the index reaches it. Other operations:
`Reset` clears the status, `ResetMaximumNumberOfIterationsToDefault`
restores the library's default limit, and `Clone` makes a separate criterion
with the same limit. A negative limit and a negative iteration index are both
rejected with `ArgumentOutOfRangeException`.

The behaviour modelled is the one the library's NUnit fixture for this class
(`src/UnitTests/LinearAlgebraTests/Complex32/Solvers/StopCriterium/IterationCountStopCriteriumTest.cs`) asserts;
where the fixture says nothing, the decisions below say what this model chooses.

- `solver_types.dfy` (module `SolverTypes`): `IterationStatus` with its five
  variants, and `Result`/`Error`, which stand for the out-of-range exception
  and the parameter it names.
- `iteration_count_model.dfy` (module `IterationCountModel`): the criterion as
  a state machine on values (`CriteriumState` holds the limit and the status).
  It has one transition function per operation, `Run` over a sequence of
  operations, and lemmas about all of them.
- `iteration_count_criterium.dfy` (module `IterationCountCriterium`): the
  class `IterationCountStopCriterium`, whose fields are updated in place.
  Every method is proved to perform the matching transition of the model on
  `Snapshot()`, so the lemmas on `Run` hold for any sequence of method calls
  (the client `CallsComposeToRun` proves this for one sequence of four calls).
  The object invariant `Valid()` is the model's `LimitValid` (a non-negative
  limit) together with a status of `Continue` or `StoppedWithoutConvergence`;
  the lemmas `RunPreservesLimitValid` and `RunReportsOnlyCountStatuses` keep
  one half each over any sequence of calls.
- `iteration_count_tests.dfy` (module `IterationCountStopCriteriumTest`): one
  client method per test case of the fixture, under the same name, each proved
  from the class's contracts alone. Its `ensures` are that test's assertions,
  with one addition: `Create` also states that the limit is 10, which the
  fixture reads at line 73 rather than in its own `Create` test. The module
  also holds two extra clients that the fixture does not have,
  `CloneIsIndependent` and `CallsComposeToRun`.

Decisions where the source leaves things open:

- Lower bound of the limit. The fixture pins only -1 as rejected; this model
  also rejects every other negative limit and accepts 0.
- `DefaultMaximumNumberOfIterations` is 1000, a value chosen here. The fixture
  asserts only that it differs from 10. Nothing in the model depends on the
  value beyond that and its being non-negative.
- The `ArgumentOutOfRange` error carries a parameter name,
  `maximumNumberOfIterations` for the limit and `iterationNumber` for the
  index. These names are chosen here; the fixture checks only the exception
  type (lines 52 and 89), and so do the client methods.
- The following are not asserted by the fixture; they are chosen here, and
  each clause in the table below that states one of them is directly followed by "(chosen)":
  - the initial status is `Continue`;
  - a rejected `DetermineStatus` leaves the status unchanged;
  - `Reset` keeps the limit;
  - a clone starts at `Continue` and shares no state with its original;
  - `DetermineStatus` gives the same answer when asked twice in a row;
  - `DetermineStatus` keeps the limit;
  - `ResetMaximumNumberOfIterationsToDefault` keeps the status.

## Model

| member | source | states |
|---|---|---|
| IterationCountModel.CheckMaximum | src/UnitTests/LinearAlgebraTests/Complex32/Solvers/StopCriterium/IterationCountStopCriteriumTest.cs:50-53 | a limit is accepted iff it is non-negative, unchanged; a negative one yields ArgumentOutOfRange for maximumNumberOfIterations |
| IterationCountModel.Initial | src/UnitTests/LinearAlgebraTests/Complex32/Solvers/StopCriterium/IterationCountStopCriteriumTest.cs:59-63 | a new criterion has the given limit, satisfies LimitValid (a non-negative limit), and its status is Continue (chosen) |
| IterationCountModel.StatusAt | src/UnitTests/LinearAlgebraTests/Complex32/Solvers/StopCriterium/IterationCountStopCriteriumTest.cs:96-106 | the verdict is only ever Continue or StoppedWithoutConvergence, and it is StoppedWithoutConvergence iff iteration >= limit |
| IterationCountModel.Determine | src/UnitTests/LinearAlgebraTests/Complex32/Solvers/StopCriterium/IterationCountStopCriteriumTest.cs:84-106 | a negative index yields ArgumentOutOfRange for iterationNumber and leaves the state as it was (chosen); otherwise the verdict (stop iff index >= limit) is both returned and stored; the limit never changes (chosen) |
| IterationCountModel.ResetStatus | src/UnitTests/LinearAlgebraTests/Complex32/Solvers/StopCriterium/IterationCountStopCriteriumTest.cs:112-122 | Reset sets the status to Continue and keeps the limit (chosen) |
| IterationCountModel.ResetMaximumToDefault | src/UnitTests/LinearAlgebraTests/Complex32/Solvers/StopCriterium/IterationCountStopCriteriumTest.cs:69-78 | the limit becomes DefaultMaximumNumberOfIterations, which differs from 10; the status is kept (chosen) |
| IterationCountModel.CloneState | src/UnitTests/LinearAlgebraTests/Complex32/Solvers/StopCriterium/IterationCountStopCriteriumTest.cs:128-144 | a clone has the original's limit, and status Continue (chosen), and is valid when the original is |
| IterationCountModel.Apply | src/UnitTests/LinearAlgebraTests/Complex32/Solvers/StopCriterium/IterationCountStopCriteriumTest.cs:69-122 | a rejected DetermineStatus changes nothing (chosen), Reset gives Continue, and only ResetMaximumNumberOfIterationsToDefault can change the limit (chosen) |
| IterationCountModel.RunPreservesLimitValid | src/UnitTests/LinearAlgebraTests/Complex32/Solvers/StopCriterium/IterationCountStopCriteriumTest.cs:50-53 | no sequence of operations can make the limit negative |
| IterationCountModel.RunReportsOnlyCountStatuses | src/UnitTests/LinearAlgebraTests/Complex32/Solvers/StopCriterium/IterationCountStopCriteriumTest.cs:96-106 | through any sequence of operations the status stays Continue or StoppedWithoutConvergence; the criterion never reports Converged, Diverged or Indeterminate |
| IterationCountModel.RunWithoutResetMaximumKeepsLimit | src/UnitTests/LinearAlgebraTests/Complex32/Solvers/StopCriterium/IterationCountStopCriteriumTest.cs:69-78 | any sequence of calls without ResetMaximumNumberOfIterationsToDefault leaves the limit unchanged (chosen) |
| IterationCountModel.ResetAfterAnyRun | src/UnitTests/LinearAlgebraTests/Complex32/Solvers/StopCriterium/IterationCountStopCriteriumTest.cs:117-121 | after any history of calls, Reset makes the status Continue, and keeps the limit (chosen) |
| IterationCountModel.LatestVerdictWins | src/UnitTests/LinearAlgebraTests/Complex32/Solvers/StopCriterium/IterationCountStopCriteriumTest.cs:101-105 | right after a valid DetermineStatus(i), whatever came before, the status is StatusAt(limit then in force, i) |
| IterationCountModel.DetermineIsIdempotent | src/UnitTests/LinearAlgebraTests/Complex32/Solvers/StopCriterium/IterationCountStopCriteriumTest.cs:101-105 | asking twice with the same index and nothing in between gives the same answer and state (chosen) |
| IterationCountModel.StoppedIsMonotone | src/UnitTests/LinearAlgebraTests/Complex32/Solvers/StopCriterium/IterationCountStopCriteriumTest.cs:101-105 | once an index reaches the limit, every larger index stops too |
| IterationCountCriterium.IterationCountStopCriterium.constructor | src/UnitTests/LinearAlgebraTests/Complex32/Solvers/StopCriterium/IterationCountStopCriteriumTest.cs:59-63 | construction with a non-negative limit stores it, and sets the status to Continue (chosen) |
| IterationCountCriterium.IterationCountStopCriterium.TryCreate | src/UnitTests/LinearAlgebraTests/Complex32/Solvers/StopCriterium/IterationCountStopCriteriumTest.cs:50-63 | construction fails with ArgumentOutOfRange iff the limit is negative; otherwise a fresh valid criterion holding that limit, with status Continue (chosen) |
| IterationCountCriterium.IterationCountStopCriterium.DetermineStatus | src/UnitTests/LinearAlgebraTests/Complex32/Solvers/StopCriterium/IterationCountStopCriteriumTest.cs:84-106 | performs Determine on the object's state: rejects a negative index with the status unchanged (chosen); otherwise stores and returns StoppedWithoutConvergence iff index >= limit; the limit is unchanged (chosen); the vectors do not affect the verdict |
| IterationCountCriterium.IterationCountStopCriterium.Reset | src/UnitTests/LinearAlgebraTests/Complex32/Solvers/StopCriterium/IterationCountStopCriteriumTest.cs:112-122 | performs ResetStatus: status becomes Continue, limit unchanged (chosen) |
| IterationCountCriterium.IterationCountStopCriterium.ResetMaximumNumberOfIterationsToDefault | src/UnitTests/LinearAlgebraTests/Complex32/Solvers/StopCriterium/IterationCountStopCriteriumTest.cs:69-78 | performs ResetMaximumToDefault: the limit becomes the default, the status is unchanged (chosen) |
| IterationCountCriterium.IterationCountStopCriterium.Clone | src/UnitTests/LinearAlgebraTests/Complex32/Solvers/StopCriterium/IterationCountStopCriteriumTest.cs:128-144 | returns a fresh criterion with the same limit, and status Continue (chosen) |
| IterationCountStopCriteriumTest.CreateWithIllegalMinimumIterationsThrowsArgumentOutOfRangeException | src/UnitTests/LinearAlgebraTests/Complex32/Solvers/StopCriterium/IterationCountStopCriteriumTest.cs:50-53 | creating with -1 yields an ArgumentOutOfRange error |
| IterationCountStopCriteriumTest.Create | src/UnitTests/LinearAlgebraTests/Complex32/Solvers/StopCriterium/IterationCountStopCriteriumTest.cs:59-63 | creating with 10 yields a criterion (line 62), whose limit is 10 (as read at line 73) |
| IterationCountStopCriteriumTest.ResetMaximumIterations | src/UnitTests/LinearAlgebraTests/Complex32/Solvers/StopCriterium/IterationCountStopCriteriumTest.cs:69-78 | the limit reads 10, and after the reset it is the default and not 10 |
| IterationCountStopCriteriumTest.DetermineStatusWithIllegalIterationNumberThrowsArgumentOutOfRangeException | src/UnitTests/LinearAlgebraTests/Complex32/Solvers/StopCriterium/IterationCountStopCriteriumTest.cs:84-90 | DetermineStatus(-1, ...) yields an ArgumentOutOfRange error |
| IterationCountStopCriteriumTest.DetermineStatus | src/UnitTests/LinearAlgebraTests/Complex32/Solvers/StopCriterium/IterationCountStopCriteriumTest.cs:96-106 | with limit 10, index 5 gives Continue and then index 10 gives StoppedWithoutConvergence |
| IterationCountStopCriteriumTest.ResetCalculationState | src/UnitTests/LinearAlgebraTests/Complex32/Solvers/StopCriterium/IterationCountStopCriteriumTest.cs:112-122 | index 5 gives Continue, and after Reset the Status is Continue |
| IterationCountStopCriteriumTest.Clone | src/UnitTests/LinearAlgebraTests/Complex32/Solvers/StopCriterium/IterationCountStopCriteriumTest.cs:128-144 | the clone's limit equals the original's, 10 |
| IterationCountStopCriteriumTest.CloneIsIndependent | src/UnitTests/LinearAlgebraTests/Complex32/Solvers/StopCriterium/IterationCountStopCriteriumTest.cs:128-144 | extra client, not a test case of the fixture: a verdict on the clone (StoppedWithoutConvergence) leaves the original's status at Continue (chosen) |
| IterationCountStopCriteriumTest.CallsComposeToRun | src/UnitTests/LinearAlgebraTests/Complex32/Solvers/StopCriterium/IterationCountStopCriteriumTest.cs:96-122 | extra client, not a test case of the fixture: after DetermineStatus(5), ResetMaximumNumberOfIterationsToDefault, DetermineStatus(10) and Reset on a criterion created with 10, its state is Run of its first state over those four calls: the default limit (chosen) and status Continue |

## Left out

- The generic scalar parameter (`Complex32`) and the vector type. `DetermineStatus` takes its three vectors as values of an arbitrary type parameter and ignores them. `Vector<Complex32>.Build.Dense`, which the fixture uses to build them, is the library's own vector code, outside the criterion; the verdict does not read it.
- The other stop criteria (residual norm, divergence, failure/achievability) and the iterator that combines several criteria. They are not part of this model: they are outside the iteration-count criterion, and their verdicts rest on floating-point norms.
- A setter for `MaximumNumberOfIterations`. The fixture only reads the property, so only the constructor and `ResetMaximumNumberOfIterationsToDefault` set the limit here.
- The type check of the clone (`Assert.IsInstanceOf`). In Dafny, `Clone` returns an `IterationCountStopCriterium` by its type.
- A 32-bit `int` for the limit and the index. Integers are unbounded here, because the criterion only compares them and never does arithmetic on them.
- NUnit itself (`Assert`, `Throws`, the fixture attributes). Each exception the fixture expects appears as the `Err` value of a `Result`.
