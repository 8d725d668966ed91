/** Types shared by every stop criterion of the iterative solvers. */
module SolverTypes {

  /** The verdict a stop criterion gives after an iteration. Only Continue lets
      the solver go on; every other value ends the iteration. */
  datatype IterationStatus =
    | Continue
    | Converged
    | Diverged
    | StoppedWithoutConvergence
    | Indeterminate

  /** The exception a criterion raises when an argument is out of range,
      together with the name of the offending parameter. */
  datatype Error = ArgumentOutOfRange(paramName: string)

  /** Either a value, or the error raised instead of producing it. */
  datatype Result<T> = Ok(value: T) | Err(error: Error)
}
