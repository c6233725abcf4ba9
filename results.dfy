/// Optional values and success-or-failure results, used by every stage of the pipeline
/// in place of the exceptions the interpreter raises.
module Results {

  datatype Option<+T> = None | Some(value: T)

  datatype Result<+T, +E> = Ok(value: T) | Err(error: E)
}
