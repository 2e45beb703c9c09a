/** The success-or-failure value that every fallible operation of the
    interpreter returns (src/result.ts). Only the two constructors are
    modelled: every method of the source class is unimplemented. */
module Results {

  datatype Result<T, E> = Ok(value: T) | Err(error: E)
}
