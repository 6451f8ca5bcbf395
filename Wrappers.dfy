/** Failure-carrying wrappers used wherever the source returns None/-1 or raises. */
module Wrappers {

  /** `None` stands for the source's `None`, its `-1` error return, or a NaN result. */
  datatype Option<+T> = None | Some(value: T)

  /** The Python exceptions that the modelled code paths can raise. */
  datatype PyError =
    | TypeError          // calling None, or unpacking the -1 that `find` returns
    | UnboundLocalError  // a result variable read although no branch assigned it
    | IndexError         // the first element of an empty sweep range
    | ValueError         // a reduction or an interpolation over too few points

  datatype Result<+T> = Success(value: T) | Failure(error: PyError)
}
