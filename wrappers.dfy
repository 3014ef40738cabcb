/** Small failure-carrying datatypes shared by every module of the model. */
module Wrappers {

  /** A value that may be absent: Go's nil pointer, nil slice entry or nil map. */
  datatype Option<T> = None | Some(value: T)

  /** A Go `(value, error)` pair where exactly one side is meaningful; errors are their message text. */
  datatype Result<T> = Ok(value: T) | Err(error: string)

  /** The effect of a Go `UnmarshalFlag(value string) error` method on a pointer receiver:
      the receiver's value afterwards and the returned error (None for nil). */
  datatype Assigned<T> = Assigned(receiver: T, err: Option<string>)
}
