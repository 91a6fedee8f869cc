/** The few Go values the ORM core passes around, as Dafny values. */
module GoTypes {

  /** Go's `int64`: the type of the identifiers that inserts report. */
  newtype int64 = x: int | -0x8000_0000_0000_0000 <= x < 0x8000_0000_0000_0000

  /** A Go pointer, slice or interface that may be nil. */
  datatype Option<+T> = None | Some(value: T)

  /** A Go `error` value, known by its message. */
  datatype Error = Error(message: string)

  /** An `interface{}` value: nil, a string, or a pointer to some struct
      (a model instance), which the core never looks inside. */
  datatype Value = Nil | Str(s: string) | Ref(address: nat)

  /** How a call that returns nothing ends: normally, or by panicking with an error. */
  datatype Outcome = Returned | Panicked(err: Error)
}
