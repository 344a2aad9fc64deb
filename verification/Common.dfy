/** Vocabulary shared by every component. */
module Common {

  datatype Option<+T> = None | Some(value: T)

  type Byte = b: int | 0 <= b < 256

  /** One nanosecond is the unit of every time in the model. */
  const SECOND: int := 1_000_000_000
}
