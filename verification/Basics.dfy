/** Types shared by the models. */
module Basics {

  newtype Byte = b: int | 0 <= b < 256

  datatype Option<T> = None | Some(value: T)
}
