/** Shared vocabulary of the model: bytes and optional values. */
module Prelude {

  /** A Go byte. Go strings and []byte are both sequences of these; a char
      whose code is below 256 stands for one byte so that literals such as
      "error" can be written directly. */
  type Byte = c: char | c as int < 256 witness '\0'

  /** Go's nil-able references (an io.Writer or a []byte that may be nil). */
  datatype Option<+T> = None | Some(value: T)
}
