/** The optional value and the bytes that several modules share. */
module Common {
  datatype Option<+T> = None | Some(value: T)

  type Byte = x: nat | x < 256
  type Bytes = seq<Byte>
}
