/** Value types shared by the server-side serializer, the recording helper and the client. */
module Common {

  /** One octet of a WebSocket binary payload or of a PCM buffer. */
  newtype Byte = b: int | 0 <= b < 256

  /** A Python `bytes` / `bytearray` value. */
  type Bytes = seq<Byte>

  /** Python's `None`-or-value. */
  datatype Option<+T> = None | Some(value: T)
}
