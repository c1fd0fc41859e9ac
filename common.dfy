/**
 * Shared vocabulary of the backup peer model: octets, optional values,
 * Java exceptions as values, the three multicast channels and the
 * messages a peer puts on them.
 */
module Common {

  /** One octet of a datagram, a chunk or a file. */
  newtype Byte = x: int | 0 <= x < 256

  datatype Option<+T> = None | Some(value: T)

  /** The Java exceptions the modelled code can raise or catch. */
  datatype Exception =
    | IOException
    | InterruptedException
    | NumberFormatException
    | IndexOutOfBounds
    | NullPointer

  /** What a call into Java code either returns or throws. */
  datatype Result<+T> = Ok(value: T) | Err(error: Exception)

  const Int32Min: int := -0x8000_0000
  const Int32Max: int := 0x7FFF_FFFF

  /** The range of a Java `int`. */
  predicate IsInt32(n: int) {
    Int32Min <= n <= Int32Max
  }

  /** The control channel (MC), the data-backup channel (MDB) and the data-restore channel (MDR). */
  datatype Channel = MC | MDB | MDR

  /** A protocol message handed to a channel's `sendMessage`: the header fields and, for the body overload, the body. */
  datatype Message = Message(channel: Channel, header: seq<string>, body: Option<seq<Byte>>)
}
