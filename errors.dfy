/** Failures raised by the transport layer: the kinds of TTransportException,
    the numeric codes they carry, and the other Python errors that escape the
    transports (EOFError from readAll, socket errors, and the errors Python
    raises for a missing handle or a negative receive size). */
module TransportErrors {

  /** A byte as Python's `bytes` holds it. */
  newtype byte = b: int | 0 <= b < 256

  /** The kinds of TTransportException. */
  datatype Kind = Unknown | NotOpen | AlreadyOpen | TimedOut | EndOfFile

  /** The operating-system error carried by a socket error; only ECONNRESET is
      told apart by the transports, every other errno is opaque. */
  datatype Errno = ConnReset | OtherErrno(code: int)

  datatype Error =
    | TransportError(kind: Kind, message: string)  // TTransportException
    | EndOfStream                                  // builtin EOFError raised by readAll
    | SocketError(errno: Errno)                    // socket.error from the operating system
    | NoHandle                                     // AttributeError: a socket call on a None handle
    | BadSize                                      // ValueError: recv asked for a negative size

  datatype Result<+T> = Ok(value: T) | Err(error: Error)

  /** The class constant that stands for each kind (UNKNOWN = 0 ... END_OF_FILE = 4). */
  function Code(k: Kind): (c: nat)
    ensures c <= 4
  {
    match k
    case Unknown => 0
    case NotOpen => 1
    case AlreadyOpen => 2
    case TimedOut => 3
    case EndOfFile => 4
  }

  /** The kind a numeric code stands for, if any. */
  function KindOf(c: int): (k: Option<Kind>)
    ensures k.Some? <==> 0 <= c <= 4
  {
    if c == 0 then Some(Unknown)
    else if c == 1 then Some(NotOpen)
    else if c == 2 then Some(AlreadyOpen)
    else if c == 3 then Some(TimedOut)
    else if c == 4 then Some(EndOfFile)
    else None
  }

  datatype Option<+T> = None | Some(value: T)

  /** Codes and kinds are in one-to-one correspondence, in both directions. */
  lemma CodeRoundTrip(k: Kind, c: int)
    ensures KindOf(Code(k)) == Some(k)
    ensures KindOf(c).Some? ==> Code(KindOf(c).value) == c
  {
  }
}
