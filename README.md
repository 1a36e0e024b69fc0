# thriftpy byte transports and flattools naming helpers, in Dafny

This project models the byte-transport layer of thriftpy's Python transport
module (`thriftpy/transport.py`), and the naming helpers of the flatbuffers Python code
generator (`lang/py/generate.py`). It proves properties of the model.

- `errors.dfy` (module `TransportErrors`). The kinds of TTransportException
  with their numeric codes. The other Python errors that escape a transport:
  - `EOFError` from `readAll`;
  - socket errors with their errno;
  - the `AttributeError` of a `recv` on a `None` handle;
  - the `ValueError` of a negative `recv` size.
- `streams.dfy` (module `Streams`). The transport capability as seen from
  above.
  - A wrapped transport is a `ScriptedTransport`. Its reads are answered from
    a queue of replies. A reply is a chunk of bytes or an error. A read of `n`
    bytes gets at most `n`; the rest of a longer chunk stays queued. An empty
    chunk, or an empty queue, is an empty read.
  - Every call on the transport is recorded in `log`, with what it asked and
    what it got.
  - `TTransportBase.readAll` is the loop `ScriptedTransport.ReadAll`. It is
    proved equal to the specification function `ReadAllRun`. Lemmas about
    `ReadAllRun` state what readAll guarantees.
- `buffered.dfy` (module `Buffered`). `TBufferedTransport`.
  - The read buffer is a `ByteWindow` (bytes plus a cursor, the `BytesIO`).
    It is replaced, never appended to.
  - The write buffer is a byte sequence that `flush` empties before
    forwarding.
  - `cstringio_refill` is proved against the specification function
    `RefillRun`.
- `sockets.dfy` (module `Sockets`). `TSocketBase` and `TSocket`. The
  operating system is given by what it answers:
  - the resolver's candidate list (`None` when resolution raises);
  - the set of candidates that accept a connection;
  - a queue of replies to `recv`;
  - a queue of per-call accept limits for `send`.
  The handle's life is the `handle` field. The connect attempts, closed
  handles and send calls are recorded in fields.
- `naming.dfy` (module `Naming`). `camel_case` on ASCII text, built from
  `str.split("_")`, `str.title()` and `"".join`. Also `py_gen_method` and
  `py_gen_getter`. The flatbuffers type tables are parameters.

Behaviours of the code that the model keeps:

- `cstringio_refill` makes its opportunistic block read only when `reqlen` is
  below the block size (transport.py:88).
- `TBufferedTransport.read` serves from the window only when the window
  yields at least one byte (transport.py:66). So `read(0)` always goes to the
  inner transport and replaces the window, dropping any unread bytes in it.
  Also, an empty inner read comes back to the caller as an empty result.
- A failed `open` leaves `handle` set to the socket of the last candidate
  (transport.py:156), so `isOpen()` answers true after it. An empty
  candidate list returns without raising.
- The NOT_OPEN message tests the Unix path for truthiness (transport.py:167).
  An empty path therefore gets the `host:port` message, although it was
  resolved as a Unix-domain candidate.
- `readAll` raises Python's `EOFError` (`EndOfStream`). `TSocket` raises a
  TTransportException of kind END_OF_FILE. The model keeps the two apart.

## Model

| member | source | states |
|---|---|---|
| `TransportErrors.Code` | thriftpy/transport.py:30-34 | every kind has a code from 0 to 4 |
| `TransportErrors.KindOf` | thriftpy/transport.py:30-34 | a code names a kind exactly when it is 0 to 4 |
| `TransportErrors.CodeRoundTrip` | thriftpy/transport.py:30-38 | kinds and codes correspond one to one, in both directions |
| `Streams.Serve` | thriftpy/transport.py:17 | an inner read of `n` returns at most `n` bytes. Those bytes are the front of what the peer has available. An empty read or an error means the peer has nothing more |
| `Streams.ReadAllNothing` | thriftpy/transport.py:13-16 | `readAll(sz)` with `sz <= 0` makes no read and returns no bytes |
| `Streams.ReadAllAsksShortfall` | thriftpy/transport.py:16-19 | the first inner read asks for `sz`. Each later read asks for what was still missing after the bytes the earlier reads returned |
| `Streams.AsksShortfallAt` | thriftpy/transport.py:16-19 | read number `i` asks for `sz` minus everything reads `0..i-1` returned |
| `Streams.ReadAllConcatenates` | thriftpy/transport.py:16-24 | on success the result has exactly `sz` bytes and is the in-order concatenation of the inner reads' chunks. Every chunk is nonempty and no longer than its request |
| `Streams.ReadAllStopsAtEmptyRead` | thriftpy/transport.py:17-22 | on failure the reads satisfy `FailsAtLast`. Every read but the last returned bytes. The last returned nothing (readAll raises `EOFError`) or raised (readAll raises that same error). None of the gathered bytes are returned |
| `Streams.FailsAtLastAt` | thriftpy/transport.py:17-22 | the same, read by read: every read before the last returned a nonempty chunk, and the last returned nothing or raised the error |
| `Streams.ReadAllReadsPrefix` | thriftpy/transport.py:13-24 | for `sz > 0`, readAll succeeds exactly when the peer has at least `sz` bytes before its stream ends, and then returns the first `sz`. Otherwise it raises whatever ended the stream |
| `Streams.ScriptedTransport.ReadAll` | thriftpy/transport.py:13-24 | the loop's result, the queue it leaves and the reads it logs are those of `ReadAllRun` |
| `Buffered.ByteWindow.Read` | thriftpy/transport.py:65 | a `BytesIO` read returns the next `sz` unread bytes, or all of them when fewer remain or `sz` is negative. The cursor moves past exactly those bytes |
| `Buffered.ReadZeroTakesNothing` | thriftpy/transport.py:64-70 | reading 0 bytes takes nothing from the window, so `read(0)` always refills |
| `Buffered.BufferedTransport.constructor` | thriftpy/transport.py:49-53 | wraps the inner transport, with an empty write buffer, an empty window and block size 4096 by default |
| `Buffered.BufferedTransport.IsOpen` | thriftpy/transport.py:55-56 | `isOpen` is the inner transport's |
| `Buffered.BufferedTransport.Open` | thriftpy/transport.py:58-59 | `open` is one inner open. It returns that open's error, or success, and afterwards the transport is open exactly when the inner open succeeded or it was already open |
| `Buffered.BufferedTransport.Close` | thriftpy/transport.py:61-62 | `close` is one inner close, after which the transport is not open |
| `Buffered.BufferedTransport.Read` | thriftpy/transport.py:64-70 | when the window yields bytes, returns them and advances the cursor, with no inner call. Otherwise it makes exactly one inner read of `max(sz, rbufSize)`. Its answer replaces the window, and the first at most `sz` bytes of it are returned. On an inner error the window is unchanged |
| `Buffered.BufferedTransport.Write` | thriftpy/transport.py:72-73 | appends to the write buffer, makes no inner call and leaves the window alone |
| `Buffered.BufferedTransport.Flush` | thriftpy/transport.py:75-80 | the write buffer is empty afterwards, whatever the outcome. There is exactly one inner write of the old pending bytes, then one inner flush only if that write succeeded. The first failure is returned |
| `Buffered.BufferedTransport.CStringIOBuf` | thriftpy/transport.py:82-84 | returns the current window, whose unread bytes are the transport's |
| `Buffered.BufferedTransport.CStringIORefill` | thriftpy/transport.py:86-97 | the window and result are a fresh window at position 0 holding `RefillRun`'s bytes. The inner calls are `RefillRun`'s. On failure the window is unchanged |
| `Buffered.RefillDelivers` | thriftpy/transport.py:86-97 | a successful refill returns `partialread` followed by every byte its reads returned, at least `reqlen` in all |
| `Buffered.TopUpDelivers` | thriftpy/transport.py:93-94 | the readAll top-up appends exactly the bytes read and reaches `reqlen` |
| `Buffered.RefillReadsBlockOnlyWhenShort` | thriftpy/transport.py:88-94 | when `reqlen < rbufSize` the first call is a read of `rbufSize`. Otherwise every call is a readAll read asking for the shortfall. There are none when `partialread` already has `reqlen` bytes |
| `Buffered.FlushCoalesces` | thriftpy/transport.py:72-80 | two writes then a flush produce one inner write of both payloads in order, then one flush. A second flush forwards an empty payload |
| `Buffered.SmallReadsShareOneBlock` | thriftpy/transport.py:64-70 | with nothing buffered, a small read asks the inner transport once for 4096 bytes. The next small read is served from the window with no inner call |
| `Sockets.ResolveAddr` | thriftpy/transport.py:101-112 | a Unix path gives a single Unix-domain candidate and ignores host and port. Otherwise the resolver's list is used as it is |
| `Sockets.FirstListening` | thriftpy/transport.py:155-165 | the position of the first candidate that accepts. All earlier ones refuse |
| `Sockets.FirstListeningIs` | thriftpy/transport.py:155-165 | the candidate `open` connects to is exactly the one that accepts when every earlier candidate refuses |
| `Sockets.OnlyLastListening` | thriftpy/transport.py:155-165 | when only the last of `n` candidates accepts, the connection is made to it after `n - 1` failed attempts |
| `Sockets.TreatAsEof` | thriftpy/transport.py:178-180 | a `recv` error is read as end of file exactly when it is ECONNRESET and the platform is `darwin` or starts with `freebsd` |
| `Sockets.SendOnce` | thriftpy/transport.py:202 | a send never takes more than it is offered |
| `Sockets.SendAllDelivers` | thriftpy/transport.py:199-207 | a successful write hands the peer exactly `buff`, in order. Every send offers the unsent suffix and takes at least one byte, and the counts sum to `len(buff)` |
| `Sockets.SendAllStopsAtRefusal` | thriftpy/transport.py:201-205 | a failed write stops at the first send that raised (same error) or took 0 bytes (END_OF_FILE). Every earlier send took bytes |
| `Sockets.SendInThreesRun` | thriftpy/transport.py:199-207 | a peer taking at most 3 bytes per send receives 10 bytes in four sends of 3, 3, 3 and 1 |
| `Sockets.SendInThrees` | thriftpy/transport.py:195-207 | the same through `TSocket.Write`: it succeeds with counts 3, 3, 3, 1 |
| `Sockets.IntToDecimal` | thriftpy/transport.py:170 | `%d` of the port is a minus sign exactly for a negative number, then decimal digits with no leading zero (except for 0). The digits read back as its magnitude |
| `Sockets.NatToDecimal` | thriftpy/transport.py:170 | `%d` of a natural number is a nonempty string of decimal digits with no leading zero, except for 0 itself |
| `Sockets.DecimalRoundTrip` | thriftpy/transport.py:170 | reading the digits back gives the port number |
| `Sockets.ConnectFailure` | thriftpy/transport.py:166-170 | the NOT_OPEN message names the Unix path when one is set and not empty, otherwise `host:port` |
| `Sockets.TSocket.constructor` | thriftpy/transport.py:123-135 | host `localhost` and port 9090 by default, no Unix path, no handle |
| `Sockets.TSocket.SetHandle` | thriftpy/transport.py:137-138 | the handle becomes the one given |
| `Sockets.TSocket.IsOpen` | thriftpy/transport.py:140-141 | `isOpen` holds exactly when there is a handle |
| `Sockets.TSocket.Close` | thriftpy/transport.py:114-117 | afterwards there is no handle. The old handle is closed once if there was one; otherwise nothing is closed |
| `Sockets.TSocket.Open` | thriftpy/transport.py:152-172 | candidates are tried in order, each with a fresh handle, and the first that accepts is connected. If the resolver raises, or the last candidate refuses, the result is NOT_OPEN with the target message. After a final refusal the last candidate's handle stays set. An empty list returns normally with the handle unchanged |
| `Sockets.TSocket.Read` | thriftpy/transport.py:174-193 | never returns an empty result. A 0-byte recv raises END_OF_FILE. On darwin/freebsd, ECONNRESET closes the handle and raises END_OF_FILE. Any other error is returned unchanged. With no handle the call fails with the missing-handle error |
| `Sockets.TSocket.Write` | thriftpy/transport.py:195-207 | with no handle it raises NOT_OPEN and sends nothing. Otherwise the send calls and result are those of `SendAllRun` |
| `Sockets.TSocket.Flush` | thriftpy/transport.py:209-210 | does nothing and never fails |
| `Sockets.CloseTwice` | thriftpy/transport.py:114-117 | closing twice closes the handle once and leaves the socket not open |
| `Sockets.FailedOpenKeepsHandle` | thriftpy/transport.py:152-172 | when the only candidate refuses, `open` raises NOT_OPEN "Could not connect to localhost:9090" and `isOpen()` is still true |
| `Naming.Title` | lang/py/generate.py:79 | `str.title()` keeps the length. The first letter of each run of letters is upper case and the other letters of the run are lower case. Every other character is unchanged |
| `Naming.Split` | lang/py/generate.py:79 | `split("_")` gives at least one piece, and no piece holds an underscore |
| `Naming.JoinSplit` | lang/py/generate.py:79 | joining the pieces with `_` gives the text back |
| `Naming.SplitJoin` | lang/py/generate.py:79 | splitting a `_`-join of underscore-free pieces gives the pieces back |
| `Naming.SplitPiece` | lang/py/generate.py:79 | text without an underscore splits into itself alone |
| `Naming.SplitAppend` | lang/py/generate.py:79 | `split` distributes over an underscore |
| `Naming.CamelCase` | lang/py/generate.py:78-79 | the result of `camel_case` holds no underscore. It is as long as the input less its underscores |
| `Naming.CamelCaseDistributes` | lang/py/generate.py:79 | `camel_case(a + "_" + b) == camel_case(a) + camel_case(b)` |
| `Naming.CamelCaseOfPiece` | lang/py/generate.py:79 | on text without an underscore, `camel_case` is `title` |
| `Naming.CamelCaseEmpty` | lang/py/generate.py:79 | `camel_case("") == ""` |
| `Naming.TitleKeepsUnderscores` | lang/py/generate.py:79 | `title` neither adds nor removes underscores |
| `Naming.TitleWords` | lang/py/generate.py:79 | `title` of `uint8`, `u` and `offset` is `Uint8`, `U` and `Offset` |
| `Naming.CamelCaseOfPair` | lang/py/generate.py:79 | `camel_case` of two underscore-free words joined by `_` is their title cases run together |
| `Naming.CamelCaseUint8` | lang/py/generate.py:79 | `camel_case("uint8") == "Uint8"` |
| `Naming.CamelCaseUOffset` | lang/py/generate.py:79 | `camel_case("u_offset") == "UOffset"` |
| `Naming.PyGenMethod` | lang/py/generate.py:41-48 | for a primitive tag the builder method is `camel_case` of its C type name. Otherwise it is `Struct` exactly for STRUCT and `UOffsetTRelative` for any other tag. The name never holds an underscore |
| `Naming.PyGenGetter` | lang/py/generate.py:52-75 | the getter is `String` with no arguments exactly for STRING. Any other tag gets `Get` and one argument, `flatbuffers.number_types.<name>Flags`, with no underscore in `<name>`. `<name>` is `Int8` for UNION and ENUM. For VECTOR it is `camel_case` of the element type's C type name, and for any other tag `camel_case` of the tag's own C type name |

## Left out

- Real sockets, `socket.getaddrinfo`, `connect`, `recv` and `send` are not modelled. They are replaced by the answers they give: the candidate list, the accepting set and the reply queues. Blocking and timeouts are not modelled.
- `setTimeout` and the `settimeout` call in `open` are left out. They are float arithmetic on milliseconds plus a call into the socket library.
- Creating a socket object is taken to succeed. An error from `socket.socket(...)` inside `open` is not modelled. Handles of refused candidates are dropped without being closed, as in the source; the model records no close for them.
- The `res is not res0[-1]` identity test is modelled as "not the last position". Candidates are distinct objects in practice.
- `sys.platform` is a string given at construction. The numeric value of `errno.ECONNRESET` is not modelled: the errno is `ConnReset` or an opaque other code.
- The `TException` base class is not part of this model. An exception is its kind plus message.
- `Streams.ScriptedTransport` stands for any wrapped transport, because a `TBufferedTransport` can wrap only that class here. Its `Write`, `Flush` and `Open` fail with a fixed configured error or always succeed. Wrapping a `TSocket`, or another buffered transport, is not modelled.
- `readAll` is modelled once, on `ScriptedTransport`, the transport `cstringio_refill` calls it on. The `readAll` that `TBufferedTransport` and `TSocket` inherit is the same loop over their own `read` and is not repeated.
- Sockets.SendOnce: a send-reply queue that runs out is read as a send that takes 0 bytes, where a real socket would block.
- `generate_py` is left out: directory creation, file writes, `setattr` on the module and template rendering.
- `c_int_types` is left out. It depends on module metadata outside this model, and on a regular expression.
- The contents of the flatbuffers type tables (`FBSType._PRIMITIVE_TYPES`, `_VALUES_TO_PY_C_TYPES`) and `parse_types` are not modelled. They are the parameters of `TypeTables`: the primitive set, `py_gen_type`, and the element type of a vector.
- Naming.Title: `str.title()` is modelled on ASCII only. Any non-ASCII character is treated as uncased and left unchanged, where Python applies Unicode case mappings.
- Buffered.BufferedTransport.CStringIOBuf: Python hands out the transport's own `BytesIO` object, so a decoder reading through it moves the transport's cursor. The model returns the window as a value. Reads made on that value do not reach the transport, so the next `Read` would serve those bytes again. This aliasing is not modelled.
- Buffered.BufferedTransport.CStringIORefill: it returns the new window as a value too, not as the object the transport keeps. Consumption through the returned buffer is not modelled, for the same reason.
