/** TBufferedTransport (thriftpy/transport.py): a transport that wraps another
    one, serving reads from a look-ahead window that is replaced wholesale on
    each refill, and holding writes until `flush`. */
module Buffered {
  import opened TransportErrors
  import opened Streams

  const DEFAULT_BUFFER: int := 4096

  function Max(a: int, b: int): int {
    if a < b then b else a
  }

  /** An in-memory byte buffer with a read cursor (Python's BytesIO as the
      transport uses it). */
  datatype ByteWindow = ByteWindow(data: seq<byte>, pos: nat) {
    predicate Valid() {
      pos <= |data|
    }

    /** The bytes not yet read. */
    function Unread(): seq<byte>
      requires Valid()
    {
      data[pos..]
    }

    /** `read(sz)`: the next `sz` unread bytes, or all of them when fewer
        remain or `sz` is negative; the cursor moves past what is returned. */
    function Read(sz: int): (r: (seq<byte>, ByteWindow))
      requires Valid()
      ensures r.1.Valid() && r.1.data == data
      ensures r.0 + r.1.Unread() == Unread()
      ensures |r.0| == if sz < 0 || sz > |Unread()| then |Unread()| else sz
    {
      var n := if sz < 0 || pos + sz > |data| then |data| - pos else sz;
      assert data[pos..pos + n] + data[pos + n..] == data[pos..];
      (data[pos..pos + n], ByteWindow(data, pos + n))
    }
  }

  /** A read of zero bytes takes nothing from the window, so the transport's
      `read(0)` always goes to the inner transport and replaces the window,
      dropping any bytes still unread in it. */
  lemma ReadZeroTakesNothing(w: ByteWindow)
    requires w.Valid()
    ensures w.Read(0).0 == [] && w.Read(0).1 == w
  {
  }

  /** What `cstringio_refill(partial, reqlen)` does against the inner
      transport's reply queue `q`: an opportunistic read of a whole block
      when less than a block is required, then a readAll of the shortfall. */
  function RefillRun(q: seq<Reply>, partial: seq<byte>, reqlen: int, blockSize: int): Run {
    if reqlen < blockSize then
      var s := Serve(q, blockSize);
      var call := ReadCall(blockSize, s.result);
      match s.result
      case Err(e) => Run(Err(e), s.rest, [call])
      case Ok(extra) =>
        var topUp := TopUpRun(s.rest, partial + extra, reqlen);
        Run(topUp.result, topUp.rest, [call] + topUp.calls)
    else
      TopUpRun(q, partial, reqlen)
  }

  /** The guaranteed part of a refill: readAll of whatever `ret` still lacks. */
  function TopUpRun(q: seq<Reply>, ret: seq<byte>, reqlen: int): Run {
    if |ret| < reqlen then
      var run := ReadAllRun(q, reqlen - |ret|);
      Run(Prepend(ret, run.result), run.rest, run.calls)
    else Run(Ok(ret), q, [])
  }

  /** A refill that returns normally returns the bytes already consumed
      followed by everything its reads handed back, and at least `reqlen`
      bytes in all. */
  lemma RefillDelivers(q: seq<Reply>, partial: seq<byte>, reqlen: int, blockSize: int)
    ensures var run := RefillRun(q, partial, reqlen, blockSize);
      run.result.Ok? ==>
        run.result.value == partial + Gathered(run.calls) && |run.result.value| >= reqlen
  {
    var run := RefillRun(q, partial, reqlen, blockSize);
    if reqlen < blockSize {
      var s := Serve(q, blockSize);
      if s.result.Ok? {
        var extra := s.result.value;
        TopUpDelivers(s.rest, partial + extra, reqlen);
        var topUp := TopUpRun(s.rest, partial + extra, reqlen);
        assert run.calls == [ReadCall(blockSize, s.result)] + topUp.calls;
        assert Gathered(run.calls) == extra + Gathered(topUp.calls);
      }
    } else {
      TopUpDelivers(q, partial, reqlen);
    }
  }

  lemma TopUpDelivers(q: seq<Reply>, ret: seq<byte>, reqlen: int)
    ensures var run := TopUpRun(q, ret, reqlen);
      run.result.Ok? ==> run.result.value == ret + Gathered(run.calls) && |run.result.value| >= reqlen
  {
    if |ret| < reqlen {
      ReadAllConcatenates(q, reqlen - |ret|);
    }
  }

  /** The opportunistic block read happens exactly when less than a block is
      required: it is then the first call; otherwise every call is one of the
      readAll's, each asking for the shortfall, and none at all when the
      bytes already consumed are enough. */
  lemma RefillReadsBlockOnlyWhenShort(q: seq<Reply>, partial: seq<byte>, reqlen: int, blockSize: int)
    ensures var run := RefillRun(q, partial, reqlen, blockSize);
      (reqlen < blockSize ==> |run.calls| > 0 && run.calls[0] == ReadCall(blockSize, Serve(q, blockSize).result)) &&
      (reqlen >= blockSize ==> AsksShortfall(run.calls, reqlen - |partial|)) &&
      (reqlen >= blockSize && |partial| >= reqlen ==> run == Run(Ok(partial), q, []))
  {
    if reqlen >= blockSize && |partial| < reqlen {
      ReadAllAsksShortfall(q, reqlen - |partial|);
    }
  }

  class BufferedTransport {
    const trans: ScriptedTransport
    const rbufSize: int
    var wbuf: seq<byte>
    var rbuf: ByteWindow

    ghost predicate Valid()
      reads this
    {
      rbuf.Valid()
    }

    constructor (trans: ScriptedTransport, rbufSize: int := DEFAULT_BUFFER)
      ensures Valid() && this.trans == trans && this.rbufSize == rbufSize
      ensures wbuf == [] && rbuf == ByteWindow([], 0)
    {
      this.trans := trans;
      this.rbufSize := rbufSize;
      wbuf := [];
      rbuf := ByteWindow([], 0);
    }

    /** Open, close and isOpen are the inner transport's own. */
    function IsOpen(): (b: bool)
      reads this, trans
      ensures b == trans.connected
    {
      trans.IsOpen()
    }

    method Open() returns (r: Result<()>)
      modifies trans
      ensures trans.log == old(trans.log) + [OpenCall] && trans.replies == old(trans.replies)
      ensures r == (if trans.openFault.Some? then Err(trans.openFault.value) else Ok(()))
      ensures IsOpen() == (trans.openFault.None? || old(trans.connected))
    {
      r := trans.Open();
    }

    method Close()
      modifies trans
      ensures trans.log == old(trans.log) + [CloseCall] && trans.replies == old(trans.replies)
      ensures !IsOpen()
    {
      trans.Close();
    }

    /** `read(sz)`: from the window while it yields bytes, with no inner call;
        otherwise one inner read of max(sz, rbufSize) whose answer replaces
        the window, and the first bytes of it. */
    method Read(sz: int) returns (r: Result<seq<byte>>)
      requires Valid()
      modifies this, trans
      ensures Valid() && wbuf == old(wbuf) && trans.connected == old(trans.connected)
      ensures old(rbuf.Read(sz)).0 != [] ==>
                r == Ok(old(rbuf.Read(sz)).0) && rbuf == old(rbuf.Read(sz)).1 &&
                trans.log == old(trans.log) && trans.replies == old(trans.replies)
      ensures old(rbuf.Read(sz)).0 == [] ==>
                var s := Serve(old(trans.replies), Max(sz, rbufSize));
                trans.log == old(trans.log) + [ReadCall(Max(sz, rbufSize), s.result)] &&
                trans.replies == s.rest &&
                (s.result.Err? ==> r == Err(s.result.error) && rbuf == old(rbuf)) &&
                (s.result.Ok? ==>
                   r == Ok(ByteWindow(s.result.value, 0).Read(sz).0) &&
                   rbuf == ByteWindow(s.result.value, 0).Read(sz).1)
    {
      var (ret, after) := rbuf.Read(sz);
      rbuf := after;
      if |ret| != 0 {
        return Ok(ret);
      }
      var got := trans.Read(Max(sz, rbufSize));
      if got.Err? {
        return Err(got.error);
      }
      rbuf := ByteWindow(got.value, 0);
      var (first, rest) := rbuf.Read(sz);
      rbuf := rest;
      return Ok(first);
    }

    /** `write(buf)`: append to the pending bytes; no inner call. */
    method Write(buf: seq<byte>)
      modifies this
      ensures wbuf == old(wbuf) + buf && rbuf == old(rbuf)
    {
      wbuf := wbuf + buf;
    }

    /** `flush()`: the pending bytes are dropped first, then handed to one
        inner write, followed by one inner flush if the write succeeded. A
        failed inner call leaves the pending bytes gone. */
    method Flush() returns (r: Result<()>)
      modifies this, trans
      ensures wbuf == [] && rbuf == old(rbuf)
      ensures trans.replies == old(trans.replies) && trans.connected == old(trans.connected)
      ensures trans.log == old(trans.log) + [WriteCall(old(wbuf))] +
                           (if trans.writeFault.None? then [FlushCall] else [])
      ensures r == if trans.writeFault.Some? then Err(trans.writeFault.value)
                   else if trans.flushFault.Some? then Err(trans.flushFault.value)
                   else Ok(())
    {
      var out := wbuf;
      wbuf := [];
      var w := trans.Write(out);
      if w.Err? {
        return w;
      }
      r := trans.Flush();
    }

    /** `cstringio_buf`: the current window, cursor included. */
    function CStringIOBuf(): (w: ByteWindow)
      reads this
      requires Valid()
      ensures w.Valid() && w.Unread() == rbuf.Unread()
    {
      rbuf
    }

    /** `cstringio_refill(partialread, reqlen)`: a fresh window at position 0
        holding `partialread` followed by newly read bytes, at least `reqlen`
        of them in all; on a failed inner read the window is left as it was. */
    method CStringIORefill(partialread: seq<byte>, reqlen: int) returns (r: Result<ByteWindow>)
      requires Valid()
      modifies this, trans
      ensures Valid() && wbuf == old(wbuf) && trans.connected == old(trans.connected)
      ensures var run := RefillRun(old(trans.replies), partialread, reqlen, rbufSize);
        trans.replies == run.rest && trans.log == old(trans.log) + run.calls &&
        (run.result.Ok? ==> r == Ok(ByteWindow(run.result.value, 0)) && rbuf == r.value) &&
        (run.result.Err? ==> r == Err(run.result.error) && rbuf == old(rbuf))
    {
      var retstring := partialread;
      if reqlen < rbufSize {
        var extra := trans.Read(rbufSize);
        if extra.Err? {
          return Err(extra.error);
        }
        retstring := retstring + extra.value;
      }
      if |retstring| < reqlen {
        var more := trans.ReadAll(reqlen - |retstring|);
        if more.Err? {
          return Err(more.error);
        }
        retstring := retstring + more.value;
      }
      rbuf := ByteWindow(retstring, 0);
      return Ok(rbuf);
    }
  }

  /** Two writes and a flush reach the inner transport as one write of both
      payloads, in order, then one flush; a second flush right after hands
      on an empty payload. */
  method FlushCoalesces(first: seq<byte>, second: seq<byte>) returns (calls: seq<Call>)
    ensures calls == [WriteCall(first + second), FlushCall, WriteCall([]), FlushCall]
  {
    var inner := new ScriptedTransport([]);
    var buffered := new BufferedTransport(inner);
    buffered.Write(first);
    buffered.Write(second);
    assert buffered.wbuf == first + second;
    var r := buffered.Flush();
    assert inner.log == [WriteCall(first + second), FlushCall];
    r := buffered.Flush();
    calls := inner.log;
  }

  /** With nothing buffered, a small read asks the inner transport for a whole
      block once, and the next small read is served from the window without
      any inner call. */
  method SmallReadsShareOneBlock(stream: seq<byte>, k: int) returns (a: Result<seq<byte>>, b: Result<seq<byte>>, calls: seq<Call>)
    requires 0 < k && 2 * k <= |stream| <= DEFAULT_BUFFER
    ensures calls == [ReadCall(DEFAULT_BUFFER, Ok(stream))]
    ensures a == Ok(stream[..k]) && b == Ok(stream[k..2 * k])
  {
    var inner := new ScriptedTransport([Chunk(stream)]);
    var buffered := new BufferedTransport(inner);
    a := buffered.Read(k);
    b := buffered.Read(k);
    calls := inner.log;
  }
}
