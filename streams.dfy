/** The transport capability as the layers above see it, and the default
    `readAll` that every transport inherits (thriftpy/transport.py, class
    TTransportBase).

    A transport's peer is represented by a queue of replies: each `read(n)`
    takes the next reply; a chunk longer than `n` is cut to `n` bytes and the
    rest stays at the head of the queue, an empty chunk or an empty queue is
    an empty read (the peer has nothing more), and a `Raise` reply is an
    error the read raises. */
module Streams {
  import opened TransportErrors

  datatype Reply = Chunk(data: seq<byte>) | Raise(error: Error)

  /** A call made on a transport, with what it was asked and what it answered. */
  datatype Call =
    | ReadCall(ask: int, got: Result<seq<byte>>)
    | WriteCall(data: seq<byte>)
    | FlushCall
    | OpenCall
    | CloseCall

  datatype Served = Served(result: Result<seq<byte>>, rest: seq<Reply>)

  /** The answer to one `read(n)`: never more than `n` bytes, and exactly the
      bytes at the front of the stream, which leave the queue. */
  function Serve(q: seq<Reply>, n: int): (s: Served)
    ensures s.result.Ok? ==> |s.result.value| <= if n < 0 then 0 else n
    ensures s.result.Ok? && s.result.value != [] ==>
              Available(q) == s.result.value + Available(s.rest) && Ending(q) == Ending(s.rest)
    ensures n > 0 && s.result.Ok? && s.result.value == [] ==> Available(q) == [] && Ending(q) == EndOfStream
    ensures n > 0 && s.result.Err? ==> Available(q) == [] && Ending(q) == s.result.error
  {
    if q == [] then Served(Ok([]), [])
    else match q[0]
      case Raise(e) => Served(Err(e), q[1..])
      case Chunk(d) =>
        if n <= 0 then Served(Ok([]), q)
        else if |d| <= n then Served(Ok(d), q[1..])
        else Served(Ok(d[..n]), [Chunk(d[n..])] + q[1..])
  }

  /** The bytes the peer will deliver before the stream ends. */
  function Available(q: seq<Reply>): seq<byte> {
    if q == [] then []
    else match q[0]
      case Raise(_) => []
      case Chunk(d) => if d == [] then [] else d + Available(q[1..])
  }

  /** How the stream ends once `Available(q)` is used up: an empty read
      (reported by readAll as EOFError) or the error the peer raises. */
  function Ending(q: seq<Reply>): Error {
    if q == [] then EndOfStream
    else match q[0]
      case Raise(e) => e
      case Chunk(d) => if d == [] then EndOfStream else Ending(q[1..])
  }

  /** The bytes a read call handed back (none when it raised). */
  function Returned(c: Call): seq<byte> {
    if c.ReadCall? && c.got.Ok? then c.got.value else []
  }

  /** The bytes a sequence of calls handed back, in call order. */
  function Gathered(calls: seq<Call>): seq<byte> {
    if calls == [] then [] else Returned(calls[0]) + Gathered(calls[1..])
  }

  function Prepend(prefix: seq<byte>, r: Result<seq<byte>>): Result<seq<byte>> {
    match r
    case Ok(v) => Ok(prefix + v)
    case Err(e) => Err(e)
  }

  lemma PrependTwice(a: seq<byte>, b: seq<byte>, r: Result<seq<byte>>)
    ensures Prepend(a, Prepend(b, r)) == Prepend(a + b, r)
  {
    if r.Ok? {
      assert a + (b + r.value) == (a + b) + r.value;
    }
  }

  /** A whole `readAll`: its outcome, the queue it leaves and the reads it made. */
  datatype Run = Run(result: Result<seq<byte>>, rest: seq<Reply>, calls: seq<Call>)

  /** `readAll(sz)` against the queue `q`, one inner read per step, each asking
      for the bytes still missing. */
  function ReadAllRun(q: seq<Reply>, sz: int): Run
    decreases sz
  {
    if sz <= 0 then Run(Ok([]), q, [])
    else
      var s := Serve(q, sz);
      var call := ReadCall(sz, s.result);
      match s.result
      case Err(e) => Run(Err(e), s.rest, [call])
      case Ok(chunk) =>
        if chunk == [] then Run(Err(EndOfStream), s.rest, [call])
        else
          var run := ReadAllRun(s.rest, sz - |chunk|);
          Run(Prepend(chunk, run.result), run.rest, [call] + run.calls)
  }

  /** With nothing to read, readAll makes no read and returns no bytes. */
  lemma ReadAllNothing(q: seq<Reply>, sz: int)
    requires sz <= 0
    ensures ReadAllRun(q, sz) == Run(Ok([]), q, [])
  {
  }

  /** The first read in `calls` asked for `sz` bytes and each later one for
      what was still missing after the bytes the earlier ones handed back. */
  predicate AsksShortfall(calls: seq<Call>, sz: int) {
    calls == [] ||
    (calls[0].ReadCall? && calls[0].ask == sz &&
     AsksShortfall(calls[1..], sz - |Returned(calls[0])|))
  }

  /** Every inner read of readAll asks for exactly the bytes still missing. */
  lemma {:induction false} ReadAllAsksShortfall(q: seq<Reply>, sz: int)
    ensures AsksShortfall(ReadAllRun(q, sz).calls, sz)
    decreases sz
  {
    if sz > 0 {
      var s := Serve(q, sz);
      if s.result.Ok? && s.result.value != [] {
        var chunk := s.result.value;
        ReadAllAsksShortfall(s.rest, sz - |chunk|);
        var calls := ReadAllRun(q, sz).calls;
        assert calls[1..] == ReadAllRun(s.rest, sz - |chunk|).calls;
      }
    }
  }

  /** Read by read: the `i`-th read asked for `sz` less everything the reads
      before it handed back. */
  lemma {:induction false} AsksShortfallAt(calls: seq<Call>, sz: int, i: nat)
    requires AsksShortfall(calls, sz) && i < |calls|
    ensures calls[i].ReadCall? && calls[i].ask == sz - |Gathered(calls[..i])|
    decreases i
  {
    if i == 0 {
      assert calls[..i] == [];
    } else {
      AsksShortfallAt(calls[1..], sz - |Returned(calls[0])|, i - 1);
      assert calls[..i] == [calls[0]] + calls[1..][..i - 1];
    }
  }

  /** A readAll that returns normally returns the in-order concatenation of
      what its reads answered, exactly `sz` bytes, and every read answered a
      nonempty chunk no longer than it asked for. */
  lemma {:induction false} ReadAllConcatenates(q: seq<Reply>, sz: int)
    ensures var run := ReadAllRun(q, sz);
      run.result.Ok? ==>
        run.result.value == Gathered(run.calls) &&
        |run.result.value| == (if sz < 0 then 0 else sz) &&
        forall i :: 0 <= i < |run.calls| ==>
          run.calls[i].ReadCall? && run.calls[i].got.Ok? &&
          0 < |run.calls[i].got.value| <= run.calls[i].ask
    decreases sz
  {
    if sz > 0 {
      var s := Serve(q, sz);
      if s.result.Ok? && s.result.value != [] {
        var chunk := s.result.value;
        ReadAllConcatenates(s.rest, sz - |chunk|);
      }
    }
  }

  /** The reads in `calls` each handed back bytes, except the last, which
      handed back nothing (and `e` is EOFError) or raised `e`. */
  predicate FailsAtLast(calls: seq<Call>, e: Error) {
    |calls| > 0 && calls[0].ReadCall? &&
    if |calls| == 1 then
      (calls[0].got == Ok([]) && e == EndOfStream) || calls[0].got == Err(e)
    else
      calls[0].got.Ok? && calls[0].got.value != [] && FailsAtLast(calls[1..], e)
  }

  /** A readAll that fails stops at the first read that answered nothing (and
      then raises EOFError) or raised (and then raises the same error); every
      earlier read answered bytes, which the failure discards. */
  lemma {:induction false} ReadAllStopsAtEmptyRead(q: seq<Reply>, sz: int)
    ensures var run := ReadAllRun(q, sz);
      run.result.Err? ==> FailsAtLast(run.calls, run.result.error)
    decreases sz
  {
    if sz > 0 {
      var s := Serve(q, sz);
      var call := ReadCall(sz, s.result);
      if s.result.Ok? && s.result.value != [] {
        var chunk := s.result.value;
        var tail := ReadAllRun(s.rest, sz - |chunk|);
        ReadAllStopsAtEmptyRead(s.rest, sz - |chunk|);
        assert ReadAllRun(q, sz) == Run(Prepend(chunk, tail.result), tail.rest, [call] + tail.calls);
        assert ([call] + tail.calls)[1..] == tail.calls;
      } else {
        var e := if s.result.Err? then s.result.error else EndOfStream;
        assert ReadAllRun(q, sz) == Run(Err(e), s.rest, [call]);
      }
    }
  }

  /** Read by read: every read but the last handed back bytes, and the last
      one handed back nothing (EOFError) or raised the error. */
  lemma {:induction false} FailsAtLastAt(calls: seq<Call>, e: Error, i: nat)
    requires FailsAtLast(calls, e) && i < |calls|
    ensures calls[i].ReadCall?
    ensures i < |calls| - 1 ==> calls[i].got.Ok? && calls[i].got.value != []
    ensures i == |calls| - 1 ==> (calls[i].got == Ok([]) && e == EndOfStream) || calls[i].got == Err(e)
    decreases i
  {
    if i > 0 {
      FailsAtLastAt(calls[1..], e, i - 1);
    }
  }

  /** readAll(sz) succeeds exactly when the peer has at least `sz` bytes before
      its stream ends, and then returns the first `sz` of them; otherwise it
      raises what ends the stream. */
  lemma {:induction false} ReadAllReadsPrefix(q: seq<Reply>, sz: int)
    requires sz > 0
    ensures var run := ReadAllRun(q, sz);
      (run.result.Ok? <==> sz <= |Available(q)|) &&
      (run.result.Ok? ==> run.result.value == Available(q)[..sz]) &&
      (run.result.Err? ==> run.result.error == Ending(q))
    decreases sz
  {
    var s := Serve(q, sz);
    if s.result.Ok? && s.result.value != [] {
      var chunk := s.result.value;
      if sz - |chunk| > 0 {
        ReadAllReadsPrefix(s.rest, sz - |chunk|);
        var tail := ReadAllRun(s.rest, sz - |chunk|);
        if tail.result.Ok? {
          assert Available(q)[..sz] == chunk + Available(s.rest)[..sz - |chunk|];
        }
      } else {
        assert Available(q)[..sz] == chunk;
      }
    }
  }

  /** Loop state of readAll: the whole run is the bytes gathered so far, then
      the run of the remaining shortfall. */
  ghost predicate ReadAllResumes(run0: Run, log0: seq<Call>, buff: seq<byte>, run: Run, log: seq<Call>) {
    run0.result == Prepend(buff, run.result) && run0.rest == run.rest && log0 + run0.calls == log + run.calls
  }

  lemma ReadAllStep(q: seq<Reply>, n: int, run0: Run, log0: seq<Call>, buff: seq<byte>, log: seq<Call>)
    requires n > 0 && Serve(q, n).result.Ok? && Serve(q, n).result.value != []
    requires ReadAllResumes(run0, log0, buff, ReadAllRun(q, n), log)
    ensures var chunk := Serve(q, n).result.value;
      ReadAllResumes(run0, log0, buff + chunk, ReadAllRun(Serve(q, n).rest, n - |chunk|),
                     log + [ReadCall(n, Serve(q, n).result)])
  {
    var s := Serve(q, n);
    var chunk := s.result.value;
    var call := ReadCall(n, s.result);
    var tail := ReadAllRun(s.rest, n - |chunk|);
    assert ReadAllRun(q, n) == Run(Prepend(chunk, tail.result), tail.rest, [call] + tail.calls);
    PrependTwice(buff, chunk, tail.result);
    assert log + ([call] + tail.calls) == (log + [call]) + tail.calls;
  }

  /** A transport as the layers above it see it: reads answered from a reply
      queue, and a record of every call made on it. Writes, flushes and opens
      fail with a fixed error when one is configured. */
  class ScriptedTransport {
    var replies: seq<Reply>
    var log: seq<Call>
    var connected: bool
    const writeFault: Option<Error>
    const flushFault: Option<Error>
    const openFault: Option<Error>

    constructor (replies: seq<Reply>, writeFault: Option<Error> := None,
                 flushFault: Option<Error> := None, openFault: Option<Error> := None)
      ensures this.replies == replies && log == [] && !connected
      ensures this.writeFault == writeFault && this.flushFault == flushFault && this.openFault == openFault
    {
      this.replies := replies;
      log := [];
      connected := false;
      this.writeFault := writeFault;
      this.flushFault := flushFault;
      this.openFault := openFault;
    }

    function IsOpen(): bool
      reads this
    {
      connected
    }

    method Open() returns (r: Result<()>)
      modifies this
      ensures log == old(log) + [OpenCall] && replies == old(replies)
      ensures r == (if openFault.Some? then Err(openFault.value) else Ok(()))
      ensures connected == (openFault.None? || old(connected))
    {
      log := log + [OpenCall];
      if openFault.Some? {
        return Err(openFault.value);
      }
      connected := true;
      return Ok(());
    }

    method Close()
      modifies this
      ensures log == old(log) + [CloseCall] && replies == old(replies) && !connected
    {
      log := log + [CloseCall];
      connected := false;
    }

    /** One `read(n)`: the front of the peer's stream, at most `n` bytes. */
    method Read(n: int) returns (r: Result<seq<byte>>)
      modifies this
      ensures r == Serve(old(replies), n).result && replies == Serve(old(replies), n).rest
      ensures log == old(log) + [ReadCall(n, r)] && connected == old(connected)
    {
      var s := Serve(replies, n);
      replies := s.rest;
      log := log + [ReadCall(n, s.result)];
      return s.result;
    }

    method Write(data: seq<byte>) returns (r: Result<()>)
      modifies this
      ensures log == old(log) + [WriteCall(data)] && replies == old(replies) && connected == old(connected)
      ensures r == (if writeFault.Some? then Err(writeFault.value) else Ok(()))
    {
      log := log + [WriteCall(data)];
      if writeFault.Some? {
        return Err(writeFault.value);
      }
      return Ok(());
    }

    method Flush() returns (r: Result<()>)
      modifies this
      ensures log == old(log) + [FlushCall] && replies == old(replies) && connected == old(connected)
      ensures r == (if flushFault.Some? then Err(flushFault.value) else Ok(()))
    {
      log := log + [FlushCall];
      if flushFault.Some? {
        return Err(flushFault.value);
      }
      return Ok(());
    }

    /** TTransportBase.readAll: read until `sz` bytes are gathered, asking
        each time for the shortfall; an empty read raises EOFError. */
    method ReadAll(sz: int) returns (r: Result<seq<byte>>)
      modifies this
      ensures r == ReadAllRun(old(replies), sz).result
      ensures replies == ReadAllRun(old(replies), sz).rest
      ensures log == old(log) + ReadAllRun(old(replies), sz).calls
      ensures connected == old(connected)
    {
      ghost var run0 := ReadAllRun(replies, sz);
      ghost var log0 := log;
      var buff: seq<byte> := [];
      var have := 0;
      assert sz - have == sz && log0 + run0.calls == log + run0.calls;
      assert Prepend(buff, run0.result) == run0.result by {
        if run0.result.Ok? { assert buff + run0.result.value == run0.result.value; }
      }
      while have < sz
        invariant have == |buff|
        invariant ReadAllResumes(run0, log0, buff, ReadAllRun(replies, sz - have), log)
        invariant connected == old(connected)
        decreases sz - have
      {
        ghost var before := replies;
        ghost var prior := log;
        var chunk := Read(sz - have);
        if chunk.Err? {
          return Err(chunk.error);
        }
        if |chunk.value| == 0 {
          return Err(EndOfStream);
        }
        ReadAllStep(before, sz - have, run0, log0, buff, prior);
        have := have + |chunk.value|;
        buff := buff + chunk.value;
      }
      assert buff + [] == buff;
      return Ok(buff);
    }
  }
}
