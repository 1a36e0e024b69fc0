/** TSocketBase and TSocket (thriftpy/transport.py): a transport over one
    socket handle. The operating system is represented by what it answers:
    the resolver's candidate list, the set of candidates that accept a
    connection, a queue of replies to `recv` and a queue of replies to
    `send`. */
module Sockets {
  import opened TransportErrors
  import opened Streams

  datatype Family = Unix | Inet | Inet6
  datatype SockAddr = UnixPath(path: string) | HostPort(host: string, port: int)

  /** One resolved address to try (family and socket address). */
  datatype Candidate = Candidate(family: Family, addr: SockAddr)

  /** A socket object, created for one candidate. */
  datatype Handle = Handle(target: Candidate)

  /** How the peer answers one `send`: it takes up to `limit` bytes, or the
      call raises a socket error. */
  datatype SendReply = Accept(limit: nat) | SendRaise(errno: Errno)

  /** One `send` call: the bytes offered and what the call answered. */
  datatype SendCall = SendCall(offered: seq<byte>, got: Result<nat>)

  /** `_resolveAddr`: a Unix path overrides host and port and gives a single
      Unix-domain candidate; otherwise the resolver's answer (None when it
      raised) is taken as it is, in its order. */
  function ResolveAddr(unixSocket: Option<string>, lookup: Option<seq<Candidate>>): (r: Option<seq<Candidate>>)
    ensures unixSocket.Some? ==> r == Some([Candidate(Unix, UnixPath(unixSocket.value))])
    ensures unixSocket.None? ==> r == lookup
  {
    match unixSocket
    case Some(path) => Some([Candidate(Unix, UnixPath(path))])
    case None => lookup
  }

  /** The position of the first candidate that accepts a connection, or the
      length of the list when none does. */
  function FirstListening(cands: seq<Candidate>, listening: set<Candidate>): (k: nat)
    ensures k <= |cands|
    ensures forall i :: 0 <= i < k ==> cands[i] !in listening
    ensures k < |cands| ==> cands[k] in listening
  {
    if cands == [] then 0
    else if cands[0] in listening then 0
    else 1 + FirstListening(cands[1..], listening)
  }

  /** The first accepting position is the one every earlier candidate refuses
      and that itself accepts (or the end of the list). */
  lemma {:induction false} FirstListeningIs(cands: seq<Candidate>, listening: set<Candidate>, k: nat)
    requires k <= |cands|
    requires forall i :: 0 <= i < k ==> cands[i] !in listening
    requires k < |cands| ==> cands[k] in listening
    ensures FirstListening(cands, listening) == k
    decreases k
  {
    if k > 0 {
      assert cands[0] !in listening;
      FirstListeningIs(cands[1..], listening, k - 1);
    }
  }

  /** When only the last of `n` candidates accepts, open tries all `n` and
      connects to the last, after `n - 1` failed attempts. */
  lemma OnlyLastListening(cands: seq<Candidate>, listening: set<Candidate>)
    requires cands != [] && cands[|cands| - 1] in listening
    requires forall i :: 0 <= i < |cands| - 1 ==> cands[i] !in listening
    ensures FirstListening(cands, listening) == |cands| - 1
  {
  }

  /** Platforms whose `recv` fails with ECONNRESET after an orderly shutdown by
      the peer, where that error is read as end of file. */
  predicate TreatAsEof(e: Error, platform: string): (b: bool)
    ensures b <==> e == SocketError(ConnReset) && (platform == "darwin" || "freebsd" <= platform)
  {
    e == SocketError(ConnReset) &&
    (platform == "darwin" || (|platform| >= 7 && platform[..7] == "freebsd"))
  }

  /** The answer to one `send(offered)`: never more than was offered; an
      exhausted queue means the peer takes nothing more. */
  function SendOnce(q: seq<SendReply>, offered: seq<byte>): (r: (Result<nat>, seq<SendReply>))
    ensures r.0.Ok? ==> r.0.value <= |offered|
    ensures q != [] ==> r.1 == q[1..]
  {
    if q == [] then (Ok(0), [])
    else match q[0]
      case Accept(limit) => (Ok(if limit < |offered| then limit else |offered|), q[1..])
      case SendRaise(e) => (Err(SocketError(e)), q[1..])
  }

  /** The bytes one send call handed to the peer. */
  function Accepted(c: SendCall): nat {
    if c.got.Ok? && c.got.value <= |c.offered| then c.got.value else 0
  }

  /** The bytes a sequence of send calls handed to the peer, in order. */
  function Delivered(calls: seq<SendCall>): seq<byte> {
    if calls == [] then [] else calls[0].offered[..Accepted(calls[0])] + Delivered(calls[1..])
  }

  function TotalAccepted(calls: seq<SendCall>): nat {
    if calls == [] then 0 else Accepted(calls[0]) + TotalAccepted(calls[1..])
  }

  /** The first call offered all of `buff` and each later one the suffix the
      earlier ones left unsent. */
  predicate OffersUnsent(calls: seq<SendCall>, buff: seq<byte>) {
    calls == [] ||
    (calls[0].offered == buff && Accepted(calls[0]) <= |buff| &&
     OffersUnsent(calls[1..], buff[Accepted(calls[0])..]))
  }

  datatype SendRun = SendRun(result: Result<()>, rest: seq<SendReply>, calls: seq<SendCall>)

  /** The send loop of `write(buff)` against the reply queue `q`. */
  function SendAllRun(buff: seq<byte>, q: seq<SendReply>): SendRun
    decreases |buff|
  {
    if buff == [] then SendRun(Ok(()), q, [])
    else
      var (got, rest) := SendOnce(q, buff);
      var call := SendCall(buff, got);
      match got
      case Err(e) => SendRun(Err(e), rest, [call])
      case Ok(plus) =>
        if plus == 0 then SendRun(Err(TransportError(EndOfFile, "TSocket sent 0 bytes")), rest, [call])
        else
          var run := SendAllRun(buff[plus..], rest);
          SendRun(run.result, run.rest, [call] + run.calls)
  }

  /** A write that returns normally handed the peer exactly `buff`, in order:
      every call offered the unsent suffix, every call took at least one byte,
      and the counts taken add up to the length of `buff`. */
  lemma {:induction false} SendAllDelivers(buff: seq<byte>, q: seq<SendReply>)
    ensures var run := SendAllRun(buff, q);
      run.result.Ok? ==>
        Delivered(run.calls) == buff && TotalAccepted(run.calls) == |buff| &&
        OffersUnsent(run.calls, buff) &&
        forall i :: 0 <= i < |run.calls| ==> Accepted(run.calls[i]) > 0
    decreases |buff|
  {
    if buff != [] {
      var (got, rest) := SendOnce(q, buff);
      if got.Ok? && got.value > 0 {
        var plus := got.value;
        SendAllDelivers(buff[plus..], rest);
        var run := SendAllRun(buff, q);
        var tail := SendAllRun(buff[plus..], rest);
        if tail.result.Ok? {
          assert run.calls == [SendCall(buff, got)] + tail.calls;
          assert run.calls[1..] == tail.calls;
          assert buff == buff[..plus] + buff[plus..];
        }
      }
    }
  }

  /** A write that fails stops at the first send that raised (with that
      error) or took nothing (with END_OF_FILE); every earlier send took
      bytes. */
  lemma {:induction false} SendAllStopsAtRefusal(buff: seq<byte>, q: seq<SendReply>)
    ensures var run := SendAllRun(buff, q);
      run.result.Err? ==>
        |run.calls| > 0 &&
        (forall i :: 0 <= i < |run.calls| - 1 ==> Accepted(run.calls[i]) > 0) &&
        var last := run.calls[|run.calls| - 1];
        (last.got == Err(run.result.error) ||
         (last.got == Ok(0) && run.result == Err(TransportError(EndOfFile, "TSocket sent 0 bytes"))))
    decreases |buff|
  {
    if buff != [] {
      var (got, rest) := SendOnce(q, buff);
      if got.Ok? && got.value > 0 {
        SendAllStopsAtRefusal(buff[got.value..], rest);
      }
    }
  }

  /** The decimal digits of `n`, most significant first. */
  function NatToDecimal(n: nat): (s: string)
    ensures s != [] && forall i :: 0 <= i < |s| ==> '0' <= s[i] <= '9'
    ensures s[0] == '0' ==> n == 0
  {
    if n < 10 then [(n + '0' as int) as char]
    else NatToDecimal(n / 10) + [((n % 10) + '0' as int) as char]
  }

  /** `%d` of an integer: a minus sign exactly when it is negative, then the
      decimal digits of its magnitude. */
  function IntToDecimal(n: int): (s: string)
    ensures s != [] && (s[0] == '-' <==> n < 0)
    ensures var digits := if n < 0 then s[1..] else s;
      digits != [] && (forall i :: 0 <= i < |digits| ==> '0' <= digits[i] <= '9') &&
      DecimalValue(digits) == (if n < 0 then -n else n) &&
      (digits[0] == '0' ==> n == 0)
  {
    if n < 0 then
      DecimalRoundTrip(-n);
      assert ("-" + NatToDecimal(-n))[1..] == NatToDecimal(-n);
      "-" + NatToDecimal(-n)
    else
      DecimalRoundTrip(n);
      NatToDecimal(n)
  }

  /** The value of a string of decimal digits. */
  function DecimalValue(s: string): int {
    if s == [] then 0 else 10 * DecimalValue(s[..|s| - 1]) + (s[|s| - 1] as int - '0' as int)
  }

  /** Reading back the digits of `n` gives `n`. */
  lemma {:induction false} DecimalRoundTrip(n: nat)
    ensures DecimalValue(NatToDecimal(n)) == n
  {
    if n >= 10 {
      DecimalRoundTrip(n / 10);
      var s := NatToDecimal(n);
      assert s[..|s| - 1] == NatToDecimal(n / 10);
    }
  }

  /** The message of the NOT_OPEN raised when no candidate connects: it names
      the Unix path when one is set (and not empty), otherwise `host:port`. */
  function ConnectFailure(host: string, port: int, unixSocket: Option<string>): (m: string)
    ensures unixSocket.Some? && unixSocket.value != [] ==>
              m == "Could not connect to socket " + unixSocket.value
    ensures !(unixSocket.Some? && unixSocket.value != []) ==>
              m == "Could not connect to " + host + ":" + IntToDecimal(port)
  {
    if unixSocket.Some? && unixSocket.value != [] then "Could not connect to socket " + unixSocket.value
    else "Could not connect to " + host + ":" + IntToDecimal(port)
  }

  class TSocket {
    const host: string
    const port: int
    const unixSocket: Option<string>
    const platform: string
    var handle: Option<Handle>
    /** Handles closed so far, in order. */
    var closed: seq<Handle>
    /** Candidates a connect was attempted on, in order. */
    var attempts: seq<Candidate>
    /** What the peer will answer to the coming `recv` calls. */
    var incoming: seq<Reply>
    /** What the peer will answer to the coming `send` calls. */
    var accepts: seq<SendReply>
    /** Every `send` call made, in order. */
    var sends: seq<SendCall>

    constructor (host: string := "localhost", port: int := 9090, unixSocket: Option<string> := None,
                 platform: string := "linux", incoming: seq<Reply> := [], accepts: seq<SendReply> := [])
      ensures this.host == host && this.port == port && this.unixSocket == unixSocket
      ensures this.platform == platform && this.incoming == incoming && this.accepts == accepts
      ensures handle == None && closed == [] && attempts == [] && sends == []
    {
      this.host := host;
      this.port := port;
      this.unixSocket := unixSocket;
      this.platform := platform;
      this.incoming := incoming;
      this.accepts := accepts;
      handle := None;
      closed := [];
      attempts := [];
      sends := [];
    }

    method SetHandle(h: Option<Handle>)
      modifies this`handle
      ensures handle == h
    {
      handle := h;
    }

    function IsOpen(): (b: bool)
      reads this
      ensures b <==> handle != None
    {
      handle.Some?
    }

    /** `close()`: close the handle if there is one and forget it; a no-op
        otherwise. */
    method Close()
      modifies this`handle, this`closed
      ensures handle == None
      ensures closed == old(closed) + (if old(handle).Some? then [old(handle).value] else [])
    {
      if handle.Some? {
        closed := closed + [handle.value];
        handle := None;
      }
    }

    /** `open()` with the resolver answering `lookup` and the candidates in
        `listening` accepting connections. */
    method Open(lookup: Option<seq<Candidate>>, listening: set<Candidate>) returns (r: Result<()>)
      modifies this`handle, this`attempts
      ensures var res := ResolveAddr(unixSocket, lookup);
        var failure := Err(TransportError(NotOpen, ConnectFailure(host, port, unixSocket)));
        (res.None? ==> r == failure && handle == old(handle) && attempts == old(attempts)) &&
        (res.Some? && res.value == [] ==> r == Ok(()) && handle == old(handle) && attempts == old(attempts)) &&
        (res.Some? && res.value != [] ==>
           var k := FirstListening(res.value, listening);
           (k < |res.value| ==>
              r == Ok(()) && handle == Some(Handle(res.value[k])) &&
              attempts == old(attempts) + res.value[..k + 1]) &&
           (k == |res.value| ==>
              r == failure && handle == Some(Handle(res.value[|res.value| - 1])) &&
              attempts == old(attempts) + res.value))
    {
      var res0 := ResolveAddr(unixSocket, lookup);
      if res0.None? {
        return Err(TransportError(NotOpen, ConnectFailure(host, port, unixSocket)));
      }
      var cands := res0.value;
      var i := 0;
      while i < |cands|
        invariant 0 <= i <= |cands| && (cands != [] ==> i < |cands|)
        invariant forall j :: 0 <= j < i ==> cands[j] !in listening
        invariant attempts == old(attempts) + cands[..i]
        invariant handle == if i == 0 then old(handle) else Some(Handle(cands[i - 1]))
      {
        handle := Some(Handle(cands[i]));
        attempts := attempts + [cands[i]];
        assert cands[..i + 1] == cands[..i] + [cands[i]];
        if cands[i] in listening {
          FirstListeningIs(cands, listening, i);
          return Ok(());
        }
        if i == |cands| - 1 {
          FirstListeningIs(cands, listening, |cands|);
          assert cands[..i + 1] == cands;
          return Err(TransportError(NotOpen, ConnectFailure(host, port, unixSocket)));
        }
        i := i + 1;
      }
      return Ok(());
    }

    /** `read(sz)`: one `recv(sz)`. An empty answer, and an ECONNRESET on the
        platforms that report an orderly shutdown that way (after closing the
        handle), raise END_OF_FILE; any other error passes through. */
    method Read(sz: int) returns (r: Result<seq<byte>>)
      modifies this`handle, this`closed, this`incoming
      ensures r.Ok? ==> 0 < |r.value| <= sz
      ensures old(handle).None? ==> r == Err(NoHandle) && unchanged(this)
      ensures old(handle).Some? && sz < 0 ==> r == Err(BadSize) && unchanged(this)
      ensures old(handle).Some? && sz >= 0 ==>
        var s := Serve(old(incoming), sz);
        var eof := Err(TransportError(EndOfFile, "TSocket read 0 bytes"));
        incoming == s.rest &&
        (s.result.Ok? && s.result.value != [] ==> r == s.result && handle == old(handle) && closed == old(closed)) &&
        (s.result.Ok? && s.result.value == [] ==> r == eof && handle == old(handle) && closed == old(closed)) &&
        (s.result.Err? && TreatAsEof(s.result.error, platform) ==>
           r == eof && handle == None && closed == old(closed) + [old(handle).value]) &&
        (s.result.Err? && !TreatAsEof(s.result.error, platform) ==>
           r == s.result && handle == old(handle) && closed == old(closed))
    {
      if handle.None? {
        return Err(NoHandle);
      }
      if sz < 0 {
        return Err(BadSize);
      }
      var s := Serve(incoming, sz);
      incoming := s.rest;
      var buff: seq<byte>;
      if s.result.Err? {
        if TreatAsEof(s.result.error, platform) {
          Close();
          buff := [];
        } else {
          return s.result;
        }
      } else {
        buff := s.result.value;
      }
      if |buff| == 0 {
        return Err(TransportError(EndOfFile, "TSocket read 0 bytes"));
      }
      return Ok(buff);
    }

    /** `write(buff)`: NOT_OPEN without a handle; otherwise send the unsent
        suffix until every byte is taken, END_OF_FILE when a send takes none. */
    method Write(buff: seq<byte>) returns (r: Result<()>)
      modifies this`accepts, this`sends
      ensures old(handle).None? ==>
                r == Err(TransportError(NotOpen, "Transport not open")) &&
                accepts == old(accepts) && sends == old(sends)
      ensures old(handle).Some? ==>
                var run := SendAllRun(buff, old(accepts));
                r == run.result && accepts == run.rest && sends == old(sends) + run.calls
    {
      if handle.None? {
        return Err(TransportError(NotOpen, "Transport not open"));
      }
      ghost var run0 := SendAllRun(buff, accepts);
      ghost var sends0 := sends;
      var sent := 0;
      var have := |buff|;
      var rest := buff;
      while sent < have
        invariant 0 <= sent <= have && rest == buff[sent..]
        invariant run0 == SendRun(SendAllRun(rest, accepts).result, SendAllRun(rest, accepts).rest, run0.calls)
        invariant sends0 + run0.calls == sends + SendAllRun(rest, accepts).calls
        decreases have - sent
      {
        ghost var before := accepts;
        var (got, left) := SendOnce(accepts, rest);
        accepts := left;
        sends := sends + [SendCall(rest, got)];
        if got.Err? {
          return Err(got.error);
        }
        var plus := got.value;
        if plus == 0 {
          return Err(TransportError(EndOfFile, "TSocket sent 0 bytes"));
        }
        assert SendAllRun(rest, before).calls == [SendCall(rest, got)] + SendAllRun(rest[plus..], left).calls;
        sent := sent + plus;
        rest := rest[plus..];
      }
      return Ok(());
    }

    /** `flush()`: nothing is buffered here, so nothing to do. */
    method Flush() returns (r: Result<()>)
      ensures r == Ok(())
    {
      return Ok(());
    }
  }

  lemma SendInThreesRun(buff: seq<byte>)
    requires |buff| == 10
    ensures var run := SendAllRun(buff, [Accept(3), Accept(3), Accept(3), Accept(3)]);
      run.result == Ok(()) && |run.calls| == 4 &&
      Accepted(run.calls[0]) == 3 && Accepted(run.calls[1]) == 3 &&
      Accepted(run.calls[2]) == 3 && Accepted(run.calls[3]) == 1
  {
    var q := [Accept(3), Accept(3), Accept(3), Accept(3)];
    assert SendAllRun(buff[10..], []) == SendRun(Ok(()), [], []);
    assert buff[9..][1..] == buff[10..];
    var r3 := SendAllRun(buff[9..], q[3..]);
    assert r3 == SendRun(Ok(()), [], [SendCall(buff[9..], Ok(1))]);
    assert buff[6..][3..] == buff[9..];
    var r2 := SendAllRun(buff[6..], q[2..]);
    assert r2.calls == [SendCall(buff[6..], Ok(3))] + r3.calls;
    assert buff[3..][3..] == buff[6..];
    var r1 := SendAllRun(buff[3..], q[1..]);
    assert r1.calls == [SendCall(buff[3..], Ok(3))] + r2.calls;
    var r0 := SendAllRun(buff, q);
    assert r0.calls == [SendCall(buff, Ok(3))] + r1.calls;
  }

  /** A peer that takes at most 3 bytes per send receives a 10-byte write in
      four sends, of 3, 3, 3 and 1 bytes. */
  method SendInThrees(buff: seq<byte>) returns (r: Result<()>, taken: seq<nat>)
    requires |buff| == 10
    ensures r == Ok(())
    ensures taken == [3, 3, 3, 1]
  {
    var sock := new TSocket(accepts := [Accept(3), Accept(3), Accept(3), Accept(3)]);
    sock.SetHandle(Some(Handle(Candidate(Inet, HostPort("localhost", 9090)))));
    SendInThreesRun(buff);
    r := sock.Write(buff);
    taken := [];
    var i := 0;
    while i < |sock.sends|
      invariant 0 <= i <= |sock.sends| && |taken| == i
      invariant forall j :: 0 <= j < i ==> taken[j] == Accepted(sock.sends[j])
    {
      taken := taken + [Accepted(sock.sends[i])];
      i := i + 1;
    }
  }

  /** Closing twice closes the handle once. */
  method CloseTwice(h: Handle) returns (closedHandles: seq<Handle>, open: bool)
    ensures closedHandles == [h] && !open
  {
    var sock := new TSocket();
    sock.SetHandle(Some(h));
    sock.Close();
    sock.Close();
    closedHandles := sock.closed;
    open := sock.IsOpen();
  }

  /** When the only candidate refuses, open raises NOT_OPEN naming the target,
      yet the handle of the failed attempt is kept and isOpen answers true. */
  method FailedOpenKeepsHandle(c: Candidate) returns (r: Result<()>, open: bool)
    ensures r == Err(TransportError(NotOpen, "Could not connect to localhost:9090"))
    ensures open
  {
    var sock := new TSocket();
    assert NatToDecimal(9090) == "9090" by {
      assert NatToDecimal(9) == "9";
      assert NatToDecimal(90) == "90";
      assert NatToDecimal(909) == "909";
    }
    assert ConnectFailure("localhost", 9090, None) == "Could not connect to localhost:9090";
    r := sock.Open(Some([c]), {});
    open := sock.IsOpen();
  }
}
