/** Wire framing: a version byte, a big-endian length, then the body. The
    one-shot reader, and the resumable receiver that may stop between any two
    bytes. */
module Frames {
  import opened Types

  const VERSION: Byte := 1
  const HEADER := 5
  const MAX_BODY := 65536

  // ---- what a byte stream means ----

  /** How the stream stops once its bytes are used up. */
  datatype End = Eof | Broken

  datatype Verdict = Frame(body: seq<Byte>) | BadVersion | TooBig | NoFrame | CutShort | Failed

  function Number(a: nat, b: nat, c: nat, d: nat): nat { a * 0x100_0000 + b * 0x1_0000 + c * 0x100 + d }

  function LengthOf(h: seq<Byte>): nat
    requires |h| == HEADER
  {
    Number(h[1], h[2], h[3], h[4])
  }

  function HeaderOf(n: nat): seq<Byte> {
    [VERSION, n / 0x100_0000 % 256, n / 0x1_0000 % 256, n / 0x100 % 256, n % 256]
  }

  function Framed(body: seq<Byte>): seq<Byte> { HeaderOf(|body|) + body }

  /** The whole stream at once. */
  function Read(stream: seq<Byte>, end: End): Verdict {
    if |stream| < HEADER then (if end.Eof? then NoFrame else Failed)
    else if stream[0] != 1 then BadVersion
    else
      var n := LengthOf(stream[..HEADER]);
      if n > 65536 then TooBig
      else if |stream| < HEADER + n then (if end.Eof? then CutShort else Failed)
      else Frame(stream[HEADER..HEADER + n])
  }

  lemma HeaderRoundTrip(n: nat)
    requires n < 0x1_0000_0000
    ensures LengthOf(HeaderOf(n)) == n
  {
    assert n / 0x100_0000 % 256 == n / 0x100_0000;
    assert n / 0x1_0000 == n / 0x100_0000 * 256 + n / 0x1_0000 % 256;
    assert n / 0x100 == n / 0x1_0000 * 256 + n / 0x100 % 256;
  }

  /** Every body up to the maximum survives; whatever follows is ignored. */
  lemma FrameRoundTrip(body: seq<Byte>, more: seq<Byte>, end: End)
    requires |body| <= MAX_BODY
    ensures Read(Framed(body) + more, end) == Frame(body)
  {
    HeaderRoundTrip(|body|);
    var s := Framed(body) + more;
    assert s[..HEADER] == HeaderOf(|body|) && s[HEADER..HEADER + |body|] == body;
  }

  /** And only the bytes of a frame read as that frame. */
  lemma OnlyFramesRead(stream: seq<Byte>, end: End, body: seq<Byte>)
    requires Read(stream, end) == Frame(body)
    ensures |body| <= MAX_BODY && Framed(body) <= stream
  {
    var h := stream[..HEADER];
    var n := LengthOf(h);
    BytesOf(h[1], h[2], h[3], h[4]);
    assert HeaderOf(n) == h;
    assert stream[..HEADER + n] == h + stream[HEADER..HEADER + n];
  }

  lemma BytesOf(a: Byte, b: Byte, c: Byte, d: Byte)
    ensures var n := Number(a, b, c, d);
            n / 0x100_0000 % 256 == a && n / 0x1_0000 % 256 == b && n / 0x100 % 256 == c && n % 256 == d
  {
    hide Number;
    Quotients(a, b, c, d);
    LowByte(a, b);
    LowByte(a * 256 + b, c);
  }

  lemma Quotients(a: Byte, b: Byte, c: Byte, d: Byte)
    ensures var n := Number(a, b, c, d);
            n / 0x100_0000 == a && n / 0x1_0000 == a * 256 + b && n / 0x100 == (a * 256 + b) * 256 + c && n % 256 == d
  {
  }

  lemma LowByte(q: nat, r: Byte)
    ensures (q * 256 + r) % 256 == r
  {
  }

  // ---- the socket ----

  /** What one read does: a signal, nothing there yet, or some bytes. */
  datatype Answer = Signal | NotYet | Deliver(upTo: nat)

  datatype Got = Bytes(bytes: seq<Byte>) | Interrupted | WouldBlock | Over | Error

  /** The reads used the script up to here, and the last of them would have
      blocked: it was told so, or the script had run out before it. */
  predicate Blocked(was: seq<Answer>, left: seq<Answer>) {
    left == [] || (|left| < |was| && was[|was| - |left| - 1].NotYet?)
  }

  /** Each read takes the next answer. */
  predicate Onward(was: seq<Answer>, left: seq<Answer>) { |left| <= |was| && left == was[|was| - |left|..] }

  lemma NoneUsed(was: seq<Answer>)
    ensures Onward(was, was)
  {
  }

  lemma OnwardOn(was: seq<Answer>, mid: seq<Answer>, left: seq<Answer>)
    requires Onward(was, mid) && Onward(mid, left)
    ensures Onward(was, left) && (Blocked(mid, left) ==> Blocked(was, left))
  {
  }

  /** The bytes still to come, and how the reads will answer. A script that has
      run out would block, or on a blocking socket delivers what is asked. */
  class Socket {
    const end: End
    const blocking: bool
    var rest: seq<Byte>
    var script: seq<Answer>

    constructor (stream: seq<Byte>, end: End, blocking: bool, script: seq<Answer>)
      ensures this.rest == stream && this.end == end && this.blocking == blocking && this.script == script
    {
      this.rest, this.end, this.blocking, this.script := stream, end, blocking, script;
    }

    /** Every read either uses up the script or moves on in the stream. */
    method Recv(want: nat) returns (r: Got)
      requires want > 0
      modifies this
      ensures if r.Bytes? then 0 < |r.bytes| <= want && r.bytes + rest == old(rest) else rest == old(rest)
      ensures r.Over? ==> rest == [] && end.Eof?
      ensures r.Error? ==> rest == [] && end.Broken?
      ensures r.WouldBlock? ==> !blocking && Blocked(old(script), script)
      ensures |script| <= |old(script)| && (r.Interrupted? ==> |script| < |old(script)| && !old(script)[0].Deliver?)
      ensures Onward(old(script), script)
    {
      var answer := if script == [] then (if blocking then Deliver(want) else NotYet) else script[0];
      if script != [] {
        script := script[1..];
        if answer.Signal? || (answer.NotYet? && blocking) {
          return Interrupted;
        }
      }
      if answer.NotYet? {
        return WouldBlock;
      }
      if rest == [] {
        return if end.Eof? then Over else Error;
      }
      var n := if answer.upTo == 0 then 1 else answer.upTo;
      n := if n > want then want else n;
      n := if n > |rest| then |rest| else n;
      r := Bytes(rest[..n]);
      rest := rest[n..];
    }
  }

  // ---- the one-shot reader ----

  datatype Full = Complete | Ended | Fault

  /** Exactly n bytes, retrying short reads and signals. */
  method ReadFull(s: Socket, n: nat) returns (buf: seq<Byte>, r: Full)
    requires s.blocking
    modifies s
    ensures buf + s.rest == old(s.rest) && |buf| <= n
    ensures r.Complete? <==> |buf| == n
    ensures !r.Complete? ==> s.rest == [] && (r.Ended? <==> s.end.Eof?)
  {
    buf := [];
    while |buf| < n
      invariant buf + s.rest == old(s.rest) && |buf| <= n
      decreases n - |buf|, |s.script|
    {
      var g := s.Recv(n - |buf|);
      match g {
        case Bytes(bytes) => buf := buf + bytes;
        case Over => return buf, Ended;
        case Error => return buf, Fault;
        case _ =>
      }
    }
    r := Complete;
  }

  /** The blocking reader computes the meaning of its stream. */
  method ReadFrame(s: Socket) returns (v: Verdict)
    requires s.blocking
    modifies s
    ensures v == Read(old(s.rest), s.end)
  {
    ghost var stream := s.rest;
    var header, hr := ReadFull(s, HEADER);
    if !hr.Complete? {
      assert stream == header;
      return if hr.Ended? then NoFrame else Failed;
    }
    assert stream[..HEADER] == header && stream[HEADER..] == s.rest;
    if header[0] != VERSION {
      return BadVersion;
    }
    var n := LengthOf(header);
    if n > MAX_BODY {
      return TooBig;
    }
    var body, br := ReadFull(s, n);
    if !br.Complete? {
      return if br.Ended? then CutShort else Failed;
    }
    assert stream[HEADER..HEADER + n] == stream[HEADER..][..n] == body;
    v := Frame(body);
  }

  // ---- the resumable receiver ----

  datatype RecvResult = RMore | RClose | RDone | RBadVersion | RTooLarge | RBadFrame

  /** How the receiver reports each verdict. */
  function Reported(v: Verdict): RecvResult {
    match v
    case Frame(_) => RDone
    case BadVersion => RBadVersion
    case TooBig => RTooLarge
    case CutShort => RBadFrame
    case NoFrame | Failed => RClose
  }

  /** One read into a buffer: some bytes, a signal to retry, or a stop. */
  method ReadInto(s: Socket, a: array<Byte>, at: nat, upTo: nat) returns (got: nat, stop: Option<Got>)
    requires at < upTo <= a.Length && !s.blocking
    modifies s, a
    ensures at + got <= upTo && a[..at + got] + s.rest == old(a[..at]) + old(s.rest)
    ensures stop.None? ==> got > 0 || |s.script| < |old(s.script)|
    ensures |s.script| <= |old(s.script)|
    ensures Onward(old(s.script), s.script)
    ensures stop == Some(WouldBlock) ==> Blocked(old(s.script), s.script)
    ensures stop.Some? ==> got == 0 && s.rest == old(s.rest)
    ensures stop.Some? ==> (stop.value.WouldBlock? || stop.value.Over? || stop.value.Error?)
    ensures stop == Some(Over) ==> s.rest == [] && s.end.Eof?
    ensures stop == Some(Error) ==> s.rest == [] && s.end.Broken?
  {
    var g := s.Recv(upTo - at);
    match g {
      case Bytes(bytes) =>
        ghost var before := a[..at];
        forall i | 0 <= i < |bytes| {
          a[at + i] := bytes[i];
        }
        got, stop := |bytes|, None;
        assert a[..at + got] == before + bytes;
      case Interrupted => got, stop := 0, None;
      case _ => got, stop := 0, Some(g);
    }
  }

  /** What the body read so far decides. */
  lemma BodyDecides(stream: seq<Byte>, end: End, body: seq<Byte>, rest: seq<Byte>)
    requires |stream| >= HEADER && stream[0] == VERSION && LengthOf(stream[..HEADER]) <= MAX_BODY
    requires |body| <= LengthOf(stream[..HEADER]) && body + rest == stream[HEADER..]
    ensures |body| == LengthOf(stream[..HEADER]) ==> Read(stream, end) == Frame(body)
    ensures |body| < LengthOf(stream[..HEADER]) && rest == [] ==>
              Read(stream, end) == if end.Eof? then CutShort else Failed
  {
    hide LengthOf;
    var n := LengthOf(stream[..HEADER]);
    if |body| == n {
      assert stream[HEADER..HEADER + n] == stream[HEADER..][..n] == body;
    }
  }

  class Receiver {
    const sock: Socket
    const hdr: array<Byte>
    var hdrGot: nat
    var haveLen: bool
    var body: array<Byte>
    var bodyLen: nat
    var bodyGot: nat
    ghost const stream: seq<Byte> // everything the peer will ever send

    /** What has been read, with what is still to come, is the stream. */
    ghost predicate Valid()
      reads this, hdr, body, sock
    {
      && !sock.blocking && hdr.Length == HEADER && hdr != body && hdrGot <= HEADER
      && bodyGot <= bodyLen && body.Length == bodyLen + 1
      && if haveLen then
           && hdrGot == HEADER <= |stream| && hdr[..] == stream[..HEADER] && stream[0] == VERSION
           && bodyLen == LengthOf(stream[..HEADER]) && bodyLen <= MAX_BODY
           && body[..bodyGot] + sock.rest == stream[HEADER..]
         else
           bodyGot == 0 && hdr[..hdrGot] + sock.rest == stream
    }

    constructor (sock: Socket)
      requires !sock.blocking
      ensures Valid() && this.sock == sock && stream == sock.rest && fresh(hdr) && fresh(body) && !haveLen
    {
      this.sock, hdr, body, stream := sock, new Byte[HEADER], new Byte[1], sock.rest;
      hdrGot, haveLen, bodyLen, bodyGot := 0, false, 0, 0;
    }

    /** Some: a result to report now; None: the header is complete. */
    method FillHeader() returns (r: Option<RecvResult>)
      requires Valid() && !haveLen
      modifies this`hdrGot, hdr, sock
      ensures Valid()
      ensures r.None? ==> hdrGot == HEADER
      ensures Onward(old(sock.script), sock.script)
      ensures r == Some(RMore) ==> hdrGot < HEADER && Blocked(old(sock.script), sock.script)
      ensures r.Some? && r != Some(RMore) ==> r == Some(RClose) && r == Some(Reported(Read(stream, sock.end)))
    {
      while hdrGot < HEADER
        invariant Valid() && !haveLen && Onward(old(sock.script), sock.script)
        decreases HEADER - hdrGot, |sock.script|
      {
        ghost var left := sock.script;
        var got, stop := ReadInto(sock, hdr, hdrGot, HEADER);
        OnwardOn(old(sock.script), left, sock.script);
        hdrGot := hdrGot + got;
        if stop.Some? {
          return Some(if stop.value.WouldBlock? then RMore else RClose);
        }
      }
      r := None;
    }

    /** Version and length, once the header is complete. */
    method TakeLength() returns (r: Option<RecvResult>)
      requires Valid() && !haveLen && hdrGot == HEADER
      modifies this`haveLen, this`body, this`bodyLen
      ensures Valid()
      ensures r.None? ==> haveLen && fresh(body)
      ensures r.Some? ==> r != Some(RMore) && r != Some(RDone) && r == Some(Reported(Read(stream, sock.end)))
      ensures r.Some? ==> body == old(body)
    {
      assert stream[..HEADER] == hdr[..] && stream[HEADER..] == sock.rest;
      if hdr[0] != VERSION {
        return Some(RBadVersion);
      }
      var n := LengthOf(hdr[..]);
      if n > MAX_BODY {
        return Some(RTooLarge);
      }
      haveLen, body, bodyLen := true, new Byte[n + 1], n;
      r := None;
    }

    method FillBody() returns (r: RecvResult)
      requires Valid() && haveLen
      modifies this`bodyGot, body, sock
      ensures Valid() && Onward(old(sock.script), sock.script)
      ensures r.RMore? ==> bodyGot < bodyLen && Blocked(old(sock.script), sock.script)
      ensures !r.RMore? ==> r == Reported(Read(stream, sock.end))
      ensures r.RDone? ==> Read(stream, sock.end) == Frame(body[..bodyLen])
    {
      hide Read, LengthOf, Onward, Blocked;
      NoneUsed(sock.script);
      while bodyGot < bodyLen
        invariant Valid() && haveLen && Onward(old(sock.script), sock.script)
        decreases bodyLen - bodyGot, |sock.script|
      {
        ghost var left := sock.script;
        var got, stop := ReadInto(sock, body, bodyGot, bodyLen);
        OnwardOn(old(sock.script), left, sock.script);
        bodyGot := bodyGot + got;
        BodyDecides(stream, sock.end, body[..bodyGot], sock.rest);
        if stop.Some? {
          return if stop.value.WouldBlock? then RMore else if stop.value.Over? then RBadFrame else RClose;
        }
      }
      BodyDecides(stream, sock.end, body[..bodyGot], sock.rest);
      r := RDone;
    }

    /** Read as much as is there. Over any number of calls, whatever each read
        returned, the first result that is not "more" is the verdict of the
        one-shot reader on the whole stream, with the same body; and "more" is
        reported only of an incomplete frame, when a read would block. */
    method Receive() returns (r: RecvResult)
      requires Valid()
      modifies this, hdr, body, sock
      ensures Valid() && (body == old(body) || fresh(body))
      ensures r.RMore? ==> Blocked(old(sock.script), sock.script) && (haveLen ==> bodyGot < bodyLen)
      ensures r.RMore? && !haveLen ==> hdrGot < HEADER
      ensures !r.RMore? ==> r == Reported(Read(stream, sock.end))
      ensures r.RDone? ==> Read(stream, sock.end) == Frame(body[..bodyLen])
    {
      if !haveLen {
        var early := FillHeader();
        if early.Some? {
          return early.value;
        }
        early := TakeLength();
        if early.Some? {
          return early.value;
        }
      }
      ghost var left := sock.script;
      r := FillBody();
      OnwardOn(old(sock.script), left, sock.script);
    }
  }

  // ---- sending ----

  /** A response too long for one frame is never queued. */
  method FrameResponse(resp: seq<Byte>) returns (r: Option<seq<Byte>>)
    ensures r == if |resp| <= MAX_BODY then Some(Framed(resp)) else None
    ensures r.Some? ==> forall more, end :: Read(r.value + more, end) == Frame(resp)
  {
    if |resp| > MAX_BODY {
      return None;
    }
    r := Some(HeaderOf(|resp|) + resp);
    forall more, end ensures Read(r.value + more, end) == Frame(resp) {
      FrameRoundTrip(resp, more, end);
    }
  }

  datatype Sent = SMore | SDone | SClose

  datatype Push = PushSignal | PushNotYet | PushFail | Pushed(upTo: nat)

  predicate Goes(p: Push) { p.PushSignal? || p.Pushed? }

  /** What the writes in a script would take between them. */
  function Taken(script: seq<Push>): nat {
    if script == [] then 0
    else Taken(script[..|script| - 1]) + match script[|script| - 1] case Pushed(n) => n case _ => 0
  }

  class Sender {
    const out: seq<Byte>
    var sent: nat
    var wire: seq<Byte> // what the peer has been given

    ghost predicate Valid()
      reads this
    {
      sent <= |out| && wire == out[..sent]
    }

    constructor (out: seq<Byte>)
      ensures Valid() && this.out == out && sent == 0
    {
      this.out, sent, wire := out, 0, [];
    }

    /** Write on from where the last call stopped; never a byte twice. The writes
        made take all they would, up to the end of the response: the call stops
        short only at one that would block, and gives up only at one that fails. */
    method Send(script: seq<Push>) returns (r: Sent, ghost k: nat)
      requires Valid()
      modifies this
      ensures Valid() && old(wire) <= wire && k <= |script| && forall i :: 0 <= i < k ==> Goes(script[i])
      ensures sent == if old(sent) + Taken(script[..k]) < |out| then old(sent) + Taken(script[..k]) else |out|
      ensures r.SDone? <==> wire == out
      ensures r.SMore? ==> k == |script| || script[k].PushNotYet?
      ensures r.SClose? ==> k < |script| && script[k].PushFail?
    {
      var left := script;
      k := 0;
      while sent < |out|
        invariant Valid() && old(wire) <= wire && k <= |script| && left == script[k..]
        invariant forall i :: 0 <= i < k ==> Goes(script[i])
        invariant sent == if old(sent) + Taken(script[..k]) < |out| then old(sent) + Taken(script[..k]) else |out|
        decreases |left|
      {
        if left == [] || left[0].PushNotYet? {
          return SMore, k;
        }
        var answer := left[0];
        left := left[1..];
        assert script[..k + 1][..k] == script[..k];
        if answer.PushFail? {
          return SClose, k;
        }
        if answer.Pushed? {
          var n := if answer.upTo > |out| - sent then |out| - sent else answer.upTo;
          wire := wire + out[sent..sent + n];
          sent := sent + n;
        }
        k := k + 1;
      }
      r := SDone;
    }
  }
}
