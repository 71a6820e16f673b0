/** The sink as bytes: newline-terminated records, possibly followed by the
    torn bytes of a record a crash cut short. */
module Lines {
  import opened Types

  const NL: Byte := 10

  type Line = seq<Byte>

  predicate OneLine(s: seq<Byte>) { NL !in s }

  predicate AllOneLine(lines: seq<Line>) { forall l :: l in lines ==> OneLine(l) }

  function Encode(lines: seq<Line>): (b: seq<Byte>) {
    if lines == [] then [] else Encode(lines[..|lines| - 1]) + lines[|lines| - 1] + [NL]
  }

  datatype Scanned = Scanned(lines: seq<Line>, tail: seq<Byte>)

  /** Reading byte by byte: a newline completes the current line. */
  function Scan(b: seq<Byte>): (r: Scanned) {
    if b == [] then
      Scanned([], [])
    else
      var r := Scan(b[..|b| - 1]);
      if b[|b| - 1] == NL then Scanned(r.lines + [r.tail], [])
      else Scanned(r.lines, r.tail + [b[|b| - 1]])
  }

  lemma EncodeSnoc(lines: seq<Line>, l: Line)
    ensures Encode(lines + [l]) == Encode(lines) + l + [NL]
  {
    assert (lines + [l])[..|lines|] == lines;
  }

  lemma AddAssoc(x: seq<Byte>, y: seq<Byte>, l: Line)
    ensures x + y + l + [NL] == x + (y + l + [NL])
  {
  }

  lemma {:induction false} EncodeConcat(a: seq<Line>, b: seq<Line>)
    ensures Encode(a + b) == Encode(a) + Encode(b)
  {
    if b == [] {
      assert a + b == a;
    } else {
      var c, l := b[..|b| - 1], b[|b| - 1];
      calc {
        Encode(a + b);
        { assert a + b == (a + c) + [l]; }
        Encode((a + c) + [l]);
        { EncodeSnoc(a + c, l); }
        Encode(a + c) + l + [NL];
        { EncodeConcat(a, c); }
        Encode(a) + Encode(c) + l + [NL];
        { AddAssoc(Encode(a), Encode(c), l); }
        Encode(a) + (Encode(c) + l + [NL]);
      }
    }
  }

  lemma ScanByte(b: seq<Byte>, x: Byte)
    requires x != NL
    ensures Scan(b + [x]) == Scanned(Scan(b).lines, Scan(b).tail + [x])
  {
    assert (b + [x])[..|b|] == b;
  }

  lemma TailByte(tail: seq<Byte>, u: seq<Byte>, x: Byte, t: seq<Byte>)
    requires t == u + [x]
    ensures tail + u + [x] == tail + t
  {
  }

  lemma {:induction false} ScanTail(b: seq<Byte>, t: seq<Byte>)
    requires OneLine(t)
    ensures Scan(b + t) == Scanned(Scan(b).lines, Scan(b).tail + t)
  {
    hide Scan;
    if t == [] {
      assert b + t == b && Scan(b).tail + t == Scan(b).tail;
    } else {
      var u, x := t[..|t| - 1], t[|t| - 1];
      assert x in t && b + t == (b + u) + [x];
      ScanTail(b, u);
      ScanByte(b + u, x);
      TailByte(Scan(b).tail, u, x, t);
    }
  }

  lemma ScanLine(b: seq<Byte>, l: Line)
    requires OneLine(l)
    ensures Scan(b + l + [NL]) == Scanned(Scan(b).lines + [Scan(b).tail + l], [])
  {
    ScanTail(b, l);
    assert (b + l + [NL])[..|b + l|] == b + l;
  }

  /** Scanning a whole written file gives the records back. */
  lemma {:induction false} ScanEncode(lines: seq<Line>)
    requires AllOneLine(lines)
    ensures Scan(Encode(lines)) == Scanned(lines, [])
  {
    if lines != [] {
      var v, l := lines[..|lines| - 1], lines[|lines| - 1];
      ScanEncode(v);
      assert OneLine(l);
      ScanLine(Encode(v), l);
      assert [] + l == l;
      assert v + [l] == lines;
    }
  }

  /** Every byte string is exactly its complete lines and its torn tail. */
  lemma {:induction false} ScanIsExact(b: seq<Byte>)
    ensures b == Encode(Scan(b).lines) + Scan(b).tail
    ensures AllOneLine(Scan(b).lines) && OneLine(Scan(b).tail)
  {
    if b != [] {
      var c, x := b[..|b| - 1], b[|b| - 1];
      ScanIsExact(c);
      assert b == c + [x];
      if x == NL { EncodeSnoc(Scan(c).lines, Scan(c).tail); }
    }
  }

  /** A crash after any prefix of an append: the record is wholly there or the
      bytes that landed are exactly the torn tail. */
  lemma CrashedAppend(b: seq<Byte>, l: Line, k: nat)
    requires Scan(b).tail == [] && OneLine(l) && k <= |l| + 1
    ensures Scan(b + (l + [NL])[..k]) ==
            if k == |l| + 1 then Scanned(Scan(b).lines + [l], []) else Scanned(Scan(b).lines, l[..k])
  {
    assert [] + l == l;
    if k == |l| + 1 {
      assert b + (l + [NL])[..k] == b + l + [NL];
      ScanLine(b, l);
    } else {
      assert (l + [NL])[..k] == l[..k];
      ScanTail(b, l[..k]);
    }
  }

  method FindNewline(buf: seq<Byte>, from: nat) returns (nl: nat)
    requires from <= |buf|
    ensures from <= nl <= |buf| && OneLine(buf[from..nl]) && (nl < |buf| ==> buf[nl] == NL)
  {
    nl := from;
    while nl < |buf| && buf[nl] != NL
      invariant from <= nl <= |buf| && OneLine(buf[from..nl])
    {
      nl := nl + 1;
    }
  }

  lemma ScanOneMore(buf: seq<Byte>, keep: nat, nl: nat, lines: seq<Line>)
    requires keep <= nl < |buf| && OneLine(buf[keep..nl]) && buf[nl] == NL
    requires Scan(buf[..keep]) == Scanned(lines, [])
    ensures Scan(buf[..nl + 1]) == Scanned(lines + [buf[keep..nl]], [])
  {
    var rec := buf[keep..nl];
    assert buf[..keep] + rec + [NL] == buf[..nl + 1];
    ScanLine(buf[..keep], rec);
    assert [] + rec == rec;
  }

  lemma ScanTorn(buf: seq<Byte>, keep: nat, lines: seq<Line>)
    requires keep <= |buf| && OneLine(buf[keep..]) && Scan(buf[..keep]) == Scanned(lines, [])
    ensures Scan(buf) == Scanned(lines, buf[keep..]) && buf[..keep] == Encode(lines)
  {
    assert buf[..keep] + buf[keep..] == buf && [] + buf[keep..] == buf[keep..];
    ScanTail(buf[..keep], buf[keep..]);
    ScanIsExact(buf[..keep]);
  }

  /** The segment loop: find the next newline, take the record, stop at the
      torn tail. `keep` is where the last durable record ended. */
  method ScanSegment(buf: seq<Byte>) returns (lines: seq<Line>, keep: nat, torn: bool)
    ensures lines == Scan(buf).lines
    ensures keep == |buf| - |Scan(buf).tail| && buf[..keep] == Encode(lines)
    ensures torn <==> Scan(buf).tail != []
  {
    lines, keep, torn := [], 0, false;
    while keep < |buf|
      invariant 0 <= keep <= |buf| && !torn
      invariant Scan(buf[..keep]) == Scanned(lines, [])
    {
      var nl := FindNewline(buf, keep);
      if nl == |buf| {
        torn := true;
        assert buf[keep..nl] == buf[keep..];
        break;
      }
      ScanOneMore(buf, keep, nl, lines);
      lines := lines + [buf[keep..nl]];
      keep := nl + 1;
    }
    ScanTorn(buf, keep, lines);
  }

  // ---- repeated crashes ----

  /** One lifetime of the process: records appended, then the bytes of one
      more record that a crash left behind. */
  datatype Lifetime = Lifetime(records: seq<Line>, torn: seq<Byte>)

  /** Startup truncates to the last durable newline before anything is appended. */
  function Truncated(b: seq<Byte>): seq<Byte> { Encode(Scan(b).lines) }

  function AfterLifetimes(ls: seq<Lifetime>): seq<Byte> {
    if ls == [] then []
    else Truncated(AfterLifetimes(ls[..|ls| - 1])) + Encode(ls[|ls| - 1].records) + ls[|ls| - 1].torn
  }

  function AllRecords(ls: seq<Lifetime>): seq<Line> {
    if ls == [] then [] else AllRecords(ls[..|ls| - 1]) + ls[|ls| - 1].records
  }

  /** Over any number of crashes and restarts no record joins torn bytes and
      none is lost. */
  lemma {:induction false} TornBytesNeverJoin(ls: seq<Lifetime>)
    requires forall l :: l in ls ==> AllOneLine(l.records) && OneLine(l.torn)
    ensures Scan(AfterLifetimes(ls)).lines == AllRecords(ls) && AllOneLine(AllRecords(ls))
    ensures ls != [] ==> Scan(AfterLifetimes(ls)).tail == ls[|ls| - 1].torn
  {
    if ls != [] {
      var v, last := ls[..|ls| - 1], ls[|ls| - 1];
      TornBytesNeverJoin(v);
      assert last in ls;
      var all := AllRecords(v) + last.records;
      EncodeConcat(AllRecords(v), last.records);
      ScanEncode(all);
      ScanTail(Encode(all), last.torn);
      assert [] + last.torn == last.torn;
    }
  }
}
