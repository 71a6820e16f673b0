/** Startup reconstruction: from the bytes at the sink path back to the open
    set and the rate windows, and how the current segment tracks the whole
    history even after rotations. */
module Recovery {
  import opened Types
  import opened Lines
  import opened Lifecycle
  import opened Rates
  import opened Json
  import opened Records
  import opened History

  /** Printing and reading JSON text. */
  datatype Text = Text(dump: Json -> seq<Byte>, load: seq<Byte> -> Option<Json>)

  /** What is asked of the text layer: a printed proper tree is one non-empty
      line and reads back as itself, and only proper trees are read. */
  ghost predicate Faithful(tx: Text) {
    && (forall j :: Proper(j) ==> tx.load(tx.dump(j)) == Some(j) && tx.dump(j) != [] && OneLine(tx.dump(j)))
    && (forall b :: tx.load(b).Some? ==> Proper(tx.load(b).value))
  }

  function Decode(tx: Text, line: Line): Option<Rec> {
    var j :- tx.load(line);
    var s :- ParseStored(j);
    Some(Rec(s, |line| + 1, j.Obj? && ClaimsEffect(j.members)))
  }

  /** Decode and apply line by line; empty lines are skipped. The records kept
      replay without a fault. */
  function RecoverLines(tx: Text, lines: seq<Line>): (r: Result<seq<Rec>>)
    ensures r.Ok? ==> Replay(Facts(r.value)).Ok?
  {
    if lines == [] then
      Ok([])
    else
      match RecoverLines(tx, lines[..|lines| - 1])
      case Err(e) => Err(e)
      case Ok(recs) =>
        var line := lines[|lines| - 1];
        if line == [] then Ok(recs) else Accept(recs, Decode(tx, line))
  }

  function Accept(recs: seq<Rec>, d: Option<Rec>): (r: Result<seq<Rec>>)
    requires Replay(Facts(recs)).Ok?
    ensures r.Ok? ==> Replay(Facts(r.value)).Ok?
  {
    match d
    case None => Err(Corrupt)
    case Some(rec) =>
      FactsSnoc(recs, rec);
      ReplaySnoc(Facts(recs), rec.s);
      match Apply(Replay(Facts(recs)).value, rec.s)
      case Err(e) => Err(e)
      case Ok(_) => Ok(recs + [rec])
  }

  function Recover(tx: Text, sink: seq<Byte>): Result<seq<Rec>> {
    if |sink| > MAX_SEGMENT_BYTES then Err(TooLarge) else RecoverLines(tx, Scan(sink).lines)
  }

  /** The window rebuilt for one uid: carried entries reseed it, charged records
      push onto it. */
  function RingAfter(cfg: Config, log: seq<Rec>, u: nat): seq<Entry> {
    if cfg.rateMaxInWindow == 0 || log == [] then []
    else
      var ring, r := RingAfter(cfg, log[..|log| - 1], u), log[|log| - 1];
      if r.s.Rate? && r.s.uid == u then PushAll(cfg.rateMaxInWindow, ring, r.s.entries)
      else if Charge(r).Some? && Charge(r).value.uid == u then Push(cfg.rateMaxInWindow, ring, Charge(r).value.entry)
      else ring
  }

  lemma RingAfterSnoc(cfg: Config, log: seq<Rec>, r: Rec, u: nat)
    ensures RingAfter(cfg, log + [r], u) ==
            if cfg.rateMaxInWindow == 0 then []
            else if r.s.Rate? && r.s.uid == u then PushAll(cfg.rateMaxInWindow, RingAfter(cfg, log, u), r.s.entries)
            else if Charge(r).Some? && Charge(r).value.uid == u then
              Push(cfg.rateMaxInWindow, RingAfter(cfg, log, u), Charge(r).value.entry)
            else RingAfter(cfg, log, u)
  {
    assert (log + [r])[..|log|] == log;
  }

  // ---- files ----

  /** A clean file: complete lines only, recovering to exactly these records. */
  ghost predicate Holds(tx: Text, file: seq<Byte>, log: seq<Rec>) {
    Scan(file).tail == [] && RecoverLines(tx, Scan(file).lines) == Ok(log)
  }

  lemma RecoverSnoc(tx: Text, lines: seq<Line>, line: Line)
    requires line != [] && RecoverLines(tx, lines).Ok?
    ensures RecoverLines(tx, lines + [line]) == Accept(RecoverLines(tx, lines).value, Decode(tx, line))
  {
    assert (lines + [line])[..|lines|] == lines;
  }

  // ---- unreadable lines ----

  /** Every complete line parses. */
  ghost predicate LinesRead(tx: Text, lines: seq<Line>) {
    forall l :: l in lines && l != [] ==> Decode(tx, l).Some?
  }

  lemma LinesReadSnoc(tx: Text, lines: seq<Line>, line: Line)
    requires line != []
    ensures LinesRead(tx, lines + [line]) <==> LinesRead(tx, lines) && Decode(tx, line).Some?
  {
    hide Decode;
    assert line in lines + [line];
  }

  lemma ApplyNeverCorrupt(l: Life, s: Stored)
    ensures Apply(l, s) != Err(Corrupt)
  {
  }

  /** Recovery stops as corrupt only at a line that does not parse, and passes
      no such line. */
  lemma {:induction false} CorruptMeansUnread(tx: Text, lines: seq<Line>)
    ensures RecoverLines(tx, lines).Ok? ==> LinesRead(tx, lines)
    ensures RecoverLines(tx, lines) == Err(Corrupt) ==> !LinesRead(tx, lines)
  {
    hide Decode, Apply;
    if lines != [] {
      var v, line := lines[..|lines| - 1], lines[|lines| - 1];
      assert lines == v + [line];
      CorruptMeansUnread(tx, v);
      if line != [] { LinesReadSnoc(tx, v, line); } else { EmptyLineRead(tx, v); }
      var d := Decode(tx, line);
      if d.Some? && RecoverLines(tx, v).Ok? { ApplyNeverCorrupt(Replay(Facts(RecoverLines(tx, v).value)).value,
                                                                d.value.s); }
    }
  }

  lemma EmptyLineRead(tx: Text, lines: seq<Line>)
    ensures LinesRead(tx, lines + [[]]) <==> LinesRead(tx, lines)
  {
    hide Decode;
    forall l | l in lines ensures l in lines + [[]] {}
  }

  /** Once recovery has failed, more lines do not help. */
  lemma FaultKept(tx: Text, lines: seq<Line>, line: Line)
    requires RecoverLines(tx, lines).Err?
    ensures RecoverLines(tx, lines + [line]) == RecoverLines(tx, lines)
  {
    assert (lines + [line])[..|lines|] == lines;
  }

  lemma AppendedLine(tx: Text, file: seq<Byte>, log: seq<Rec>, line: Line, r: Rec)
    requires Holds(tx, file, log) && OneLine(line) && line != [] && Decode(tx, line) == Some(r)
    requires Apply(Replay(Facts(log)).value, r.s).Ok?
    ensures Holds(tx, file + line + [NL], log + [r])
    ensures Replay(Facts(log + [r])) == Apply(Replay(Facts(log)).value, r.s)
  {
    ScanLine(file, line);
    assert [] + line == line;
    RecoverSnoc(tx, Scan(file).lines, line);
    FactsSnoc(log, r);
    ReplaySnoc(Facts(log), r.s);
  }

  /** Cutting off the torn tail leaves exactly the same lines. */
  lemma Truncating(tx: Text, file: seq<Byte>)
    ensures Scan(Encode(Scan(file).lines)) == Scanned(Scan(file).lines, [])
    ensures RecoverLines(tx, Scan(Encode(Scan(file).lines)).lines) == RecoverLines(tx, Scan(file).lines)
  {
    ScanIsExact(file);
    ScanEncode(Scan(file).lines);
  }

  // ---- a segment stands for the whole history ----

  function Unflagged(it: Intent): Intent { it.(fromCheckpoint := false) }

  /** Equal up to how the intent reached the segment. */
  predicate SameOpens(a: Opens, b: Opens) {
    a.Keys == b.Keys && forall c :: c in a ==> Unflagged(a[c]) == Unflagged(b[c])
  }

  predicate Represents(a: Life, b: Life) { SameOpens(a.opens, b.opens) && a.closed <= b.closed }

  predicate Transition(s: Stored) { s.Audit? || (s.ReceiptRecord? && !s.checkpoint) }

  /** A live append means the same to the segment as to the history. */
  lemma ApplyRepresents(a: Life, b: Life, s: Stored)
    requires Represents(a, b) && Transition(s) && Apply(b, s).Ok?
    ensures Apply(a, s).Ok? && Represents(Apply(a, s).value, Apply(b, s).value)
  {
    if s.ReceiptRecord? { VerifierInUseSame(a.opens, b.opens, s.receipt.verifier); }
  }

  lemma VerifierInUseSame(a: Opens, b: Opens, v: string)
    requires SameOpens(a, b)
    ensures VerifierInUse(a, v) <==> VerifierInUse(b, v)
  {
    if VerifierInUse(a, v) {
      var c :| c in a && a[c].receipt.Some? && a[c].receipt.value.verifier == v;
      assert Unflagged(a[c]) == Unflagged(b[c]);
    }
    if VerifierInUse(b, v) {
      var c :| c in b && b[c].receipt.Some? && b[c].receipt.value.verifier == v;
      assert Unflagged(a[c]) == Unflagged(b[c]);
    }
  }

  /** The window has forgotten only what left it, and fits its ring. */
  predicate WindowOk(cfg: Config, ring: seq<Entry>, all: seq<Entry>, th: nat) {
    cfg.rateMaxInWindow == 0 || (RingOf(ring, all, th) && |ring| <= cfg.rateMaxInWindow)
  }

  /** The records of a segment stand for the whole history. */
  ghost predicate Tracks(cfg: Config, log: seq<Rec>, h: seq<Rec>, th: nat) {
    && Replay(Facts(log)).Ok? && Replay(Facts(h)).Ok?
    && Represents(Replay(Facts(log)).value, Replay(Facts(h)).value)
    && forall u: nat :: WindowOk(cfg, RingAfter(cfg, log, u), Charges(h, u), th)
  }

  lemma WindowLater(cfg: Config, ring: seq<Entry>, all: seq<Entry>, th0: nat, th: nat)
    requires WindowOk(cfg, ring, all, th0) && th0 <= th
    ensures WindowOk(cfg, ring, all, th) && WindowOk(cfg, Evict(ring, th), all, th)
  {
    if cfg.rateMaxInWindow != 0 { RingOfLater(ring, all, th0, th); }
  }

  lemma WindowPush(cfg: Config, ring: seq<Entry>, all: seq<Entry>, th0: nat, e: Entry)
    requires WindowOk(cfg, ring, all, th0) && th0 <= cfg.Threshold(e.ts) && RateAllowed(cfg, all, e.ts)
    ensures WindowOk(cfg, Push(cfg.rateMaxInWindow, ring, e), all + [e], cfg.Threshold(e.ts))
  {
    if cfg.rateMaxInWindow != 0 {
      RingOfLater(ring, all, th0, cfg.Threshold(e.ts));
      RingOfPush(cfg.rateMaxInWindow, ring, all, cfg.Threshold(e.ts), e);
    }
  }

  lemma TracksLater(cfg: Config, log: seq<Rec>, h: seq<Rec>, th0: nat, th: nat)
    requires Tracks(cfg, log, h, th0) && th0 <= th
    ensures Tracks(cfg, log, h, th)
  {
    forall u: nat ensures WindowOk(cfg, RingAfter(cfg, log, u), Charges(h, u), th) {
      WindowLater(cfg, RingAfter(cfg, log, u), Charges(h, u), th0, th);
    }
  }

  lemma AdmittedIsTransition(cfg: Config, h: seq<Rec>, r: Rec)
    requires Admitted(cfg, h, r)
    ensures Transition(r.s) && Apply(Replay(Facts(h)).value, r.s).Ok?
    ensures Replay(Facts(h + [r])) == Apply(Replay(Facts(h)).value, r.s)
  {
    AdmittedReplays(cfg, h, r);
    FactsSnoc(h, r);
    ReplaySnoc(Facts(h), r.s);
  }

  lemma AppendedWindow(cfg: Config, log: seq<Rec>, h: seq<Rec>, r: Rec, th0: nat, u: nat)
    requires Admitted(cfg, h, r) && WindowOk(cfg, RingAfter(cfg, log, u), Charges(h, u), th0)
    requires th0 <= cfg.Threshold(Charge(r).value.entry.ts)
    ensures WindowOk(cfg, RingAfter(cfg, log + [r], u), Charges(h + [r], u), cfg.Threshold(Charge(r).value.entry.ts))
  {
    var c := Charge(r).value;
    RingAfterSnoc(cfg, log, r, u);
    ChargesSnoc(h, r, u);
    if c.uid == u {
      WindowPush(cfg, RingAfter(cfg, log, u), Charges(h, u), th0, c.entry);
    } else {
      WindowLater(cfg, RingAfter(cfg, log, u), Charges(h, u), th0, cfg.Threshold(c.entry.ts));
    }
  }

  /** Appending an admitted line keeps the segment standing for the history. */
  lemma TracksAppend(cfg: Config, log: seq<Rec>, h: seq<Rec>, r: Rec, th0: nat)
    requires Tracks(cfg, log, h, th0) && Admitted(cfg, h, r)
    requires th0 <= cfg.Threshold(Charge(r).value.entry.ts)
    ensures Apply(Replay(Facts(log)).value, r.s).Ok?
    ensures Tracks(cfg, log + [r], h + [r], cfg.Threshold(Charge(r).value.entry.ts))
  {
    AdmittedIsTransition(cfg, h, r);
    ApplyRepresents(Replay(Facts(log)).value, Replay(Facts(h)).value, r.s);
    FactsSnoc(log, r);
    ReplaySnoc(Facts(log), r.s);
    forall u: nat ensures WindowOk(cfg, RingAfter(cfg, log + [r], u), Charges(h + [r], u),
                                   cfg.Threshold(Charge(r).value.entry.ts)) {
      AppendedWindow(cfg, log, h, r, th0, u);
    }
  }
}
