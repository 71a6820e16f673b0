/** The invariant of every run, step by step. */
module Safety {
  import opened Types
  import opened Lines
  import opened Lifecycle
  import opened Rates
  import opened Records
  import opened History
  import opened Guarantees
  import opened Recovery
  import opened Carry
  import opened Machine

  ghost predicate Base(cfg: Config, s: State) {
    && IsHistory(cfg, s.hist) && Before(s.hist, s.clock)
    && s.boot <= |s.hist| && forall i :: i in s.acks ==> i < |s.hist|
  }

  /** The complete lines of the file recover to records standing for the
      history, unless one of them does not parse; the file may end in a torn
      tail. */
  ghost predicate FileOk(tx: Text, cfg: Config, file: seq<Byte>, h: seq<Rec>, clock: nat) {
    match RecoverLines(tx, Scan(file).lines)
    case Ok(log) => Tracks(cfg, log, h, cfg.Threshold(clock))
    case Err(e) => e == Corrupt
  }

  ghost predicate CleanFile(tx: Text, cfg: Config, file: seq<Byte>, h: seq<Rec>, clock: nat) {
    Scan(file).tail == [] && FileOk(tx, cfg, file, h, clock)
  }

  /** With only the first n bytes left, the file stands for the history without
      the lines that went. */
  ghost predicate CutOk(tx: Text, cfg: Config, file: seq<Byte>, n: nat, h: seq<Rec>, clock: nat)
    requires n <= |file|
  {
    0 <= Lost(file, n) <= |h| && FileOk(tx, cfg, file[..n], Without(h, Lost(file, n)), clock)
  }

  /** However much of what is not synced goes. */
  ghost predicate CutsOk(tx: Text, cfg: Config, file: seq<Byte>, firm: nat, h: seq<Rec>, clock: nat) {
    firm <= |file| && forall n :: firm <= n <= |file| ==> CutOk(tx, cfg, file, n, h, clock)
  }

  ghost predicate RingsOk(cfg: Config, rings: map<nat, seq<Entry>>, h: seq<Rec>, clock: nat) {
    && (forall u: nat :: WindowOk(cfg, RingAt(rings, u), Charges(h, u), cfg.Threshold(clock)))
    && (cfg.rateMaxInWindow == 0 ==> forall u: nat :: RingAt(rings, u) == [])
  }

  ghost predicate GlobalOk(cfg: Config, g: Global, h: seq<Rec>, boot: nat) {
    && boot <= |h| && g == GlobalAfter(cfg, AllCharges(h[boot..])) && GlobalPassed(cfg, AllCharges(h[boot..]))
  }

  /** The live state is the meaning of the history. */
  ghost predicate MemOk(cfg: Config, mem: Mem, h: seq<Rec>, boot: nat, clock: nat) {
    && Replay(Facts(h)).Ok? && SameOpens(mem.opens, Replay(Facts(h)).value.opens)
    && RingsOk(cfg, mem.rings, h, clock) && GlobalOk(cfg, mem.global, h, boot)
  }

  ghost predicate WritingOk(tx: Text, cfg: Config, s: State, rec: Rec, line: Line)
    requires s.proc.Up?
  {
    && Admitted(cfg, s.hist, rec) && Charge(rec).value.entry.ts == s.clock
    && LineFor(tx, line, rec)
    && GlobalAllowed(cfg, s.proc.mem.global, s.clock, Charge(rec).value.entry.bytes)
  }

  /** What the failed append left is the end of the sink. */
  ghost predicate FaultedOk(s: State, line: Line, landed: nat)
    requires s.proc.Up?
  {
    && s.proc.mem.poisoned && landed <= |line| + 1 && landed <= |s.disk.sink|
    && s.disk.sink == Solid(s.disk, s.proc.phase) + Landing(line, landed)
  }

  function Elems<T>(s: seq<T>): set<T> { set x | x in s }

  ghost predicate CarryingOk(tx: Text, cfg: Config, s: State, order: seq<string>, done: nat)
    requires s.proc.Up?
  {
    && done <= |order| && Enumerates(order, s.proc.mem.opens.Keys) && s.disk.pending.Some?
    && exists log :: Carried(tx, cfg, s.disk.pending.value, log, s.proc.mem.opens, Elems(order[..done]))
  }

  ghost predicate RatesDone(tx: Text, cfg: Config, file: seq<Byte>, log: seq<Rec>, mem: Mem, done: set<nat>) {
    && Holds(tx, file, log) && CarriedLife(Replay(Facts(log)).value, mem.opens, mem.opens.Keys)
    && RatesCarried(cfg, log, mem.rings, done)
  }

  ghost predicate RatesOk(tx: Text, cfg: Config, s: State, uids: seq<nat>, done: nat)
    requires s.proc.Up?
  {
    && done <= |uids| && s.disk.pending.Some?
    && Enumerates(uids, Active(cfg, s.proc.mem.rings))
    && exists log :: RatesDone(tx, cfg, s.disk.pending.value, log, s.proc.mem, Elems(uids[..done]))
  }

  ghost predicate PhaseOk(tx: Text, cfg: Config, s: State)
    requires s.proc.Up?
  {
    match s.proc.phase
    case Writing(rec, line) => WritingOk(tx, cfg, s, rec, line)
    case Faulted(rec, line, landed) => WritingOk(tx, cfg, s, rec, line) && FaultedOk(s, line, landed)
    case Carrying(order, done) => CarryingOk(tx, cfg, s, order, done)
    case CarryingRates(uids, done) => RatesOk(tx, cfg, s, uids, done)
    case Linked =>
      && s.disk.pending.Some? && CleanFile(tx, cfg, s.disk.pending.value, s.hist, s.clock)
      && RecoverLines(tx, Scan(s.disk.pending.value).lines).Ok?
    case _ => true
  }

  predicate Rotating(p: Phase) { p.Carrying? || p.CarryingRates? || p.Linked? }

  /** After the append everything in the sink is synced. */
  predicate Firmed(p: Phase) { !p.Idle? && !InFlight(p) }

  /** What a power failure may bring back stands for the history as it was then;
      a rotation begins by ruling it out. */
  ghost predicate PriorOk(tx: Text, cfg: Config, s: State) {
    s.disk.prior.Some? ==>
      && s.base <= |s.hist| && CleanFile(tx, cfg, s.disk.prior.value, s.hist[..s.base], s.clock)
      && (s.proc.Up? ==> !Rotating(s.proc.phase))
  }

  ghost predicate UpOk(tx: Text, cfg: Config, s: State)
    requires s.proc.Up?
  {
    && CleanFile(tx, cfg, Solid(s.disk, s.proc.phase), s.hist, s.clock)
    && CutsOk(tx, cfg, Solid(s.disk, s.proc.phase), s.disk.firm, s.hist, s.clock)
    && (Firmed(s.proc.phase) ==> s.disk.firm == |s.disk.sink|)
    && MemOk(cfg, s.proc.mem, s.hist, s.boot, s.clock)
    && s.proc.mem.segBytes == |Solid(s.disk, s.proc.phase)|
  }

  /** Before the sink is created there is nothing, and nothing comes back only
      if it was not created before. */
  predicate MadeOk(s: State) {
    && (!s.disk.made ==> s.proc.Down? && s.disk.sink == [] && s.hist == [] && s.disk.prior.None?)
    && (s.disk.prior == Some([]) ==> s.base == 0)
    && (s.proc.Up? && Rotating(s.proc.phase) ==> s.disk.sink != [])
  }

  ghost predicate Inv(tx: Text, cfg: Config, s: State) {
    && Base(cfg, s) && PriorOk(tx, cfg, s) && MadeOk(s)
    && (s.proc.Down? ==> CutsOk(tx, cfg, s.disk.sink, s.disk.firm, s.hist, s.clock))
    && (s.proc.Up? ==> UpOk(tx, cfg, s) && PhaseOk(tx, cfg, s))
  }

  // ---- what may still be cut off ----

  lemma CutNothing(tx: Text, cfg: Config, file: seq<Byte>, h: seq<Rec>, clock: nat)
    ensures CutOk(tx, cfg, file, |file|, h, clock) <==> FileOk(tx, cfg, file, h, clock)
  {
    assert file[..|file|] == file && h[..|h|] == h;
  }

  lemma AllFirm(tx: Text, cfg: Config, file: seq<Byte>, h: seq<Rec>, clock: nat)
    requires FileOk(tx, cfg, file, h, clock)
    ensures CutsOk(tx, cfg, file, |file|, h, clock)
  {
    hide CutOk;
    CutNothing(tx, cfg, file, h, clock);
  }

  lemma CutsWhole(tx: Text, cfg: Config, file: seq<Byte>, firm: nat, h: seq<Rec>, clock: nat)
    requires CutsOk(tx, cfg, file, firm, h, clock)
    ensures FileOk(tx, cfg, file, h, clock)
  {
    hide CutOk;
    CutNothing(tx, cfg, file, h, clock);
  }

  // ---- the clock moves on ----

  lemma ThresholdLater(cfg: Config, t: nat, t': nat)
    requires t <= t'
    ensures cfg.Threshold(t) <= cfg.Threshold(t')
  {
  }

  lemma FileLater(tx: Text, cfg: Config, file: seq<Byte>, h: seq<Rec>, t: nat, t': nat)
    requires FileOk(tx, cfg, file, h, t) && t <= t'
    ensures FileOk(tx, cfg, file, h, t')
  {
    ThresholdLater(cfg, t, t');
    var r := RecoverLines(tx, Scan(file).lines);
    if r.Ok? { TracksLater(cfg, r.value, h, cfg.Threshold(t), cfg.Threshold(t')); }
  }

  lemma CutsLater(tx: Text, cfg: Config, file: seq<Byte>, firm: nat, h: seq<Rec>, t: nat, t': nat)
    requires CutsOk(tx, cfg, file, firm, h, t) && t <= t'
    ensures CutsOk(tx, cfg, file, firm, h, t')
  {
    hide FileOk, Lost;
    forall n | firm <= n <= |file| ensures CutOk(tx, cfg, file, n, h, t') {
      assert CutOk(tx, cfg, file, n, h, t);
      FileLater(tx, cfg, file[..n], Without(h, Lost(file, n)), t, t');
    }
  }

  lemma RingsLater(cfg: Config, rings: map<nat, seq<Entry>>, rings': map<nat, seq<Entry>>, h: seq<Rec>, t: nat, t': nat)
    requires RingsOk(cfg, rings, h, t) && t <= t'
    requires forall u: nat ::
               RingAt(rings', u) == RingAt(rings, u) || RingAt(rings', u) == Evict(RingAt(rings, u), cfg.Threshold(t'))
    ensures RingsOk(cfg, rings', h, t')
  {
    ThresholdLater(cfg, t, t');
    forall u: nat ensures WindowOk(cfg, RingAt(rings', u), Charges(h, u), cfg.Threshold(t')) {
      WindowLater(cfg, RingAt(rings, u), Charges(h, u), cfg.Threshold(t), cfg.Threshold(t'));
    }
  }

  // ---- a request begins ----

  lemma OpenBySame(a: Opens, b: Opens, u: nat)
    requires SameOpens(a, b)
    ensures |a| == |b| && OpenBy(a, u) == OpenBy(b, u)
  {
    forall c | c in a ensures a[c].actor == b[c].actor { assert Unflagged(a[c]) == Unflagged(b[c]); }
    assert |a.Keys| == |b.Keys|;
  }

  /** The live checks depend on nothing but the meaning of the history. */
  lemma AdmitsSame(cfg: Config, h: seq<Rec>, a: Opens, b: Opens, r: Rec)
    requires SameOpens(a, b) && AdmitsStep(cfg, h, a, r)
    ensures AdmitsStep(cfg, h, b, r)
  {
    assert forall c :: c in a ==> Unflagged(a[c]) == Unflagged(b[c]);
    if AdmitsIntent(cfg, h, a, r.s) { OpenBySame(a, b, r.s.actor.uid); }
    if AdmitsIssue(a, r.s) { VerifierInUseSame(a, b, r.s.receipt.verifier); }
  }

  lemma QuotaSame(cfg: Config, ring: seq<Entry>, all: seq<Entry>, t: nat, now: nat, n: nat)
    requires cfg.Valid() && WindowOk(cfg, ring, all, cfg.Threshold(t)) && t <= now
    ensures RateAllowed(cfg, ring, now) <==> RateAllowed(cfg, all, now)
    ensures UidBytesAllowed(cfg, ring, now, n) <==> UidBytesAllowed(cfg, all, now, n)
  {
    if cfg.rateMaxInWindow != 0 {
      ThresholdLater(cfg, t, now);
      EvictedRingsAgree(ring, all, cfg.Threshold(t), cfg.Threshold(now));
    }
  }

  /** Passing the live checks is being admitted to the history. */
  lemma BeginAdmits(tx: Text, cfg: Config, s: State, rec: Rec, line: Line, now: nat)
    requires cfg.Valid() && BeginOk(tx, cfg, s, rec, line, now) && Base(cfg, s)
    requires MemOk(cfg, s.proc.mem, s.hist, s.boot, s.clock)
    ensures Admitted(cfg, s.hist, rec)
  {
    var c := Charge(rec).value;
    AdmitsSame(cfg, s.hist, s.proc.mem.opens, Replay(Facts(s.hist)).value.opens, rec);
    var all := Charges(s.hist, c.uid);
    assert WindowOk(cfg, RingAt(s.proc.mem.rings, c.uid), all, cfg.Threshold(s.clock));
    QuotaSame(cfg, RingAt(s.proc.mem.rings, c.uid), all, s.clock, now, c.entry.bytes);
    ChargesBefore(s.hist, c.uid, s.clock);
  }

  /** Steps that add nothing durable and rename nothing: the same history, the
      same solid sink, perhaps a later clock and shorter windows. */
  ghost predicate Quiet(cfg: Config, s: State, s': State) {
    && s.proc.Up? && s'.proc.Up? && s.clock <= s'.clock && s'.hist == s.hist && s'.boot == s.boot
    && Solid(s'.disk, s'.proc.phase) == Solid(s.disk, s.proc.phase) && s'.proc.mem.segBytes == s.proc.mem.segBytes
    && s'.disk.firm == s.disk.firm
    && (Firmed(s'.proc.phase) ==> Firmed(s.proc.phase) && s'.disk.sink == s.disk.sink)
    && s'.proc.mem.opens == s.proc.mem.opens && s'.proc.mem.global == s.proc.mem.global
    && (forall u: nat :: RingAt(s'.proc.mem.rings, u) == RingAt(s.proc.mem.rings, u) ||
                         RingAt(s'.proc.mem.rings, u) == Evict(RingAt(s.proc.mem.rings, u), cfg.Threshold(s'.clock)))
    && (forall i :: i in s'.acks ==> i < |s.hist|)
  }

  lemma QuietUp(tx: Text, cfg: Config, s: State, s': State)
    requires Base(cfg, s) && Quiet(cfg, s, s') && UpOk(tx, cfg, s)
    ensures Base(cfg, s') && UpOk(tx, cfg, s')
  {
    hide FileOk, CutsOk;
    FileLater(tx, cfg, Solid(s.disk, s.proc.phase), s.hist, s.clock, s'.clock);
    CutsLater(tx, cfg, Solid(s.disk, s.proc.phase), s.disk.firm, s.hist, s.clock, s'.clock);
    RingsLater(cfg, s.proc.mem.rings, s'.proc.mem.rings, s.hist, s.clock, s'.clock);
  }

  lemma PriorStays(tx: Text, cfg: Config, s: State, s': State)
    requires PriorOk(tx, cfg, s) && s.clock <= s'.clock && s'.disk.prior == s.disk.prior && s'.base == s.base
    requires s.hist <= s'.hist && (s'.proc.Up? && Rotating(s'.proc.phase) ==> s.disk.prior.None?)
    ensures PriorOk(tx, cfg, s')
  {
    hide FileOk;
    if s.disk.prior.Some? {
      assert s'.hist[..s.base] == s.hist[..s.base];
      FileLater(tx, cfg, s.disk.prior.value, s.hist[..s.base], s.clock, s'.clock);
    }
  }

  lemma EvictIsQuiet(cfg: Config, s: State, u: nat, s': State)
    requires s.proc.Up? && s'.proc.Up? && s.clock <= s'.clock && (forall i :: i in s.acks ==> i < |s.hist|)
    requires !s.proc.phase.Faulted? && !s'.proc.phase.Faulted?
    requires !Firmed(s'.proc.phase)
    requires s' == s.(clock := s'.clock, past := s'.past,
                      proc := Up(s.proc.mem.(rings := EvictRing(cfg, s.proc.mem.rings, u, s'.clock)), s'.proc.phase))
    ensures Quiet(cfg, s, s')
  {
  }

  lemma BeginWriting(tx: Text, cfg: Config, s: State, rec: Rec, line: Line, s': State)
    requires cfg.Valid() && DoBegin(tx, cfg, s, rec, line, s') && Base(cfg, s)
    requires MemOk(cfg, s.proc.mem, s.hist, s.boot, s.clock)
    ensures WritingOk(tx, cfg, s', rec, line)
  {
    BeginAdmits(tx, cfg, s, rec, line, s'.clock);
  }

  lemma BeginInv(tx: Text, cfg: Config, s: State, rec: Rec, line: Line, s': State)
    requires cfg.Valid() && Inv(tx, cfg, s) && DoBegin(tx, cfg, s, rec, line, s')
    ensures Inv(tx, cfg, s')
  {
    hide UpOk, PriorOk, Base, WritingOk, LineFor, AdmitsStep, IdsOk;
    assert MemOk(cfg, s.proc.mem, s.hist, s.boot, s.clock) by { UpMem(tx, cfg, s); }
    BeginWriting(tx, cfg, s, rec, line, s');
    BeginUp(tx, cfg, s, rec, line, s');
    PriorStays(tx, cfg, s, s');
  }

  lemma UpMem(tx: Text, cfg: Config, s: State)
    requires s.proc.Up? && UpOk(tx, cfg, s)
    ensures MemOk(cfg, s.proc.mem, s.hist, s.boot, s.clock)
  {
  }

  lemma BeginUp(tx: Text, cfg: Config, s: State, rec: Rec, line: Line, s': State)
    requires DoBegin(tx, cfg, s, rec, line, s') && Base(cfg, s) && UpOk(tx, cfg, s)
    ensures Base(cfg, s') && UpOk(tx, cfg, s')
  {
    EvictIsQuiet(cfg, s, Charge(rec).value.uid, s');
    QuietUp(tx, cfg, s, s');
  }

  lemma RefuseInv(tx: Text, cfg: Config, s: State, u: nat, s': State)
    requires Inv(tx, cfg, s) && DoRefuse(cfg, s, u, s')
    ensures Inv(tx, cfg, s')
  {
    EvictIsQuiet(cfg, s, u, s');
    hide UpOk, PriorOk;
    QuietUp(tx, cfg, s, s');
    PriorStays(tx, cfg, s, s');
  }

  lemma FaultIsSolid(s: State, landed: nat, s': State)
    requires DoAppendFault(s, landed, s')
    ensures Solid(s'.disk, s'.proc.phase) == s.disk.sink && FaultedOk(s', s.proc.phase.line, landed)
  {
    var sink, more := s.disk.sink, Landing(s.proc.phase.line, landed);
    assert (sink + more)[..|sink|] == sink;
  }

  lemma FaultInv(tx: Text, cfg: Config, s: State, landed: nat, s': State)
    requires Inv(tx, cfg, s) && DoAppendFault(s, landed, s')
    ensures Inv(tx, cfg, s')
  {
    hide Solid, FaultedOk, LineFor, Landing, UpOk, PriorOk;
    FaultIsSolid(s, landed, s');
    NotFaulted(s);
    QuietUp(tx, cfg, s, s');
    PriorStays(tx, cfg, s, s');
  }

  lemma NotFaulted(s: State)
    ensures s.proc.Up? && !s.proc.phase.Faulted? ==> Solid(s.disk, s.proc.phase) == s.disk.sink
  {
  }

  // ---- the append succeeds ----

  lemma SinkAfterAppend(tx: Text, cfg: Config, sink: seq<Byte>, h: seq<Rec>, clock: nat, line: Line, rec: Rec)
    requires CleanFile(tx, cfg, sink, h, clock) && Admitted(cfg, h, rec) && Charge(rec).value.entry.ts == clock
    requires LineFor(tx, line, rec)
    ensures CleanFile(tx, cfg, sink + line + [NL], h + [rec], clock)
  {
    hide Decode, Apply, Replay, Admitted;
    var lines := Scan(sink).lines;
    var r := RecoverLines(tx, lines);
    ScanLine(sink, line);
    assert [] + line == line;
    if r.Err? {
      FaultKept(tx, lines, line);
    } else if Decode(tx, line).None? {
      RecoverSnoc(tx, lines, line);
    } else {
      TracksAppend(cfg, r.value, h, rec, cfg.Threshold(clock));
      AppendedLine(tx, sink, r.value, line, rec);
    }
  }

  lemma OpensAfterAppend(cfg: Config, opens: Opens, h: seq<Rec>, rec: Rec)
    requires Admitted(cfg, h, rec) && SameOpens(opens, Replay(Facts(h)).value.opens)
    ensures Replay(Facts(h + [rec])).Ok? && SameOpens(Installed(opens, rec.s), Replay(Facts(h + [rec])).value.opens)
  {
    AdmittedNext(cfg, h, rec);
    InstalledSame(opens, Replay(Facts(h)).value.opens, rec.s);
  }

  lemma InstalledSame(a: Opens, b: Opens, s: Stored)
    requires SameOpens(a, b)
    ensures SameOpens(Installed(a, s), Installed(b, s))
  {
    assert forall c :: c in a ==> Unflagged(a[c]) == Unflagged(b[c]);
  }

  lemma RingsAfterAppend(cfg: Config, mem: Mem, h: seq<Rec>, clock: nat, rec: Rec)
    requires RingsOk(cfg, mem.rings, h, clock) && Admitted(cfg, h, rec) && Charge(rec).value.entry.ts == clock
    ensures RingsOk(cfg, Noted(cfg, mem, Charge(rec).value).rings, h + [rec], clock)
  {
    var c := Charge(rec).value;
    var rings' := Noted(cfg, mem, c).rings;
    forall u: nat ensures WindowOk(cfg, RingAt(rings', u), Charges(h + [rec], u), cfg.Threshold(clock)) {
      ChargesSnoc(h, rec, u);
      if u == c.uid { WindowPush(cfg, RingAt(mem.rings, u), Charges(h, u), cfg.Threshold(clock), c.entry); }
    }
  }

  lemma GlobalAfterAppend(cfg: Config, g: Global, h: seq<Rec>, boot: nat, clock: nat, rec: Rec)
    requires GlobalOk(cfg, g, h, boot) && Before(h, clock) && Charge(rec).Some? && Charge(rec).value.entry.ts == clock
    requires GlobalAllowed(cfg, g, clock, Charge(rec).value.entry.bytes)
    ensures GlobalOk(cfg, GlobalNote(cfg, g, Charge(rec).value.entry), h + [rec], boot)
  {
    var now := h[boot..];
    assert (h + [rec])[boot..] == now + [rec];
    ChargesSnoc(now, rec, 0);
    assert Before(now, clock);
    ChargesBefore(now, 0, clock);
    GlobalPassedSnoc(cfg, AllCharges(now), Charge(rec).value.entry);
  }

  lemma AppendOkInv(tx: Text, cfg: Config, s: State, s': State)
    requires Inv(tx, cfg, s) && DoAppendOk(cfg, s, s')
    ensures Inv(tx, cfg, s')
  {
    hide FileOk, Admitted, LineFor, MemOk, CarryingOk, RatesOk, IsHistory, Installed, Noted, Scan, CutsOk, PriorOk;
    var rec, line := s.proc.phase.rec, s.proc.phase.line;
    HistoryExtends(cfg, s.hist, rec, s.clock);
    SinkAfterAppend(tx, cfg, s.disk.sink, s.hist, s.clock, line, rec);
    AllFirm(tx, cfg, s'.disk.sink, s'.hist, s.clock);
    AppendOkMem(tx, cfg, s, s');
    PriorStays(tx, cfg, s, s');
  }

  lemma AppendOkMem(tx: Text, cfg: Config, s: State, s': State)
    requires Base(cfg, s) && s.proc.Up? && s.proc.phase.Writing?
    requires WritingOk(tx, cfg, s, s.proc.phase.rec, s.proc.phase.line)
    requires MemOk(cfg, s.proc.mem, s.hist, s.boot, s.clock) && DoAppendOk(cfg, s, s')
    ensures MemOk(cfg, s'.proc.mem, s'.hist, s'.boot, s'.clock)
  {
    var rec, mem := s.proc.phase.rec, s.proc.mem;
    OpensAfterAppend(cfg, mem.opens, s.hist, rec);
    RingsAfterAppend(cfg, mem, s.hist, s.clock, rec);
    GlobalAfterAppend(cfg, mem.global, s.hist, s.boot, s.clock, rec);
  }
}
