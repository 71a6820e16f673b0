/** The invariant through every step of a rotation, a failure and a restart. */
module Rotation {
  import opened Types
  import opened Lines
  import opened Lifecycle
  import opened Rates
  import opened Records
  import opened History
  import opened Guarantees
  import opened Recovery
  import opened Carry
  import opened Machine
  import opened Safety

  // ---- carrying the intents ----

  lemma LiveIntentsOk(cfg: Config, opens: Opens, h: seq<Rec>)
    requires IsHistory(cfg, h) && Replay(Facts(h)).Ok? && SameOpens(opens, Replay(Facts(h)).value.opens)
    ensures IntentsOk(opens) && VerifiersUnique(opens)
  {
    HistoryIntentsOk(cfg, h);
    var b := Replay(Facts(h)).value.opens;
    forall c | c in opens ensures IntentOk(c, opens[c]) && opens[c].receipt == b[c].receipt {
      assert Unflagged(opens[c]) == Unflagged(b[c]);
    }
  }

  lemma EmptyPending(tx: Text, cfg: Config, opens: Opens)
    ensures Carried(tx, cfg, [], [], opens, {})
  {
    assert Replay(Facts([])) == Ok(EMPTY);
    assert Scan([]) == Scanned([], []) && RecoverLines(tx, []) == Ok([]);
  }

  lemma RotateBeginInv(tx: Text, cfg: Config, s: State, order: seq<string>, s': State)
    requires Inv(tx, cfg, s) && DoRotateBegin(cfg, s, order, s')
    ensures Inv(tx, cfg, s')
  {
    assert s.disk.sink != [] by { NotFaulted(s); }
    hide UpOk;
    QuietUp(tx, cfg, s, s');
    EmptyPending(tx, cfg, s.proc.mem.opens);
    assert Elems(order[..0]) == {};
  }

  lemma ElemsNext<T(!new)>(order: seq<T>, all: set<T>, k: nat)
    requires Enumerates(order, all) && k < |order|
    ensures order[k] in all && order[k] !in Elems(order[..k]) && Elems(order[..k + 1]) == Elems(order[..k]) + {order[k]}
  {
    assert order[k] in order;
    assert order[..k + 1] == order[..k] + [order[k]];
  }

  lemma ElemsAll<T(!new)>(order: seq<T>, all: set<T>)
    requires Enumerates(order, all)
    ensures Elems(order[..|order|]) == all
  {
    assert order[..|order|] == order;
  }

  lemma WriteIntentCarries(tx: Text, cfg: Config, s: State, s': State)
    requires Faithful(tx) && Base(cfg, s) && s.proc.Up? && MemOk(cfg, s.proc.mem, s.hist, s.boot, s.clock)
    requires DoWriteIntent(tx, s, s') && CarryingOk(tx, cfg, s, s.proc.phase.order, s.proc.phase.done)
    ensures CarryingOk(tx, cfg, s', s'.proc.phase.order, s'.proc.phase.done)
  {
    var order, k, opens := s.proc.phase.order, s.proc.phase.done, s.proc.mem.opens;
    var log :| Carried(tx, cfg, s.disk.pending.value, log, opens, Elems(order[..k]));
    LiveIntentsOk(cfg, opens, s.hist);
    ElemsNext(order, opens.Keys, k);
    var log' := CarryOne(tx, cfg, s.disk.pending.value, log, opens, Elems(order[..k]), order[k], s'.clock);
  }

  lemma WriteIntentInv(tx: Text, cfg: Config, s: State, s': State)
    requires Faithful(tx) && Inv(tx, cfg, s) && DoWriteIntent(tx, s, s')
    ensures Inv(tx, cfg, s')
  {
    hide CarryingOk, RatesOk, FileOk, CutsOk, MemOk, WritingOk, IsHistory, Before, CarryBytes, RateBytes, Scan;
    WriteIntentCarries(tx, cfg, s, s');
    QuietUp(tx, cfg, s, s');
    assert s.disk.prior.None?;
  }

  // ---- carrying the windows ----

  lemma StartRatesCarries(tx: Text, cfg: Config, s: State, uids: seq<nat>, s': State)
    requires s.proc.Up? && DoStartRates(cfg, s, uids, s')
    requires CarryingOk(tx, cfg, s, s.proc.phase.order, s.proc.phase.done)
    ensures RatesOk(tx, cfg, s', uids, 0)
  {
    var order, opens := s.proc.phase.order, s.proc.mem.opens;
    var log :| Carried(tx, cfg, s.disk.pending.value, log, opens, Elems(order[..|order|]));
    ElemsAll(order, opens.Keys);
    assert Elems(uids[..0]) == {};
    assert RatesDone(tx, cfg, s'.disk.pending.value, log, s'.proc.mem, {});
  }

  lemma StartRatesInv(tx: Text, cfg: Config, s: State, uids: seq<nat>, s': State)
    requires Inv(tx, cfg, s) && DoStartRates(cfg, s, uids, s')
    ensures Inv(tx, cfg, s')
  {
    hide CarryingOk, RatesOk, FileOk, CutsOk, MemOk, WritingOk, IsHistory, Before, CarryBytes, RateBytes, Scan;
    StartRatesCarries(tx, cfg, s, uids, s');
    QuietUp(tx, cfg, s, s');
    assert s.disk.prior.None?;
  }

  lemma {:induction false} ChargesValid(cfg: Config, h: seq<Rec>, u: nat)
    requires IsHistory(cfg, h)
    ensures EntriesOk(Charges(h, u)) && (Charges(h, u) != [] ==> u < UID_LIMIT)
  {
    if h != [] { ChargesValid(cfg, h[..|h| - 1], u); }
  }

  lemma RingValid(cfg: Config, ring: seq<Entry>, h: seq<Rec>, u: nat, th: nat)
    requires IsHistory(cfg, h) && cfg.rateMaxInWindow != 0 && WindowOk(cfg, ring, Charges(h, u), th) && ring != []
    ensures u < UID_LIMIT && EntriesOk(ring) && |ring| <= cfg.rateMaxInWindow
  {
    ChargesValid(cfg, h, u);
  }

  lemma WriteRateCarries(tx: Text, cfg: Config, s: State, s': State)
    requires Faithful(tx) && Base(cfg, s) && s.proc.Up? && MemOk(cfg, s.proc.mem, s.hist, s.boot, s.clock)
    requires DoWriteRate(tx, s, s') && RatesOk(tx, cfg, s, s.proc.phase.uids, s.proc.phase.done)
    ensures RatesOk(tx, cfg, s', s'.proc.phase.uids, s'.proc.phase.done)
  {
    var uids, k, mem := s.proc.phase.uids, s.proc.phase.done, s.proc.mem;
    var log :| RatesDone(tx, cfg, s.disk.pending.value, log, mem, Elems(uids[..k]));
    ElemsNext(uids, Active(cfg, mem.rings), k);
    var u := uids[k];
    RingValid(cfg, RingAt(mem.rings, u), s.hist, u, cfg.Threshold(s.clock));
    var log' := CarryRate(tx, cfg, s.disk.pending.value, log, mem.rings, Elems(uids[..k]), u);
    assert RatesDone(tx, cfg, s'.disk.pending.value, log', s'.proc.mem, Elems(uids[..k + 1]));
  }

  lemma WriteRateInv(tx: Text, cfg: Config, s: State, s': State)
    requires Faithful(tx) && Inv(tx, cfg, s) && DoWriteRate(tx, s, s')
    ensures Inv(tx, cfg, s')
  {
    hide CarryingOk, RatesOk, FileOk, CutsOk, MemOk, WritingOk, IsHistory, Before, CarryBytes, RateBytes, Scan;
    WriteRateCarries(tx, cfg, s, s');
    QuietUp(tx, cfg, s, s');
    assert s.disk.prior.None?;
  }

  // ---- the swap ----

  /** The finished pending file stands for the history like the sink does. */
  lemma PendingReady(tx: Text, cfg: Config, s: State)
    requires s.proc.Up? && MemOk(cfg, s.proc.mem, s.hist, s.boot, s.clock) && CarryDone(s.proc.phase)
    requires RatesOk(tx, cfg, s, s.proc.phase.uids, s.proc.phase.done)
    ensures s.disk.pending.Some? && CleanFile(tx, cfg, s.disk.pending.value, s.hist, s.clock)
    ensures RecoverLines(tx, Scan(s.disk.pending.value).lines).Ok?
  {
    var uids, mem := s.proc.phase.uids, s.proc.mem;
    var all := Active(cfg, mem.rings);
    ElemsAll(uids, all);
    var log :| RatesDone(tx, cfg, s.disk.pending.value, log, mem, Elems(uids[..|uids|]));
    CarriedTracks(cfg, log, mem.opens, mem.rings, all, s.hist, cfg.Threshold(s.clock));
  }

  lemma LinkInv(tx: Text, cfg: Config, s: State, ts: nat, s': State)
    requires Inv(tx, cfg, s) && DoLink(s, ts, s')
    ensures Inv(tx, cfg, s')
  {
    hide CarryingOk, RatesOk, CleanFile, CutsOk, MemOk, WritingOk, IsHistory, Before, Scan, RecoverLines;
    PendingReady(tx, cfg, s);
    QuietUp(tx, cfg, s, s');
    assert s.disk.prior.None?;
  }

  lemma SettleInv(tx: Text, cfg: Config, s: State, ts: nat, s': State)
    requires Inv(tx, cfg, s) && (DoGiveUp(s, s') || DoLinkFail(s, ts, s'))
    ensures Inv(tx, cfg, s')
  {
    hide CarryingOk, RatesOk, FileOk, UpOk, PriorOk, WritingOk, IsHistory, Before, CarryBytes, RateBytes, Scan;
    QuietUp(tx, cfg, s, s');
    PriorStays(tx, cfg, s, s');
  }

  lemma RenameInv(tx: Text, cfg: Config, s: State, s': State)
    requires Inv(tx, cfg, s) && DoRename(s, s')
    ensures Inv(tx, cfg, s')
  {
    hide CarryingOk, RatesOk, FileOk, RingsOk, GlobalOk, WritingOk, IsHistory, Before, CarryBytes, RateBytes, Scan;
    hide CutsOk;
    AllFirm(tx, cfg, s'.disk.sink, s.hist, s.clock);
    assert s.hist[..s'.base] == s.hist;
  }

  lemma AfterSwapInv(tx: Text, cfg: Config, s: State, ts: nat, s': State)
    requires Inv(tx, cfg, s) && (DoSyncDir(s, s') || DoSyncDirFail(s, s') || DoPrune(s, ts, s') || DoReply(s, s'))
    ensures Inv(tx, cfg, s')
  {
    hide CarryingOk, RatesOk, FaultedOk, FileOk, UpOk, WritingOk, IsHistory, Before, CarryBytes, RateBytes, Scan;
    QuietUp(tx, cfg, s, s');
    if !DoSyncDir(s, s') { PriorStays(tx, cfg, s, s'); }
  }

  // ---- failure ----

  lemma TornFile(tx: Text, cfg: Config, file: seq<Byte>, h: seq<Rec>, clock: nat, line: Line, k: nat)
    requires CleanFile(tx, cfg, file, h, clock) && OneLine(line) && k <= |line|
    ensures FileOk(tx, cfg, file + Landing(line, k), h, clock)
  {
    CrashedAppend(file, line, k);
  }

  /** The history with a line of which this much landed. */
  function Landed(h: seq<Rec>, line: Line, rec: Rec, k: nat): seq<Rec> { if k == |line| + 1 then h + [rec] else h }

  /** Whatever prefix landed, the file stands for the history with the line
      wholly there or wholly absent. */
  lemma CrashedWrite(tx: Text, cfg: Config, sink: seq<Byte>, h: seq<Rec>, clock: nat, line: Line, rec: Rec, landed: nat)
    requires CleanFile(tx, cfg, sink, h, clock) && Admitted(cfg, h, rec) && Charge(rec).value.entry.ts == clock
    requires LineFor(tx, line, rec) && landed <= |line| + 1
    ensures FileOk(tx, cfg, sink + Landing(line, landed), Landed(h, line, rec, landed), clock)
  {
    if landed == |line| + 1 {
      SinkAfterAppend(tx, cfg, sink, h, clock, line, rec);
      assert sink + Landing(line, landed) == sink + line + [NL];
    } else {
      TornFile(tx, cfg, sink, h, clock, line, landed);
    }
  }

  /** The bytes that landed may go again, all or some of them. */
  lemma CutLanding(tx: Text, cfg: Config, sink: seq<Byte>, firm: nat, h: seq<Rec>, clock: nat, line: Line, rec: Rec,
                   landed: nat, n: nat)
    requires CleanFile(tx, cfg, sink, h, clock) && CutsOk(tx, cfg, sink, firm, h, clock)
    requires Admitted(cfg, h, rec) && Charge(rec).value.entry.ts == clock && LineFor(tx, line, rec)
    requires landed <= |line| + 1 && firm <= n <= |sink| + landed
    ensures CutOk(tx, cfg, sink + Landing(line, landed), n, Landed(h, line, rec, landed), clock)
  {
    hide FileOk, Admitted, LineFor, Scan;
    var file := sink + Landing(line, landed);
    assert OneLine(line) by { LineForOne(tx, line, rec); }
    CrashedAppend(sink, line, landed);
    if n <= |sink| {
      assert file[..n] == sink[..n] && CutOk(tx, cfg, sink, n, h, clock);
      assert Without(Landed(h, line, rec, landed), Lost(file, n)) == Without(h, Lost(sink, n));
    } else {
      var k := n - |sink|;
      assert file[..n] == sink + Landing(line, k);
      CrashedAppend(sink, line, k);
      CrashedWrite(tx, cfg, sink, h, clock, line, rec, k);
      assert Without(Landed(h, line, rec, landed), Lost(file, n)) == Landed(h, line, rec, k);
    }
  }

  lemma LineForOne(tx: Text, line: Line, rec: Rec)
    requires LineFor(tx, line, rec)
    ensures OneLine(line)
  {
  }

  lemma CutsLanding(tx: Text, cfg: Config, sink: seq<Byte>, firm: nat, h: seq<Rec>, clock: nat, line: Line, rec: Rec,
                    landed: nat)
    requires CleanFile(tx, cfg, sink, h, clock) && CutsOk(tx, cfg, sink, firm, h, clock)
    requires Admitted(cfg, h, rec) && Charge(rec).value.entry.ts == clock && LineFor(tx, line, rec)
    requires landed <= |line| + 1
    ensures CutsOk(tx, cfg, sink + Landing(line, landed), firm, Landed(h, line, rec, landed), clock)
  {
    hide FileOk, Admitted, LineFor, CutOk;
    var file := sink + Landing(line, landed);
    forall n | firm <= n <= |file| ensures CutOk(tx, cfg, file, n, Landed(h, line, rec, landed), clock) {
      CutLanding(tx, cfg, sink, firm, h, clock, line, rec, landed, n);
    }
  }

  lemma KillInv(tx: Text, cfg: Config, s: State, landed: nat, s': State)
    requires Inv(tx, cfg, s) && DoKill(s, landed, s')
    ensures Inv(tx, cfg, s')
  {
    hide FileOk, CutsOk, Admitted, LineFor, MemOk, CarryingOk, RatesOk, IsHistory, PriorOk, Scan, Landing;
    PriorStays(tx, cfg, s, s');
    var p := s.proc.phase;
    if InFlight(p) {
      HistoryExtends(cfg, s.hist, p.rec, s.clock);
      CutsLanding(tx, cfg, Solid(s.disk, p), s.disk.firm, s.hist, s.clock, p.line, p.rec, landed);
    } else {
      NotFaulted(s);
    }
  }

  lemma PrefixBase(cfg: Config, h: seq<Rec>, k: nat, clock: nat)
    requires IsHistory(cfg, h) && Before(h, clock) && k <= |h|
    ensures IsHistory(cfg, h[..k]) && Before(h[..k], clock)
  {
    hide IsHistory;
    HistoryAt(cfg, h, k);
  }

  lemma PowerFailInv(tx: Text, cfg: Config, s: State, back: bool, keep: nat, machine: string, s': State)
    requires Inv(tx, cfg, s) && DoPowerFail(s, back, keep, machine, s')
    ensures Inv(tx, cfg, s')
  {
    hide FileOk, IsHistory, Before, Lost;
    if !back { assert CutOk(tx, cfg, s.disk.sink, keep, s.hist, s.clock); }
    PrefixBase(cfg, s.hist, |s'.hist|, s.clock);
    AllFirm(tx, cfg, s'.disk.sink, s'.hist, s.clock);
  }

  // ---- restart ----

  lemma RebuiltMem(tx: Text, cfg: Config, log: seq<Rec>, mem: Mem, h: seq<Rec>, clock: nat)
    requires Tracks(cfg, log, h, cfg.Threshold(clock)) && Rebuilt(cfg, log, mem.rings)
    requires mem.opens == Replay(Facts(log)).value.opens && mem.global == Global(0, 0)
    ensures MemOk(cfg, mem, h, |h|, clock)
  {
    assert h[|h|..] == [];
    forall u: nat ensures WindowOk(cfg, RingAt(mem.rings, u), Charges(h, u), cfg.Threshold(clock)) {
      assert RingAt(mem.rings, u) == RingAfter(cfg, log, u);
    }
  }

  /** The file without its torn tail. */
  lemma TrimmedFile(tx: Text, cfg: Config, file: seq<Byte>, h: seq<Rec>, clock: nat)
    requires FileOk(tx, cfg, file, h, clock)
    ensures CleanFile(tx, cfg, Encode(Scan(file).lines), h, clock)
  {
    Truncating(tx, file);
  }

  /** Cutting off the torn tail leaves fewer bytes that may still go. */
  lemma TrimmedCuts(tx: Text, cfg: Config, file: seq<Byte>, firm: nat, h: seq<Rec>, clock: nat)
    requires CutsOk(tx, cfg, file, firm, h, clock)
    ensures var sink := Encode(Scan(file).lines);
            && |sink| <= |file| && CutsOk(tx, cfg, sink, if firm <= |sink| then firm else |sink|, h, clock)
            && CutsOk(tx, cfg, sink, |sink|, h, clock)
  {
    hide FileOk, Scan, Encode;
    var sink := Encode(Scan(file).lines);
    CutsWhole(tx, cfg, file, firm, h, clock);
    TrimmedFile(tx, cfg, file, h, clock);
    AllFirm(tx, cfg, sink, h, clock);
    assert file == sink + Scan(file).tail by { ScanIsExact(file); }
    Truncating(tx, file);
    forall n | firm <= n <= |sink| ensures CutOk(tx, cfg, sink, n, h, clock) {
      assert CutOk(tx, cfg, file, n, h, clock) && file[..n] == sink[..n];
    }
  }

  lemma RestartCuts(tx: Text, cfg: Config, file: seq<Byte>, firm: nat, h: seq<Rec>, clock: nat)
    requires CutsOk(tx, cfg, file, firm, h, clock)
    ensures var sink := Encode(Scan(file).lines);
            CleanFile(tx, cfg, sink, h, clock) && CutsOk(tx, cfg, sink, if sink == file then firm else |sink|, h, clock)
  {
    hide FileOk, Scan, Encode, CutsOk;
    CutsWhole(tx, cfg, file, firm, h, clock);
    TrimmedFile(tx, cfg, file, h, clock);
    AllFirm(tx, cfg, Encode(Scan(file).lines), h, clock);
  }

  lemma RestartInv(tx: Text, cfg: Config, s: State, s': State)
    requires Inv(tx, cfg, s) && DoRestart(tx, cfg, s, s')
    ensures Inv(tx, cfg, s')
  {
    hide CutsOk, IsHistory, Scan, Encode, RecoverLines, MemOk, PriorOk, Rebuilt, Tracks;
    CutsLater(tx, cfg, s.disk.sink, s.disk.firm, s.hist, s.clock, s'.clock);
    if s.disk.made || s'.proc.Down? { PriorStays(tx, cfg, s, s'); } else { NoPrior(tx, cfg, s'); }
    var r := Recover(tx, s.disk.sink);
    if r.Ok? {
      RestartCuts(tx, cfg, s.disk.sink, s.disk.firm, s.hist, s'.clock);
      CutsWhole(tx, cfg, s.disk.sink, s.disk.firm, s.hist, s'.clock);
      RebuiltMem(tx, cfg, r.value, s'.proc.mem, s.hist, s'.clock);
    }
  }

  lemma NoPrior(tx: Text, cfg: Config, s: State)
    requires s.disk.prior.None?
    ensures PriorOk(tx, cfg, s)
  {
  }

  lemma EmptyFile(tx: Text, cfg: Config, clock: nat)
    ensures CleanFile(tx, cfg, [], [], clock)
  {
    assert Scan([]) == Scanned([], []) && RecoverLines(tx, []) == Ok([]);
    assert Replay(Facts([])) == Ok(EMPTY);
    forall u: nat ensures WindowOk(cfg, RingAfter(cfg, [], u), Charges([], u), cfg.Threshold(clock)) {}
  }

  lemma StartFailInv(tx: Text, cfg: Config, s: State, cut: bool, synced: bool, create: bool, s': State)
    requires Inv(tx, cfg, s) && DoStartFail(s, cut, synced, create, s')
    ensures Inv(tx, cfg, s')
  {
    hide FileOk, CutsOk, IsHistory, Scan, Encode;
    CutsLater(tx, cfg, s.disk.sink, s.disk.firm, s.hist, s.clock, s'.clock);
    TrimmedCuts(tx, cfg, s.disk.sink, s.disk.firm, s.hist, s'.clock);
    FirmBound(tx, cfg, s.disk.sink, s.disk.firm, s.hist, s.clock);
    if create {
      EmptyFile(tx, cfg, s'.clock);
      assert s.hist[..0] == [];
    } else {
      PriorStays(tx, cfg, s, s');
    }
  }

  lemma FirmBound(tx: Text, cfg: Config, file: seq<Byte>, firm: nat, h: seq<Rec>, clock: nat)
    requires CutsOk(tx, cfg, file, firm, h, clock)
    ensures firm <= |file|
  {
  }
}
