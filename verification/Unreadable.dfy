/** Lines the strict parser will not read back: which requests write them, and
    exactly when they keep the broker from starting. */
module Unreadable {
  import opened Types
  import opened Utf8
  import opened Lines
  import opened Json
  import opened Records
  import opened Requests
  import opened Lifecycle
  import opened History
  import opened Recovery
  import opened Carry
  import opened AuditLines
  import opened Machine
  import opened Safety
  import opened Rotation
  import opened Runs

  // ---- over a run ----

  /** The places in the history of the lines that do not parse: those in the
      sink, and those in the file a power failure may bring back. */
  datatype Spoil = Spoil(sink: set<nat>, prior: set<nat>)

  /** The line in flight does not parse. */
  ghost predicate Bad(tx: Text, s: State) {
    s.proc.Up? && InFlight(s.proc.phase) && Decode(tx, s.proc.phase.line).None?
  }

  ghost function Spoiled(tx: Text, s: State, p: Spoil): Spoil {
    if Bad(tx, s) then p.(sink := p.sink + {|s.hist|}) else p
  }

  function Below(places: set<nat>, n: nat): set<nat> { set i | i in places && i < n }

  /** Told from the steps alone: appends spoil, a rotation starts afresh, and a
      power failure takes lines away or brings the old file back. */
  ghost function SpoilStep(tx: Text, s: State, step: Step, p: Spoil): Spoil {
    match step
    case AppendOk => Spoiled(tx, s, p)
    case Kill(landed) => if s.proc.Up? && Whole(s.proc.phase, landed) then Spoiled(tx, s, p) else p
    case PowerFail(back, keep, _) =>
      Spoil(Below(if back then p.prior else p.sink, |Survives(s, back, keep)|), {})
    case Rename => Spoil({}, p.sink)
    case SyncDir => p.(prior := {})
    case RotateBegin(_) => p.(prior := {})
    case StartFail(_, _, create) => if create then p.(prior := {}) else p
    case _ => p
  }

  ghost function SpoilAt(tx: Text, trace: seq<State>, steps: seq<Step>, i: nat): Spoil
    requires i < |trace| && |trace| == |steps| + 1
  {
    if i == 0 then Spoil({}, {})
    else SpoilStep(tx, trace[i - 1], steps[i - 1], SpoilAt(tx, trace, steps, i - 1))
  }

  ghost predicate Reads(tx: Text, file: seq<Byte>) { LinesRead(tx, Scan(file).lines) }

  /** With only the first n bytes left, the file reads unless one of the spoiled
      lines is left. */
  ghost predicate CutReads(tx: Text, file: seq<Byte>, n: nat, h: seq<Rec>, places: set<nat>)
    requires n <= |file|
  {
    Reads(tx, file[..n]) <==> forall i :: i in places ==> i >= |h| - Lost(file, n)
  }

  ghost predicate CutsRead(tx: Text, file: seq<Byte>, firm: nat, h: seq<Rec>, places: set<nat>) {
    forall n :: firm <= n <= |file| ==> CutReads(tx, file, n, h, places)
  }

  /** The files are as the steps say. */
  ghost predicate SpoilOk(tx: Text, s: State, p: Spoil) {
    && CutsRead(tx, Kept(s), s.disk.firm, s.hist, p.sink) && (forall i :: i in p.sink ==> i < |s.hist|)
    && (s.disk.prior.Some? ==>
          (p.prior == {} <==> Reads(tx, s.disk.prior.value)) && forall i :: i in p.prior ==> i < s.base)
  }

  // ---- one file ----

  lemma WholeReads(tx: Text, file: seq<Byte>, h: seq<Rec>, places: set<nat>)
    requires forall i :: i in places ==> i < |h|
    ensures CutReads(tx, file, |file|, h, places) <==> (Reads(tx, file) <==> places == {})
  {
    hide Reads;
    assert file[..|file|] == file;
  }

  /** Everything is synced: only the whole file matters. */
  lemma FirmReads(tx: Text, file: seq<Byte>, h: seq<Rec>, places: set<nat>)
    requires (Reads(tx, file) <==> places == {}) && forall i :: i in places ==> i < |h|
    ensures CutsRead(tx, file, |file|, h, places)
  {
    hide Reads, CutReads;
    WholeReads(tx, file, h, places);
  }

  lemma CutsReadWhole(tx: Text, file: seq<Byte>, firm: nat, h: seq<Rec>, places: set<nat>)
    requires CutsRead(tx, file, firm, h, places) && firm <= |file| && forall i :: i in places ==> i < |h|
    ensures Reads(tx, file) <==> places == {}
  {
    hide Reads, CutReads;
    WholeReads(tx, file, h, places);
  }

  lemma LandedReads(tx: Text, file: seq<Byte>, line: Line, k: nat)
    requires Scan(file).tail == [] && line != [] && OneLine(line) && k <= |line| + 1
    ensures Reads(tx, file + Landing(line, k)) <==> Reads(tx, file) && (k == |line| + 1 ==> Decode(tx, line).Some?)
  {
    CrashedAppend(file, line, k);
    if k == |line| + 1 { LinesReadSnoc(tx, Scan(file).lines, line); }
  }

  /** The places after this much of a line that may not parse landed. */
  ghost function PlacesAfter(tx: Text, h: seq<Rec>, places: set<nat>, line: Line, k: nat): set<nat> {
    if k == |line| + 1 && Decode(tx, line).None? then places + {|h|} else places
  }

  lemma CutLandingReads(tx: Text, file: seq<Byte>, firm: nat, h: seq<Rec>, places: set<nat>, line: Line, rec: Rec,
                        landed: nat, n: nat)
    requires CutsRead(tx, file, firm, h, places) && (forall i :: i in places ==> i < |h|) && firm <= |file|
    requires Scan(file).tail == [] && line != [] && OneLine(line) && landed <= |line| + 1
    requires firm <= n <= |file| + landed && (n <= |file| ==> 0 <= Lost(file, n))
    ensures CutReads(tx, file + Landing(line, landed), n, Landed(h, line, rec, landed),
                     PlacesAfter(tx, h, places, line, landed))
  {
    hide Reads, Decode, Scan;
    var file' := file + Landing(line, landed);
    CrashedAppend(file, line, landed);
    if n <= |file| {
      assert file'[..n] == file[..n] && CutReads(tx, file, n, h, places);
    } else {
      var k := n - |file|;
      assert file'[..n] == file + Landing(line, k);
      CrashedAppend(file, line, k);
      LandedReads(tx, file, line, k);
      CutsReadWhole(tx, file, firm, h, places);
    }
  }

  lemma CutsLandingRead(tx: Text, cfg: Config, file: seq<Byte>, firm: nat, h: seq<Rec>, clock: nat, places: set<nat>,
                        line: Line, rec: Rec, landed: nat)
    requires CutsRead(tx, file, firm, h, places) && (forall i :: i in places ==> i < |h|)
    requires CutsOk(tx, cfg, file, firm, h, clock)
    requires Scan(file).tail == [] && line != [] && OneLine(line) && landed <= |line| + 1
    ensures CutsRead(tx, file + Landing(line, landed), firm, Landed(h, line, rec, landed),
                     PlacesAfter(tx, h, places, line, landed))
  {
    hide CutReads, PlacesAfter, Scan, FileOk, Lost;
    var file' := file + Landing(line, landed);
    forall n | firm <= n <= |file'|
      ensures CutReads(tx, file', n, Landed(h, line, rec, landed), PlacesAfter(tx, h, places, line, landed))
    {
      if n <= |file| { assert CutOk(tx, cfg, file, n, h, clock); }
      CutLandingReads(tx, file, firm, h, places, line, rec, landed, n);
    }
  }

  lemma TrimmedReads(tx: Text, file: seq<Byte>, firm: nat, h: seq<Rec>, places: set<nat>)
    requires CutsRead(tx, file, firm, h, places) && firm <= |file| && forall i :: i in places ==> i < |h|
    ensures var sink := Encode(Scan(file).lines);
            && CutsRead(tx, sink, |sink|, h, places)
            && (firm <= |sink| ==> CutsRead(tx, sink, firm, h, places))
            && CutsRead(tx, sink, if sink == file then firm else |sink|, h, places)
  {
    hide Scan, Encode, Decode;
    var sink := Encode(Scan(file).lines);
    Truncating(tx, file);
    CutsReadWhole(tx, file, firm, h, places);
    FirmReads(tx, sink, h, places);
    assert file == sink + Scan(file).tail by { ScanIsExact(file); }
    forall n | firm <= n <= |sink| ensures CutReads(tx, sink, n, h, places) {
      assert CutReads(tx, file, n, h, places) && file[..n] == sink[..n];
    }
  }

  // ---- one step ----

  lemma KillSpoil(tx: Text, cfg: Config, s: State, landed: nat, s': State, p: Spoil)
    requires Inv(tx, cfg, s) && DoKill(s, landed, s') && SpoilOk(tx, s, p)
    ensures SpoilOk(tx, s', SpoilStep(tx, s, Kill(landed), p))
  {
    hide FileOk, MemOk, Base, CarryingOk, RatesOk, Reads, CutsRead, CutOk, Scan, Decode, Landing, Solid;
    var f := s.proc.phase;
    if InFlight(f) {
      assert f.line != [] && OneLine(f.line);
      CutsLandingRead(tx, cfg, Solid(s.disk, f), s.disk.firm, s.hist, s.clock, p.sink, f.line, f.rec, landed);
    } else {
      NotFaulted(s);
    }
  }

  lemma AppendedReads(tx: Text, file: seq<Byte>, firm: nat, h: seq<Rec>, places: set<nat>, line: Line, rec: Rec)
    requires CutsRead(tx, file, firm, h, places) && firm <= |file| && (forall i :: i in places ==> i < |h|)
    requires Scan(file).tail == [] && line != [] && OneLine(line)
    ensures var file', places' := file + line + [NL], PlacesAfter(tx, h, places, line, |line| + 1);
            CutsRead(tx, file', |file'|, h + [rec], places') && forall i :: i in places' ==> i < |h| + 1
  {
    hide Reads, CutsRead, Scan, Decode;
    var n := |line| + 1;
    CutsReadWhole(tx, file, firm, h, places);
    LandedReads(tx, file, line, n);
    assert file + Landing(line, n) == file + line + [NL];
    FirmReads(tx, file + line + [NL], h + [rec], PlacesAfter(tx, h, places, line, n));
  }

  lemma AppendSpoil(tx: Text, cfg: Config, s: State, s': State, p: Spoil)
    requires Inv(tx, cfg, s) && DoAppendOk(cfg, s, s') && SpoilOk(tx, s, p)
    ensures SpoilOk(tx, s', SpoilStep(tx, s, AppendOk, p))
  {
    hide FileOk, MemOk, Base, PriorOk, Reads, CutsRead, CutOk, Scan, Decode, Noted, Installed, Admitted;
    NotFaulted(s);
    AppendedReads(tx, s.disk.sink, s.disk.firm, s.hist, p.sink, s.proc.phase.line, s.proc.phase.rec);
  }

  lemma FaultSpoil(tx: Text, s: State, landed: nat, s': State, p: Spoil)
    requires DoAppendFault(s, landed, s') && SpoilOk(tx, s, p)
    ensures SpoilOk(tx, s', p)
  {
    hide Reads, CutsRead, FaultedOk, Landing;
    FaultIsSolid(s, landed, s');
    NotFaulted(s);
  }

  /** A finished rotation leaves only lines that parse. */
  lemma RenameSpoil(tx: Text, cfg: Config, s: State, s': State, p: Spoil)
    requires Inv(tx, cfg, s) && DoRename(s, s') && SpoilOk(tx, s, p)
    ensures SpoilOk(tx, s', SpoilStep(tx, s, Rename, p))
  {
    hide FileOk, MemOk, Base, CarryingOk, RatesOk, Scan, Decode, LinesRead, CutReads, CutOk;
    NotFaulted(s);
    CutsReadWhole(tx, s.disk.sink, s.disk.firm, s.hist, p.sink);
    CorruptMeansUnread(tx, Scan(s.disk.pending.value).lines);
    FirmReads(tx, s'.disk.sink, s'.hist, {});
  }

  lemma PowerFailSpoil(tx: Text, cfg: Config, s: State, back: bool, keep: nat, machine: string, s': State, p: Spoil)
    requires Inv(tx, cfg, s) && DoPowerFail(s, back, keep, machine, s') && SpoilOk(tx, s, p)
    ensures SpoilOk(tx, s', SpoilStep(tx, s, PowerFail(back, keep, machine), p))
  {
    hide FileOk, Base, Reads, Scan, Lost, CleanFile;
    var places := Below(if back then p.prior else p.sink, |s'.hist|);
    if back {
      assert places == p.prior;
    } else {
      assert CutReads(tx, s.disk.sink, keep, s.hist, p.sink) && CutOk(tx, cfg, s.disk.sink, keep, s.hist, s.clock);
      assert (forall i :: i in p.sink ==> i >= |s'.hist|) <==> places == {} by { NoneBelow(p.sink, |s'.hist|); }
    }
    FirmReads(tx, s'.disk.sink, s'.hist, places);
  }

  lemma NoneBelow(places: set<nat>, n: nat)
    ensures (forall i :: i in places ==> i >= n) <==> Below(places, n) == {}
  {
    assert forall i :: i in places && i < n ==> i in Below(places, n);
  }

  lemma StartSpoil(tx: Text, cfg: Config, s: State, step: Step, s': State, p: Spoil)
    requires Inv(tx, cfg, s) && (step.Restart? || step.StartFail?) && Next(tx, cfg, s, step, s') && SpoilOk(tx, s, p)
    ensures SpoilOk(tx, s', SpoilStep(tx, s, step, p))
  {
    hide Scan, Encode, Decode, LinesRead, Rebuilt, RecoverLines, Reads, CutsRead, CutOk, Base, PriorOk;
    TrimmedReads(tx, s.disk.sink, s.disk.firm, s.hist, p.sink);
    NothingReads(tx);
  }

  lemma NothingReads(tx: Text)
    ensures Reads(tx, [])
  {
    assert Scan([]) == Scanned([], []);
  }

  /** The remaining steps leave both files alone. */
  lemma OtherSpoil(tx: Text, cfg: Config, s: State, step: Step, s': State, p: Spoil)
    requires Next(tx, cfg, s, step, s') && SpoilOk(tx, s, p) && !step.Restart? && !step.StartFail? && !step.Rename?
    requires !step.AppendOk? && !step.AppendFault? && !step.Kill? && !step.PowerFail?
    ensures SpoilOk(tx, s', SpoilStep(tx, s, step, p))
  {
    hide Reads, CutsRead, LineFor, IdsOk, AdmitsStep, EvictedRings, Decode, Enumerates, CarryBytes, RateBytes;
  }

  lemma SpoilNext(tx: Text, cfg: Config, s: State, step: Step, s': State, p: Spoil)
    requires Inv(tx, cfg, s) && Next(tx, cfg, s, step, s') && SpoilOk(tx, s, p)
    ensures SpoilOk(tx, s', SpoilStep(tx, s, step, p))
  {
    hide SpoilOk, BeginOk, Inv, DoRotateBegin, DoWriteIntent, DoStartRates, DoWriteRate;
    match step
    case AppendOk => AppendSpoil(tx, cfg, s, s', p);
    case AppendFault(landed) => FaultSpoil(tx, s, landed, s', p);
    case Kill(landed) => KillSpoil(tx, cfg, s, landed, s', p);
    case PowerFail(back, keep, machine) => PowerFailSpoil(tx, cfg, s, back, keep, machine, s', p);
    case Rename => RenameSpoil(tx, cfg, s, s', p);
    case Restart => StartSpoil(tx, cfg, s, step, s', p);
    case StartFail(_, _, _) => StartSpoil(tx, cfg, s, step, s', p);
    case _ => OtherSpoil(tx, cfg, s, step, s', p);
  }

  lemma {:induction false} SpoilIsTold(tx: Text, cfg: Config, trace: seq<State>, steps: seq<Step>, i: nat)
    requires Faithful(tx) && cfg.Valid() && Run(tx, cfg, trace, steps) && i < |trace|
    ensures SpoilOk(tx, trace[i], SpoilAt(tx, trace, steps, i))
  {
    hide SpoilOk, SpoilStep, Next, Inv, Faithful;
    if i == 0 {
      NothingSpoiled(tx);
    } else {
      RunInv(tx, cfg, trace, steps, i - 1);
      SpoilIsTold(tx, cfg, trace, steps, i - 1);
      SpoilNext(tx, cfg, trace[i - 1], steps[i - 1], trace[i], SpoilAt(tx, trace, steps, i - 1));
    }
  }

  lemma NothingSpoiled(tx: Text)
    ensures SpoilOk(tx, INIT, Spoil({}, {}))
  {
    hide Reads, CutReads;
    NothingReads(tx);
    FirmReads(tx, [], [], {});
  }

  /** At every down point of every run, startup succeeds exactly when the
      segment is within the size limit and no line that does not parse was
      appended since the last rotation and is still there. */
  lemma StartupNeedsReadableLines(tx: Text, cfg: Config, trace: seq<State>, steps: seq<Step>, i: nat)
    requires Faithful(tx) && cfg.Valid() && Run(tx, cfg, trace, steps) && i < |trace| && trace[i].proc.Down?
    ensures Recover(tx, trace[i].disk.sink).Ok? <==>
            |trace[i].disk.sink| <= MAX_SEGMENT_BYTES && SpoilAt(tx, trace, steps, i).sink == {}
  {
    hide Next, Faithful, SpoilAt, Recovers, LinesRead, CutReads, CutOk, Base, PriorOk, CutsRead;
    SpoilIsTold(tx, cfg, trace, steps, i);
    RunInv(tx, cfg, trace, steps, i);
    CutsReadWhole(tx, trace[i].disk.sink, trace[i].disk.firm, trace[i].hist, SpoilAt(tx, trace, steps, i).sink);
    RecoveryRebuildsHistory(tx, cfg, trace, steps, i);
  }

  /** Every request in the run wrote a line that parses. */
  ghost predicate FitRun(tx: Text, steps: seq<Step>) {
    forall k :: 0 <= k < |steps| && steps[k].Begin? ==> Decode(tx, steps[k].line).Some?
  }

  lemma FitStep(tx: Text, cfg: Config, s: State, step: Step, s': State)
    requires Next(tx, cfg, s, step, s') && !Bad(tx, s) && (step.Begin? ==> Decode(tx, step.line).Some?)
    ensures !Bad(tx, s')
    ensures SpoilStep(tx, s, step, Spoil({}, {})) == Spoil({}, {})
  {
    hide BeginOk, EvictedRings, Enumerates, Decode, CarryBytes, RateBytes, RecoverLines, Scan, Survives;
  }

  lemma {:induction false} FitRunsUnspoiled(tx: Text, cfg: Config, trace: seq<State>, steps: seq<Step>, i: nat)
    requires Run(tx, cfg, trace, steps) && FitRun(tx, steps) && i < |trace|
    ensures SpoilAt(tx, trace, steps, i) == Spoil({}, {}) && !Bad(tx, trace[i])
  {
    hide SpoilStep, Next, Decode;
    if i > 0 {
      FitRunsUnspoiled(tx, cfg, trace, steps, i - 1);
      FitStep(tx, cfg, trace[i - 1], steps[i - 1], trace[i]);
    }
  }

  /** If every record's metadata fits, startup never fails but for size. */
  lemma FitRunsStart(tx: Text, cfg: Config, trace: seq<State>, steps: seq<Step>, i: nat)
    requires Faithful(tx) && cfg.Valid() && Run(tx, cfg, trace, steps) && FitRun(tx, steps) && i < |trace|
    requires trace[i].proc.Down?
    ensures Recover(tx, trace[i].disk.sink).Ok? <==> |trace[i].disk.sink| <= MAX_SEGMENT_BYTES
  {
    hide Next, Faithful, SpoilAt, FitRun, Recover;
    FitRunsUnspoiled(tx, cfg, trace, steps, i);
    StartupNeedsReadableLines(tx, cfg, trace, steps, i);
  }

  // ---- the requests that write such lines ----

  /** Everything one audit line is built from. */
  datatype AuditIn = AuditIn(phase: string, cid: string, binding: Option<string>, actor: Actor, host: string,
                             timeText: string, time: nat, rec: Members)
  {
    function Line(tx: Text): seq<Byte> { AuditLine(tx, phase, cid, binding, actor, host, timeText, time, rec) }

    function Facts(): Stored { AuditFacts(phase, cid, binding, actor, time, rec) }

    ghost predicate Ok() {
      && StampOk(phase, cid, binding, actor, time) && RecordValid(rec) && ProperRecord(rec)
      && WellEncoded(host) && WellEncoded(timeText)
    }
  }

  function AppendAll(tx: Text, file: seq<Byte>, ins: seq<AuditIn>): seq<Byte> {
    if ins == [] then file else AppendAll(tx, file, ins[..|ins| - 1]) + ins[|ins| - 1].Line(tx) + [NL]
  }

  function AllFacts(ins: seq<AuditIn>): seq<Stored> {
    if ins == [] then [] else AllFacts(ins[..|ins| - 1]) + [ins[|ins| - 1].Facts()]
  }

  ghost predicate AllFit(ins: seq<AuditIn>) { forall i :: 0 <= i < |ins| ==> MetaFits(ins[i].rec) }

  /** The file starts exactly if `fit`, and then means these facts. */
  ghost predicate Starts(tx: Text, file: seq<Byte>, facts: seq<Stored>, fit: bool) {
    var r := RecoverLines(tx, Scan(file).lines);
    && Scan(file).tail == [] && (r.Ok? <==> fit) && (r.Err? ==> r.fault == Corrupt)
    && (r.Ok? ==> History.Facts(r.value) == facts)
  }

  lemma OneMoreAudit(tx: Text, file: seq<Byte>, facts: seq<Stored>, fit: bool, x: AuditIn)
    requires Faithful(tx) && x.Ok() && Starts(tx, file, facts, fit) && Replay(facts + [x.Facts()]).Ok?
    ensures Starts(tx, file + x.Line(tx) + [NL], facts + [x.Facts()], fit && MetaFits(x.rec))
  {
    hide Decode, MetaFits, Apply, Replay, Scan, Faithful, AuditFacts, AuditLine;
    var line := x.Line(tx);
    AuditDecodes(tx, x.phase, x.cid, x.binding, x.actor, x.host, x.timeText, x.time, x.rec);
    var lines := Scan(file).lines;
    ScanLine(file, line);
    assert [] + line == line;
    ReplaySnoc(facts, x.Facts());
    if RecoverLines(tx, lines).Err? {
      FaultKept(tx, lines, line);
    } else {
      RecoverSnoc(tx, lines, line);
      if MetaFits(x.rec) { FactsSnoc(RecoverLines(tx, lines).value, Decode(tx, line).value); }
    }
  }

  /** After any audit lines are appended to a healthy segment, startup succeeds
      if and only if every one's metadata fits the stored buffers. */
  lemma {:induction false} StartupNeedsMetaFits(tx: Text, file: seq<Byte>, log: seq<Rec>, ins: seq<AuditIn>)
    requires Faithful(tx) && Holds(tx, file, log) && (forall i :: 0 <= i < |ins| ==> ins[i].Ok())
    requires Replay(History.Facts(log) + AllFacts(ins)).Ok?
    ensures Starts(tx, AppendAll(tx, file, ins), History.Facts(log) + AllFacts(ins), AllFit(ins))
  {
    hide Starts, Replay, AllFit, Faithful, Holds, AuditFacts, AuditLine, StampOk, RecordValid, ProperRecord;
    hide History.Facts;
    if ins == [] {
      HealthyStarts(tx, file, log, ins);
    } else {
      var v, x := ins[..|ins| - 1], ins[|ins| - 1];
      AllFitSnoc(v, x, ins);
      var facts := History.Facts(log) + AllFacts(v);
      assert History.Facts(log) + AllFacts(ins) == facts + [x.Facts()];
      EarlierReplays(facts, x.Facts());
      StartupNeedsMetaFits(tx, file, log, v);
      OneMoreAudit(tx, AppendAll(tx, file, v), facts, AllFit(v), x);
    }
  }

  lemma HealthyStarts(tx: Text, file: seq<Byte>, log: seq<Rec>, ins: seq<AuditIn>)
    requires Holds(tx, file, log) && ins == []
    ensures Starts(tx, file, History.Facts(log) + AllFacts(ins), AllFit(ins))
  {
    assert History.Facts(log) + [] == History.Facts(log);
  }

  lemma EarlierReplays(facts: seq<Stored>, s: Stored)
    requires Replay(facts + [s]).Ok?
    ensures Replay(facts).Ok?
  {
    ReplaySnoc(facts, s);
  }

  lemma AllFitSnoc(v: seq<AuditIn>, x: AuditIn, ins: seq<AuditIn>)
    requires ins != [] && v == ins[..|ins| - 1] && x == ins[|ins| - 1]
    ensures AllFit(ins) <==> AllFit(v) && MetaFits(x.rec)
  {
    hide MetaFits;
    if AllFit(v) && MetaFits(x.rec) {
      forall i | 0 <= i < |ins| ensures MetaFits(ins[i].rec) { if i < |v| { assert ins[i] == v[i]; } }
    }
    if AllFit(ins) {
      forall i | 0 <= i < |v| ensures MetaFits(v[i].rec) { assert ins[i] == v[i]; }
    }
  }

  /** An ordinary open with a 128-byte operation is accepted by the parser, and
      whatever segment its line is appended to no longer starts. */
  lemma LongOpenStopsStartup(tx: Text, file: seq<Byte>, log: seq<Rec>, cid: string, binding: string, a: Actor,
                             host: string, timeText: string, time: nat)
    returns (j: Json, rec: Members)
    requires Faithful(tx) && Holds(tx, file, log) && StampOk(PHASE_INTENT, cid, Some(binding), a, time)
    requires WellEncoded(host) && WellEncoded(timeText)
    ensures ParseRequest(j) == Parsed(Open(rec, None)) && Proper(j)
    ensures var line := AuditLine(tx, PHASE_INTENT, cid, Some(binding), a, host, timeText, time, rec);
            RecoverLines(tx, Scan(file + line + [NL]).lines) == Err(Corrupt)
  {
    hide Scan, Decode, ParseRequest, RequestMembers, Holds, Faithful, Replay, Apply, RecordValid, ProperRecord;
    hide MetaFits, Proper;
    j, rec := LongOpenIsAccepted();
    var line := AuditLine(tx, PHASE_INTENT, cid, Some(binding), a, host, timeText, time, rec);
    AuditDecodes(tx, PHASE_INTENT, cid, Some(binding), a, host, timeText, time, rec);
    UnreadLine(tx, file, log, line);
  }

  lemma LongOpenIsAccepted() returns (j: Json, rec: Members)
    ensures ParseRequest(j) == Parsed(Open(rec, None)) && Proper(j)
    ensures RecordValid(rec) && ProperRecord(rec) && !MetaFits(rec)
  {
    hide ParseRequest, DepthAtMost, Chain, RecordValid, MetaFits, Proper;
    rec := LongRecord();
    j := Obj(RequestMembers(Open(rec, None)));
    ShallowOpen(rec);
    ProperOpen(rec);
    ParseIsGrammar(j, Open(rec, None));
    DepthIsChain(j, MAX_DEPTH);
  }

  lemma LongRecord() returns (rec: Members)
    ensures RecordValid(rec) && ProperRecord(rec) && !MetaFits(rec) && forall k :: k in rec ==> rec[k].Str?
  {
    hide NameOf, WellEncoded;
    rec := map[Operation := Str(seq(META_MAX, _ => 'a')), OutcomeKey := Str("ok")];
    AsciiIsUtf8(seq(META_MAX, _ => 'a'));
    AsciiIsUtf8("ok");
    assert |StringField(rec, Operation)| == META_MAX;
  }

  lemma ProperOpen(rec: Members)
    requires ProperRecord(rec)
    ensures Proper(Obj(RequestMembers(Open(rec, None))))
  {
    hide NameOf, WellEncoded;
    AsciiIsUtf8(OPEN);
    assert Proper(Obj(rec));
  }

  lemma ShallowOpen(rec: Members)
    requires forall k :: k in rec ==> rec[k].Str?
    ensures DepthAtMost(Obj(RequestMembers(Open(rec, None))), MAX_DEPTH)
  {
    assert DepthAtMost(Obj(rec), 7);
  }

  lemma UnreadLine(tx: Text, file: seq<Byte>, log: seq<Rec>, line: Line)
    requires Holds(tx, file, log) && line != [] && OneLine(line) && Decode(tx, line).None?
    ensures RecoverLines(tx, Scan(file + line + [NL]).lines) == Err(Corrupt)
  {
    ScanLine(file, line);
    assert [] + line == line;
    RecoverSnoc(tx, Scan(file).lines, line);
  }
}
