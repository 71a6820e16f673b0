/** Two runs. A request is served, the segment rotated, the power fails, and the
    broker comes up again on the new segment with the line acknowledged. And one
    where the rename could not be synced: the broker is started again, as the
    remedy for a poisoned one is, acknowledges an outcome, and loses it. */
module WitnessRun {
  import opened Types
  import opened Utf8
  import opened Lines
  import opened Json
  import opened Decimal
  import opened Records
  import opened Lifecycle
  import opened Rates
  import opened History
  import opened Recovery
  import opened Carry
  import opened AuditLines
  import opened Machine
  import opened Safety
  import opened Rotation
  import opened Guarantees
  import opened Runs
  import opened Paths
  import opened Durability
  import opened Witness

  const CLIENT: Members := map[Operation := Str("restart"), OutcomeKey := Str("ok")]

  function FirstLine(tx: Text): Line { AuditLine(tx, PHASE_INTENT, "c", Some("b"), ACTOR, "host", "now", 10, CLIENT) }

  function FirstRec(tx: Text): Rec { AuditRec(PHASE_INTENT, "c", Some("b"), ACTOR, 10, CLIENT, |FirstLine(tx)| + 1) }

  const LIVE := Intent("b", ACTOR, "restart", "", "", false, None)

  function Carried(tx: Text): seq<Byte> { CarryBytes(tx, "c", LIVE, 10) }

  function SecondLine(tx: Text): Line { AuditLine(tx, PHASE_OUTCOME, "c", None, ACTOR, "host", "now", 10, CLIENT) }

  function SecondRec(tx: Text): Rec { AuditRec(PHASE_OUTCOME, "c", None, ACTOR, 10, CLIENT, |SecondLine(tx)| + 1) }

  /** Rotates after every line; no quota. */
  predicate Eager(cfg: Config) {
    && cfg.Valid() && cfg.rotateBytes == 1 && cfg.maxOpenGlobal > 0 && cfg.maxOpenPerUid > 0
    && cfg.rateMaxInWindow == 0 && cfg.rateMaxBytesPerUid == 0 && cfg.rateMaxBytesGlobal == 0
  }

  ghost predicate Small(tx: Text) {
    && |FirstLine(tx)| < MAX_SEGMENT_BYTES && |Carried(tx)| <= MAX_SEGMENT_BYTES
    && |SecondLine(tx)| < MAX_SEGMENT_BYTES
  }

  // ---- the states ----

  const EMPTY_MEM := Mem(map[], map[], Global(0, 0), 0, false)

  const STARTED := INIT.(disk := INIT.disk.(made := true), proc := Up(EMPTY_MEM, Idle))

  /** The one correlation id is minted. */
  const USED := INIT.past.(cids := {"c"})

  function BegunState(tx: Text): State {
    STARTED.(clock := 10, proc := Up(EMPTY_MEM.(rings := map[1000 := []]), Writing(FirstRec(tx), FirstLine(tx))),
             past := USED)
  }

  function LiveMem(tx: Text): Mem { Mem(map["c" := LIVE], map[1000 := []], Global(0, 0), |FirstLine(tx)| + 1, false) }

  function WrittenDisk(tx: Text): Disk {
    Disk(FirstLine(tx) + [NL], |FirstLine(tx)| + 1, true, None, None, map[])
  }

  function At(tx: Text, disk: Disk, mem: Mem, phase: Phase, base: nat, acks: set<nat>): State {
    State.State(disk, Up(mem, phase), 10, [FirstRec(tx)], base, 0, acks, USED)
  }

  function RotatedDisk(tx: Text): Disk {
    Disk(Carried(tx), |Carried(tx)|, true, None, None, map[11 := FirstLine(tx) + [NL]])
  }

  function RotatedMem(tx: Text): Mem { LiveMem(tx).(segBytes := |Carried(tx)|) }

  // ---- the steps ----

  lemma StartsUp(tx: Text, cfg: Config)
    requires Eager(cfg)
    ensures Reaches(tx, cfg, INIT, STARTED)
  {
    assert Scan([]) == Scanned([], []) && RecoverLines(tx, []) == Ok([]) && Replay(Facts([])) == Ok(EMPTY);
    assert Encode([]) == [] && forall u: nat :: RingAt(map[], u) == RingAfter(cfg, [], u);
    hide Reaches, RecoverLines, Scan;
    ReachesSelf(tx, cfg, INIT);
    ReachesStep(tx, cfg, INIT, INIT, Restart, STARTED);
  }

  lemma ClientIsOk()
    ensures RecordValid(CLIENT) && ProperRecord(CLIENT) && MetaFits(CLIENT) && !ClaimsEffect(CLIENT)
    ensures StringField(CLIENT, Operation) == "restart" && StringField(CLIENT, ResourceKey) == ""
    ensures StringField(CLIENT, ScopeKey) == ""
  {
    hide NameOf, WellEncoded;
    WordsAreUtf8();
    assert |"restart"| == 7;
  }

  lemma StampIsOk()
    ensures StampOk(PHASE_INTENT, "c", Some("b"), ACTOR, 10) && ActorOk(ACTOR)
  {
    hide WellEncoded, ReceiptOk;
    ReceiptIsOk();
    WordsAreUtf8();
    NamesAreUtf8();
    assert |PHASE_INTENT| == 6 && |"c"| == 1 && |"b"| == 1;
  }

  lemma FirstIs(tx: Text)
    ensures FirstRec(tx).s == Audit(PHASE_INTENT, "c", "b", ACTOR, 10, "restart", "", "") && !FirstRec(tx).claim
    ensures FirstRec(tx).size == |FirstLine(tx)| + 1
    ensures Installed(map[], FirstRec(tx).s) == map["c" := LIVE]
  {
    hide WellEncoded, StringField, ProperRecord, RecordValid, MetaFits, AuditLine, ClaimsEffect;
    ClientIsOk();
    assert |"restart"| == 7;
  }

  lemma FirstAdmits(tx: Text, cfg: Config)
    requires Eager(cfg)
    ensures AdmitsStep(cfg, [], map[], FirstRec(tx))
  {
    hide WellEncoded;
    FirstIs(tx);
    StampIsOk();
    assert OpenBy(map[], 1000) == {};
    assert |"restart"| == 7 && |"c"| == 1 && |"b"| == 1;
  }

  lemma Begins(tx: Text, cfg: Config)
    requires Eager(cfg) && Faithful(tx) && Small(tx)
    ensures Reaches(tx, cfg, INIT, BegunState(tx))
  {
    hide Reaches, Decode, AuditLine, AdmitsStep, Installed, AuditFacts, RecordValid, ProperRecord, ClaimsEffect;
    hide Faithful, WellEncoded;
    StartsUp(tx, cfg);
    WordsAreUtf8();
    ClientIsOk();
    StampIsOk();
    FirstIs(tx);
    FirstAdmits(tx, cfg);
    AuditDecodes(tx, PHASE_INTENT, "c", Some("b"), ACTOR, "host", "now", 10, CLIENT);
    assert BeginOk(tx, cfg, STARTED, FirstRec(tx), FirstLine(tx), 10);
    MintsFirst(tx);
    ReachesStep(tx, cfg, INIT, STARTED, Begin(FirstRec(tx), FirstLine(tx)), BegunState(tx));
  }

  lemma MintsFirst(tx: Text)
    ensures Minted(FirstRec(tx)) == {"c"} && Spends(FirstRec(tx)) == {}
  {
    PhasesDistinct();
  }

  lemma Appends(tx: Text, cfg: Config)
    requires Eager(cfg) && Faithful(tx) && Small(tx)
    ensures Reaches(tx, cfg, INIT, At(tx, WrittenDisk(tx), LiveMem(tx), Written, 0, {}))
  {
    hide Reaches, FirstLine, FirstRec, Faithful, Installed, Spends;
    Begins(tx, cfg);
    FirstIs(tx);
    MintsFirst(tx);
    assert [] + FirstLine(tx) + [NL] == FirstLine(tx) + [NL];
    ReachesStep(tx, cfg, INIT, BegunState(tx), AppendOk, At(tx, WrittenDisk(tx), LiveMem(tx), Written, 0, {}));
  }

  lemma Carries(tx: Text, cfg: Config)
    requires Eager(cfg) && Faithful(tx) && Small(tx)
    ensures Reaches(tx, cfg, INIT, At(tx, WrittenDisk(tx).(pending := Some(Carried(tx))), LiveMem(tx),
                                      CarryingRates([], 0), 0, {}))
  {
    hide Reaches, FirstRec, Faithful, CarryBytes, AuditLine, WellEncoded;
    Appends(tx, cfg);
    WordsAreUtf8();
    AuditDecodesSome(tx);
    var order := ["c"];
    var d, m := WrittenDisk(tx), LiveMem(tx);
    var full := d.(pending := Some(Carried(tx)));
    var begun := At(tx, d.(pending := Some([])), m, Carrying(order, 0), 0, {});
    var carried := At(tx, full, m, Carrying(order, 1), 0, {});
    ReachesStep(tx, cfg, INIT, At(tx, d, m, Written, 0, {}), RotateBegin(order), begun);
    assert [] + Carried(tx) == Carried(tx);
    ReachesStep(tx, cfg, INIT, begun, WriteIntent, carried);
    assert Active(cfg, m.rings) == {};
    ReachesStep(tx, cfg, INIT, carried, StartRates([]), At(tx, full, m, CarryingRates([], 0), 0, {}));
  }

  lemma AuditDecodesSome(tx: Text)
    requires Faithful(tx)
    ensures FirstLine(tx) != []
  {
    hide WellEncoded, AuditLine, Faithful, StampOk, RecordValid, ProperRecord, Decode;
    WordsAreUtf8();
    ClientIsOk();
    StampIsOk();
    AuditDecodes(tx, PHASE_INTENT, "c", Some("b"), ACTOR, "host", "now", 10, CLIENT);
  }

  /** Renamed, with the directory not yet synced. */
  function InDoubt(tx: Text): State {
    At(tx, RotatedDisk(tx).(prior := Some(FirstLine(tx) + [NL])), RotatedMem(tx), Swapped, 1, {})
  }

  lemma Swaps(tx: Text, cfg: Config)
    requires Eager(cfg) && Faithful(tx) && Small(tx)
    ensures Reaches(tx, cfg, INIT, InDoubt(tx))
    ensures RecoverLines(tx, Scan(Carried(tx)).lines).Ok? && Encode(Scan(Carried(tx)).lines) == Carried(tx)
  {
    hide Reaches, FirstRec, Faithful, Carried, FirstLine, RecoverLines, Scan, Encode, Inv;
    Carries(tx, cfg);
    var old', m := FirstLine(tx) + [NL], LiveMem(tx);
    var full := WrittenDisk(tx).(pending := Some(Carried(tx)));
    var linked := At(tx, full.(archives := map[11 := old']), m, Linked, 0, {});
    ReachesStep(tx, cfg, INIT, At(tx, full, m, CarryingRates([], 0), 0, {}), Link(11), linked);
    ReachesStep(tx, cfg, INIT, linked, Rename, InDoubt(tx));
    NewSegmentReads(tx, cfg, linked, InDoubt(tx));
    NothingTorn(tx, cfg, InDoubt(tx));
  }

  lemma NothingTorn(tx: Text, cfg: Config, s: State)
    requires Faithful(tx) && cfg.Valid() && Reaches(tx, cfg, INIT, s) && s.proc.Up? && !s.proc.phase.Faulted?
    ensures Encode(Scan(s.disk.sink).lines) == s.disk.sink
  {
    hide Reaches, Faithful, Encode, Scan, FileOk, MemOk;
    InitInv(tx, cfg);
    ReachesKeepsInv(tx, cfg, INIT, s);
    NotFaulted(s);
    ScanIsExact(s.disk.sink);
    assert s.disk.sink == Encode(Scan(s.disk.sink).lines) + [];
  }

  lemma NewSegmentReads(tx: Text, cfg: Config, s: State, s': State)
    requires Faithful(tx) && cfg.Valid() && Reaches(tx, cfg, INIT, s) && DoRename(s, s')
    ensures RecoverLines(tx, Scan(s'.disk.sink).lines).Ok?
  {
    hide Reaches, Faithful, Inv, RecoverLines, Scan;
    InitInv(tx, cfg);
    ReachesKeepsInv(tx, cfg, INIT, s);
    RenamedReads(tx, cfg, s, s');
    NotFaulted(s');
  }

  // ---- the rename synced ----

  /** Served, rotated, power lost, and up again on the carried segment with the
      line still acknowledged. */
  lemma RotationSurvivesCrash(tx: Text, cfg: Config) returns (s: State)
    requires Eager(cfg) && Faithful(tx) && Small(tx)
    ensures Reaches(tx, cfg, INIT, s) && s.proc.Up? && s.hist == [FirstRec(tx)] && s.acks == {0} && s.boot == 1
    ensures s.disk.sink == Carried(tx) && s.past.machine == "m"
  {
    hide Reaches, FirstRec, Faithful, Carried, FirstLine, RecoverLines, Scan, Encode, Inv;
    Swaps(tx, cfg);
    var m := RotatedMem(tx);
    var settled, served := At(tx, RotatedDisk(tx), m, Settled, 1, {}), At(tx, RotatedDisk(tx), m, Idle, 1, {0});
    ReachesStep(tx, cfg, INIT, InDoubt(tx), SyncDir, settled);
    ReachesStep(tx, cfg, INIT, settled, Reply, served);
    ReachesStep(tx, cfg, INIT, served, Kill(0), served.(proc := Down));
    var down := Boots(tx, cfg, served.(proc := Down));
    s := ComesUp(tx, cfg, down);
  }

  lemma Boots(tx: Text, cfg: Config, s: State) returns (s': State)
    requires Reaches(tx, cfg, INIT, s) && s.proc.Down? && s.past.machines == {""} && s.disk.prior.None?
    requires s.disk.firm == |s.disk.sink| && s.hist != [] && s.acks == {0}
    ensures Reaches(tx, cfg, INIT, s')
    ensures s' == s.(boot := |s.hist|, past := s.past.(machine := "m", machines := {"", "m"}))
  {
    hide Reaches, Scan;
    s' := s.(boot := |s.hist|, past := s.past.(machine := "m", machines := {"", "m"}));
    assert s.disk.sink[..s.disk.firm] == s.disk.sink && s.hist[..|s.hist|] == s.hist;
    assert |"m"| == 1;
    ReachesStep(tx, cfg, INIT, s, PowerFail(false, s.disk.firm, "m"), s');
  }

  /** The broker starts on the carried segment, whatever is synced. */
  lemma ComesUp(tx: Text, cfg: Config, down: State) returns (s: State)
    requires Eager(cfg) && Faithful(tx) && Small(tx) && Reaches(tx, cfg, INIT, down) && down.proc.Down?
    requires down.disk.sink == Carried(tx) && down.disk.made && RecoverLines(tx, Scan(Carried(tx)).lines).Ok?
    requires Encode(Scan(Carried(tx)).lines) == Carried(tx)
    ensures Reaches(tx, cfg, INIT, s) && s.proc.Up? && s.proc.phase.Idle? && !s.proc.mem.poisoned
    ensures s == down.(proc := s.proc, boot := |down.hist|, disk := down.disk.(pending := None))
    ensures s.proc.mem.rings == map[] && s.proc.mem.global == Global(0, 0) && s.proc.mem.segBytes == |Carried(tx)|
  {
    hide Reaches, Faithful, CarryBytes, RecoverLines, Scan, Encode, Inv;
    var log := RecoverLines(tx, Scan(Carried(tx)).lines).value;
    var mem := Mem(Replay(Facts(log)).value.opens, map[], Global(0, 0), |Carried(tx)|, false);
    s := down.(proc := Up(mem, Idle), boot := |down.hist|, disk := down.disk.(pending := None));
    assert forall u: nat :: RingAt(map[], u) == RingAfter(cfg, log, u);
    ReachesStep(tx, cfg, INIT, down, Restart, s);
  }

  // ---- the rename not synced ----

  lemma SecondIs(tx: Text)
    ensures SecondRec(tx).s == Audit(PHASE_OUTCOME, "c", "", ACTOR, 10, "restart", "", "") && !SecondRec(tx).claim
    ensures SecondRec(tx).size == |SecondLine(tx)| + 1 && OutcomeLine(SecondRec(tx), "c")
    ensures Minted(SecondRec(tx)) == {} && Spends(SecondRec(tx)) == {}
  {
    hide WellEncoded, StringField, ProperRecord, RecordValid, MetaFits, AuditLine, ClaimsEffect;
    ClientIsOk();
    assert |"restart"| == 7;
  }

  lemma FirstOpens(tx: Text)
    ensures Replay(Facts([FirstRec(tx)])) == Ok(Life(map["c" := LIVE], {}))
  {
    FirstIs(tx);
    PhasesDistinct();
    var f := Facts([FirstRec(tx)]);
    assert f[..0] == [] && Replay([]) == Ok(EMPTY) && f[0] == FirstRec(tx).s;
  }

  lemma OutcomeStampIsOk()
    ensures StampOk(PHASE_OUTCOME, "c", None, ACTOR, 10)
  {
    hide WellEncoded, ActorOk;
    StampIsOk();
    NamesAreUtf8();
    PhasesDistinct();
    assert |PHASE_OUTCOME| == 7;
  }

  /** The open set was rebuilt, so the outcome is admitted. */
  lemma SecondAdmits(tx: Text, cfg: Config, s: State)
    requires Faithful(tx) && cfg.Valid() && Reaches(tx, cfg, INIT, s) && s.proc.Up? && s.hist == [FirstRec(tx)]
    ensures AdmitsStep(cfg, s.hist, s.proc.mem.opens, SecondRec(tx))
  {
    hide Reaches, Faithful, FirstRec, SecondRec, RingsOk, GlobalOk, CleanFile, CutsOk, PhaseOk, PriorOk, Base;
    InitInv(tx, cfg);
    ReachesKeepsInv(tx, cfg, INIT, s);
    FirstOpens(tx);
    SecondIs(tx);
    var meant := map["c" := LIVE];
    assert Unflagged(s.proc.mem.opens["c"]) == Unflagged(meant["c"]);
  }

  lemma SecondBegins(tx: Text, cfg: Config, s: State)
    requires Eager(cfg) && Faithful(tx) && Small(tx) && Reaches(tx, cfg, INIT, s) && s.hist == [FirstRec(tx)]
    requires s.proc.Up? && s.proc.phase.Idle? && !s.proc.mem.poisoned && s.clock == 10
    requires s.proc.mem.rings == map[] && s.proc.mem.global == Global(0, 0)
    ensures BeginOk(tx, cfg, s, SecondRec(tx), SecondLine(tx), 10)
  {
    hide Reaches, Decode, AuditLine, AdmitsStep, AuditFacts, RecordValid, ProperRecord, ClaimsEffect, Faithful;
    hide FirstRec;
    hide WellEncoded, StampOk;
    ClientIsOk();
    WordsAreUtf8();
    OutcomeStampIsOk();
    AuditDecodes(tx, PHASE_OUTCOME, "c", None, ACTOR, "host", "now", 10, CLIENT);
    SecondIs(tx);
    SecondAdmits(tx, cfg, s);
    StampIsOk();
  }

  /** A request served after a restart; the rotation that is due cannot sync the
      directory either. */
  lemma SecondServed(tx: Text, cfg: Config, s: State) returns (s': State)
    requires Eager(cfg) && Faithful(tx) && Small(tx) && Reaches(tx, cfg, INIT, s) && s.hist == [FirstRec(tx)]
    requires s.proc.Up? && s.proc.phase.Idle? && !s.proc.mem.poisoned && s.clock == 10
    requires s.proc.mem.rings == map[] && s.proc.mem.global == Global(0, 0)
    ensures Reaches(tx, cfg, INIT, s') && s'.hist == [FirstRec(tx), SecondRec(tx)] && s'.acks == s.acks + {1}
    ensures s'.disk.prior == s.disk.prior && s'.base == s.base
  {
    hide Reaches, Faithful, FirstRec, SecondRec, SecondLine, BeginOk, Installed, Minted, Spends;
    SecondBegins(tx, cfg, s);
    var rec, line, mem := SecondRec(tx), SecondLine(tx), s.proc.mem;
    SecondIs(tx);
    var c := Charge(rec).value;
    var mem1 := mem.(rings := EvictRing(cfg, mem.rings, c.uid, 10));
    var begun := s.(proc := Up(mem1, Writing(rec, line)), past := s.past.(cids := s.past.cids + Minted(rec)));
    ReachesStep(tx, cfg, INIT, s, Begin(rec, line), begun);
    var mem2 := Noted(cfg, mem1, c).(opens := Installed(mem1.opens, rec.s), segBytes := mem1.segBytes + |line| + 1);
    var written := begun.(disk := Appended(s.disk, line), hist := s.hist + [rec], proc := Up(mem2, Written),
                          past := begun.past.(spent := begun.past.spent + Spends(rec)));
    ReachesStep(tx, cfg, INIT, begun, AppendOk, written);
    var settled := written.(disk := written.disk.(pending := None), proc := Up(mem2, Settled));
    ReachesStep(tx, cfg, INIT, written, GiveUp, settled);
    s' := settled.(acks := s.acks + {1}, proc := Up(mem2, Idle));
    ReachesStep(tx, cfg, INIT, settled, Reply, s');
  }

  /** The directory cannot be synced after the rename, so the broker poisons
      itself and is started again. */
  lemma StartedAgain(tx: Text, cfg: Config) returns (s: State)
    requires Eager(cfg) && Faithful(tx) && Small(tx)
    ensures Reaches(tx, cfg, INIT, s) && s.proc.Up? && s.proc.phase.Idle? && !s.proc.mem.poisoned && s.clock == 10
    ensures s.hist == [FirstRec(tx)] && s.disk.prior == Some(FirstLine(tx) + [NL]) && s.base == 1
    ensures s.proc.mem.rings == map[] && s.proc.mem.global == Global(0, 0)
  {
    hide Reaches, FirstRec, Faithful, Carried, FirstLine, RecoverLines, Scan, Encode, Inv;
    Swaps(tx, cfg);
    var was := InDoubt(tx);
    var poisoned := was.proc.mem.(poisoned := true);
    var settled, idle := was.(proc := Up(poisoned, Settled)), was.(proc := Up(poisoned, Idle));
    ReachesStep(tx, cfg, INIT, was, SyncDirFail, settled);
    ReachesStep(tx, cfg, INIT, settled, Reply, idle);
    ReachesStep(tx, cfg, INIT, idle, Kill(0), was.(proc := Down));
    s := ComesUp(tx, cfg, was.(proc := Down));
  }

  /** An outcome is acknowledged, the power fails, and what is recovered has its
      intent still open. */
  lemma AcknowledgedOutcomeIsLost(tx: Text, cfg: Config) returns (told: State, found: State)
    requires Eager(cfg) && Faithful(tx) && Small(tx)
    ensures Reaches(tx, cfg, INIT, told) && Reaches(tx, cfg, told, found)
    ensures |told.hist| == 2 && OutcomeLine(told.hist[1], "c") && 1 in told.acks
    ensures found.proc.Down? && Recover(tx, found.disk.sink).Ok?
    ensures "c" in Replay(Facts(Recover(tx, found.disk.sink).value)).value.opens
  {
    hide Reaches, FirstRec, SecondRec, Faithful, FirstLine, RecoverLines, Inv, Scan;
    var s := StartedAgain(tx, cfg);
    told := SecondServed(tx, cfg, s);
    SecondIs(tx);
    InitInv(tx, cfg);
    ReachesKeepsInv(tx, cfg, INIT, told);
    found := RolledBack(tx, cfg, told);
    ReachesKeepsInv(tx, cfg, told, found);
    assert told.hist[..1] == [FirstRec(tx)];
    OldFileRecovers(tx, cfg, found);
  }

  lemma OldFileRecovers(tx: Text, cfg: Config, s: State)
    requires Eager(cfg) && Faithful(tx) && Small(tx) && Inv(tx, cfg, s) && s.proc.Down?
    requires s.hist == [FirstRec(tx)] && s.disk.sink == FirstLine(tx) + [NL]
    ensures Recover(tx, s.disk.sink).Ok?
    ensures "c" in Replay(Facts(Recover(tx, s.disk.sink).value)).value.opens
  {
    hide Faithful, FirstRec, FirstLine, Scan, RecoverLines, LinesRead, Replay, CutOk, Base, PriorOk;
    CutsWhole(tx, cfg, s.disk.sink, s.disk.firm, s.hist, s.clock);
    FileRecovers(tx, cfg, s.disk.sink, s.hist, s.clock);
    FirstReads(tx);
    FirstOpens(tx);
  }

  lemma FirstReads(tx: Text)
    requires Faithful(tx)
    ensures LinesRead(tx, Scan(FirstLine(tx) + [NL]).lines)
  {
    hide Faithful, AuditLine, Decode, Scan, RecordValid, ProperRecord, AuditFacts, ClaimsEffect, WellEncoded;
    WordsAreUtf8();
    ClientIsOk();
    StampIsOk();
    AuditDecodes(tx, PHASE_INTENT, "c", Some("b"), ACTOR, "host", "now", 10, CLIENT);
    OneLineFile(FirstLine(tx));
  }

  lemma OneLineFile(line: Line)
    requires OneLine(line)
    ensures Scan(line + [NL]).lines == [line]
  {
    assert Scan([]) == Scanned([], []) && [] + line + [NL] == line + [NL] && [] + line == line;
    ScanLine([], line);
  }
}
