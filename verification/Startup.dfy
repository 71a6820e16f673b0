/** Startup: read the segment at the sink path, replay it line by line, cut off
    the torn tail, and serve. */
module Startup {
  import opened Types
  import opened Lines
  import opened Lifecycle
  import opened Rates
  import opened History
  import opened Recovery
  import opened Reading
  import opened Carry
  import opened Machine
  import opened Safety
  import opened Paths
  import opened Broker
  import opened Handlers

  datatype Rebuild = Rebuild(life: Life, rings: map<nat, seq<Entry>>)

  /** The rebuilt state is what these records mean. */
  ghost predicate RebuildOf(cfg: Config, log: seq<Rec>, st: Rebuild) {
    Replay(Facts(log)) == Ok(st.life) && Rebuilt(cfg, log, st.rings)
  }

  /** Note carried or charged entries in one uid's window. */
  method NoteAll(cfg: Config, rings: map<nat, seq<Entry>>, u: nat, es: seq<Entry>) returns (r: map<nat, seq<Entry>>)
    ensures r == if cfg.rateMaxInWindow == 0 then rings
                 else rings[u := PushAll(cfg.rateMaxInWindow, RingAt(rings, u), es)]
  {
    if cfg.rateMaxInWindow == 0 {
      return rings;
    }
    var ring := RingAt(rings, u);
    for i := 0 to |es|
      invariant ring == PushAll(cfg.rateMaxInWindow, RingAt(rings, u), es[..i])
    {
      assert es[..i + 1][..i] == es[..i];
      ring := Push(cfg.rateMaxInWindow, ring, es[i]);
    }
    assert es[..|es|] == es;
    r := rings[u := ring];
  }

  /** The uid and entries a record adds to a window. */
  function Noting(rec: Rec): Option<(nat, seq<Entry>)> {
    if rec.s.Rate? then Some((rec.s.uid, rec.s.entries))
    else if Charge(rec).Some? then Some((Charge(rec).value.uid, [Charge(rec).value.entry]))
    else None
  }

  lemma NotedIsRebuilt(cfg: Config, log: seq<Rec>, rec: Rec, rings: map<nat, seq<Entry>>, rings': map<nat, seq<Entry>>)
    requires Rebuilt(cfg, log, rings)
    requires match Noting(rec)
             case None => rings' == rings
             case Some((u, es)) =>
               if cfg.rateMaxInWindow == 0 then rings' == rings
               else rings' == rings[u := PushAll(cfg.rateMaxInWindow, RingAt(rings, u), es)]
    ensures Rebuilt(cfg, log + [rec], rings')
  {
    forall u: nat ensures RingAt(rings', u) == RingAfter(cfg, log + [rec], u) {
      RingAfterSnoc(cfg, log, rec, u);
      assert RingAt(rings, u) == RingAfter(cfg, log, u);
      if Charge(rec).Some? {
        var ring, e := RingAt(rings, u), Charge(rec).value.entry;
        var cap := cfg.rateMaxInWindow;
        assert PushAll(cap, ring, [e]) == Push(cap, PushAll(cap, ring, []), e);
      }
    }
  }

  /** Only a line that does not parse is corrupt. */
  lemma NeverCorrupt(l: Life, s: Stored)
    ensures Apply(l, s) != Err(Corrupt)
  {
  }

  /** One line: parse, apply, note. */
  method TakeLine(tx: Text, cfg: Config, st: Rebuild, line: Line, ghost log: seq<Rec>) returns (r: Result<Rebuild>)
    requires RebuildOf(cfg, log, st)
    ensures match Accept(log, Decode(tx, line))
            case Err(e) => r == Err(e)
            case Ok(log') => r.Ok? && RebuildOf(cfg, log', r.value)
    ensures r == Err(Corrupt) <==> forall rec :: !LineSays(tx, line, rec)
    ensures r.Ok? ==> exists rec :: LineSays(tx, line, rec) && RebuildOf(cfg, log + [rec], r.value)
  {
    hide Rebuilt, Apply, Decode, LineSays;
    var d := Decode(tx, line);
    forall rec ensures Decode(tx, line) == Some(rec) <==> LineSays(tx, line, rec) { DecodeExact(tx, line, rec); }
    if d.None? {
      return Err(Corrupt);
    }
    var rec := d.value;
    NeverCorrupt(st.life, rec.s);
    FactsSnoc(log, rec);
    ReplaySnoc(Facts(log), rec.s);
    match Apply(st.life, rec.s) {
      case Err(e) => return Err(e);
      case Ok(life) =>
        var rings := st.rings;
        match Noting(rec) {
          case None =>
          case Some((u, es)) => rings := NoteAll(cfg, rings, u, es);
        }
        NotedIsRebuilt(cfg, log, rec, st.rings, rings);
        r := Ok(Rebuild(life, rings));
    }
  }

  // ---- the segment ----

  /** A fault in a prefix is the fault of the whole. */
  lemma {:induction false} FaultStays(tx: Text, lines: seq<Line>, k: nat)
    requires k <= |lines| && RecoverLines(tx, lines[..k]).Err?
    ensures RecoverLines(tx, lines) == RecoverLines(tx, lines[..k])
    decreases |lines|
  {
    if k == |lines| {
      assert lines[..k] == lines;
    } else {
      assert lines[..|lines| - 1][..k] == lines[..k];
      FaultStays(tx, lines[..|lines| - 1], k);
    }
  }

  /** The first k lines are replayed. */
  ghost predicate ReadUpTo(tx: Text, cfg: Config, lines: seq<Line>, k: nat, st: Rebuild, log: seq<Rec>) {
    k <= |lines| && RecoverLines(tx, lines[..k]) == Ok(log) && RebuildOf(cfg, log, st)
  }

  method TakeNext(tx: Text, cfg: Config, lines: seq<Line>, k: nat, st: Rebuild, ghost log: seq<Rec>)
    returns (r: Result<Rebuild>, ghost log': seq<Rec>)
    requires ReadUpTo(tx, cfg, lines, k, st, log) && k < |lines|
    ensures r.Ok? ==> ReadUpTo(tx, cfg, lines, k + 1, r.value, log')
    ensures r.Err? ==> RecoverLines(tx, lines) == Err(r.fault)
  {
    hide Decode, RebuildOf, Accept;
    var line := lines[k];
    log' := log;
    assert lines[..k + 1] == lines[..k] + [line] && lines[..k + 1][..k] == lines[..k];
    if line == [] {
      return Ok(st), log;
    }
    RecoverSnoc(tx, lines[..k], line);
    r := TakeLine(tx, cfg, st, line, log);
    if r.Ok? {
      log' := Accept(log, Decode(tx, line)).value;
    } else {
      FaultStays(tx, lines, k + 1);
    }
  }

  /** Replay the whole segment and find where its last durable record ends. */
  method Reconstruct(tx: Text, cfg: Config, buf: seq<Byte>) returns (r: Result<Rebuild>, keep: nat)
    ensures match Recover(tx, buf)
            case Err(e) => r == Err(e)
            case Ok(log) =>
              && r.Ok? && RebuildOf(cfg, log, r.value)
              && keep <= |buf| && buf[..keep] == Encode(Scan(buf).lines)
    ensures r.Ok? <==> Startable(tx, buf)
    ensures r.Ok? ==> forall log :: Recoverable(tx, buf, log) ==> RebuildOf(cfg, log, r.value)
  {
    hide Scan, RecoverLines, RebuildOf, Startable, Recoverable;
    StartableExact(tx, buf);
    keep := 0;
    if |buf| > MAX_SEGMENT_BYTES {
      return Err(TooLarge), keep;
    }
    var lines, torn;
    lines, keep, torn := ScanSegment(buf);
    var st := Rebuild(EMPTY, map[]);
    ghost var log: seq<Rec> := [];
    ReadNothing(tx, cfg, lines);
    for k := 0 to |lines|
      invariant ReadUpTo(tx, cfg, lines, k, st, log)
    {
      r, log := TakeNext(tx, cfg, lines, k, st, log);
      if r.Err? {
        return;
      }
      st := r.value;
    }
    assert lines[..|lines|] == lines;
    r := Ok(st);
  }

  lemma ReadNothing(tx: Text, cfg: Config, lines: seq<Line>)
    ensures ReadUpTo(tx, cfg, lines, 0, Rebuild(EMPTY, map[]), [])
  {
    assert lines[..0] == [] && Facts([]) == [];
    assert forall u: nat :: RingAt(map[], u) == RingAfter(cfg, [], u);
  }

  // ---- the broker comes up ----

  datatype Start = Started(broker: Broker) | Refused(fault: Fault) | IoFailed

  /** Which file operations of a startup succeed. */
  datatype Opening = Opening(read: bool, cut: bool, synced: bool, opens: bool, dirSynced: bool)

  /** Cut the file to its complete lines and sync it. */
  method CutTail(disk: Disk, keep: nat, o: Opening) returns (d: Disk, cut: bool, synced: bool)
    requires keep <= |disk.sink| && disk.sink[..keep] == Encode(Scan(disk.sink).lines)
    ensures cut == o.cut && synced == (o.cut && o.synced)
    ensures d == Trimmed(disk, cut, synced) && d.made == disk.made && d.prior == disk.prior
  {
    hide Scan, Encode;
    cut, synced := o.cut, o.synced;
    d := disk.(pending := None);
    if !cut {
      synced := false;
      d := d.(firm := if d.firm <= |d.sink| then d.firm else |d.sink|);
      return;
    }
    d := d.(sink := d.sink[..keep]);
    if synced {
      d := d.(firm := keep);
    } else {
      d := d.(firm := if d.firm <= keep then d.firm else keep);
    }
  }

  /** Open the sink for appending; if it was not there, create it and sync the
      directory. An existing one is opened and nothing is synced. */
  method OpenSink(disk: Disk, o: Opening) returns (d: Disk, ok: bool, create: bool)
    ensures ok == (o.opens && (disk.made || o.dirSynced))
    ensures create ==> !disk.made
    ensures ok ==> d == disk.(made := true, prior := if disk.made then disk.prior else None)
    ensures !ok ==> d == if create then disk.(made := true, prior := Some([])) else disk
  {
    d, ok, create := disk, o.opens, false;
    if ok && !disk.made {
      d := d.(made := true, prior := if o.dirSynced then None else Some([]));
      ok, create := o.dirSynced, true;
    }
  }

  /** Discard the pending file, reconstruct, cut off the torn tail, reopen. */
  method OpenBroker(tx: Text, cfg: Config, disk: Disk, clock: nat, o: Opening, ghost s: State)
    returns (r: Start, ghost s': State)
    requires s.proc.Down? && s.disk == disk && s.clock == clock < U64_LIMIT
    ensures Reaches(tx, cfg, s, s') && s'.clock < U64_LIMIT && s'.hist == s.hist && s'.acks == s.acks
    ensures s'.past == s.past
    ensures r.Started? ==> fresh(r.broker) && r.broker.phase.Idle? && !r.broker.mem.poisoned && r.broker.tx == tx
    ensures r.Started? ==> r.broker.cfg == cfg && r.broker.Snap() == s' && s'.proc.Up?
    ensures !r.Started? ==> s'.proc.Down?
    ensures r.Refused? ==> Recover(tx, disk.sink) == Err(r.fault)
    ensures r.Refused? <==> o.read && !Startable(tx, disk.sink)
    ensures r.Started? <==>
            && o.read && Startable(tx, disk.sink) && o.opens && (disk.made || o.dirSynced)
            && (Scan(disk.sink).tail == [] || (o.cut && o.synced))
  {
    hide Recover, RebuildOf, Trimmed, Reopened, Reaches, Startable, Recoverable;
    StartableExact(tx, disk.sink);
    var now :| clock <= now < U64_LIMIT;
    if !o.read {
      s' := FailedStart(tx, cfg, s, now, false, false, false);
      return IoFailed, s';
    }
    var rebuilt, keep := Reconstruct(tx, cfg, disk.sink);
    if rebuilt.Err? {
      s' := FailedStart(tx, cfg, s, now, false, false, false);
      return Refused(rebuilt.fault), s';
    }
    var d, torn := disk.(pending := None), keep < |disk.sink|;
    TornIs(disk.sink, keep);
    var cut, synced, ok, create := false, false, false, false;
    if torn {
      d, cut, synced := CutTail(disk, keep, o);
    }
    if !torn || synced {
      d, ok, create := OpenSink(d, o);
    }
    if !ok {
      s' := FailedStart(tx, cfg, s, now, cut, synced, create);
      return IoFailed, s';
    }
    var mem := Mem(rebuilt.value.life.opens, rebuilt.value.rings, Global(0, 0), keep, false);
    OpenedIs(disk, keep, cut, synced, d);
    s' := s.(disk := d, proc := Up(mem, Idle), clock := now, boot := |s.hist|);
    Starts(tx, cfg, s, rebuilt.value, s');
    var b := new Broker(tx, cfg, mem, d, now, s');
    r := Started(b);
  }

  lemma TornIs(file: seq<Byte>, keep: nat)
    requires keep <= |file| && file[..keep] == Encode(Scan(file).lines)
    ensures keep < |file| <==> Scan(file).tail != []
  {
    hide Scan, Encode;
    ScanIsExact(file);
    assert |file| == keep + |Scan(file).tail|;
  }

  lemma OpenedIs(disk: Disk, keep: nat, cut: bool, synced: bool, d: Disk)
    requires keep <= |disk.sink| && disk.sink[..keep] == Encode(Scan(disk.sink).lines) && (synced ==> cut)
    requires if keep < |disk.sink| then
               synced && d == Trimmed(disk, cut, synced).(made := true, prior := if disk.made then disk.prior else None)
             else d == disk.(pending := None, made := true, prior := if disk.made then disk.prior else None)
    ensures d == Reopened(disk) && |Encode(Scan(disk.sink).lines)| == keep
  {
    hide Scan, Encode;
    if keep == |disk.sink| { assert disk.sink[..keep] == disk.sink; }
  }

  lemma FailedStart(tx: Text, cfg: Config, s: State, now: nat, cut: bool, synced: bool, create: bool)
    returns (s': State)
    requires s.proc.Down? && s.clock <= now && (create ==> !s.disk.made) && (synced ==> cut)
    ensures Reaches(tx, cfg, s, s') && s'.proc.Down? && s'.clock == now && s'.hist == s.hist && s'.acks == s.acks
    ensures s'.past == s.past
    ensures s'.disk == if create then Trimmed(s.disk, cut, synced).(made := true, prior := Some([]))
                       else Trimmed(s.disk, cut, synced)
  {
    hide Reaches, Trimmed;
    s' := s.(clock := now, base := if create then 0 else s.base,
             disk := if create then Trimmed(s.disk, cut, synced).(made := true, prior := Some([]))
                     else Trimmed(s.disk, cut, synced));
    ReachesSelf(tx, cfg, s);
    ReachesStep(tx, cfg, s, s, StartFail(cut, synced, create), s');
  }

  lemma Starts(tx: Text, cfg: Config, s: State, st: Rebuild, s': State)
    requires s.proc.Down? && s.clock <= s'.clock
    requires Recover(tx, s.disk.sink).Ok? && RebuildOf(cfg, Recover(tx, s.disk.sink).value, st)
    requires s' == s.(disk := Reopened(s.disk), clock := s'.clock, boot := |s.hist|,
                      proc := Up(Mem(st.life.opens, st.rings, Global(0, 0), |Encode(Scan(s.disk.sink).lines)|, false),
                                 Idle))
    ensures Reaches(tx, cfg, s, s')
  {
    hide Scan, RecoverLines, Rebuilt, Reaches, Reopened;
    ReachesSelf(tx, cfg, s);
    ReachesStep(tx, cfg, s, s, Restart, s');
  }

  lemma FileFault(tx: Text, cfg: Config, s: State)
    requires Inv(tx, cfg, s) && s.proc.Down?
    ensures var r := RecoverLines(tx, Scan(s.disk.sink).lines);
            r.Err? ==> r.fault == Corrupt
  {
    CutsWhole(tx, cfg, s.disk.sink, s.disk.firm, s.hist, s.clock);
  }

  /** Whatever starts from a state a run left behind is valid; a segment that
      does not start is over the size limit or holds a line that does not
      parse. */
  lemma StartsValid(tx: Text, cfg: Config, s: State, s': State, b: Broker)
    requires Faithful(tx) && cfg.Valid() && Inv(tx, cfg, s) && s.proc.Down? && Reaches(tx, cfg, s, s')
    requires b.tx == tx && b.cfg == cfg && b.Snap() == s' && b.phase.Idle? && b.clock < U64_LIMIT
    ensures Valid(b)
    ensures Recover(tx, s.disk.sink).Err? ==>
              |s.disk.sink| > MAX_SEGMENT_BYTES || !LinesRead(tx, Scan(s.disk.sink).lines)
  {
    hide Reaches, Base, Faithful, FileOk, CutsOk;
    ReachesKeepsInv(tx, cfg, s, s');
    FileFault(tx, cfg, s);
    CorruptMeansUnread(tx, Scan(s.disk.sink).lines);
  }
}
