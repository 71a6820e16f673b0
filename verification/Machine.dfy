/** The broker as a state machine over its individual file operations. One
    request is in progress at a time; the process may die between any two steps
    or in the middle of an append, and while it is down the machine may lose
    power. */
module Machine {
  import opened Types
  import opened Lines
  import opened Lifecycle
  import opened Rates
  import opened Records
  import opened History
  import opened Guarantees
  import opened Recovery
  import opened Carry

  /** The files as every process sees them. Of the sink the first `firm` bytes
      are known to be synced. `made` tells whether the sink path exists. `prior`
      is what a power failure may put back at that path, as long as the last
      rename, or the creation, is not synced: the file it named before, or
      nothing. */
  datatype Disk = Disk(sink: seq<Byte>, firm: nat, made: bool, prior: Option<seq<Byte>>, pending: Option<seq<Byte>>,
                       archives: map<nat, seq<Byte>>)

  datatype Mem = Mem(opens: Opens, rings: map<nat, seq<Entry>>, global: Global, segBytes: nat, poisoned: bool)

  datatype Phase =
    | Idle
    | Writing(rec: Rec, line: Line)                  // the append is under way, nothing installed
    | Faulted(rec: Rec, line: Line, landed: nat)     // it failed after this many bytes; nothing installed
    | Written                                        // durable and installed, not yet acknowledged
    | Carrying(order: seq<string>, done: nat)        // checkpoints going into the pending file
    | CarryingRates(uids: seq<nat>, done: nat)       // then the rate windows
    | Linked                                         // the old segment has its archive name
    | Swapped                                        // renamed, directory not yet synced
    | Settled                                        // rotation finished or given up

  datatype Proc = Down | Up(mem: Mem, phase: Phase)

  /** What no failure undoes: the boot id of the machine and all it ever had,
      every correlation id minted, and those whose redemption was made durable. */
  datatype Past = Past(machine: string, machines: set<string>, cids: set<string>, spent: set<string>)

  /** `hist` is every client line kept since the beginning; `base` is its length
      at the last rename or creation, `boot` at the last startup; `acks` are the
      positions acknowledged. */
  datatype State = State(disk: Disk, proc: Proc, clock: nat, hist: seq<Rec>, base: nat, boot: nat, acks: set<nat>,
                         past: Past)

  datatype Step =
    | Begin(rec: Rec, line: Line)
    | AppendOk
    | AppendFault(landed: nat)
    | Refuse(uid: nat)
    | RotateBegin(order: seq<string>)
    | WriteIntent
    | StartRates(uids: seq<nat>)
    | WriteRate
    | GiveUp
    | Link(ts: nat)
    | LinkFail(ts: nat)
    | Rename
    | SyncDir
    | SyncDirFail
    | Prune(ts: nat)
    | Reply
    | Kill(landed: nat)
    | PowerFail(back: bool, keep: nat, machine: string)
    | Restart
    | StartFail(cut: bool, synced: bool, create: bool)

  /** Nothing on disk, and the machine not yet booted. */
  const INIT := State(Disk([], 0, false, None, None, map[]), Down, 0, [], 0, 0, {}, Past("", {""}, {}, {}))

  // ---- appends ----

  function EvictRing(cfg: Config, rings: map<nat, seq<Entry>>, u: nat, now: nat): map<nat, seq<Entry>> {
    rings[u := Evict(RingAt(rings, u), cfg.Threshold(now))]
  }

  /** A line for a record: it reads back as the record, or it does not parse. */
  predicate LineFor(tx: Text, line: Line, rec: Rec) {
    && line != [] && OneLine(line) && rec.size == |line| + 1
    && (Decode(tx, line) == Some(rec) || Decode(tx, line).None?)
  }

  /** Intents and emitted lines carry a correlation id minted for them. */
  predicate Mints(s: Stored) { s.Audit? && !s.IsOutcome() }

  function Minted(r: Rec): set<string> { if Mints(r.s) then {r.s.cid} else {} }

  /** The correlation id a redeemed line spends. */
  function Spends(r: Rec): set<string> {
    if r.s.ReceiptRecord? && r.s.receipt.state.Redeemed? then {r.s.cid} else {}
  }

  /** The intent was opened since the broker came up. */
  ghost predicate OpenedHere(h: seq<Rec>, boot: nat, c: string) {
    exists i :: boot <= i < |h| && IntentLine(h[i], c)
  }

  /** Minted ids were never used before. A receipt is issued and redeemed under
      the machine's own boot id, and issued only to an intent just opened. */
  ghost predicate IdsOk(s: State, rec: Rec) {
    && (Mints(rec.s) ==> rec.s.cid !in s.past.cids)
    && (rec.s.ReceiptRecord? ==>
          && rec.s.receipt.bootId == s.past.machine
          && (rec.s.receipt.state.Issued? ==> OpenedHere(s.hist, s.boot, rec.s.cid)))
  }

  /** A request passes every check and its line is built. */
  ghost predicate BeginOk(tx: Text, cfg: Config, s: State, rec: Rec, line: Line, now: nat) {
    && s.proc.Up? && s.proc.phase.Idle? && !s.proc.mem.poisoned && s.clock <= now
    && LineFor(tx, line, rec) && IdsOk(s, rec)
    && Charge(rec).Some? && ChargeOk(Charge(rec).value) && Charge(rec).value.entry.ts == now
    && AdmitsStep(cfg, s.hist, s.proc.mem.opens, rec)
    && var c := Charge(rec).value;
       RateAllowed(cfg, RingAt(s.proc.mem.rings, c.uid), now) &&
       UidBytesAllowed(cfg, RingAt(s.proc.mem.rings, c.uid), now, c.entry.bytes) &&
       GlobalAllowed(cfg, s.proc.mem.global, now, c.entry.bytes)
  }

  ghost predicate DoBegin(tx: Text, cfg: Config, s: State, rec: Rec, line: Line, s': State) {
    && BeginOk(tx, cfg, s, rec, line, s'.clock)
    && s' == s.(clock := s'.clock,
                proc := Up(s.proc.mem.(rings := EvictRing(cfg, s.proc.mem.rings, Charge(rec).value.uid, s'.clock)),
                           Writing(rec, line)),
                past := s.past.(cids := s.past.cids + Minted(rec)))
  }

  function Noted(cfg: Config, mem: Mem, c: Charged): Mem {
    mem.(rings := if cfg.rateMaxInWindow == 0 then mem.rings
                  else mem.rings[c.uid := Push(cfg.rateMaxInWindow, RingAt(mem.rings, c.uid), c.entry)],
         global := GlobalNote(cfg, mem.global, c.entry))
  }

  function Appended(disk: Disk, line: Line): Disk {
    disk.(sink := disk.sink + line + [NL], firm := |disk.sink| + |line| + 1)
  }

  /** Durable first; only then installed and charged. The sync covers the whole
      file. */
  ghost predicate DoAppendOk(cfg: Config, s: State, s': State) {
    && s.proc.Up? && s.proc.phase.Writing? && !s.proc.mem.poisoned && Charge(s.proc.phase.rec).Some?
    && var rec, line, mem := s.proc.phase.rec, s.proc.phase.line, s.proc.mem;
       s' == s.(disk := Appended(s.disk, line),
                hist := s.hist + [rec],
                proc := Up(Noted(cfg, mem, Charge(rec).value).(opens := Installed(mem.opens, rec.s),
                                                               segBytes := mem.segBytes + |line| + 1),
                           Written),
                past := s.past.(spent := s.past.spent + Spends(rec)))
  }

  /** The bytes of a line and its newline that have landed. */
  function Landing(line: Line, landed: nat): seq<Byte>
    requires landed <= |line| + 1
  {
    (line + [NL])[..landed]
  }

  predicate InFlight(p: Phase) { p.Writing? || p.Faulted? }

  /** The sink without what a failed append left on it. */
  function Solid(disk: Disk, p: Phase): seq<Byte> {
    if p.Faulted? && p.landed <= |disk.sink| then disk.sink[..|disk.sink| - p.landed] else disk.sink
  }

  /** Any failure leaves some part of the line, or all of it, in the sink, not
      known to be durable: poisoned. */
  ghost predicate DoAppendFault(s: State, landed: nat, s': State) {
    && s.proc.Up? && s.proc.phase.Writing? && landed <= |s.proc.phase.line| + 1
    && var rec, line := s.proc.phase.rec, s.proc.phase.line;
       s' == s.(disk := s.disk.(sink := s.disk.sink + Landing(line, landed)),
                proc := Up(s.proc.mem.(poisoned := true), Faulted(rec, line, landed)))
  }

  /** A refused request only evicts what left its uid's window. */
  ghost predicate DoRefuse(cfg: Config, s: State, u: nat, s': State) {
    && s.proc.Up? && s.proc.phase.Idle? && s.clock <= s'.clock
    && s' == s.(clock := s'.clock,
                proc := s.proc.(mem := s.proc.mem.(rings := EvictRing(cfg, s.proc.mem.rings, u, s'.clock))))
  }

  // ---- rotation ----

  ghost predicate Enumerates<T(!new)>(order: seq<T>, all: set<T>) {
    (forall x :: x in order <==> x in all) && forall i, j :: 0 <= i < j < |order| ==> order[i] != order[j]
  }

  /** Creating the pending file syncs the directory, and with it any rename
      before. */
  ghost predicate DoRotateBegin(cfg: Config, s: State, order: seq<string>, s': State) {
    && s.proc.Up? && s.proc.phase.Written? && !s.proc.mem.poisoned
    && cfg.rotateBytes != 0 && s.proc.mem.segBytes > cfg.rotateBytes
    && Enumerates(order, s.proc.mem.opens.Keys)
    && s' == s.(disk := s.disk.(pending := Some([]), prior := None), proc := s.proc.(phase := Carrying(order, 0)))
  }

  /** A checkpoint is built only if every field is well-formed. */
  ghost predicate DoWriteIntent(tx: Text, s: State, s': State) {
    && s.proc.Up? && s.proc.phase.Carrying? && s.proc.phase.done < |s.proc.phase.order|
    && s.disk.pending.Some? && s.clock <= s'.clock < U64_LIMIT
    && var c := s.proc.phase.order[s.proc.phase.done];
       c in s.proc.mem.opens && Carriable(s.proc.mem.opens[c]) &&
       s' == s.(clock := s'.clock,
                disk := s.disk.(pending := Some(s.disk.pending.value +
                                                CarryBytes(tx, c, s.proc.mem.opens[c], s'.clock))),
                proc := s.proc.(phase := Carrying(s.proc.phase.order, s.proc.phase.done + 1)))
  }

  ghost predicate EvictedRings(cfg: Config, rings: map<nat, seq<Entry>>, now: nat, rings': map<nat, seq<Entry>>) {
    if cfg.rateMaxInWindow == 0 then rings' == rings
    else forall u: nat :: RingAt(rings', u) == Evict(RingAt(rings, u), cfg.Threshold(now))
  }

  /** The uids whose window rotation must carry. */
  function Active(cfg: Config, rings: map<nat, seq<Entry>>): set<nat> {
    set u | u in rings && cfg.rateMaxInWindow != 0 && rings[u] != []
  }

  /** All windows are evicted once more; each non-empty one will be carried. */
  ghost predicate DoStartRates(cfg: Config, s: State, uids: seq<nat>, s': State) {
    && s.proc.Up? && s.proc.phase.Carrying? && s.proc.phase.done == |s.proc.phase.order| && s.clock <= s'.clock
    && s'.proc.Up? && EvictedRings(cfg, s.proc.mem.rings, s'.clock, s'.proc.mem.rings)
    && Enumerates(uids, Active(cfg, s'.proc.mem.rings))
    && s' == s.(clock := s'.clock,
                proc := Up(s.proc.mem.(rings := s'.proc.mem.rings), CarryingRates(uids, 0)))
  }

  ghost predicate DoWriteRate(tx: Text, s: State, s': State) {
    && s.proc.Up? && s.proc.phase.CarryingRates? && s.proc.phase.done < |s.proc.phase.uids| && s.disk.pending.Some?
    && var u := s.proc.phase.uids[s.proc.phase.done];
       s' == s.(disk := s.disk.(pending := Some(s.disk.pending.value + RateBytes(tx, u, RingAt(s.proc.mem.rings, u)))),
                proc := s.proc.(phase := CarryingRates(s.proc.phase.uids, s.proc.phase.done + 1)))
  }

  predicate CarryDone(p: Phase) { p.CarryingRates? && p.done == |p.uids| }

  /** Anything that fails before the rename removes the pending file, except
      that one whose creation could not be synced is left there. */
  ghost predicate DoGiveUp(s: State, s': State) {
    && s.proc.Up?
    && (s.proc.phase.Written? || s.proc.phase.Carrying? || s.proc.phase.CarryingRates? || s.proc.phase.Linked?)
    && (s'.disk.pending.None? || (s.proc.phase.Written? && s'.disk.pending == Some([])))
    && s' == s.(disk := s.disk.(pending := s'.disk.pending), proc := s.proc.(phase := Settled))
  }

  ghost predicate DoLink(s: State, ts: nat, s': State) {
    && s.proc.Up? && CarryDone(s.proc.phase) && ts !in s.disk.archives
    && s' == s.(disk := s.disk.(archives := s.disk.archives[ts := s.disk.sink]), proc := s.proc.(phase := Linked))
  }

  /** The cleanup after a failed link or directory sync unlinks the archive
      name whether or not this rotation created it. */
  ghost predicate DoLinkFail(s: State, ts: nat, s': State) {
    && s.proc.Up? && CarryDone(s.proc.phase)
    && s' == s.(disk := s.disk.(pending := None, archives := s.disk.archives - {ts}), proc := s.proc.(phase := Settled))
  }

  /** Every line of the pending file was synced as it was written. */
  function Renamed(disk: Disk): Disk
    requires disk.pending.Some?
  {
    disk.(sink := disk.pending.value, firm := |disk.pending.value|, prior := Some(disk.sink), pending := None)
  }

  ghost predicate DoRename(s: State, s': State) {
    && s.proc.Up? && s.proc.phase.Linked? && s.disk.pending.Some?
    && s' == s.(disk := Renamed(s.disk), base := |s.hist|,
                proc := Up(s.proc.mem.(segBytes := |s.disk.pending.value|), Swapped))
  }

  ghost predicate DoSyncDir(s: State, s': State) {
    && s.proc.Up? && s.proc.phase.Swapped?
    && s' == s.(disk := s.disk.(prior := None), proc := s.proc.(phase := Settled))
  }

  /** The rename may still be rolled back by a power failure: poisoned. */
  ghost predicate DoSyncDirFail(s: State, s': State) {
    && s.proc.Up? && s.proc.phase.Swapped?
    && s' == s.(proc := Up(s.proc.mem.(poisoned := true), Settled))
  }

  ghost predicate DoPrune(s: State, ts: nat, s': State) {
    && s.proc.Up? && s.proc.phase.Settled? && !s.proc.mem.poisoned
    && s' == s.(disk := s.disk.(archives := s.disk.archives - {ts}))
  }

  /** A poisoned broker acknowledges nothing. */
  ghost predicate DoReply(s: State, s': State) {
    && s.proc.Up? && (s.proc.phase.Written? || s.proc.phase.Settled?) && |s.hist| > 0
    && s' == s.(acks := if s.proc.mem.poisoned then s.acks else s.acks + {|s.hist| - 1},
                proc := s.proc.(phase := Idle))
  }

  // ---- failure and restart ----

  /** How much of the line in flight may be there if the process dies. */
  predicate MayLand(p: Phase, landed: nat)
    requires InFlight(p)
  {
    if p.Writing? then landed <= |p.line| + 1 else landed == p.landed <= |p.line| + 1
  }

  /** All of the line in flight is in the file. */
  predicate Whole(p: Phase, landed: nat) { InFlight(p) && landed == |p.line| + 1 }

  /** The process dies and its memory with it. The files stay as other processes
      see them, nothing more is synced, and an append under way may have landed
      any part of its line. The pending file may be anything: startup does not
      read it. */
  ghost predicate DoKill(s: State, landed: nat, s': State) {
    && s.proc.Up? && (InFlight(s.proc.phase) ==> MayLand(s.proc.phase, landed))
    && s' == s.(disk := s.disk.(sink := if InFlight(s.proc.phase) then
                                          Solid(s.disk, s.proc.phase) + Landing(s.proc.phase.line, landed)
                                        else s.disk.sink,
                                pending := s'.disk.pending),
                hist := if Whole(s.proc.phase, landed) then s.hist + [s.proc.phase.rec] else s.hist,
                proc := Down)
  }

  /** How many complete lines go if only the first n bytes stay. */
  function Lost(file: seq<Byte>, n: nat): int
    requires n <= |file|
  {
    |Scan(file).lines| - |Scan(file[..n]).lines|
  }

  function Without(h: seq<Rec>, lost: int): seq<Rec> { if 0 <= lost <= |h| then h[..|h| - lost] else h }

  /** The history a power failure leaves. */
  function Survives(s: State, back: bool, keep: nat): seq<Rec> {
    if back then (if s.base <= |s.hist| then s.hist[..s.base] else s.hist)
    else if keep <= |s.disk.sink| then Without(s.hist, Lost(s.disk.sink, keep))
    else s.hist
  }

  /** The machine loses power and boots again, under a new boot id. A rename or
      creation that was not synced may be undone; otherwise any number of the
      bytes not yet synced are gone from the end of the sink. What is found is
      durable. The pending file and the archives may be anything. */
  ghost predicate DoPowerFail(s: State, back: bool, keep: nat, machine: string, s': State) {
    && s.proc.Down? && machine !in s.past.machines
    && (if back then s.disk.prior.Some? else s.disk.firm <= keep <= |s.disk.sink|)
    && var sink := if back then s.disk.prior.value else s.disk.sink[..keep];
       var hist := Survives(s, back, keep);
       s' == s.(disk := Disk(sink, |sink|, if back then sink != [] else s.disk.made, None, s'.disk.pending,
                             s'.disk.archives),
                hist := hist, boot := |hist|, acks := (set i | i in s.acks && i < |hist|),
                past := s.past.(machine := machine, machines := s.past.machines + {machine}))
  }

  ghost predicate Rebuilt(cfg: Config, log: seq<Rec>, rings: map<nat, seq<Entry>>) {
    forall u: nat :: RingAt(rings, u) == RingAfter(cfg, log, u)
  }

  /** The sink reopened: a torn tail is cut off and the file synced, a missing
      file is created and the directory synced, and otherwise nothing is. */
  function Reopened(disk: Disk): Disk {
    var sink := Encode(Scan(disk.sink).lines);
    disk.(sink := sink, firm := if sink == disk.sink then disk.firm else |sink|, made := true,
          prior := if disk.made then disk.prior else None, pending := None)
  }

  /** Discard the pending file, replay the sink, cut off the torn tail, reopen.
      A fault leaves the broker down. */
  ghost predicate DoRestart(tx: Text, cfg: Config, s: State, s': State) {
    && s.proc.Down? && s.clock <= s'.clock
    && match Recover(tx, s.disk.sink)
       case Err(_) => s' == s.(clock := s'.clock, disk := s.disk.(pending := None))
       case Ok(log) =>
         && s'.proc.Up? && Rebuilt(cfg, log, s'.proc.mem.rings)
         && s' == s.(clock := s'.clock, boot := |s.hist|, disk := Reopened(s.disk),
                     proc := Up(Mem(Replay(Facts(log)).value.opens, s'.proc.mem.rings, Global(0, 0),
                                    |Encode(Scan(s.disk.sink).lines)|, false), Idle))
  }

  function Trimmed(disk: Disk, cut: bool, synced: bool): Disk {
    var sink := if cut then Encode(Scan(disk.sink).lines) else disk.sink;
    disk.(sink := sink, firm := if disk.firm <= |sink| && !synced then disk.firm else |sink|, pending := None)
  }

  /** A startup that could not read, cut or reopen its files: the torn tail is
      cut off or not, the cut synced or not, and a missing file created without
      the directory synced, or not. */
  ghost predicate DoStartFail(s: State, cut: bool, synced: bool, create: bool, s': State) {
    && s.proc.Down? && s.clock <= s'.clock && (create ==> !s.disk.made) && (synced ==> cut)
    && s' == s.(clock := s'.clock, base := if create then 0 else s.base,
                disk := if create then Trimmed(s.disk, cut, synced).(made := true, prior := Some([]))
                        else Trimmed(s.disk, cut, synced))
  }

  predicate Rotates(step: Step) {
    step.RotateBegin? || step.WriteIntent? || step.StartRates? || step.WriteRate? || step.GiveUp? || step.Link? ||
    step.LinkFail? || step.Rename? || step.SyncDir? || step.SyncDirFail? || step.Prune?
  }

  ghost predicate NextRotation(tx: Text, cfg: Config, s: State, step: Step, s': State)
    requires Rotates(step)
  {
    match step
    case RotateBegin(order) => DoRotateBegin(cfg, s, order, s')
    case WriteIntent => DoWriteIntent(tx, s, s')
    case StartRates(uids) => DoStartRates(cfg, s, uids, s')
    case WriteRate => DoWriteRate(tx, s, s')
    case GiveUp => DoGiveUp(s, s')
    case Link(ts) => DoLink(s, ts, s')
    case LinkFail(ts) => DoLinkFail(s, ts, s')
    case Rename => DoRename(s, s')
    case SyncDir => DoSyncDir(s, s')
    case SyncDirFail => DoSyncDirFail(s, s')
    case Prune(ts) => DoPrune(s, ts, s')
  }

  ghost predicate NextRequest(tx: Text, cfg: Config, s: State, step: Step, s': State)
    requires !Rotates(step)
  {
    match step
    case Begin(rec, line) => DoBegin(tx, cfg, s, rec, line, s')
    case AppendOk => DoAppendOk(cfg, s, s')
    case AppendFault(landed) => DoAppendFault(s, landed, s')
    case Refuse(u) => DoRefuse(cfg, s, u, s')
    case Reply => DoReply(s, s')
    case Kill(landed) => DoKill(s, landed, s')
    case PowerFail(back, keep, machine) => DoPowerFail(s, back, keep, machine, s')
    case Restart => DoRestart(tx, cfg, s, s')
    case StartFail(cut, synced, create) => DoStartFail(s, cut, synced, create, s')
  }

  ghost predicate Next(tx: Text, cfg: Config, s: State, step: Step, s': State) {
    if Rotates(step) then NextRotation(tx, cfg, s, step, s') else NextRequest(tx, cfg, s, step, s')
  }
}
