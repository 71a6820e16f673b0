/** The broker itself: its memory and its files, updated in place by the append
    and the rotation. Each file operation is one step of the machine; which of
    them fails is an input, and what the clock reads is a free choice. */
module Broker {
  import opened Types
  import opened Lines
  import opened Rates
  import opened Lifecycle
  import opened History
  import opened Recovery
  import opened Carry
  import opened Machine
  import opened Paths
  import opened Retention

  /** The operation of a rotation that fails, if any. A failed creation may
      leave the empty file; writes are counted from zero. */
  datatype Mishap =
    | Smooth | NoFile(left: bool) | NoCheckpoint(at: nat) | NoWindow(at: nat) | NoLock | NoLink | NoRename | NoSync

  /** What the disk does to one write: whether there is space, how much of the
      line lands if the append fails, what goes wrong in the rotation, whether
      the archives can be listed, and which cannot be unlinked. */
  datatype Luck = Luck(space: bool, landed: Option<nat>, rotation: Mishap, listed: bool, stuck: set<nat>)

  /** How a rotation ended. */
  datatype Ended =
    | Rotated(ts: nat) | NotCreated(left: bool) | NotCarried(done: nat) | NotWindowed(done: nat) | NotLocked
    | NotLinked(ts: nat) | NotRenamed(ts: nat) | NotSynced(ts: nat)

  /** What the new segment was written from: the intents and the times of their
      checkpoints, when the windows were evicted, and the uids. */
  datatype Carriage = Carriage(order: seq<string>, times: seq<nat>, at: nat, uids: seq<nat>)

  class Broker {
    const tx: Text
    const cfg: Config
    var mem: Mem
    var disk: Disk
    var clock: nat // the latest reading
    // bookkeeping of the run
    ghost var hist: seq<Rec>
    ghost var base: nat
    ghost var boot: nat
    ghost var acks: set<nat>
    ghost var past: Past
    ghost var phase: Phase

    constructor (tx: Text, cfg: Config, mem: Mem, disk: Disk, clock: nat, ghost s: State)
      requires s.disk == disk && s.proc == Up(mem, Idle) && s.clock == clock
      ensures this.tx == tx && this.cfg == cfg && Snap() == s
    {
      this.tx, this.cfg, this.mem, this.disk, this.clock := tx, cfg, mem, disk, clock;
      this.hist, this.base, this.boot, this.acks, this.past := s.hist, s.base, s.boot, s.acks, s.past;
      this.phase := Idle;
    }

    ghost function Snap(): State
      reads this
    {
      State(disk, Up(mem, phase), clock, hist, base, boot, acks, past)
    }

    /** Everything so far is a path of the machine from `from`. */
    ghost predicate Since(from: State)
      reads this
    {
      Reaches(tx, cfg, from, Snap())
    }

    method ReadClock() returns (now: nat)
      requires clock < U64_LIMIT
      ensures clock <= now < U64_LIMIT
    {
      now :| clock <= now < U64_LIMIT;
    }

    // ---- requests ----

    /** A refusal appends nothing; the uid's window was evicted on the way. */
    method Refuse(ghost from: State, u: nat, now: nat)
      requires Since(from) && phase.Idle? && clock <= now
      modifies this`mem, this`clock
      ensures Since(from) && clock == now && mem == old(mem).(rings := EvictRing(cfg, old(mem).rings, u, now))
      ensures RateAllowed(cfg, RingAt(mem.rings, u), now) == RateAllowed(cfg, RingAt(old(mem.rings), u), now)
      ensures forall n: nat ::
                UidBytesAllowed(cfg, RingAt(mem.rings, u), now, n) ==
                UidBytesAllowed(cfg, RingAt(old(mem.rings), u), now, n)
    {
      hide Decode, Reaches, BeginOk;
      EvictTwice(RingAt(mem.rings, u), cfg.Threshold(now));
      ghost var was := Snap();
      mem := mem.(rings := EvictRing(cfg, mem.rings, u, now));
      clock := now;
      ReachesStep(tx, cfg, from, was, Machine.Refuse(u), Snap());
    }

    method Admit(ghost from: State, rec: Rec, line: Line, now: nat)
      requires Since(from) && BeginOk(tx, cfg, Snap(), rec, line, now)
      modifies this`mem, this`clock, this`phase, this`past
      ensures Since(from) && clock == now && phase == Writing(rec, line)
      ensures past == old(past).(cids := old(past).cids + Minted(rec))
      ensures mem == old(mem).(rings := EvictRing(cfg, old(mem).rings, Charge(rec).value.uid, now))
    {
      hide Decode, Reaches;
      ghost var was := Snap();
      mem := mem.(rings := EvictRing(cfg, mem.rings, Charge(rec).value.uid, now));
      clock := now;
      phase := Writing(rec, line);
      past := past.(cids := past.cids + Minted(rec));
      ReachesStep(tx, cfg, from, was, Begin(rec, line), Snap());
    }

    /** Synced, and only then installed and charged. */
    method AppendSynced(ghost from: State, rec: Rec, line: Line, c: Charged)
      requires Since(from) && phase == Writing(rec, line) && !mem.poisoned && Charge(rec) == Some(c)
      modifies this`disk, this`mem, this`hist, this`phase, this`past
      ensures Since(from) && !mem.poisoned && phase.Written? && hist == old(hist) + [rec]
      ensures mem.opens == Installed(old(mem.opens), rec.s) && disk == Appended(old(disk), line)
      ensures mem == AfterAppend(cfg, old(mem), rec, line, c)
      ensures past == old(past).(spent := old(past).spent + Spends(rec))
    {
      hide Reaches, Installed, Spends, GlobalNote, Push, Next;
      ghost var was := Snap();
      disk := Appended(disk, line);
      mem := AfterAppend(cfg, mem, rec, line, c);
      hist := hist + [rec];
      phase := Written;
      past := past.(spent := past.spent + Spends(rec));
      assert DoAppendOk(cfg, was, Snap());
      AppendIsStep(tx, cfg, was, Snap());
      ReachesStep(tx, cfg, from, was, AppendOk, Snap());
    }

    /** Failed, with this much of the line in the file. */
    method AppendFailed(ghost from: State, rec: Rec, line: Line, landed: nat)
      requires Since(from) && phase == Writing(rec, line) && landed <= |line| + 1
      modifies this`disk, this`mem, this`phase
      ensures Since(from) && mem == old(mem).(poisoned := true) && phase == Faulted(rec, line, landed)
      ensures disk == old(disk).(sink := old(disk).sink + Landing(line, landed))
    {
      hide Decode, Reaches, BeginOk, Landing, NextRotation;
      ghost var was := Snap();
      disk := disk.(sink := disk.sink + Landing(line, landed));
      mem := mem.(poisoned := true);
      phase := Faulted(rec, line, landed);
      ReachesStep(tx, cfg, from, was, AppendFault(landed), Snap());
    }

    /** Append and sync; only then install and charge. Any failure poisons, with
        some part of the line, or all of it, left in the file. */
    method AppendLine(ghost from: State, rec: Rec, line: Line, c: Charged, fails: Option<nat>) returns (ok: bool)
      requires Since(from) && phase == Writing(rec, line) && !mem.poisoned && Charge(rec) == Some(c)
      modifies this`disk, this`mem, this`hist, this`phase, this`past
      ensures Since(from) && mem.poisoned == !ok && ok == fails.None?
      ensures ok ==> phase.Written? && hist == old(hist) + [rec] && mem.opens == Installed(old(mem.opens), rec.s)
      ensures ok ==> disk == Appended(old(disk), line) && mem == AfterAppend(cfg, old(mem), rec, line, c)
      ensures past == if ok then old(past).(spent := old(past).spent + Spends(rec)) else old(past)
      ensures !ok ==> hist == old(hist) && mem.opens == old(mem.opens) && phase.Faulted? && phase.landed <= |line| + 1
      ensures !ok ==> phase == Faulted(rec, line, phase.landed)
      ensures !ok ==> disk == old(disk).(sink := old(disk).sink + Landing(line, phase.landed))
    {
      hide Reaches, Landing, Installed;
      ok := fails.None?;
      if ok {
        AppendSynced(from, rec, line, c);
      } else {
        AppendFailed(from, rec, line, if fails.value <= |line| then fails.value else |line| + 1);
      }
    }

    /** The reply; success is acknowledged only if nothing is in doubt. */
    method Acknowledge(ghost from: State)
      requires Since(from) && (phase.Written? || phase.Settled?) && |hist| > 0
      modifies this`acks, this`phase
      ensures Since(from) && phase.Idle? && acks == if mem.poisoned then old(acks) else old(acks) + {|hist| - 1}
    {
      hide Decode, Reaches, BeginOk;
      ghost var was := Snap();
      acks := if mem.poisoned then acks else acks + {|hist| - 1};
      phase := Idle;
      ReachesStep(tx, cfg, from, was, Reply, Snap());
    }

    // ---- rotation ----

    /** The pending file is created and with it the directory synced. */
    method StartPending(ghost from: State, ghost order: seq<string>)
      requires Since(from) && phase.Written? && !mem.poisoned && cfg.rotateBytes != 0 && mem.segBytes > cfg.rotateBytes
      requires Enumerates(order, mem.opens.Keys)
      modifies this`disk, this`phase
      ensures Since(from) && disk == old(disk).(pending := Some([]), prior := None) && phase == Carrying(order, 0)
    {
      hide Decode, Reaches, BeginOk;
      ghost var was := Snap();
      disk := disk.(pending := Some([]), prior := None);
      phase := Carrying(order, 0);
      ReachesStep(tx, cfg, from, was, RotateBegin(order), Snap());
    }

    method WriteCheckpoint(ghost from: State, ghost order: seq<string>, ghost k: nat, c: string, now: nat)
      requires Since(from) && phase == Carrying(order, k) && k < |order| && order[k] == c && c in mem.opens
      requires disk.pending.Some? && clock <= now < U64_LIMIT && Carriable(mem.opens[c])
      modifies this`disk, this`clock, this`phase
      ensures Since(from) && clock == now && phase == Carrying(order, k + 1)
      ensures disk == old(disk).(pending := Some(old(disk).pending.value + CarryBytes(tx, c, mem.opens[c], now)))
    {
      hide Decode, Reaches, BeginOk;
      ghost var was := Snap();
      disk := disk.(pending := Some(disk.pending.value + CarryBytes(tx, c, mem.opens[c], now)));
      clock := now;
      phase := Carrying(order, k + 1);
      ReachesStep(tx, cfg, from, was, WriteIntent, Snap());
    }

    method EvictAll(ghost from: State, now: nat, evicted: map<nat, seq<Entry>>, ghost uids: seq<nat>)
      requires Since(from) && phase.Carrying? && phase.done == |phase.order| && clock <= now
      requires EvictedRings(cfg, mem.rings, now, evicted) && Enumerates(uids, Active(cfg, evicted))
      modifies this`mem, this`clock, this`phase
      ensures Since(from) && clock == now && mem == old(mem).(rings := evicted) && phase == CarryingRates(uids, 0)
    {
      hide Decode, Reaches, BeginOk;
      ghost var was := Snap();
      mem := mem.(rings := evicted);
      clock := now;
      phase := CarryingRates(uids, 0);
      ReachesStep(tx, cfg, from, was, StartRates(uids), Snap());
    }

    method WriteWindow(ghost from: State, ghost uids: seq<nat>, ghost k: nat, u: nat)
      requires Since(from) && phase == CarryingRates(uids, k) && k < |uids| && uids[k] == u && disk.pending.Some?
      modifies this`disk, this`phase
      ensures Since(from) && phase == CarryingRates(uids, k + 1)
      ensures disk == old(disk).(pending := Some(old(disk).pending.value + RateBytes(tx, u, RingAt(mem.rings, u))))
    {
      hide Decode, Reaches, BeginOk;
      ghost var was := Snap();
      disk := disk.(pending := Some(disk.pending.value + RateBytes(tx, u, RingAt(mem.rings, u))));
      phase := CarryingRates(uids, k + 1);
      ReachesStep(tx, cfg, from, was, WriteRate, Snap());
    }

    method Abandon(ghost from: State)
      requires Since(from) && (phase.Written? || phase.Carrying? || phase.CarryingRates? || phase.Linked?)
      modifies this`disk, this`phase
      ensures Since(from) && disk == old(disk).(pending := None) && phase.Settled?
    {
      hide Decode, Reaches, BeginOk;
      ghost var was := Snap();
      disk := disk.(pending := None);
      phase := Settled;
      ReachesStep(tx, cfg, from, was, GiveUp, Snap());
    }

    /** The pending file could not be created, or the directory not synced, which
        leaves it there empty. */
    method NoPending(ghost from: State, left: bool)
      requires Since(from) && phase.Written?
      modifies this`disk, this`phase
      ensures Since(from) && disk == old(disk).(pending := if left then Some([]) else None) && phase.Settled?
    {
      hide Decode, Reaches, BeginOk;
      ghost var was := Snap();
      disk := disk.(pending := if left then Some([]) else None);
      phase := Settled;
      ReachesStep(tx, cfg, from, was, GiveUp, Snap());
    }

    /** Link the archive name and sync the directory; a name already taken
        makes the link fail, and the cleanup removes that name. */
    method LinkArchive(ghost from: State, ts: nat, fails: bool) returns (ok: bool)
      requires Since(from) && CarryDone(phase)
      modifies this`disk, this`phase
      ensures Since(from) && disk.sink == old(disk).sink
      ensures ok <==> !fails && ts !in old(disk).archives
      ensures ok ==> phase.Linked?
      ensures ok ==> disk == old(disk).(archives := old(disk).archives[ts := disk.sink])
      ensures !ok ==> phase.Settled? && disk == old(disk).(pending := None, archives := old(disk).archives - {ts})
    {
      hide Decode, Reaches, BeginOk;
      ghost var was := Snap();
      ok := !fails && ts !in disk.archives;
      if ok {
        disk := disk.(archives := disk.archives[ts := disk.sink]);
        phase := Linked;
        ReachesStep(tx, cfg, from, was, Link(ts), Snap());
      } else {
        disk := disk.(pending := None, archives := disk.archives - {ts});
        phase := Settled;
        ReachesStep(tx, cfg, from, was, LinkFail(ts), Snap());
      }
    }

    method RenamePending(ghost from: State)
      requires Since(from) && phase.Linked? && disk.pending.Some?
      modifies this`disk, this`mem, this`phase, this`base
      ensures Since(from) && phase.Swapped? && mem == old(mem).(segBytes := |disk.sink|)
      ensures disk == Renamed(old(disk)) && base == |hist|
    {
      hide Decode, Reaches, BeginOk;
      ghost var was := Snap();
      disk := Renamed(disk);
      base := |hist|;
      mem := mem.(segBytes := |disk.sink|);
      phase := Swapped;
      ReachesStep(tx, cfg, from, was, Rename, Snap());
    }

    /** A directory that cannot be synced leaves the rename in doubt. */
    method SyncDirectory(ghost from: State, fails: bool)
      requires Since(from) && phase.Swapped? && !mem.poisoned
      modifies this`disk, this`mem, this`phase
      ensures Since(from) && phase.Settled? && mem == old(mem).(poisoned := fails)
      ensures disk == if fails then old(disk) else old(disk).(prior := None)
    {
      hide Decode, Reaches, BeginOk;
      ghost var was := Snap();
      phase := Settled;
      if !fails {
        disk := disk.(prior := None);
        ReachesStep(tx, cfg, from, was, SyncDir, Snap());
      } else {
        mem := mem.(poisoned := true);
        ReachesStep(tx, cfg, from, was, SyncDirFail, Snap());
      }
    }

    /** Prune old archives, only after the new segment is durable. */
    method Retain(ghost from: State, luck: Luck)
      requires Since(from) && phase.Settled? && !mem.poisoned
      modifies this`disk
      ensures Since(from) && disk == old(disk).(archives := disk.archives)
      ensures Retained(cfg, mem.segBytes, old(disk).archives, luck, disk.archives)
    {
      hide Pruned;
      if (cfg.retainSegments == 0 && cfg.retainBytes == 0) || !luck.listed {
        return;
      }
      var kept, order := ApplyRetention(cfg, mem.segBytes, disk.archives, luck.stuck);
      PrunedIsPart(cfg, mem.segBytes, disk.archives, order, luck.stuck, kept);
      PrunePath(tx, cfg, from, Snap(), disk.archives.Keys - kept.Keys);
      assert disk.archives - (disk.archives.Keys - kept.Keys) == kept;
      disk := disk.(archives := kept);
    }

    /** Archive the old segment and swap the pending file in. */
    method SwapIn(ghost from: State, luck: Luck) returns (end: Ended)
      requires Since(from) && CarryDone(phase) && disk.pending.Some? && !mem.poisoned && clock < U64_LIMIT
      modifies this`disk, this`mem, this`phase, this`base
      ensures Since(from) && phase.Settled?
      ensures mem == old(mem).(segBytes := mem.segBytes, poisoned := end.NotSynced?)
      ensures SwapEnds(cfg, old(disk), mem, disk, luck, end)
    {
      hide Reaches, Retained;
      var m := luck.rotation;
      if m.NoLock? {
        Abandon(from);
        return NotLocked;
      }
      var ts := ReadClock();
      var linked := LinkArchive(from, ts, m.NoLink?);
      if !linked {
        return NotLinked(ts);
      }
      if m.NoRename? {
        Abandon(from);
        return NotRenamed(ts);
      }
      RenamePending(from);
      SyncDirectory(from, m.NoSync?);
      if mem.poisoned {
        return NotSynced(ts);
      }
      Retain(from, luck);
      end := Rotated(ts);
    }

    /** Carry everything forward into a new segment, archive the old one and
        swap. It is done whole unless something failed; any failure before the
        rename leaves the current segment. */
    method Rotate(ghost from: State, luck: Luck) returns (end: Ended, ghost car: Carriage)
      requires Since(from) && phase.Written? && !mem.poisoned && clock < U64_LIMIT
      requires cfg.rotateBytes != 0 && mem.segBytes > cfg.rotateBytes
      modifies this`disk, this`mem, this`clock, this`phase, this`base
      ensures Since(from) && phase.Settled? && clock < U64_LIMIT && mem.opens == old(mem.opens)
      ensures mem.poisoned == end.NotSynced?
      ensures RotationEnds(tx, cfg, old(mem), old(disk), mem, disk, luck, end, car)
    {
      hide Reaches, EvictedRings, Enumerates, Checkpoints, Windows, Carriable, SwapEnds, Active, RotationEnds;
      car := Carriage([], [], 0, []);
      var m := luck.rotation;
      if m.NoFile? {
        NoPending(from, m.left);
        EndsUncreated(tx, cfg, old(mem), old(disk), mem, disk, luck, car);
        return NotCreated(m.left), car;
      }
      var order := ListAll(mem.opens.Keys);
      StartPending(from, order);
      var carried, done, times := CarryIntents(from, order, m);
      car := Carriage(order, times, 0, []);
      if !carried {
        EndsUncarried(tx, cfg, old(mem), old(disk), mem, disk, luck, done, car);
        return NotCarried(done), car;
      }
      var windows, rates, at, uids := CarryWindows(from, m);
      car := Carriage(order, times, at, uids);
      if !windows {
        EndsUnwindowed(tx, cfg, old(mem), old(disk), mem, disk, luck, rates, car);
        return NotWindowed(rates), car;
      }
      ghost var ready := disk;
      end := SwapIn(from, luck);
      EndsSwapped(tx, cfg, old(mem), old(disk), ready, mem, disk, luck, end, car);
    }

    /** One checkpoint per open intent, in whatever order the table gives, each
        at its own time; or the pending file is gone, because a write failed or
        some intent cannot be written. */
    method CarryIntents(ghost from: State, order: seq<string>, m: Mishap)
      returns (ok: bool, done: nat, ghost times: seq<nat>)
      requires Since(from) && phase == Carrying(order, 0) && Enumerates(order, mem.opens.Keys)
      requires disk.pending == Some([]) && clock < U64_LIMIT
      modifies this`disk, this`clock, this`phase
      ensures Since(from) && clock < U64_LIMIT && disk == old(disk).(pending := disk.pending)
      ensures if ok then phase == Carrying(order, |order|) else phase.Settled? && disk.pending.None?
      ensures ok ==> |times| == |order| && disk.pending == Some(Checkpoints(tx, mem.opens, order, times))
      ensures ok ==> forall c :: c in mem.opens ==> Carriable(mem.opens[c])
      ensures !ok ==> done < |order| && order[done] in mem.opens
      ensures !ok ==> m == NoCheckpoint(done) || !Carriable(mem.opens[order[done]])
    {
      hide Reaches, CarryBytes, Carriable;
      done, times := 0, [];
      while done < |order|
        invariant done <= |order| && Since(from) && phase == Carrying(order, done) && clock < U64_LIMIT
        invariant disk == old(disk).(pending := disk.pending)
        invariant |times| == done && disk.pending == Some(Checkpoints(tx, mem.opens, order[..done], times))
        invariant forall i :: 0 <= i < done ==> order[i] in mem.opens && Carriable(mem.opens[order[i]])
      {
        assert order[done] in order;
        if m == NoCheckpoint(done) || !Carriable(mem.opens[order[done]]) {
          ok := false;
          Abandon(from);
          return;
        }
        var now := ReadClock();
        CheckpointsNext(tx, mem.opens, order, done, times, now);
        WriteCheckpoint(from, order, done, order[done], now);
        done, times := done + 1, times + [now];
      }
      ok := true;
      assert order[..done] == order;
    }

    /** Then one rate record per uid that still has entries in its window; or
        the pending file is gone, because a write failed. */
    method CarryWindows(ghost from: State, m: Mishap)
      returns (ok: bool, done: nat, ghost at: nat, ghost uids: seq<nat>)
      requires Since(from) && phase.Carrying? && phase.done == |phase.order| && disk.pending.Some? && clock < U64_LIMIT
      modifies this`disk, this`mem, this`clock, this`phase
      ensures Since(from) && clock < U64_LIMIT && mem == old(mem).(rings := mem.rings)
      ensures old(clock) <= at == clock && disk == old(disk).(pending := disk.pending)
      ensures EvictedRings(cfg, old(mem.rings), at, mem.rings) && Enumerates(uids, Active(cfg, mem.rings))
      ensures if ok then CarryDone(phase) else phase.Settled? && disk.pending.None?
      ensures ok ==> disk.pending == Some(old(disk).pending.value + Windows(tx, mem.rings, uids))
      ensures !ok ==> done < |uids| && m == NoWindow(done)
    {
      hide Reaches;
      var now := ReadClock();
      at := now;
      var evicted := EvictEach(mem.rings, now);
      var active := ListAll(Active(cfg, evicted));
      uids := active;
      EvictAll(from, now, evicted, active);
      ok, done := WriteWindows(from, active, m);
    }

    method WriteWindows(ghost from: State, uids: seq<nat>, m: Mishap) returns (ok: bool, done: nat)
      requires Since(from) && phase == CarryingRates(uids, 0) && disk.pending.Some?
      modifies this`disk, this`phase
      ensures Since(from) && disk == old(disk).(pending := disk.pending)
      ensures if ok then CarryDone(phase) else phase.Settled? && disk.pending.None?
      ensures ok ==> disk.pending == Some(old(disk).pending.value + Windows(tx, mem.rings, uids))
      ensures !ok ==> done < |uids| && m == NoWindow(done)
    {
      hide Reaches, RateBytes;
      done := 0;
      assert old(disk).pending.value + [] == old(disk).pending.value;
      while done < |uids|
        invariant done <= |uids| && Since(from) && phase == CarryingRates(uids, done)
        invariant disk == old(disk).(pending := disk.pending)
        invariant disk.pending == Some(old(disk).pending.value + Windows(tx, mem.rings, uids[..done]))
      {
        if m == NoWindow(done) {
          ok := false;
          Abandon(from);
          return;
        }
        WindowsNext(tx, mem.rings, uids, done);
        ghost var sofar := Windows(tx, mem.rings, uids[..done]);
        var more := RateBytes(tx, uids[done], RingAt(mem.rings, uids[done]));
        assert old(disk).pending.value + (sofar + more) == old(disk).pending.value + sofar + more;
        WriteWindow(from, uids, done, uids[done]);
        done := done + 1;
      }
      ok := true;
      assert uids[..done] == uids;
    }

    method EvictEach(rings: map<nat, seq<Entry>>, now: nat) returns (evicted: map<nat, seq<Entry>>)
      ensures EvictedRings(cfg, rings, now, evicted)
    {
      if cfg.rateMaxInWindow == 0 {
        return rings;
      }
      evicted := map u | u in rings :: Evict(rings[u], cfg.Threshold(now));
    }

    // ---- one durable write ----

    /** Append, install, charge, rotate if due, and acknowledge. Success means
        the line is in the history, installed and acknowledged; failure means
        the broker is poisoned and nothing is acknowledged. */
    method Finish(ghost from: State, rec: Rec, line: Line, c: Charged, luck: Luck)
      returns (ok: bool, ghost end: Option<Ended>, ghost car: Carriage)
      requires Since(from) && phase == Writing(rec, line) && !mem.poisoned && Charge(rec) == Some(c)
      requires clock < U64_LIMIT
      modifies this`disk, this`mem, this`clock, this`hist, this`base, this`acks, this`phase, this`past
      ensures Since(from) && mem.poisoned == !ok && clock < U64_LIMIT
      ensures ok ==> phase.Idle? && hist == old(hist) + [rec] && mem.opens == Installed(old(mem.opens), rec.s)
      ensures ok ==> acks == old(acks) + {|old(hist)|}
      ensures ok ==> past == old(past).(spent := old(past).spent + Spends(rec))
      ensures !ok ==> acks == old(acks) && (hist == old(hist) || hist == old(hist) + [rec])
      ensures ok <==> luck.landed.None? && !(end.Some? && end.value.NotSynced?)
      ensures Filed(tx, cfg, old(mem), old(disk), mem, disk, rec, line, luck, end, car)
    {
      hide Decode, Reaches, RotationEnds;
      end, car := None, Carriage([], [], 0, []);
      ok := AppendLine(from, rec, line, c, luck.landed);
      if !ok {
        assert disk == old(disk).(sink := old(disk).sink + Landing(line, phase.landed));
        return;
      }
      if cfg.rotateBytes != 0 && mem.segBytes > cfg.rotateBytes {
        var e, k := Rotate(from, luck);
        end, car := Some(e), k;
      }
      Acknowledge(from);
      ok := !mem.poisoned;
    }

    method Commit(ghost from: State, rec: Rec, line: Line, now: nat, luck: Luck)
      returns (ok: bool, ghost end: Option<Ended>, ghost car: Carriage)
      requires Since(from) && now < U64_LIMIT && BeginOk(tx, cfg, Snap(), rec, line, now)
      modifies this`disk, this`mem, this`clock, this`hist, this`base, this`acks, this`phase, this`past
      ensures Since(from) && mem.poisoned == !ok && clock < U64_LIMIT
      ensures ok ==> phase.Idle? && hist == old(hist) + [rec] && mem.opens == Installed(old(mem.opens), rec.s)
      ensures ok ==> acks == old(acks) + {|old(hist)|}
      ensures ok ==> past == old(past).(cids := old(past).cids + Minted(rec), spent := old(past).spent + Spends(rec))
      ensures !ok ==> acks == old(acks) && (hist == old(hist) || hist == old(hist) + [rec])
      ensures ok <==> luck.landed.None? && !(end.Some? && end.value.NotSynced?)
      ensures Filed(tx, cfg, old(mem).(rings := EvictRing(cfg, old(mem).rings, Charge(rec).value.uid, now)), old(disk),
                    mem, disk, rec, line, luck, end, car)
    {
      hide Decode, Filed, EvictRing;
      Admit(from, rec, line, now);
      ok, end, car := Finish(from, rec, line, Charge(rec).value, luck);
    }
  }

  // ---- how a rotation ends ----

  lemma EvictTwice(ring: seq<Entry>, th: nat)
    ensures Evict(Evict(ring, th), th) == Evict(ring, th)
  {
    EvictIsSuffix(ring, th);
    EvictedRingsAgree(Evict(ring, th), ring, th, th);
  }

  ghost predicate Retained(cfg: Config, segBytes: nat, archives: Archives, luck: Luck, kept: Archives) {
    if (cfg.retainSegments == 0 && cfg.retainBytes == 0) || !luck.listed then kept == archives
    else exists order :: OldestFirst(order, archives) && Pruned(cfg, segBytes, archives, order, luck.stuck, kept)
  }

  lemma PrunedIsPart(cfg: Config, segBytes: nat, archives: Archives, order: seq<nat>, stuck: set<nat>, kept: Archives)
    requires OldestFirst(order, archives) && Pruned(cfg, segBytes, archives, order, stuck, kept)
    ensures PartOf(kept, archives)
  {
  }

  /** The new segment: every open intent and every window that is not empty,
      and nothing else. */
  ghost predicate NewSegment(tx: Text, cfg: Config, opens: Opens, rings: map<nat, seq<Entry>>, car: Carriage,
                             file: seq<Byte>)
  {
    && Enumerates(car.order, opens.Keys) && |car.times| == |car.order|
    && Enumerates(car.uids, Active(cfg, rings))
    && file == Checkpoints(tx, opens, car.order, car.times) + Windows(tx, rings, car.uids)
  }

  /** Done: the new segment is in place for good, the old one is archived, and
      the archives are pruned. Not done: the named operation failed, and the old
      segment is still the sink unless it was the last sync. */
  ghost predicate RotationEnds(tx: Text, cfg: Config, mem: Mem, d: Disk, mem': Mem, d': Disk, luck: Luck, end: Ended,
                               car: Carriage)
  {
    var settled := d.(prior := None, pending := None);
    match end
    case Rotated(ts) =>
      && ts !in d.archives && NewSegment(tx, cfg, mem.opens, mem'.rings, car, d'.sink)
      && EvictedRings(cfg, mem.rings, car.at, mem'.rings) && mem'.segBytes == |d'.sink|
      && Retained(cfg, |d'.sink|, d.archives[ts := d.sink], luck, d'.archives)
      && d' == settled.(sink := d'.sink, firm := |d'.sink|, archives := d'.archives)
    case NotSynced(ts) =>
      && luck.rotation.NoSync? && ts !in d.archives && NewSegment(tx, cfg, mem.opens, mem'.rings, car, d'.sink)
      && d' == settled.(sink := d'.sink, firm := |d'.sink|, archives := d.archives[ts := d.sink], prior := Some(d.sink))
    case NotRenamed(ts) =>
      luck.rotation.NoRename? && ts !in d.archives && d' == settled.(archives := d.archives[ts := d.sink])
    case NotLinked(ts) =>
      (luck.rotation.NoLink? || ts in d.archives) && d' == settled.(archives := d.archives - {ts})
    case NotLocked => luck.rotation.NoLock? && d' == settled
    case NotWindowed(k) => luck.rotation == NoWindow(k) && d' == settled
    case NotCarried(k) =>
      && d' == settled && k < |car.order| && car.order[k] in mem.opens
      && (luck.rotation == NoCheckpoint(k) || !Carriable(mem.opens[car.order[k]]))
    case NotCreated(left) => luck.rotation == NoFile(left) && d' == d.(pending := if left then Some([]) else None)
  }

  /** How the swap of a finished pending file ended. */
  ghost predicate SwapEnds(cfg: Config, d: Disk, mem': Mem, d': Disk, luck: Luck, end: Ended)
    requires d.pending.Some?
  {
    var kept := d.(pending := None);
    match end
    case Rotated(ts) =>
      && ts !in d.archives && mem'.segBytes == |d'.sink|
      && Retained(cfg, |d'.sink|, d.archives[ts := d.sink], luck, d'.archives)
      && d' == Renamed(d).(prior := None, archives := d'.archives)
    case NotSynced(ts) =>
      luck.rotation.NoSync? && ts !in d.archives && d' == Renamed(d).(archives := d.archives[ts := d.sink])
    case NotRenamed(ts) =>
      luck.rotation.NoRename? && ts !in d.archives && d' == kept.(archives := d.archives[ts := d.sink])
    case NotLinked(ts) => (luck.rotation.NoLink? || ts in d.archives) && d' == kept.(archives := d.archives - {ts})
    case NotLocked => luck.rotation.NoLock? && d' == kept
    case _ => false
  }

  lemma EndsUncreated(tx: Text, cfg: Config, mem: Mem, d: Disk, mem': Mem, d': Disk, luck: Luck, car: Carriage)
    requires luck.rotation.NoFile? && d' == d.(pending := if luck.rotation.left then Some([]) else None)
    ensures RotationEnds(tx, cfg, mem, d, mem', d', luck, NotCreated(luck.rotation.left), car)
  {
  }

  lemma EndsUncarried(tx: Text, cfg: Config, mem: Mem, d: Disk, mem': Mem, d': Disk, luck: Luck, k: nat, car: Carriage)
    requires d' == d.(prior := None, pending := None) && k < |car.order| && car.order[k] in mem.opens
    requires luck.rotation == NoCheckpoint(k) || !Carriable(mem.opens[car.order[k]])
    ensures RotationEnds(tx, cfg, mem, d, mem', d', luck, NotCarried(k), car)
  {
    hide Carriable;
  }

  lemma EndsUnwindowed(tx: Text, cfg: Config, mem: Mem, d: Disk, mem': Mem, d': Disk, luck: Luck, k: nat,
                       car: Carriage)
    requires d' == d.(prior := None, pending := None) && luck.rotation == NoWindow(k)
    ensures RotationEnds(tx, cfg, mem, d, mem', d', luck, NotWindowed(k), car)
  {
  }

  lemma EndsSwapped(tx: Text, cfg: Config, mem: Mem, d: Disk, ready: Disk, mem': Mem, d': Disk, luck: Luck, end: Ended,
                    car: Carriage)
    requires ready.pending.Some? && ready == d.(prior := None, pending := ready.pending)
    requires NewSegment(tx, cfg, mem.opens, mem'.rings, car, ready.pending.value)
    requires EvictedRings(cfg, mem.rings, car.at, mem'.rings) && SwapEnds(cfg, ready, mem', d', luck, end)
    ensures RotationEnds(tx, cfg, mem, d, mem', d', luck, end, car)
  {
    hide NewSegment, EvictedRings, Retained;
  }

  /** With nothing failing, every intent writable and the archive name free, a
      rotation is done. */
  lemma NothingFailed(tx: Text, cfg: Config, mem: Mem, d: Disk, mem': Mem, d': Disk, luck: Luck, end: Ended,
                      car: Carriage)
    requires RotationEnds(tx, cfg, mem, d, mem', d', luck, end, car) && luck.rotation.Smooth?
    requires (forall c :: c in mem.opens ==> Carriable(mem.opens[c])) && (end.NotLinked? ==> end.ts !in d.archives)
    ensures end.Rotated?
  {
  }

  /** The memory after the append: charged, installed, and counted. */
  function AfterAppend(cfg: Config, mem: Mem, rec: Rec, line: Line, c: Charged): Mem {
    Noted(cfg, mem, c).(opens := Installed(mem.opens, rec.s), segBytes := mem.segBytes + |line| + 1)
  }

  /** What became of a line: part of it landed; or it is in the sink and no
      rotation was due; or one was, and ended somehow. */
  ghost predicate Filed(tx: Text, cfg: Config, mem: Mem, d: Disk, mem': Mem, d': Disk, rec: Rec, line: Line, luck: Luck,
                        end: Option<Ended>, car: Carriage)
    requires Charge(rec).Some?
  {
    var was := AfterAppend(cfg, mem, rec, line, Charge(rec).value);
    if luck.landed.Some? then
      end.None? && exists k :: 0 <= k <= |line| + 1 && d' == d.(sink := d.sink + Landing(line, k))
    else if cfg.rotateBytes == 0 || mem.segBytes + |line| + 1 <= cfg.rotateBytes then
      end.None? && d' == Appended(d, line) && mem' == was
    else
      end.Some? && RotationEnds(tx, cfg, was, Appended(d, line), mem', d', luck, end.value, car)
  }

  lemma AppendIsStep(tx: Text, cfg: Config, s: State, s': State)
    requires DoAppendOk(cfg, s, s')
    ensures Next(tx, cfg, s, AppendOk, s')
  {
  }

  /** What the checkpoint loop writes. */
  function Checkpoints(tx: Text, opens: Opens, order: seq<string>, times: seq<nat>): seq<Byte>
    requires |order| == |times| && forall c :: c in order ==> c in opens
  {
    if order == [] then []
    else
      var n := |order| - 1;
      assert order[n] in order;
      Checkpoints(tx, opens, order[..n], times[..n]) + CarryBytes(tx, order[n], opens[order[n]], times[n])
  }

  lemma CheckpointsNext(tx: Text, opens: Opens, order: seq<string>, k: nat, times: seq<nat>, now: nat)
    requires k < |order| && |times| == k && forall c :: c in order ==> c in opens
    ensures order[k] in order && forall c :: c in order[..k] ==> c in opens
    ensures forall c :: c in order[..k + 1] ==> c in opens
    ensures Checkpoints(tx, opens, order[..k + 1], times + [now]) ==
            Checkpoints(tx, opens, order[..k], times) + CarryBytes(tx, order[k], opens[order[k]], now)
  {
    assert order[..k + 1][..k] == order[..k] && (times + [now])[..k] == times;
  }

  /** What the rate loop writes. */
  function Windows(tx: Text, rings: map<nat, seq<Entry>>, uids: seq<nat>): seq<Byte> {
    if uids == [] then []
    else
      var u := uids[|uids| - 1];
      Windows(tx, rings, uids[..|uids| - 1]) + RateBytes(tx, u, RingAt(rings, u))
  }

  lemma WindowsNext(tx: Text, rings: map<nat, seq<Entry>>, uids: seq<nat>, k: nat)
    requires k < |uids|
    ensures Windows(tx, rings, uids[..k + 1]) ==
            Windows(tx, rings, uids[..k]) + RateBytes(tx, uids[k], RingAt(rings, uids[k]))
  {
    assert uids[..k + 1][..k] == uids[..k];
  }

  /** Some order of the elements. */
  method ListAll<T(!new)>(all: set<T>) returns (order: seq<T>)
    ensures Enumerates(order, all)
  {
    order := [];
    var left := all;
    while left != {}
      invariant left <= all && forall x :: x in order <==> x in all && x !in left
      invariant forall i, j :: 0 <= i < j < |order| ==> order[i] != order[j]
    {
      var x :| x in left;
      order := order + [x];
      left := left - {x};
    }
  }
}
