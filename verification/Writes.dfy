/** One durable write on behalf of a request: build the line, check the quotas,
    commit. */
module Writes {
  import opened Types
  import opened Utf8
  import opened Lines
  import opened Json
  import opened Decimal
  import opened Records
  import opened Lifecycle
  import opened Rates
  import opened History
  import opened Recovery
  import opened Carry
  import opened AuditLines
  import opened Reading
  import opened Machine
  import opened Safety
  import opened Limits
  import opened Paths
  import opened Broker

  datatype Code =
    | RateLimited | PersistFailed | Internal | SchemaInvalid | UnknownIntent | ActorMismatch | EffectWithoutReceipt
    | ReceiptUnauthorized | ReceiptInvalid | ReceiptActorMismatch | ReceiptMismatch | ReceiptExpired | ReceiptRedeemed

  /** The host name, the printed form of a time, and what the disk does to the
      first and the second write of a request. */
  datatype Env = Env(host: string, stamp: nat -> string, first: Luck, second: Luck)

  /** What a request can change for good, and the lifetime it is served in. */
  datatype View = View(hist: seq<Rec>, opens: Opens, acks: set<nat>, spent: set<string>, boot: nat, machine: string)

  ghost function Seen(b: Broker): View
    reads b
  {
    View(b.hist, b.mem.opens, b.acks, b.past.spent, b.boot, b.past.machine)
  }

  /** One line more: durable, installed and acknowledged. */
  ghost predicate Grew(v: View, w: View) {
    w.hist != [] &&
    var l := w.hist[|w.hist| - 1];
    w == v.(hist := v.hist + [l], opens := Installed(v.opens, l.s), acks := v.acks + {|v.hist|},
            spent := v.spent + Spends(l))
  }

  ghost function Latest(w: View): Rec
    requires w.hist != []
  {
    w.hist[|w.hist| - 1]
  }

  /** Between requests; what the broker's invariant gives the handlers. */
  ghost predicate Ready(b: Broker)
    reads b
  {
    && Faithful(b.tx) && b.phase.Idle? && !b.mem.poisoned && b.clock < U64_LIMIT && IntentsOk(b.mem.opens)
    && b.boot <= |b.hist| && b.cfg.Valid() && Inv(b.tx, b.cfg, b.Snap())
  }

  /** After a write: acknowledged, or poisoned with nothing acknowledged, or
      refused with nothing changed. */
  ghost predicate WriteEnded(v: View, b: Broker, refusal: Option<Code>)
    reads b
  {
    && b.clock < U64_LIMIT
    && match refusal
       case None => b.phase.Idle? && !b.mem.poisoned && Grew(v, Seen(b))
       case Some(code) =>
         if b.mem.poisoned then code == PersistFailed && b.acks == v.acks && v.hist <= b.hist
         else b.phase.Idle? && Seen(b) == v
  }

  /** The memory a write starts from: the uid's window evicted at its time. */
  function AtWrite(cfg: Config, mem: Mem, rec: Rec): Mem
    requires Charge(rec).Some?
  {
    mem.(rings := EvictRing(cfg, mem.rings, Charge(rec).value.uid, Charge(rec).value.entry.ts))
  }

  /** The line is durable: whole in the sink, or a rotation was due and the
      segment that ends with it was archived and carried forward, or that failed
      at a named operation. */
  ghost predicate Lodged(tx: Text, cfg: Config, s: State, s': State, rec: Rec, line: Line, luck: Luck) {
    s.proc.Up? && s'.proc.Up? && Charge(rec).Some? && luck.landed.None? &&
    exists end: Option<Ended>, car: Carriage ::
      && !(end.Some? && end.value.NotSynced?)
      && Filed(tx, cfg, AtWrite(cfg, s.proc.mem, rec), s.disk, s'.proc.mem, s'.disk, rec, line, luck, end, car)
  }

  /** Too little space, a failed append, or a directory that cannot be synced
      after the rename; any other mishap of a rotation is let pass. */
  predicate DiskFails(luck: Luck) { !luck.space || luck.landed.Some? || luck.rotation.NoSync? }

  /** Why a write of n bytes was refused. */
  ghost predicate WhyRefused(b: Broker, u: nat, n: nat, built: bool, luck: Luck, code: Code)
    reads b
  {
    match code
    case RateLimited => QuotaFull(b.cfg, b.Snap(), u, n)
    case PersistFailed => DiskFails(luck)
    case Internal => !built || n >= 0x1_0000_0000_0000_0000
    case _ => false
  }

  lemma LodgedBy(tx: Text, cfg: Config, s: State, s': State, rec: Rec, line: Line, luck: Luck, end: Option<Ended>,
                 car: Carriage)
    requires s.proc.Up? && s'.proc.Up? && Charge(rec).Some? && luck.landed.None?
    requires !(end.Some? && end.value.NotSynced?)
    requires Filed(tx, cfg, AtWrite(cfg, s.proc.mem, rec), s.disk, s'.proc.mem, s'.disk, rec, line, luck, end, car)
    ensures Lodged(tx, cfg, s, s', rec, line, luck)
  {
  }

  lemma UnsyncedMeans(tx: Text, cfg: Config, mem: Mem, d: Disk, mem': Mem, d': Disk, rec: Rec, line: Line, luck: Luck,
                      end: Option<Ended>, car: Carriage)
    requires Charge(rec).Some? && Filed(tx, cfg, mem, d, mem', d', rec, line, luck, end, car)
    requires end.Some? && end.value.NotSynced?
    ensures luck.rotation.NoSync?
  {
  }

  predicate BytesAllowed(cfg: Config, mem: Mem, u: nat, now: nat, n: nat) {
    UidBytesAllowed(cfg, RingAt(mem.rings, u), now, n) && GlobalAllowed(cfg, mem.global, now, n)
  }

  /** A live check failed: nothing is written, and the history is over the quota. */
  method RefuseLimited(b: Broker, ghost from: State, u: nat, now: nat, ghost n: nat)
    requires Ready(b) && b.Since(from) && b.clock <= now < U64_LIMIT
    requires !RateAllowed(b.cfg, RingAt(b.mem.rings, u), now) || !BytesAllowed(b.cfg, b.mem, u, now, n)
    modifies b`mem, b`clock
    ensures b.Since(from) && b.clock == now && !b.mem.poisoned && Seen(b) == old(Seen(b))
    ensures QuotaFull(b.cfg, b.Snap(), u, n)
  {
    hide Reaches, RateAllowed, UidBytesAllowed, GlobalAllowed, EvictRing, Inv, QuotaFull, IntentsOk, Faithful;
    ghost var s := b.Snap();
    b.Refuse(from, u, now);
    assert DoRefuse(b.cfg, s, u, b.Snap());
    RefuseInv(b.tx, b.cfg, s, u, b.Snap());
    ChecksExact(b.tx, b.cfg, b.Snap(), u, n);
  }

  /** The line passed every check; only the disk can still fail. */
  method WriteLine(b: Broker, ghost from: State, rec: Rec, line: Line, now: nat, luck: Luck)
    returns (refusal: Option<Code>)
    requires Ready(b) && b.Since(from) && now < U64_LIMIT && BeginOk(b.tx, b.cfg, b.Snap(), rec, line, now)
    modifies b
    ensures b.Since(from) && WriteEnded(old(Seen(b)), b, refusal)
    ensures refusal.None? ==> Latest(Seen(b)) == rec
    ensures refusal.None? ==> Lodged(b.tx, b.cfg, old(b.Snap()), b.Snap(), rec, line, luck)
    ensures refusal.Some? ==> refusal == Some(PersistFailed) && (luck.landed.Some? || luck.rotation.NoSync?)
  {
    hide Decode, Reaches, LineFor, AdmitsStep, IdsOk, RateAllowed, UidBytesAllowed, GlobalAllowed, Installed, EvictRing;
    hide Filed, Lodged, Inv, IntentsOk, Faithful;
    var ok, end, car := b.Commit(from, rec, line, now, luck);
    if ok {
      LodgedBy(b.tx, b.cfg, old(b.Snap()), b.Snap(), rec, line, luck, end, car);
    } else if luck.landed.None? {
      ghost var was := AtWrite(b.cfg, old(b.mem), rec);
      UnsyncedMeans(b.tx, b.cfg, was, old(b.disk), b.mem, b.disk, rec, line, luck, end, car);
    }
    refusal := if ok then None else Some(PersistFailed);
  }

  // ---- audit lines ----

  /** The last line of the history is in the file, and its text reports what the
      client sent. */
  ghost predicate AuditLodged(tx: Text, cfg: Config, s: State, s': State, phase: string, cid: string,
                              binding: Option<string>, a: Actor, env: Env, rec: Members, luck: Luck)
  {
    s'.hist != [] &&
    var l := s'.hist[|s'.hist| - 1];
    && l.s.Audit?
    && exists line ::
         && Lodged(tx, cfg, s, s', l, line, luck)
         && LineReports(tx, line, phase, cid, binding, a, env.host, env.stamp(l.s.time), l.s.time, rec)
  }

  lemma AuditLodgedBy(tx: Text, cfg: Config, s: State, s': State, phase: string, cid: string, binding: Option<string>,
                      a: Actor, env: Env, now: nat, rec: Members, n: nat, line: Line, luck: Luck)
    requires s'.hist != [] && s'.hist[|s'.hist| - 1] == AuditRec(phase, cid, binding, a, now, rec, n)
    requires Lodged(tx, cfg, s, s', AuditRec(phase, cid, binding, a, now, rec, n), line, luck)
    requires LineReports(tx, line, phase, cid, binding, a, env.host, env.stamp(now), now, rec)
    ensures AuditLodged(tx, cfg, s, s', phase, cid, binding, a, env, rec, luck)
  {
    hide Lodged, LineReports, ClaimsEffect, StringField;
  }

  function AuditSize(tx: Text, phase: string, cid: string, binding: Option<string>, a: Actor, env: Env, now: nat,
                     rec: Members): nat
  {
    |AuditLine(tx, phase, cid, binding, a, env.host, env.stamp(now), now, rec)| + 1
  }

  predicate Printable(env: Env, now: nat) { WellEncoded(env.host) && WellEncoded(env.stamp(now)) }

  lemma AuditBegins(tx: Text, cfg: Config, s: State, phase: string, cid: string, binding: Option<string>, a: Actor,
                    host: string, timeText: string, now: nat, rec: Members)
    requires Faithful(tx) && StampOk(phase, cid, binding, a, now) && RecordValid(rec) && ProperRecord(rec)
    requires s.proc.Up? && s.proc.phase.Idle? && !s.proc.mem.poisoned && s.clock <= now
    requires RateAllowed(cfg, RingAt(s.proc.mem.rings, a.uid), now)
    requires AdmitsStep(cfg, s.hist, s.proc.mem.opens, AuditRec(phase, cid, binding, a, now, rec, 0))
    requires phase != PHASE_OUTCOME ==> cid !in s.past.cids
    requires WellEncoded(host) && WellEncoded(timeText)
    requires var n := |AuditLine(tx, phase, cid, binding, a, host, timeText, now, rec)| + 1;
             n < U64_LIMIT && BytesAllowed(cfg, s.proc.mem, a.uid, now, n)
    ensures var line := AuditLine(tx, phase, cid, binding, a, host, timeText, now, rec);
            BeginOk(tx, cfg, s, AuditRec(phase, cid, binding, a, now, rec, |line| + 1), line, now)
  {
    hide Decode, AuditLine, RecordValid, ProperRecord, MetaFits, WellEncoded;
    AuditDecodes(tx, phase, cid, binding, a, host, timeText, now, rec);
  }

  /** Build the line, check the byte quotas, and write it. A line that cannot be
      built, such as for a host name that is not well-formed, is an internal
      error. */
  method WriteAudit(b: Broker, ghost from: State, phase: string, cid: string, binding: Option<string>, a: Actor,
                    env: Env, now: nat, rec: Members, luck: Luck)
    returns (refusal: Option<Code>)
    requires Ready(b) && b.Since(from) && b.clock <= now
    requires StampOk(phase, cid, binding, a, now) && RecordValid(rec) && ProperRecord(rec)
    requires RateAllowed(b.cfg, RingAt(b.mem.rings, a.uid), now)
    requires AdmitsStep(b.cfg, b.hist, b.mem.opens, AuditRec(phase, cid, binding, a, now, rec, 0))
    requires phase != PHASE_OUTCOME ==> cid !in b.past.cids
    modifies b
    ensures b.Since(from) && WriteEnded(old(Seen(b)), b, refusal)
    ensures refusal.None? ==> Latest(Seen(b)) == AuditRec(phase, cid, binding, a, now, rec, Latest(Seen(b)).size)
    ensures refusal.None? ==>
              AuditLodged(b.tx, b.cfg, old(b.Snap()), b.Snap(), phase, cid, binding, a, env, rec, luck)
    ensures refusal.Some? ==>
              WhyRefused(b, a.uid, AuditSize(b.tx, phase, cid, binding, a, env, b.clock, rec), Printable(env, b.clock),
                         luck, refusal.value)
  {
    hide Decode, Reaches, AuditLine, RecordValid, ProperRecord, ActorOk, BeginOk, AdmitsStep, RateAllowed;
    hide UidBytesAllowed, GlobalAllowed, Installed, EvictRing, AuditFacts, WellEncoded, Lodged, LineReports;
    hide AuditLodged, Inv, QuotaFull, BytesAllowed, IntentsOk, Faithful;
    var line := AuditLine(b.tx, phase, cid, binding, a, env.host, env.stamp(now), now, rec);
    var unbuilt := !WellEncoded(env.host) || !WellEncoded(env.stamp(now)) || |line| + 1 >= U64_LIMIT;
    if unbuilt {
      b.Refuse(from, a.uid, now);
      return Some(Internal);
    }
    if !BytesAllowed(b.cfg, b.mem, a.uid, now, |line| + 1) {
      RefuseLimited(b, from, a.uid, now, |line| + 1);
      return Some(RateLimited);
    }
    AuditBegins(b.tx, b.cfg, b.Snap(), phase, cid, binding, a, env.host, env.stamp(now), now, rec);
    AuditReports(b.tx, phase, cid, binding, a, env.host, env.stamp(now), now, rec);
    ghost var s := b.Snap();
    refusal := WriteLine(b, from, AuditRec(phase, cid, binding, a, now, rec, |line| + 1), line, now, luck);
    if refusal.None? {
      AuditLodgedBy(b.tx, b.cfg, s, b.Snap(), phase, cid, binding, a, env, now, rec, |line| + 1, line, luck);
    }
  }

  // ---- receipt transitions ----

  /** The last line of the history is in the file, and its text is that record. */
  ghost predicate ReceiptLodged(tx: Text, cfg: Config, s: State, s': State, luck: Luck) {
    s'.hist != [] &&
    var l := s'.hist[|s'.hist| - 1];
    exists line :: Lodged(tx, cfg, s, s', l, line, luck) && LineSays(tx, line, l)
  }

  lemma ReceiptLodgedBy(tx: Text, cfg: Config, s: State, s': State, rec: Rec, line: Line, luck: Luck)
    requires s'.hist != [] && s'.hist[|s'.hist| - 1] == rec && Lodged(tx, cfg, s, s', rec, line, luck)
    requires LineSays(tx, line, rec)
    ensures ReceiptLodged(tx, cfg, s, s', luck)
  {
    hide Lodged, LineSays;
  }

  function ReceiptLine(tx: Text, cid: string, r: Receipt): Line { tx.dump(ReceiptJson(cid, false, r)) }

  function ReceiptRec(cid: string, r: Receipt, size: nat): Rec { Rec(ReceiptRecord(cid, false, r), size, false) }

  lemma ReceiptClaims(cid: string, r: Receipt)
    ensures var j := ReceiptJson(cid, false, r);
            j.Obj? && !ClaimsEffect(j.members)
  {
  }

  lemma ReceiptDecodes(tx: Text, cid: string, r: Receipt)
    requires Faithful(tx) && ReceiptOk(cid, r)
    ensures var line := ReceiptLine(tx, cid, r);
            line != [] && OneLine(line) && Decode(tx, line) == Some(ReceiptRec(cid, r, |line| + 1))
  {
    hide ParseStored, Decode, Faithful, ReceiptJson, ReceiptBuildable, ClaimsEffect, OneLine, Proper;
    ReceiptClaims(cid, r);
    ProperReceipt(cid, false, r);
    ReceiptRoundTrip(cid, false, r);
    DecodeDump(tx, ReceiptJson(cid, false, r), ReceiptRecord(cid, false, r));
  }

  lemma ReceiptBegins(tx: Text, cfg: Config, s: State, cid: string, r: Receipt)
    requires Faithful(tx) && ReceiptOk(cid, r)
    requires s.proc.Up? && s.proc.phase.Idle? && !s.proc.mem.poisoned && s.clock <= r.acceptedUs
    requires RateAllowed(cfg, RingAt(s.proc.mem.rings, r.actorUid), r.acceptedUs)
    requires AdmitsStep(cfg, s.hist, s.proc.mem.opens, ReceiptRec(cid, r, 0))
    requires r.bootId == s.past.machine && (r.state.Issued? ==> OpenedHere(s.hist, s.boot, cid))
    requires var n := |ReceiptLine(tx, cid, r)| + 1;
             n < U64_LIMIT && BytesAllowed(cfg, s.proc.mem, r.actorUid, r.acceptedUs, n)
    ensures var line := ReceiptLine(tx, cid, r);
            BeginOk(tx, cfg, s, ReceiptRec(cid, r, |line| + 1), line, r.acceptedUs)
  {
    hide Decode, ReceiptLine, ReceiptBuildable, OpenedHere;
    ReceiptDecodes(tx, cid, r);
  }

  /** Both quotas are those of the receipt's opener, whoever asked. */
  method WriteReceipt(b: Broker, ghost from: State, cid: string, r: Receipt, luck: Luck) returns (refusal: Option<Code>)
    requires Ready(b) && b.Since(from) && b.clock <= r.acceptedUs && ReceiptOk(cid, r)
    requires AdmitsStep(b.cfg, b.hist, b.mem.opens, ReceiptRec(cid, r, 0))
    requires r.bootId == b.past.machine && (r.state.Issued? ==> OpenedHere(b.hist, b.boot, cid))
    modifies b
    ensures b.Since(from) && WriteEnded(old(Seen(b)), b, refusal)
    ensures refusal.None? ==> Latest(Seen(b)) == ReceiptRec(cid, r, Latest(Seen(b)).size)
    ensures refusal.None? ==> ReceiptLodged(b.tx, b.cfg, old(b.Snap()), b.Snap(), luck)
    ensures refusal.Some? ==>
              WhyRefused(b, r.actorUid, |ReceiptLine(b.tx, cid, r)| + 1, true, luck, refusal.value)
    ensures refusal == Some(RateLimited) || refusal == Some(Internal) ==> b.clock == r.acceptedUs
  {
    hide Decode, Reaches, ReceiptLine, ReceiptBuildable, BeginOk, AdmitsStep, RateAllowed, UidBytesAllowed;
    hide GlobalAllowed, Installed, EvictRing, Lodged, LineSays, ReceiptLodged, Inv, QuotaFull, BytesAllowed, IntentsOk;
    hide Faithful;
    var now, u := r.acceptedUs, r.actorUid;
    var line := ReceiptLine(b.tx, cid, r);
    var tooLong := |line| + 1 >= U64_LIMIT; // no such buffer can be allocated
    if tooLong {
      b.Refuse(from, u, now);
      return Some(Internal);
    }
    if !RateAllowed(b.cfg, RingAt(b.mem.rings, u), now) || !BytesAllowed(b.cfg, b.mem, u, now, |line| + 1) {
      RefuseLimited(b, from, u, now, |line| + 1);
      return Some(RateLimited);
    }
    ReceiptBegins(b.tx, b.cfg, b.Snap(), cid, r);
    ReceiptDecodes(b.tx, cid, r);
    DecodeExact(b.tx, line, ReceiptRec(cid, r, |line| + 1));
    ghost var s := b.Snap();
    refusal := WriteLine(b, from, ReceiptRec(cid, r, |line| + 1), line, now, luck);
    if refusal.None? { ReceiptLodgedBy(b.tx, b.cfg, s, b.Snap(), ReceiptRec(cid, r, |line| + 1), line, luck); }
  }
}
