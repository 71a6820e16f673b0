/** Many requests over many lifetimes of the broker: between two calls there may
    be any other requests, failures, rotations and restarts. */
module Sessions {
  import opened Types
  import opened Json
  import opened Decimal
  import opened Lines
  import opened Lifecycle
  import opened Requests
  import opened Records
  import opened History
  import opened Guarantees
  import opened Recovery
  import opened Reading
  import opened Machine
  import opened Safety
  import opened Runs
  import opened Paths
  import opened Durability
  import opened Exposure
  import opened Spending
  import opened Receipts
  import opened Broker
  import opened Writes
  import opened Handlers
  import opened Startup

  /** One request served, and the states around it. */
  datatype Call = Call(before: State, after: State, actor: Actor, req: Request, draws: Draws, reply: Reply)

  ghost predicate Served(tx: Text, cfg: Config, c: Call) {
    && Reaches(tx, cfg, c.before, c.after) && ReadHere(c.draws.boot, c.before.past)
    && Told(cfg, c.before, c.after, c.actor, c.req, c.draws, c.reply)
  }

  ghost predicate Session(tx: Text, cfg: Config, calls: seq<Call>) {
    && (forall i :: 0 <= i < |calls| ==> Served(tx, cfg, calls[i]))
    && (calls != [] ==> Reaches(tx, cfg, INIT, calls[0].before))
    && forall i :: 0 < i < |calls| ==> Reaches(tx, cfg, calls[i - 1].after, calls[i].before)
  }

  /** From the end of one call to the start of any later one. */
  lemma {:induction false} LaterCall(tx: Text, cfg: Config, calls: seq<Call>, i: nat, j: nat)
    requires Session(tx, cfg, calls) && i < j < |calls|
    ensures Reaches(tx, cfg, calls[i].after, calls[j].before)
    decreases j
  {
    hide Reaches, Told;
    if i < j - 1 {
      LaterCall(tx, cfg, calls, i, j - 1);
      assert Served(tx, cfg, calls[j - 1]);
      ReachesOn(tx, cfg, calls[i].after, calls[j - 1].before, calls[j - 1].after);
      ReachesOn(tx, cfg, calls[i].after, calls[j - 1].after, calls[j].before);
    }
  }

  lemma FromTheStart(tx: Text, cfg: Config, calls: seq<Call>, i: nat)
    requires Session(tx, cfg, calls) && i < |calls|
    ensures Reaches(tx, cfg, INIT, calls[i].before) && Reaches(tx, cfg, INIT, calls[i].after)
  {
    hide Reaches, Told;
    assert Served(tx, cfg, calls[i]);
    if i > 0 {
      LaterCall(tx, cfg, calls, 0, i);
      assert Served(tx, cfg, calls[0]);
      ReachesOn(tx, cfg, INIT, calls[0].before, calls[0].after);
      ReachesOn(tx, cfg, INIT, calls[0].after, calls[i].before);
    }
    ReachesOn(tx, cfg, INIT, calls[i].before, calls[i].after);
  }

  /** Whatever is reached, a run reaches. */
  lemma RunTo(tx: Text, cfg: Config, s: State) returns (trace: seq<State>, steps: seq<Step>)
    requires Reaches(tx, cfg, INIT, s)
    ensures Run(tx, cfg, trace, steps) && trace[|trace| - 1] == s
  {
    hide Reaches;
    trace, steps := ReachesExtendsRun(tx, cfg, [INIT], [], s);
  }

  lemma Reached(tx: Text, cfg: Config, s: State)
    requires Faithful(tx) && cfg.Valid() && Reaches(tx, cfg, INIT, s)
    ensures Inv(tx, cfg, s) && PastOk(s) && DoubtOk(s)
  {
    hide Reaches, Faithful, Inv, PastOk, DoubtOk, Run;
    var trace, steps := RunTo(tx, cfg, s);
    assert |trace| > 0 by { RunNotEmpty(tx, cfg, trace, steps); }
    RunInv(tx, cfg, trace, steps, |trace| - 1);
    RunPast(tx, cfg, trace, steps, |trace| - 1);
    RunDoubt(tx, cfg, trace, steps, |trace| - 1);
  }

  lemma RunNotEmpty(tx: Text, cfg: Config, trace: seq<State>, steps: seq<Step>)
    requires Run(tx, cfg, trace, steps)
    ensures |trace| > 0
  {
  }

  // ---- redemptions ----

  lemma {:induction false} LeadsSpent(tx: Text, cfg: Config, a: State, steps: seq<Step>, b: State)
    requires Leads(tx, cfg, a, steps, b)
    ensures a.past.spent <= b.past.spent
    decreases |steps|
  {
    hide Next;
    if steps != [] {
      var m :| Leads(tx, cfg, a, steps[..|steps| - 1], m) && Next(tx, cfg, m, steps[|steps| - 1], b);
      LeadsSpent(tx, cfg, a, steps[..|steps| - 1], m);
      SpentStep(tx, cfg, m, steps[|steps| - 1], b);
    }
  }

  lemma ReachesSpent(tx: Text, cfg: Config, a: State, b: State)
    requires Reaches(tx, cfg, a, b)
    ensures a.past.spent <= b.past.spent
  {
    hide Leads;
    var steps :| Leads(tx, cfg, a, steps, b);
    LeadsSpent(tx, cfg, a, steps, b);
  }

  /** A granted redemption spends a receipt that was not spent. */
  lemma GrantSpends(tx: Text, cfg: Config, c: Call)
    requires Faithful(tx) && cfg.Valid() && Reaches(tx, cfg, INIT, c.before) && Served(tx, cfg, c) && c.reply.RedeemOk?
    ensures c.reply.redeemed !in c.before.past.spent && c.reply.redeemed in c.after.past.spent
  {
    hide Reaches, Faithful, Inv, PastOk, Installed, PlanMatches, VerifierOf;
    Reached(tx, cfg, c.before);
    RedeemableNotSpent(tx, cfg, c.before, c.reply.redeemed);
  }

  /** Over any session, through power failures that take redeemed lines away
      again, a correlation id is granted at most one redemption. */
  lemma RedeemOkAtMostOnce(tx: Text, cfg: Config, calls: seq<Call>, i: nat, j: nat, c: string)
    requires Faithful(tx) && cfg.Valid() && Session(tx, cfg, calls) && i < |calls| && j < |calls|
    requires calls[i].reply == RedeemOk(c) && calls[j].reply == RedeemOk(c)
    ensures i == j
  {
    hide Session, Faithful;
    if i < j { TwoGrants(tx, cfg, calls, i, j, c); }
    if j < i { TwoGrants(tx, cfg, calls, j, i, c); }
  }

  lemma TwoGrants(tx: Text, cfg: Config, calls: seq<Call>, i: nat, j: nat, c: string)
    requires Faithful(tx) && cfg.Valid() && Session(tx, cfg, calls) && i < j < |calls|
    requires calls[i].reply == RedeemOk(c)
    ensures calls[j].reply != RedeemOk(c)
  {
    hide Reaches, Faithful, Told;
    if calls[j].reply == RedeemOk(c) {
      var x, y := calls[i], calls[j];
      assert Served(tx, cfg, x) && Served(tx, cfg, y);
      FromTheStart(tx, cfg, calls, i);
      FromTheStart(tx, cfg, calls, j);
      GrantSpends(tx, cfg, x);
      GrantSpends(tx, cfg, y);
      LaterCall(tx, cfg, calls, i, j);
      ReachesSpent(tx, cfg, x.after, y.before);
    }
  }

  // ---- a token and its plan ----

  /** A redemption is of the open that issued the receipt: by root, on behalf of
      whoever opened, with a token of the same digest, for the operation, resource
      and plan that were requested then, on the same boot and within the configured
      lifetime. */
  ghost predicate AsIssued(cfg: Config, x: Call, token: string, y: Call) {
    && x.req.Open? && x.req.effect.Some? && y.req.RedeemToken? && y.actor.uid == 0
    && y.req.principal == x.actor.uid && y.draws.sha(y.req.token) == x.draws.sha(token)
    && y.req.plan.verb == StringField(x.req.rec, Operation)
    && y.req.plan.resource == StringField(x.req.rec, ResourceKey)
    && y.req.plan.schema == x.req.effect.value.schema && y.req.plan.hash == x.req.effect.value.hash
    && x.draws.boot.id.Some? && y.draws.boot.id == x.draws.boot.id
    && x.draws.boot.time.Some? && y.draws.boot.time.Some?
    && x.draws.boot.time.value <= y.draws.boot.time.value
    && y.draws.boot.time.value <= x.draws.boot.time.value + cfg.receiptTtlSec * 1000000
  }

  /** What an open that returned a token wrote. */
  ghost predicate WroteReceipt(cfg: Config, x: Call, c: string, token: string, o: Receipt) {
    var n, h := |x.before.hist|, x.after.hist;
    && |h| == n + 2 && IntentLine(h[n], c) && IssuedLine(h[n + 1], c) && o == h[n + 1].s.receipt
    && x.after.proc.Up? && x.after.proc.phase.Idle? && x.after.boot == x.before.boot
    && x.req.Open? && x.req.effect.Some? && x.draws.boot.time.Some? && x.draws.boot.id.Some?
    && o.verifier == VerifierOf(x.draws.sha, token) && o.actorUid == x.actor.uid
    && o.verb == StringField(x.req.rec, Operation) && o.resource == StringField(x.req.rec, ResourceKey)
    && o.planSchema == x.req.effect.value.schema && o.planHash == x.req.effect.value.hash
    && o.issueUs == x.draws.boot.time.value && o.ttlUs == cfg.receiptTtlSec * 1000000
    && o.bootId == x.draws.boot.id.value
  }

  lemma OpenWrote(cfg: Config, x: Call, c: string, token: string) returns (o: Receipt)
    requires Told(cfg, x.before, x.after, x.actor, x.req, x.draws, x.reply)
    requires x.reply.OpenOk? && x.reply.cid == c && x.reply.token == Some(token)
    ensures WroteReceipt(cfg, x, c, token, o)
  {
    hide Installed, StringField, VerifierOf, FreshToken, Clip;
    PhasesDistinct();
    o := x.after.hist[|x.before.hist| + 1].s.receipt;
  }

  /** Over any session, whatever happens in between, an operation is redeemed only
      after the call that opened it, and only as that call issued its receipt. */
  lemma RedemptionIsAsIssued(tx: Text, cfg: Config, calls: seq<Call>, i: nat, j: nat, c: string, binding: string,
                             token: string)
    requires Faithful(tx) && cfg.Valid() && Session(tx, cfg, calls) && i < |calls| && j < |calls|
    requires calls[i].reply == OpenOk(c, binding, Some(token)) && calls[j].reply == RedeemOk(c)
    ensures i < j && AsIssued(cfg, calls[i], token, calls[j])
  {
    hide Reaches, Faithful, Told, Inv, PastOk, OneReceipt, Presented, AsIssued, WroteReceipt;
    var x, y := calls[i], calls[j];
    assert Served(tx, cfg, x) && Served(tx, cfg, y);
    FromTheStart(tx, cfg, calls, i);
    FromTheStart(tx, cfg, calls, j);
    var o := OpenWrote(cfg, x, c, token);
    Reached(tx, cfg, x.before);
    Reached(tx, cfg, x.after);
    IssuedHere(tx, cfg, x, c, token, o);
    if j < i {
      GrantSpends(tx, cfg, y);
      LaterCall(tx, cfg, calls, j, i);
      ReachesSpent(tx, cfg, y.after, x.before);
      ReachesSpent(tx, cfg, x.before, x.after);
    } else {
      LaterCall(tx, cfg, calls, i, j);
      RedeemsIt(tx, cfg, x, c, token, o, y);
    }
  }

  lemma IssuedHere(tx: Text, cfg: Config, x: Call, c: string, token: string, o: Receipt)
    requires Inv(tx, cfg, x.before) && Inv(tx, cfg, x.after) && PastOk(x.after) && WroteReceipt(cfg, x, c, token, o)
    ensures OneReceipt(x.after, c, o) && c !in x.after.past.spent
  {
    hide UpOk, PhaseOk, PriorOk, IsHistory, Before, OneReceipt, RedeemedIn, Known, FlightOk;
    var n := |x.before.hist|;
    JustIssued(tx, cfg, x.after, n, c);
    assert OpenedHere(x.after.hist, x.after.boot, c);
  }

  lemma RedeemsIt(tx: Text, cfg: Config, x: Call, c: string, token: string, o: Receipt, y: Call)
    requires Faithful(tx) && cfg.Valid() && Inv(tx, cfg, x.after) && OneReceipt(x.after, c, o)
    requires WroteReceipt(cfg, x, c, token, o) && Reaches(tx, cfg, x.after, y.before)
    requires Told(cfg, y.before, y.after, y.actor, y.req, y.draws, y.reply) && y.reply == RedeemOk(c)
    ensures AsIssued(cfg, x, token, y)
  {
    hide Reaches, Faithful, Inv, OneReceipt, StringField, Installed;
    ReceiptStaysAsIssued(tx, cfg, x.after, y.before, c, o);
    EncodesInjective(y.draws.sha(y.req.token), x.draws.sha(token), o.verifier);
  }

  // ---- what replies promise ----

  predicate Promises(r: Reply) { !r.Error? && !r.CapabilitiesOk? }

  /** The line is the one the reply is about: it carries the correlation id the
      reply names, or closes the intent whose binding the request named. */
  ghost predicate Names(c: Call, l: Rec)
    requires c.before.proc.Up?
  {
    match c.reply
    case OpenOk(cid, binding, _) => IntentLine(l, cid) && l.s.binding == binding && l.s.actor == c.actor
    case OutcomeOk =>
      && c.req.WriteOutcome? && l.s.IsOutcome() && l.s.actor == c.actor && l.s.cid in c.before.proc.mem.opens
      && c.before.proc.mem.opens[l.s.cid].binding == c.req.binding
    case EmitOk(cid) => c.req.EmitRecord? && l.s.Audit? && l.s.cid == cid && l.s.phase == c.req.phase
    case RedeemOk(cid) => RedeemedLine(l, cid)
    case _ => false
  }

  /** The line that binds the token an open returned. */
  ghost predicate Binds(c: Call, l: Rec) {
    && c.reply.OpenOk? && c.reply.token.Some? && IssuedLine(l, c.reply.cid)
    && l.s.receipt.verifier == VerifierOf(c.draws.sha, c.reply.token.value)
  }

  /** Right after the call: the line it is about, the binding of its token if it
      returned one, and nothing else; all acknowledged. */
  ghost predicate Wrote(c: Call)
    requires c.before.proc.Up?
  {
    var n, h := |c.before.hist|, c.after.hist;
    && n < |h| && h[..n] == c.before.hist && Names(c, h[n])
    && (if c.reply.OpenOk? && c.reply.token.Some? then |h| == n + 2 && Binds(c, h[n + 1]) else |h| == n + 1)
    && forall k :: n <= k < |h| ==> k in c.after.acks
  }

  lemma ToldWrote(cfg: Config, c: Call)
    requires Told(cfg, c.before, c.after, c.actor, c.req, c.draws, c.reply) && Promises(c.reply)
    ensures Wrote(c)
  {
    hide Installed, StringField, ClaimsEffect, PlanMatches, Unexpired, EffectUnbacked, VerifierInUse, BindsRecord;
    PhasesDistinct();
  }

  /** Everything the call wrote is still there. */
  predicate StillThere(c: Call, s: State) {
    && |c.before.hist| <= |c.after.hist| <= |s.hist|
    && s.hist[|c.before.hist|..|c.after.hist|] == c.after.hist[|c.before.hist|..]
  }

  /** What a success reply told its client is in every later history, and so in
      every later recovery, if and only if the broker that replied did not come
      up on a rename or creation that is still unsynced. */
  lemma ToldSurvives(tx: Text, cfg: Config, calls: seq<Call>, i: nat)
    requires Faithful(tx) && cfg.Valid() && Session(tx, cfg, calls) && i < |calls| && Promises(calls[i].reply)
    ensures calls[i].before.proc.Up? && Wrote(calls[i])
    ensures (forall s :: Reaches(tx, cfg, calls[i].after, s) ==> StillThere(calls[i], s)) <==>
            calls[i].after.disk.prior.None?
    ensures forall s :: Reaches(tx, cfg, calls[i].after, s) && s.proc.Down? && Recover(tx, s.disk.sink).Ok? ==>
              Recovers(cfg, Recover(tx, s.disk.sink).value, s.hist, s.clock)
  {
    hide Reaches, Faithful, Told, Recover, Recovers, Names, Binds, Inv, PastOk, DoubtOk;
    var c := calls[i];
    assert Served(tx, cfg, c);
    assert c.before.proc.Up? by { ToldUp(cfg, c); }
    ToldWrote(cfg, c);
    FromTheStart(tx, cfg, calls, i);
    forall s | Reaches(tx, cfg, c.after, s) && s.proc.Down? && Recover(tx, s.disk.sink).Ok?
      ensures Recovers(cfg, Recover(tx, s.disk.sink).value, s.hist, s.clock)
    {
      ReachesOn(tx, cfg, INIT, c.after, s);
      RecoversHere(tx, cfg, s);
    }
    if c.after.disk.prior.None? {
      forall s | Reaches(tx, cfg, c.after, s) ensures StillThere(c, s) { SettledSurvives(tx, cfg, c, s); }
    } else {
      var s := Forgets(tx, cfg, c);
    }
  }

  lemma ToldUp(cfg: Config, c: Call)
    requires Told(cfg, c.before, c.after, c.actor, c.req, c.draws, c.reply)
    ensures c.before.proc.Up?
  {
  }

  lemma RecoversHere(tx: Text, cfg: Config, s: State)
    requires Faithful(tx) && cfg.Valid() && Reaches(tx, cfg, INIT, s) && s.proc.Down? && Recover(tx, s.disk.sink).Ok?
    ensures Recovers(cfg, Recover(tx, s.disk.sink).value, s.hist, s.clock)
  {
    hide Reaches, Faithful, Recover, Recovers, Next;
    var trace, steps := RunTo(tx, cfg, s);
    RecoveryRebuildsHistory(tx, cfg, trace, steps, |trace| - 1);
  }

  lemma SettledSurvives(tx: Text, cfg: Config, c: Call, s: State)
    requires Faithful(tx) && cfg.Valid() && Reaches(tx, cfg, INIT, c.after) && Reaches(tx, cfg, c.after, s)
    requires c.before.proc.Up? && Wrote(c) && c.after.disk.prior.None?
    ensures StillThere(c, s)
  {
    hide Reaches, Faithful, Names, Binds, Next, Recover, Recovers;
    var trace, steps := RunTo(tx, cfg, c.after);
    var trace', steps' := ReachesExtendsRun(tx, cfg, trace, steps, s);
    var n, h := |c.before.hist|, c.after.hist;
    AcknowledgedSurvives(tx, cfg, trace', steps', |trace| - 1, |trace'| - 1, |h| - 1);
    forall k | n <= k < |h| ensures s.hist[k] == h[k] {
      AcknowledgedSurvives(tx, cfg, trace', steps', |trace| - 1, |trace'| - 1, k);
    }
  }

  /** With the rename in doubt, the power goes and the call never was. */
  lemma Forgets(tx: Text, cfg: Config, c: Call) returns (s: State)
    requires Faithful(tx) && cfg.Valid() && Reaches(tx, cfg, INIT, c.after) && c.after.disk.prior.Some?
    requires Reaches(tx, cfg, INIT, c.before) && Reaches(tx, cfg, c.before, c.after)
    requires Told(cfg, c.before, c.after, c.actor, c.req, c.draws, c.reply) && Promises(c.reply) && Wrote(c)
    ensures Reaches(tx, cfg, c.after, s) && !StillThere(c, s)
  {
    hide Reaches, Faithful, Inv, PastOk, TheOpen, ClosedOne, Emitted, RedeemedOne, Presented, Names, Binds;
    Reached(tx, cfg, c.before);
    Reached(tx, cfg, c.after);
    SameLifetime(tx, cfg, c);
    s := RolledBack(tx, cfg, c.after);
  }

  lemma SameLifetime(tx: Text, cfg: Config, c: Call)
    requires Told(cfg, c.before, c.after, c.actor, c.req, c.draws, c.reply) && Promises(c.reply)
    requires Inv(tx, cfg, c.before)
    ensures c.after.boot <= |c.before.hist| && c.after.proc.Up? && !c.after.proc.mem.poisoned
    ensures c.after.proc.phase.Idle?
  {
    hide UpOk, PhaseOk, PriorOk, IsHistory, Installed, OpenedOne, IssuedTo, BindsRecord, ClosedOne, Emitted;
    hide RedeemedOne;
    hide Presented;
  }

  // ---- a lifetime begins ----

  /** Start on whatever a run left behind and serve one request: the reply is a
      call of the session, or the broker did not come up, which happens only if
      the segment does not recover or a file operation failed. */
  method StartAndServe(tx: Text, cfg: Config, disk: Disk, clock: nat, o: Opening, a: Actor, req: Request, d: Draws,
                       env: Env, ghost s: State)
    returns (reply: Option<Reply>, ghost call: Call)
    requires Faithful(tx) && cfg.Valid() && Reaches(tx, cfg, INIT, s) && s.proc.Down? && s.disk == disk
    requires s.clock == clock < U64_LIMIT
    requires ActorOk(a) && WellFormed(req) && ProperRequest(req)
    requires Replay(Facts(s.hist)).Ok? ==> DrawsOk(d, s.hist, s.past, Replay(Facts(s.hist)).value.opens)
    ensures reply.Some? ==> Reaches(tx, cfg, INIT, call.before) && Served(tx, cfg, call)
    ensures reply.Some? ==> call.reply == reply.value && call.req == req && call.actor == a
    ensures reply.Some? ==> call.before.hist == s.hist
    ensures reply.None? ==> call.after.proc.Down? && Reaches(tx, cfg, s, call.after)
    ensures reply.Some? <==>
            && o.read && Startable(tx, disk.sink) && o.opens && (disk.made || o.dirSynced)
            && (Scan(disk.sink).tail == [] || (o.cut && o.synced))
  {
    hide Reaches, Faithful, Inv, Told, Recover, WellFormed, ProperRequest, ActorOk, OpenedOne, DrawsOk, OnDisk;
    hide Explained, Scan, Startable;
    var start, s' := OpenBroker(tx, cfg, disk, clock, o, s);
    call := Call(s, s', a, req, d, Error(Internal));
    if !start.Started? {
      return None, call;
    }
    var b := start.broker;
    ReachesOn(tx, cfg, INIT, s, s');
    Reached(tx, cfg, s');
    FreshStill(tx, cfg, s', d);
    var r := Handle(b, a, req, d, env);
    reply, call := Some(r), Call(s', b.Snap(), a, req, d, r);
  }

  /** Ids fresh to the history are fresh to the rebuilt open set. */
  lemma FreshStill(tx: Text, cfg: Config, s: State, d: Draws)
    requires Inv(tx, cfg, s) && s.proc.Up?
    requires Replay(Facts(s.hist)).Ok? ==> DrawsOk(d, s.hist, s.past, Replay(Facts(s.hist)).value.opens)
    ensures DrawsOk(d, s.hist, s.past, s.proc.mem.opens) && ReadHere(d.boot, s.past)
  {
    hide FreshCid, IsHistory;
    var live, meant := s.proc.mem.opens, Replay(Facts(s.hist)).value.opens;
    forall c | c in live ensures live[c].binding != d.binding { assert Unflagged(live[c]) == Unflagged(meant[c]); }
  }
}
