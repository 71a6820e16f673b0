/** The broker together with its hash tables: each request served, and the
    change it makes carried out on the three indexed tables. */
module Indexed {
  import opened Types
  import opened Json
  import opened Records
  import opened Requests
  import opened Lifecycle
  import opened History
  import opened Guarantees
  import opened Recovery
  import opened Carry
  import opened Machine
  import opened Safety
  import opened Rotation
  import opened Paths
  import opened Broker
  import opened Writes
  import opened Handlers
  import opened OpenSet

  /** The tables hold the broker's open set; a poisoned broker serves nothing
      more. */
  ghost predicate Mirrors(table: OpenSet, b: Broker)
    reads table, table.h.nodes.Values, b
  {
    table.Valid() && (b.mem.poisoned || table.h.opens == b.mem.opens)
  }

  // ---- what the invariant says of the live set ----

  lemma LiveIds(tx: Text, cfg: Config, s: State)
    requires Inv(tx, cfg, s) && s.proc.Up?
    ensures IdsUnique(s.proc.mem.opens) && forall c :: c in s.proc.mem.opens ==> s.proc.mem.opens[c].binding != ""
  {
    hide RingsOk, GlobalOk, CleanFile, CutsOk, PhaseOk, PriorOk, Before, Replay, IsHistory;
    HistoryIntentsOk(cfg, s.hist);
    var live, meant := s.proc.mem.opens, Replay(Facts(s.hist)).value.opens;
    forall c | c in live ensures live[c].binding == meant[c].binding != "" && live[c].receipt == meant[c].receipt {
      assert Unflagged(live[c]) == Unflagged(meant[c]) && IntentOk(c, meant[c]);
    }
  }

  lemma FreshNotOpen(tx: Text, cfg: Config, s: State, c: string)
    requires Inv(tx, cfg, s) && s.proc.Up? && FreshCid(s.hist, c)
    ensures c !in s.proc.mem.opens
  {
    hide RingsOk, GlobalOk, CleanFile, CutsOk, PhaseOk, PriorOk, IsHistory, Before, Replay, FreshCid;
    FreshUnknown(s.hist, c);
  }

  // ---- the change one reply calls for ----

  method AddIntent(table: OpenSet, cid: string, it: Intent, now: Opens)
    requires table.Valid() && cid !in table.h.opens && it.receipt.None? && cid in now
    requires now == table.h.opens[cid := it] ||
             (now[cid].receipt.Some? && now == table.h.opens[cid := it.(receipt := now[cid].receipt)])
    modifies table
    ensures table.Valid() && table.h.opens == now && fresh(table.h.nodes.Values - old(table.h.nodes.Values))
  {
    hide Agrees;
    ghost var before := table.h.opens;
    table.Add(cid, it);
    if now[cid].receipt.Some? {
      var n := table.FindCid(cid);
      table.IndexReceipt(n.value, now[cid].receipt.value);
    }
    assert table.h.opens == now;
  }

  method CloseIntent(table: OpenSet, binding: string, ghost now: Opens)
    requires table.Valid() && binding != "" && IdsUnique(table.h.opens)
    requires exists c :: c in table.h.opens && table.h.opens[c].binding == binding && now == table.h.opens - {c}
    modifies table
    ensures table.Valid() && table.h.opens == now && table.h.nodes.Values <= old(table.h.nodes.Values)
  {
    hide Agrees, IdsUnique;
    var n := table.FindBinding(binding);
    table.Remove(n.value);
  }

  method SpendReceipt(table: OpenSet, cid: string, now: Opens)
    requires table.Valid() && cid in table.h.opens && table.h.opens[cid].receipt.Some? && cid in now
    requires now[cid].receipt.Some?
    requires var o := table.h.opens[cid].receipt.value;
             now == table.h.opens[cid := table.h.opens[cid].(receipt := Some(
                      o.(state := Redeemed, acceptedUs := now[cid].receipt.value.acceptedUs)))]
    modifies table, table.h.nodes.Values
    ensures table.Valid() && table.h.opens == now && table.h.nodes == old(table.h.nodes)
  {
    hide Agrees;
    var n := table.FindCid(cid);
    table.MarkRedeemed(n.value, now[cid].receipt.value.acceptedUs);
  }

  // ---- one request ----

  /** The change from one open set to the next that a reply stands for. */
  ghost predicate Changes(opens: Opens, now: Opens, req: Request, d: Draws, a: Actor, r: Reply) {
    match r
    case OpenOk(_, _, _) => req.Open? && Added(opens, now, d, a, req.rec)
    case OutcomeOk =>
      req.WriteOutcome? && exists c :: c in opens && opens[c].binding == req.binding && now == opens - {c}
    case RedeemOk(cid) =>
      && cid in opens && opens[cid].receipt.Some? && cid in now && now[cid].receipt.Some?
      && now == opens[cid := opens[cid].(receipt := Some(opens[cid].receipt.value.(
                  state := Redeemed, acceptedUs := now[cid].receipt.value.acceptedUs)))]
    case Error(_) => now == opens || (req.Open? && Added(opens, now, d, a, req.rec))
    case _ => now == opens
  }

  ghost predicate Added(opens: Opens, now: Opens, d: Draws, a: Actor, rec: Members) {
    d.cid in now &&
    var it := NewIntent(d.binding, a, rec);
    now == opens[d.cid := it] || (now[d.cid].receipt.Some? && now == opens[d.cid := it.(receipt := now[d.cid].receipt)])
  }

  lemma ToldChanges(cfg: Config, before: State, after: State, a: Actor, req: Request, d: Draws, r: Reply)
    requires Told(cfg, before, after, a, req, d, r) && !after.proc.mem.poisoned
    ensures Changes(before.proc.mem.opens, after.proc.mem.opens, req, d, a, r)
  {
    hide Installed, NewReceipt, StringField, ClaimsEffect, VerifierOf, FreshToken, PlanMatches, Unexpired;
    hide EffectUnbacked;
    hide BindsRecord;
  }

  method Follow(table: OpenSet, now: Opens, a: Actor, req: Request, d: Draws, r: Reply)
    requires table.Valid() && Changes(table.h.opens, now, req, d, a, r) && d.cid !in table.h.opens
    requires IdsUnique(table.h.opens) && forall c :: c in table.h.opens ==> table.h.opens[c].binding != ""
    modifies table, table.h.nodes.Values
    ensures table.Valid() && table.h.opens == now
    ensures fresh(table.h.nodes.Values - old(table.h.nodes.Values))
  {
    hide Agrees, IdsUnique, NewIntent;
    if r.OpenOk? || (r.Error? && req.Open? && d.cid in now) {
      assert NewIntent(d.binding, a, req.rec).receipt.None? by { NoReceiptYet(d.binding, a, req.rec); }
      AddIntent(table, d.cid, NewIntent(d.binding, a, req.rec), now);
    } else if r.OutcomeOk? {
      CloseIntent(table, req.binding, now);
    } else if r.RedeemOk? {
      SpendReceipt(table, r.redeemed, now);
    }
  }

  lemma NoReceiptYet(binding: string, a: Actor, rec: Members)
    ensures NewIntent(binding, a, rec).receipt.None?
  {
  }

  /** Serve a request and update the tables as it calls for: they hold the open
      set again, whatever was asked and whatever failed. */
  method ServeIndexed(b: Broker, table: OpenSet, a: Actor, req: Request, d: Draws, env: Env) returns (r: Reply)
    requires Valid(b) && ActorOk(a) && WellFormed(req) && ProperRequest(req) && DrawsOk(d, b.hist, b.past, b.mem.opens)
    requires Mirrors(table, b)
    modifies b, table, table.h.nodes.Values
    ensures Valid(b) && Mirrors(table, b) && Reaches(b.tx, b.cfg, old(b.Snap()), b.Snap())
    ensures Told(b.cfg, old(b.Snap()), b.Snap(), a, req, d, r)
    ensures fresh(table.h.nodes.Values - old(table.h.nodes.Values))
  {
    hide Inv, Reaches, Told, Agrees, IdsUnique, ActorOk, WellFormed, ProperRequest, FreshCid, Changes;
    ghost var s, was := b.Snap(), b.mem.poisoned;
    LiveIds(b.tx, b.cfg, s);
    FreshNotOpen(b.tx, b.cfg, s, d.cid);
    r := Handle(b, a, req, d, env);
    if !b.mem.poisoned {
      ToldChanges(b.cfg, s, b.Snap(), a, req, d, r);
      Follow(table, b.mem.opens, a, req, d, r);
    }
  }
}
