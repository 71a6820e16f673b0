/** What every history guarantees: single outcomes by the opener, single
    redemption, effect claims backed by a redemption, quotas and caps. */
module Guarantees {
  import opened Types
  import opened Lifecycle
  import opened Rates
  import opened Records
  import opened History

  predicate SameParty(a: Intent, b: Intent) {
    a.binding == b.binding && a.actor == b.actor && a.operation == b.operation && a.resource == b.resource
  }

  /** A receipt never disappears, changes identity or leaves the redeemed state. */
  predicate Progress(a: Option<Receipt>, b: Option<Receipt>) {
    a.Some? ==> b.Some? && SameIdentity(a.value, b.value) && (a.value.state.Redeemed? ==> b == a)
  }

  predicate Later(a: Life, b: Life, c: string) {
    && (c in a.closed ==> c in b.closed)
    && (c in a.opens && c !in b.closed ==>
          c in b.opens && SameParty(a.opens[c], b.opens[c]) && Progress(a.opens[c].receipt, b.opens[c].receipt))
  }

  lemma ApplyIsLater(l: Life, s: Stored, c: string)
    requires Apply(l, s).Ok?
    ensures Later(l, Apply(l, s).value, c)
  {
  }

  lemma LaterTransitive(a: Life, b: Life, d: Life, c: string)
    requires Later(a, b, c) && Later(b, d, c)
    ensures Later(a, d, c)
  {
  }

  lemma {:induction false} ReplayDisjoint(recs: seq<Stored>)
    requires Replay(recs).Ok?
    ensures Replay(recs).value.opens.Keys !! Replay(recs).value.closed
  {
    if recs != [] { ReplayDisjoint(recs[..|recs| - 1]); }
  }

  /** The state after the first `k` lines. */
  ghost function At(cfg: Config, h: seq<Rec>, k: nat): Life
    requires IsHistory(cfg, h) && k <= |h|
  {
    HistoryAt(cfg, h, k);
    HistoryReplays(cfg, h[..k]);
    Replay(Facts(h[..k])).value
  }

  lemma AdmittedNext(cfg: Config, v: seq<Rec>, r: Rec)
    requires Admitted(cfg, v, r)
    ensures Replay(Facts(v)).Ok? && Replay(Facts(v + [r])).Ok?
    ensures Apply(Replay(Facts(v)).value, r.s) == Replay(Facts(v + [r]))
    ensures Replay(Facts(v + [r])).value.opens == Installed(Replay(Facts(v)).value.opens, r.s)
  {
    AdmittedReplays(cfg, v, r);
    FactsSnoc(v, r);
    ReplaySnoc(Facts(v), r.s);
  }

  lemma AtIs(cfg: Config, h: seq<Rec>, k: nat, v: seq<Rec>)
    requires IsHistory(cfg, h) && k <= |h| && v == h[..k]
    ensures Replay(Facts(v)) == Ok(At(cfg, h, k))
  {
    HistoryAt(cfg, h, k);
    HistoryReplays(cfg, v);
  }

  lemma AtNext(cfg: Config, h: seq<Rec>, k: nat)
    requires IsHistory(cfg, h) && k < |h|
    ensures Apply(At(cfg, h, k), h[k].s) == Ok(At(cfg, h, k + 1))
    ensures At(cfg, h, k + 1).opens == Installed(At(cfg, h, k).opens, h[k].s)
  {
    hide Admitted, Apply, Replay, IsHistory, Installed, At, Facts;
    AtIs(cfg, h, k, h[..k]);
    assert h[..k + 1] == h[..k] + [h[k]];
    AtIs(cfg, h, k + 1, h[..k] + [h[k]]);
    assert Admitted(cfg, h[..k], h[k]) by { HistoryAt(cfg, h, k); }
    AdmittedNext(cfg, h[..k], h[k]);
  }

  lemma LaterNext(cfg: Config, h: seq<Rec>, k: nat, c: string)
    requires IsHistory(cfg, h) && k < |h|
    ensures Later(At(cfg, h, k), At(cfg, h, k + 1), c)
  {
    AtNext(cfg, h, k);
    ApplyIsLater(At(cfg, h, k), h[k].s, c);
  }

  lemma {:induction false} LaterAt(cfg: Config, h: seq<Rec>, i: nat, j: nat, c: string)
    requires IsHistory(cfg, h) && i <= j <= |h|
    ensures Later(At(cfg, h, i), At(cfg, h, j), c)
    decreases j
  {
    if i < j {
      LaterAt(cfg, h, i, j - 1, c);
      LaterNext(cfg, h, j - 1, c);
      LaterTransitive(At(cfg, h, i), At(cfg, h, j - 1), At(cfg, h, j), c);
    }
  }

  lemma AtDisjoint(cfg: Config, h: seq<Rec>, k: nat)
    requires IsHistory(cfg, h) && k <= |h|
    ensures At(cfg, h, k).opens.Keys !! At(cfg, h, k).closed
  {
    HistoryAt(cfg, h, k);
    HistoryReplays(cfg, h[..k]);
    ReplayDisjoint(Facts(h[..k]));
  }

  // ---- which kind of line was admitted ----

  lemma AdmittedKind(cfg: Config, h: seq<Rec>, k: nat)
    requires IsHistory(cfg, h) && k < |h|
    ensures AdmitsStep(cfg, h[..k], At(cfg, h, k).opens, h[k])
    ensures h[k].s.IsIntent() ==> AdmitsIntent(cfg, h[..k], At(cfg, h, k).opens, h[k].s)
    ensures h[k].s.IsOutcome() ==> AdmitsOutcome(At(cfg, h, k).opens, h[k])
    ensures h[k].s.ReceiptRecord? && h[k].s.receipt.state.Redeemed? ==> AdmitsRedeem(At(cfg, h, k).opens, h[k].s)
    ensures h[k].s.ReceiptRecord? && h[k].s.receipt.state.Issued? ==> AdmitsIssue(At(cfg, h, k).opens, h[k].s)
  {
    HistoryAt(cfg, h, k);
    PhasesDistinct();
  }

  predicate IntentLine(r: Rec, c: string) { r.s.IsIntent() && r.s.cid == c }
  predicate OutcomeLine(r: Rec, c: string) { r.s.IsOutcome() && r.s.cid == c }
  predicate IssuedLine(r: Rec, c: string) { r.s.ReceiptRecord? && r.s.receipt.state.Issued? && r.s.cid == c }
  predicate RedeemedLine(r: Rec, c: string) { r.s.ReceiptRecord? && r.s.receipt.state.Redeemed? && r.s.cid == c }

  /** An open operation was opened by an intent line with its party. */
  lemma {:induction false} OpenHasIntent(cfg: Config, h: seq<Rec>, k: nat, c: string) returns (i: nat)
    requires IsHistory(cfg, h) && k <= |h| && c in At(cfg, h, k).opens
    ensures i < k && IntentLine(h[i], c) && SameParty(Opened(h[i].s), At(cfg, h, k).opens[c])
  {
    if k > 0 {
      AtNext(cfg, h, k - 1);
      AdmittedKind(cfg, h, k - 1);
      var was, s := At(cfg, h, k - 1), h[k - 1].s;
      if c in was.opens {
        i := OpenHasIntent(cfg, h, k - 1, c);
        ApplyIsLater(was, s, c);
        AtDisjoint(cfg, h, k);
      } else {
        i := k - 1;
      }
    }
  }

  lemma IntentUnique(cfg: Config, h: seq<Rec>, i: nat, j: nat, c: string)
    requires IsHistory(cfg, h) && i < j < |h| && IntentLine(h[i], c)
    ensures !IntentLine(h[j], c)
  {
    AdmittedKind(cfg, h, j);
    assert h[i] in h[..j];
  }

  lemma OutcomeUnique(cfg: Config, h: seq<Rec>, i: nat, j: nat, c: string)
    requires IsHistory(cfg, h) && i < j < |h| && OutcomeLine(h[i], c)
    ensures !OutcomeLine(h[j], c)
  {
    AtNext(cfg, h, i);
    AdmittedKind(cfg, h, i);
    assert c in At(cfg, h, i + 1).closed;
    LaterAt(cfg, h, i + 1, j, c);
    AdmittedKind(cfg, h, j);
    AtDisjoint(cfg, h, j);
  }

  /** Each outcome follows exactly one intent with the same correlation id and
      the same full actor, and no operation has two outcomes. */
  lemma OutcomeFollowsItsIntent(cfg: Config, h: seq<Rec>, j: nat) returns (i: nat)
    requires IsHistory(cfg, h) && j < |h| && h[j].s.IsOutcome()
    ensures i < j && IntentLine(h[i], h[j].s.cid) && h[i].s.actor == h[j].s.actor
    ensures forall k :: 0 <= k < |h| && IntentLine(h[k], h[j].s.cid) ==> k == i
    ensures forall k :: 0 <= k < |h| && OutcomeLine(h[k], h[j].s.cid) ==> k == j
  {
    var c := h[j].s.cid;
    AdmittedKind(cfg, h, j);
    i := OpenHasIntent(cfg, h, j, c);
    forall k | 0 <= k < |h| && IntentLine(h[k], c) ensures k == i {
      if k < i { IntentUnique(cfg, h, k, i, c); }
      if i < k { IntentUnique(cfg, h, i, k, c); }
    }
    forall k | 0 <= k < |h| && OutcomeLine(h[k], c) ensures k == j {
      if k < j { OutcomeUnique(cfg, h, k, j, c); }
      if j < k { OutcomeUnique(cfg, h, j, k, c); }
    }
  }

  /** An emit line opens nothing and closes nothing. */
  lemma EmitChangesNothing(cfg: Config, h: seq<Rec>, k: nat)
    requires IsHistory(cfg, h) && k < |h| && AdmitsEmit(h[..k], h[k].s)
    ensures At(cfg, h, k + 1) == At(cfg, h, k)
  {
    hide IsHistory, Replay, At, FreshCid, Installed;
    AtNext(cfg, h, k);
    PhasesDistinct();
  }

  /** No correlation id is redeemed twice. */
  lemma RedeemedAtMostOnce(cfg: Config, h: seq<Rec>, i: nat, j: nat, c: string)
    requires IsHistory(cfg, h) && i < j < |h| && RedeemedLine(h[i], c)
    ensures !RedeemedLine(h[j], c)
  {
    AtNext(cfg, h, i);
    AdmittedKind(cfg, h, i);
    LaterAt(cfg, h, i + 1, j, c);
    AdmittedKind(cfg, h, j);
    AtDisjoint(cfg, h, j);
  }

  lemma {:induction false} RedeemedHasLine(cfg: Config, h: seq<Rec>, k: nat, c: string) returns (i: nat)
    requires IsHistory(cfg, h) && k <= |h| && c in At(cfg, h, k).opens
    requires At(cfg, h, k).opens[c].receipt.Some? && At(cfg, h, k).opens[c].receipt.value.state.Redeemed?
    ensures i < k && RedeemedLine(h[i], c)
  {
    if k > 0 {
      AtNext(cfg, h, k - 1);
      AdmittedKind(cfg, h, k - 1);
      if RedeemedLine(h[k - 1], c) {
        i := k - 1;
      } else {
        i := RedeemedHasLine(cfg, h, k - 1, c);
      }
    }
  }

  /** A receipt once issued stays on its intent until the outcome. */
  lemma IssuedStays(cfg: Config, h: seq<Rec>, i: nat, j: nat, c: string)
    requires IsHistory(cfg, h) && i < j <= |h| && IssuedLine(h[i], c) && c in At(cfg, h, j).opens
    ensures At(cfg, h, j).opens[c].receipt.Some?
    ensures SameIdentity(h[i].s.receipt, At(cfg, h, j).opens[c].receipt.value)
  {
    AtNext(cfg, h, i);
    AdmittedKind(cfg, h, i);
    LaterAt(cfg, h, i + 1, j, c);
    AtDisjoint(cfg, h, j);
  }

  /** An outcome that claims an effect, for an operation whose receipt was
      issued, comes after that receipt's redemption. */
  lemma EffectClaimIsBacked(cfg: Config, h: seq<Rec>, i: nat, j: nat, c: string) returns (k: nat)
    requires IsHistory(cfg, h) && i < |h| && j < |h|
    requires IssuedLine(h[i], c) && OutcomeLine(h[j], c) && h[j].claim
    ensures i < k < j && RedeemedLine(h[k], c)
  {
    AdmittedKind(cfg, h, j);
    AdmittedKind(cfg, h, i);
    if j < i {
      AtNext(cfg, h, j);
      LaterAt(cfg, h, j + 1, i, c);
      AtDisjoint(cfg, h, i);
    }
    IssuedStays(cfg, h, i, j, c);
    k := RedeemedHasLine(cfg, h, j, c);
    AdmittedKind(cfg, h, k);
    if k < i {
      AtNext(cfg, h, k);
      LaterAt(cfg, h, k + 1, i, c);
      AtDisjoint(cfg, h, i);
    }
  }

  /** A redemption binds exactly the opener, verb and resource of the audited
      intent it was issued for. */
  lemma RedemptionMatchesIntent(cfg: Config, h: seq<Rec>, j: nat, c: string) returns (i: nat)
    requires IsHistory(cfg, h) && j < |h| && RedeemedLine(h[j], c)
    ensures i < j && IntentLine(h[i], c)
    ensures h[j].s.receipt.actorUid == h[i].s.actor.uid
    ensures h[j].s.receipt.verb == h[i].s.operation && h[j].s.receipt.resource == h[i].s.resource
  {
    AdmittedKind(cfg, h, j);
    i := OpenHasIntent(cfg, h, j, c);
    HistoryAt(cfg, h, j);
    HistoryReplays(cfg, h[..j]);
    ReplayKeepsReceiptsBound(Facts(h[..j]));
  }

  // ---- quotas over the whole history ----

  lemma {:induction false} ChargesPassed(cfg: Config, h: seq<Rec>, u: nat)
    requires IsHistory(cfg, h)
    ensures Passed(cfg, Charges(h, u))
  {
    if h != [] {
      var v, r := h[..|h| - 1], h[|h| - 1];
      ChargesPassed(cfg, v, u);
      if Charge(r).value.uid == u { PassedSnoc(cfg, Charges(v, u), Charge(r).value.entry); }
    }
  }

  /** In every closed interval one window long, with any restarts and rotations
      inside it, a uid has at most the configured appends and bytes. */
  lemma QuotaHoldsOverHistory(cfg: Config, h: seq<Rec>, u: nat, a: nat)
    requires IsHistory(cfg, h)
    ensures cfg.rateMaxInWindow != 0 ==> |Within(Charges(h, u), a, a + cfg.Window())| <= cfg.rateMaxInWindow
    ensures cfg.rateMaxBytesPerUid != 0 ==> Sum(Within(Charges(h, u), a, a + cfg.Window())) <= cfg.rateMaxBytesPerUid
  {
    ChargesPassed(cfg, h, u);
    SlidingQuotaHolds(cfg, Charges(h, u), a);
  }

  // ---- caps and unique identifiers ----

  ghost predicate CapsHold(cfg: Config, opens: Opens) {
    |opens| <= cfg.maxOpenGlobal && forall u :: |OpenBy(opens, u)| <= cfg.maxOpenPerUid
  }

  ghost predicate IdsUnique(opens: Opens) {
    forall c, d :: c in opens && d in opens && c != d ==>
      && opens[c].binding != opens[d].binding
      && (opens[c].receipt.Some? && opens[d].receipt.Some? ==>
            opens[c].receipt.value.verifier != opens[d].receipt.value.verifier)
  }

  lemma OpenByAfter(opens: Opens, c: string, it: Intent, u: nat)
    requires c !in opens
    ensures OpenBy(opens[c := it], u) == if u == it.actor.uid then OpenBy(opens, u) + {c} else OpenBy(opens, u)
  {
  }

  lemma CapsAfterIntent(cfg: Config, opens: Opens, c: string, it: Intent)
    requires CapsHold(cfg, opens) && c !in opens
    requires |opens| < cfg.maxOpenGlobal && |OpenBy(opens, it.actor.uid)| < cfg.maxOpenPerUid
    ensures CapsHold(cfg, opens[c := it])
  {
    var n := opens[c := it];
    forall u ensures |OpenBy(n, u)| <= cfg.maxOpenPerUid {
      OpenByAfter(opens, c, it, u);
    }
  }

  lemma CapsAfterShrink(cfg: Config, opens: Opens, n: Opens)
    requires CapsHold(cfg, opens) && n.Keys <= opens.Keys
    requires forall c :: c in n ==> n[c].actor == opens[c].actor
    ensures CapsHold(cfg, n)
  {
    SubsetSize(n.Keys, opens.Keys);
    forall u ensures |OpenBy(n, u)| <= cfg.maxOpenPerUid {
      assert OpenBy(n, u) <= OpenBy(opens, u);
      SubsetSize(OpenBy(n, u), OpenBy(opens, u));
    }
  }

  /** Both open-intent caps hold after every line, and live bindings and
      verifiers are unique. */
  lemma {:induction false} CapsAndIdsHold(cfg: Config, h: seq<Rec>, k: nat)
    requires IsHistory(cfg, h) && k <= |h|
    ensures CapsHold(cfg, At(cfg, h, k).opens) && IdsUnique(At(cfg, h, k).opens)
    decreases k
  {
    if k == 0 {
      assert At(cfg, h, 0).opens == map[];
      assert forall u :: OpenBy(map[], u) == {};
    } else {
      CapsAndIdsHold(cfg, h, k - 1);
      AtNext(cfg, h, k - 1);
      AdmittedKind(cfg, h, k - 1);
      InstalledKeepsCaps(cfg, h[..k - 1], At(cfg, h, k - 1), h[k - 1]);
      InstalledKeepsIds(cfg, h[..k - 1], At(cfg, h, k - 1).opens, h[k - 1]);
    }
  }

  lemma InstalledKeepsCaps(cfg: Config, v: seq<Rec>, l: Life, r: Rec)
    requires CapsHold(cfg, l.opens) && AdmitsStep(cfg, v, l.opens, r) && Apply(l, r.s).Ok?
    ensures CapsHold(cfg, Installed(l.opens, r.s))
  {
    PhasesDistinct();
    if r.s.IsIntent() {
      CapsAfterIntent(cfg, l.opens, r.s.cid, Opened(r.s));
    } else {
      CapsAfterShrink(cfg, l.opens, Installed(l.opens, r.s));
    }
  }

  lemma IdsAfterIntent(opens: Opens, c: string, it: Intent)
    requires IdsUnique(opens) && it.receipt.None? && forall d :: d in opens ==> opens[d].binding != it.binding
    ensures IdsUnique(opens[c := it])
  {
  }

  lemma IdsAfterOutcome(opens: Opens, c: string)
    requires IdsUnique(opens)
    ensures IdsUnique(opens - {c})
  {
  }

  lemma IdsAfterReceipt(opens: Opens, c: string, r: Receipt)
    requires IdsUnique(opens) && c in opens
    requires if opens[c].receipt.Some? then r.verifier == opens[c].receipt.value.verifier
             else !VerifierInUse(opens, r.verifier)
    ensures IdsUnique(opens[c := opens[c].(receipt := Some(r))])
  {
  }

  lemma InstalledKeepsIds(cfg: Config, v: seq<Rec>, opens: Opens, r: Rec)
    requires IdsUnique(opens) && AdmitsStep(cfg, v, opens, r)
    ensures IdsUnique(Installed(opens, r.s))
  {
    hide IdsUnique, VerifierInUse, FreshCid, ReceiptOk, OpenBy;
    PhasesDistinct();
    if r.s.IsIntent() { IdsAfterIntent(opens, r.s.cid, Opened(r.s)); }
    else if r.s.IsOutcome() { IdsAfterOutcome(opens, r.s.cid); }
    else if r.s.ReceiptRecord? { IdsAfterReceipt(opens, r.s.cid, r.s.receipt); }
  }
}
