/** The open-intent set as the broker keeps it: shared intent nodes reachable
    through three hash tables, with running counts. */
module OpenSet {
  import opened Types
  import opened Lifecycle
  import opened History
  import Guarantees
  import opened Tables

  class Node {
    const cid: string
    var it: Intent

    constructor (cid: string, it: Intent)
      ensures this.cid == cid && this.it == it
    {
      this.cid, this.it := cid, it;
    }
  }

  type Nodes = map<string, Node>

  // ---- what each index must hold ----

  /** Every open intent has its own node. */
  ghost predicate Owns(opens: Opens, nodes: Nodes) {
    opens.Keys == nodes.Keys && forall c :: c in nodes ==> nodes[c].cid == c
  }

  ghost function CidSlots(nodes: Nodes): set<Slot<Node>> { set c | c in nodes :: Slot(c, nodes[c]) }

  ghost function BindingSlots(opens: Opens, nodes: Nodes): set<Slot<Node>>
    requires Owns(opens, nodes)
  {
    set c | c in opens :: Slot(opens[c].binding, nodes[c])
  }

  /** Only while an intent has a receipt. */
  ghost function VerifierSlots(opens: Opens, nodes: Nodes): set<Slot<Node>>
    requires Owns(opens, nodes)
  {
    set c | c in opens && opens[c].receipt.Some? :: Slot(opens[c].receipt.value.verifier, nodes[c])
  }

  lemma AddSlots(opens: Opens, nodes: Nodes, n: Node, it: Intent)
    requires Owns(opens, nodes) && n.cid !in opens && it.receipt.None?
    ensures var opens', nodes' := opens[n.cid := it], nodes[n.cid := n];
            && Owns(opens', nodes')
            && Slot(n.cid, n) !in CidSlots(nodes) && CidSlots(nodes') == CidSlots(nodes) + {Slot(n.cid, n)}
            && Slot(it.binding, n) !in BindingSlots(opens, nodes)
            && BindingSlots(opens', nodes') == BindingSlots(opens, nodes) + {Slot(it.binding, n)}
            && VerifierSlots(opens', nodes') == VerifierSlots(opens, nodes)
  {
    var opens', nodes' := opens[n.cid := it], nodes[n.cid := n];
    assert forall c :: c in opens ==> opens'[c] == opens[c] && nodes'[c] == nodes[c];
    AddBindings(opens, nodes, n, it);
  }

  lemma AddBindings(opens: Opens, nodes: Nodes, n: Node, it: Intent)
    requires Owns(opens, nodes) && n.cid !in opens
    ensures BindingSlots(opens[n.cid := it], nodes[n.cid := n]) == BindingSlots(opens, nodes) + {Slot(it.binding, n)}
  {
    var opens', nodes' := opens[n.cid := it], nodes[n.cid := n];
    forall s | s in BindingSlots(opens', nodes') ensures s in BindingSlots(opens, nodes) + {Slot(it.binding, n)} {
      var c :| c in opens' && s == Slot(opens'[c].binding, nodes'[c]);
    }
    forall s | s in BindingSlots(opens, nodes) + {Slot(it.binding, n)} ensures s in BindingSlots(opens', nodes') {
      if s == Slot(it.binding, n) {
        assert s == Slot(opens'[n.cid].binding, nodes'[n.cid]);
      } else {
        var c :| c in opens && s == Slot(opens[c].binding, nodes[c]);
        assert s == Slot(opens'[c].binding, nodes'[c]);
      }
    }
  }

  lemma RemoveCid(opens: Opens, nodes: Nodes, c: string)
    requires Owns(opens, nodes) && c in nodes
    ensures Slot(c, nodes[c]) in CidSlots(nodes) && CidSlots(nodes - {c}) == CidSlots(nodes) - {Slot(c, nodes[c])}
  {
    forall s | s in CidSlots(nodes - {c}) ensures s in CidSlots(nodes) && s.key != c {
      var d :| d in nodes && d != c && s == Slot(d, nodes[d]);
    }
    forall s | s in CidSlots(nodes) && s != Slot(c, nodes[c]) ensures s in CidSlots(nodes - {c}) {
      var d :| d in nodes && s == Slot(d, nodes[d]);
      assert d in nodes - {c};
    }
  }

  lemma RemoveBinding(opens: Opens, nodes: Nodes, c: string)
    requires Owns(opens, nodes) && c in opens
    ensures Owns(opens - {c}, nodes - {c}) && Slot(opens[c].binding, nodes[c]) in BindingSlots(opens, nodes)
    ensures BindingSlots(opens - {c}, nodes - {c}) == BindingSlots(opens, nodes) - {Slot(opens[c].binding, nodes[c])}
  {
    forall s | s in BindingSlots(opens - {c}, nodes - {c})
      ensures s in BindingSlots(opens, nodes) && s.val != nodes[c]
    {
      var d :| d in opens && d != c && s == Slot(opens[d].binding, nodes[d]);
    }
    forall s | s in BindingSlots(opens, nodes) && s != Slot(opens[c].binding, nodes[c])
      ensures s in BindingSlots(opens - {c}, nodes - {c})
    {
      var d :| d in opens && s == Slot(opens[d].binding, nodes[d]);
      assert d in opens - {c};
    }
  }

  lemma RemoveVerifier(opens: Opens, nodes: Nodes, c: string)
    requires Owns(opens, nodes) && c in opens
    ensures Owns(opens - {c}, nodes - {c})
    ensures var all, left := VerifierSlots(opens, nodes), VerifierSlots(opens - {c}, nodes - {c});
            if opens[c].receipt.None? then left == all
            else
              var s := Slot(opens[c].receipt.value.verifier, nodes[c]);
              s in all && left == all - {s}
  {
    var all, left := VerifierSlots(opens, nodes), VerifierSlots(opens - {c}, nodes - {c});
    forall s | s in left ensures s in all && s.val != nodes[c] {
      var d :| d in opens && d != c && opens[d].receipt.Some? && s == Slot(opens[d].receipt.value.verifier, nodes[d]);
    }
    forall s | s in all && s.val != nodes[c] ensures s in left {
      var d :| d in opens && opens[d].receipt.Some? && s == Slot(opens[d].receipt.value.verifier, nodes[d]);
      assert d in opens - {c};
    }
    forall s | s in all && s.val == nodes[c]
      ensures opens[c].receipt.Some? && s == Slot(opens[c].receipt.value.verifier, nodes[c])
    {
      var d :| d in opens && opens[d].receipt.Some? && s == Slot(opens[d].receipt.value.verifier, nodes[d]);
      assert nodes[d].cid == d;
    }
    if opens[c].receipt.Some? { assert Slot(opens[c].receipt.value.verifier, nodes[c]) in all; }
  }

  /** A changed receipt leaves the other two indexes alone. */
  lemma SameBindings(opens: Opens, nodes: Nodes, c: string, it: Intent)
    requires Owns(opens, nodes) && c in opens && it.binding == opens[c].binding
    ensures Owns(opens[c := it], nodes) && BindingSlots(opens[c := it], nodes) == BindingSlots(opens, nodes)
  {
    var opens' := opens[c := it];
    assert forall d :: d in opens ==> opens'[d].binding == opens[d].binding;
  }

  lemma GrantVerifier(opens: Opens, nodes: Nodes, c: string, r: Receipt)
    requires Owns(opens, nodes) && c in opens && opens[c].receipt.None?
    ensures var opens' := opens[c := opens[c].(receipt := Some(r))];
            && Owns(opens', nodes) && Slot(r.verifier, nodes[c]) !in VerifierSlots(opens, nodes)
            && VerifierSlots(opens', nodes) == VerifierSlots(opens, nodes) + {Slot(r.verifier, nodes[c])}
  {
    var opens' := opens[c := opens[c].(receipt := Some(r))];
    var all, more := VerifierSlots(opens, nodes), VerifierSlots(opens', nodes);
    forall s | s in all ensures s in more && s.val != nodes[c] {
      var d :| d in opens && opens[d].receipt.Some? && s == Slot(opens[d].receipt.value.verifier, nodes[d]);
      assert opens'[d] == opens[d];
    }
    forall s | s in more ensures s in all || s == Slot(r.verifier, nodes[c]) {
      var d :| d in opens' && opens'[d].receipt.Some? && s == Slot(opens'[d].receipt.value.verifier, nodes[d]);
    }
    assert opens'[c].receipt.Some?;
  }

  lemma SameVerifiers(opens: Opens, nodes: Nodes, c: string, r: Receipt)
    requires Owns(opens, nodes) && c in opens && opens[c].receipt.Some? && r.verifier == opens[c].receipt.value.verifier
    ensures var opens' := opens[c := opens[c].(receipt := Some(r))];
            Owns(opens', nodes) && VerifierSlots(opens', nodes) == VerifierSlots(opens, nodes)
  {
    var opens' := opens[c := opens[c].(receipt := Some(r))];
    assert forall d :: d in opens ==> opens'[d].receipt.Some? == opens[d].receipt.Some?;
    assert forall d :: d in opens && opens[d].receipt.Some? ==>
      opens'[d].receipt.value.verifier == opens[d].receipt.value.verifier;
  }

  // ---- counts ----

  function CountOf(perUid: map<nat, nat>, u: nat): nat { if u in perUid then perUid[u] else 0 }

  ghost predicate Counts(opens: Opens, openCount: nat, perUid: map<nat, nat>) {
    openCount == |opens| && forall u: nat :: CountOf(perUid, u) == |OpenBy(opens, u)|
  }

  lemma OneMoreOpen(opens: Opens, c: string, it: Intent, u: nat)
    requires c !in opens
    ensures |OpenBy(opens[c := it], u)| == |OpenBy(opens, u)| + if u == it.actor.uid then 1 else 0
  {
    assert OpenBy(opens[c := it], u) == if u == it.actor.uid then OpenBy(opens, u) + {c} else OpenBy(opens, u);
  }

  lemma CountsAdd(opens: Opens, n: nat, perUid: map<nat, nat>, c: string, it: Intent)
    requires Counts(opens, n, perUid) && c !in opens
    ensures Counts(opens[c := it], n + 1, perUid[it.actor.uid := CountOf(perUid, it.actor.uid) + 1])
  {
    hide OpenBy, CountOf;
    var v, opens' := it.actor.uid, opens[c := it];
    var perUid' := perUid[v := CountOf(perUid, v) + 1];
    forall u: nat ensures CountOf(perUid', u) == |OpenBy(opens', u)| {
      OneMoreOpen(opens, c, it, u);
      CountSet(perUid, v, CountOf(perUid, v) + 1, u);
    }
    SizeAdd(opens, c, it);
  }

  lemma CountSet(perUid: map<nat, nat>, v: nat, n: nat, u: nat)
    ensures CountOf(perUid[v := n], u) == if u == v then n else CountOf(perUid, u)
  {
  }

  lemma SizeAdd(opens: Opens, c: string, it: Intent)
    requires c !in opens
    ensures |opens[c := it]| == |opens| + 1
  {
    assert opens[c := it].Keys == opens.Keys + {c};
  }

  lemma CountsRemove(opens: Opens, n: nat, perUid: map<nat, nat>, c: string)
    requires Counts(opens, n, perUid) && c in opens
    ensures var u := opens[c].actor.uid;
            n > 0 && CountOf(perUid, u) > 0 && Counts(opens - {c}, n - 1, perUid[u := CountOf(perUid, u) - 1])
  {
    hide OpenBy;
    var it, rest := opens[c], opens - {c};
    assert rest[c := it] == opens;
    forall u: nat ensures |OpenBy(opens, u)| == |OpenBy(rest, u)| + if u == it.actor.uid then 1 else 0 {
      OneMoreOpen(rest, c, it, u);
    }
    assert opens.Keys == rest.Keys + {c};
  }

  lemma CountsSame(opens: Opens, n: nat, perUid: map<nat, nat>, c: string, it: Intent)
    requires Counts(opens, n, perUid) && c in opens && it.actor == opens[c].actor
    ensures Counts(opens[c := it], n, perUid)
  {
    assert opens[c := it].Keys == opens.Keys;
    forall u: nat ensures OpenBy(opens[c := it], u) == OpenBy(opens, u) {}
  }

  /** The per-uid counts add up to the total. */
  lemma {:induction false} CountsAddUp(opens: Opens, uids: seq<nat>)
    requires forall i, j :: 0 <= i < j < |uids| ==> uids[i] != uids[j]
    requires forall c :: c in opens ==> opens[c].actor.uid in uids
    ensures SumOpen(opens, uids) == |opens|
    decreases |uids|
  {
    if uids == [] {
      assert opens == map[];
    } else {
      var u, rest := uids[0], uids[1..];
      var others := map c | c in opens && opens[c].actor.uid != u :: opens[c];
      CountsAddUp(others, rest);
      assert others.Keys + OpenBy(opens, u) == opens.Keys;
      SumOthers(opens, others, u, rest);
    }
  }

  function SumOpen(opens: Opens, uids: seq<nat>): nat {
    if uids == [] then 0 else |OpenBy(opens, uids[0])| + SumOpen(opens, uids[1..])
  }

  lemma {:induction false} SumOthers(opens: Opens, others: Opens, u: nat, uids: seq<nat>)
    requires u !in uids && others == map c | c in opens && opens[c].actor.uid != u :: opens[c]
    ensures SumOpen(opens, uids) == SumOpen(others, uids)
  {
    if uids != [] {
      assert uids[0] != u;
      assert OpenBy(opens, uids[0]) == OpenBy(others, uids[0]);
      SumOthers(opens, others, u, uids[1..]);
    }
  }

  // ---- the set ----

  datatype Index = Index(
    byCid: Table<Node>,
    byBinding: Table<Node>,
    byVerifier: Table<Node>,
    openCount: nat,
    perUid: map<nat, nat>)

  /** The set as a value, and its nodes. */
  datatype Held = Held(opens: Opens, nodes: Nodes)

  /** Three exact indexes of one set, and exact counts. */
  ghost predicate Agrees(x: Index, h: Held) {
    && Owns(h.opens, h.nodes) && Holds(x.byCid, CidSlots(h.nodes))
    && Holds(x.byBinding, BindingSlots(h.opens, h.nodes)) && Holds(x.byVerifier, VerifierSlots(h.opens, h.nodes))
    && Counts(h.opens, x.openCount, x.perUid)
  }

  class OpenSet {
    var x: Index
    ghost var h: Held

    /** Every node carries the intent the set has for it. */
    ghost predicate Shown()
      reads this, h.nodes.Values
    {
      Owns(h.opens, h.nodes) && forall c :: c in h.nodes ==> h.nodes[c].it == h.opens[c]
    }

    ghost predicate Valid()
      reads this, h.nodes.Values
    {
      Agrees(x, h) && Shown()
    }

    /** This node is the set's own. */
    ghost predicate Has(n: Node)
      reads this
    {
      n.cid in h.nodes && h.nodes[n.cid] == n
    }

    constructor (hash: string -> nat, size: nat)
      requires size > 0
      ensures Valid() && h.opens == map[] && h.nodes == map[]
    {
      var a := Create<Node>(hash, size);
      var b := Create<Node>(hash, size);
      var c := Create<Node>(hash, size);
      x, h := Index(a, b, c, 0, map[]), Held(map[], map[]);
    }

    // ---- lookups ----

    method FindCid(cid: string) returns (r: Option<Node>)
      requires Valid()
      ensures r.Some? <==> cid in h.opens
      ensures r.Some? ==> Has(r.value) && r.value.cid == cid
    {
      hide Holds;
      r := Find(x.byCid, CidSlots(h.nodes), cid);
      if cid in h.nodes { assert Slot(cid, h.nodes[cid]) in CidSlots(h.nodes); }
    }

    /** An open intent with this binding, if there is one. */
    method FindBinding(binding: string) returns (r: Option<Node>)
      requires Valid()
      ensures r.Some? ==> Has(r.value) && h.opens[r.value.cid].binding == binding
      ensures r.None? && binding != "" ==> forall c :: c in h.opens ==> h.opens[c].binding != binding
      ensures binding == "" ==> r.None?
      ensures r.Some? && Guarantees.IdsUnique(h.opens) ==>
                forall c :: c in h.opens && h.opens[c].binding == binding ==> c == r.value.cid
    {
      hide Holds;
      if binding == "" {
        return None;
      }
      ghost var slots := BindingSlots(h.opens, h.nodes);
      r := Find(x.byBinding, slots, binding);
      forall c | c in h.opens ensures Slot(h.opens[c].binding, h.nodes[c]) in slots {}
    }

    /** An open intent whose receipt has this verifier, if there is one. */
    method FindVerifier(verifier: string) returns (r: Option<Node>)
      requires Valid()
      ensures r.Some? ==> Has(r.value) && h.opens[r.value.cid].receipt.Some?
      ensures r.Some? ==> h.opens[r.value.cid].receipt.value.verifier == verifier
      ensures r.None? && verifier != "" ==> !VerifierInUse(h.opens, verifier)
      ensures verifier == "" ==> r.None?
      ensures r.Some? && Guarantees.IdsUnique(h.opens) ==>
                forall c :: c in h.opens && h.opens[c].receipt.Some? ==>
                  (h.opens[c].receipt.value.verifier == verifier ==> c == r.value.cid)
    {
      hide Holds;
      if verifier == "" {
        return None;
      }
      ghost var slots := VerifierSlots(h.opens, h.nodes);
      r := Find(x.byVerifier, slots, verifier);
      forall c | c in h.opens && h.opens[c].receipt.Some?
        ensures Slot(h.opens[c].receipt.value.verifier, h.nodes[c]) in slots
      {}
    }

    // ---- updates ----

    /** Link a new intent into the set. */
    method Add(cid: string, it: Intent)
      requires Valid() && cid !in h.opens && it.receipt.None?
      modifies this
      ensures Valid() && h.opens == old(h.opens)[cid := it]
      ensures cid in h.nodes && fresh(h.nodes[cid]) && h.nodes == old(h.nodes)[cid := h.nodes[cid]]
    {
      hide Agrees;
      var n := new Node(cid, it);
      x := Linked(x, h, n, it);
      h := Held(h.opens[cid := it], h.nodes[cid := n]);
    }

    /** Install a receipt in the node and index it by its verifier. */
    method IndexReceipt(n: Node, r: Receipt)
      requires Valid() && Has(n) && n.it.receipt.None?
      modifies this, n
      ensures Valid() && h.nodes == old(h.nodes)
      ensures h.opens == old(h.opens)[n.cid := old(h.opens)[n.cid].(receipt := Some(r))]
    {
      hide Agrees;
      ghost var opens := h.opens[n.cid := n.it.(receipt := Some(r))];
      assert forall c :: c in h.nodes && c != n.cid ==> h.nodes[c] != n;
      x := ReceiptIndexed(x, h, n, r);
      n.it := n.it.(receipt := Some(r));
      h := Held(opens, h.nodes);
    }

    /** Redeeming changes the node, not the indexes. */
    method MarkRedeemed(n: Node, acceptedUs: nat)
      requires Valid() && Has(n) && n.it.receipt.Some?
      modifies this, n
      ensures Valid() && h.nodes == old(h.nodes)
      ensures var it := old(h.opens)[n.cid];
              var spent := it.receipt.value.(state := Redeemed, acceptedUs := acceptedUs);
              h.opens == old(h.opens)[n.cid := it.(receipt := Some(spent))]
    {
      hide Agrees;
      var it := n.it.(receipt := Some(n.it.receipt.value.(state := Redeemed, acceptedUs := acceptedUs)));
      assert forall c :: c in h.nodes && c != n.cid ==> h.nodes[c] != n;
      ReceiptChanged(x, h, n.cid, it.receipt.value);
      n.it := it;
      h := Held(h.opens[n.cid := it], h.nodes);
    }

    /** Unlink the node from every table it is in. */
    method Remove(n: Node)
      requires Valid() && Has(n)
      modifies this
      ensures Valid() && h.nodes == old(h.nodes) - {n.cid} && h.opens == old(h.opens) - {n.cid}
    {
      hide Agrees;
      x := Unlinked(x, h, n, n.it);
      h := Held(h.opens - {n.cid}, h.nodes - {n.cid});
    }
  }

  method Linked(x: Index, ghost h: Held, n: Node, it: Intent) returns (x': Index)
    requires Agrees(x, h) && n.cid !in h.opens && it.receipt.None?
    ensures Agrees(x', Held(h.opens[n.cid := it], h.nodes[n.cid := n]))
  {
    hide Holds, Counts, CountOf, CidSlots, BindingSlots, VerifierSlots, Owns;
    AddSlots(h.opens, h.nodes, n, it);
    CountsAdd(h.opens, x.openCount, x.perUid, n.cid, it);
    var byCid := Insert(x.byCid, CidSlots(h.nodes), n.cid, n);
    var byBinding := Insert(x.byBinding, BindingSlots(h.opens, h.nodes), it.binding, n);
    var u := it.actor.uid;
    x' := Index(byCid, byBinding, x.byVerifier, x.openCount + 1, x.perUid[u := CountOf(x.perUid, u) + 1]);
  }

  method ReceiptIndexed(x: Index, ghost h: Held, n: Node, r: Receipt) returns (x': Index)
    requires Agrees(x, h) && n.cid in h.nodes && h.nodes[n.cid] == n && n.cid in h.opens && h.opens[n.cid].receipt.None?
    ensures Agrees(x', h.(opens := h.opens[n.cid := h.opens[n.cid].(receipt := Some(r))]))
  {
    hide Holds, Counts, CidSlots, BindingSlots, VerifierSlots, Owns;
    var it := h.opens[n.cid].(receipt := Some(r));
    GrantVerifier(h.opens, h.nodes, n.cid, r);
    SameBindings(h.opens, h.nodes, n.cid, it);
    CountsSame(h.opens, x.openCount, x.perUid, n.cid, it);
    var byVerifier := Insert(x.byVerifier, VerifierSlots(h.opens, h.nodes), r.verifier, n);
    x' := x.(byVerifier := byVerifier);
  }

  lemma ReceiptChanged(x: Index, h: Held, c: string, r: Receipt)
    requires Agrees(x, h) && c in h.opens && h.opens[c].receipt.Some? && r.verifier == h.opens[c].receipt.value.verifier
    ensures Agrees(x, h.(opens := h.opens[c := h.opens[c].(receipt := Some(r))]))
  {
    hide Holds, Counts, CidSlots, BindingSlots, VerifierSlots, Owns;
    var it := h.opens[c].(receipt := Some(r));
    SameVerifiers(h.opens, h.nodes, c, r);
    SameBindings(h.opens, h.nodes, c, it);
    CountsSame(h.opens, x.openCount, x.perUid, c, it);
  }

  method Unlinked(x: Index, ghost h: Held, n: Node, it: Intent) returns (x': Index)
    requires Agrees(x, h) && n.cid in h.opens && h.opens[n.cid] == it && n.cid in h.nodes && h.nodes[n.cid] == n
    ensures Agrees(x', Held(h.opens - {n.cid}, h.nodes - {n.cid}))
  {
    hide Holds, Counts, CountOf, CidSlots, BindingSlots, VerifierSlots, Owns;
    RemoveCid(h.opens, h.nodes, n.cid);
    RemoveBinding(h.opens, h.nodes, n.cid);
    RemoveVerifier(h.opens, h.nodes, n.cid);
    CountsRemove(h.opens, x.openCount, x.perUid, n.cid);
    var byCid := Unlink(x.byCid, CidSlots(h.nodes), n.cid, n);
    var byBinding := Unlink(x.byBinding, BindingSlots(h.opens, h.nodes), it.binding, n);
    var byVerifier := x.byVerifier;
    if it.receipt.Some? {
      byVerifier := Unlink(byVerifier, VerifierSlots(h.opens, h.nodes), it.receipt.value.verifier, n);
    }
    var u, perUid := it.actor.uid, x.perUid;
    if CountOf(perUid, u) > 0 {
      perUid := perUid[u := CountOf(perUid, u) - 1];
    }
    x' := Index(byCid, byBinding, byVerifier, x.openCount - 1, perUid);
  }
}
