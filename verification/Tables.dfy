/** A chained hash table: one chain per bucket, newest first. The hash may be
    any function; nothing keeps two slots from having the same key. */
module Tables {
  import opened Types

  datatype Slot<V> = Slot(key: string, val: V)

  type Chain<V> = seq<Slot<V>>

  datatype Table<!V> = Table(hash: string -> nat, buckets: seq<Chain<V>>) {
    function Bucket(key: string): nat
      requires buckets != []
    {
      hash(key) % |buckets|
    }
  }

  ghost predicate Distinct<V>(chain: Chain<V>) {
    forall i, j :: 0 <= i < j < |chain| ==> chain[i] != chain[j]
  }

  /** The table holds exactly these slots, each once, in its own bucket. */
  ghost predicate Holds<V>(t: Table<V>, slots: set<Slot<V>>) {
    && t.buckets != []
    && (forall i :: 0 <= i < |t.buckets| ==> Distinct(t.buckets[i]))
    && (forall s :: s in slots ==> s in t.buckets[t.Bucket(s.key)])
    && forall i :: 0 <= i < |t.buckets| ==> forall s :: s in t.buckets[i] ==> s in slots && t.Bucket(s.key) == i
  }

  method Create<V>(hash: string -> nat, size: nat) returns (t: Table<V>)
    requires size > 0
    ensures Holds(t, {}) && t.hash == hash
  {
    t := Table(hash, seq(size, _ => []));
  }

  /** Walk the chain of the key's bucket: some slot with the key, if any. */
  method Find<V>(t: Table<V>, ghost slots: set<Slot<V>>, key: string) returns (r: Option<V>)
    requires Holds(t, slots)
    ensures r.Some? ==> Slot(key, r.value) in slots
    ensures r.None? ==> forall s :: s in slots ==> s.key != key
  {
    var chain := t.buckets[t.Bucket(key)];
    for i := 0 to |chain|
      invariant forall j :: 0 <= j < i ==> chain[j].key != key
    {
      if chain[i].key == key {
        assert chain[i] in chain;
        return Some(chain[i].val);
      }
    }
    r := None;
  }

  /** Link a new slot in at the head of its chain. */
  method Insert<V>(t: Table<V>, ghost slots: set<Slot<V>>, key: string, val: V) returns (t': Table<V>)
    requires Holds(t, slots) && Slot(key, val) !in slots
    ensures Holds(t', slots + {Slot(key, val)}) && t'.hash == t.hash
  {
    var h := t.Bucket(key);
    t' := t.(buckets := t.buckets[h := [Slot(key, val)] + t.buckets[h]]);
    InsertHolds(t, slots, Slot(key, val), t');
  }

  lemma OneMore<V>(chain: Chain<V>, s: Slot<V>)
    requires Distinct(chain) && s !in chain
    ensures Distinct([s] + chain) && forall x :: x in [s] + chain <==> x == s || x in chain
  {
    forall i, j | 0 <= i < j < |[s] + chain| ensures ([s] + chain)[i] != ([s] + chain)[j] {
      assert ([s] + chain)[j] == chain[j - 1];
      if i > 0 { assert ([s] + chain)[i] == chain[i - 1]; }
    }
  }

  lemma InsertHolds<V>(t: Table<V>, slots: set<Slot<V>>, s: Slot<V>, t': Table<V>)
    requires Holds(t, slots) && s !in slots
    requires t' == t.(buckets := t.buckets[t.Bucket(s.key) := [s] + t.buckets[t.Bucket(s.key)]])
    ensures Holds(t', slots + {s})
  {
    OneMore(t.buckets[t.Bucket(s.key)], s);
  }

  /** Walk to this very slot and unlink it, keeping the order of the others. */
  method Unlink<V(==)>(t: Table<V>, ghost slots: set<Slot<V>>, key: string, val: V) returns (t': Table<V>)
    requires Holds(t, slots) && Slot(key, val) in slots
    ensures Holds(t', slots - {Slot(key, val)}) && t'.hash == t.hash
  {
    var h := t.Bucket(key);
    var chain := t.buckets[h];
    var i := 0;
    while i < |chain| && chain[i] != Slot(key, val)
      invariant 0 <= i <= |chain| && Slot(key, val) !in chain[..i]
    {
      i := i + 1;
    }
    assert i < |chain| by { assert chain[..|chain|] == chain; }
    t' := t.(buckets := t.buckets[h := chain[..i] + chain[i + 1..]]);
    UnlinkHolds(t, slots, Slot(key, val), i, t');
  }

  lemma WithoutOne<V>(chain: Chain<V>, i: nat, chain': Chain<V>)
    requires Distinct(chain) && i < |chain| && chain' == chain[..i] + chain[i + 1..]
    ensures Distinct(chain') && forall s :: s in chain' <==> s in chain && s != chain[i]
  {
    assert forall j :: 0 <= j < i ==> chain'[j] == chain[j];
    assert forall j :: i <= j < |chain'| ==> chain'[j] == chain[j + 1];
    forall s | s in chain && s != chain[i] ensures s in chain' {
      var j :| 0 <= j < |chain| && chain[j] == s;
      assert chain'[if j < i then j else j - 1] == s;
    }
  }

  lemma UnlinkHolds<V>(t: Table<V>, slots: set<Slot<V>>, s: Slot<V>, i: nat, t': Table<V>)
    requires Holds(t, slots)
    requires var chain := t.buckets[t.Bucket(s.key)];
             && i < |chain| && chain[i] == s
             && t' == t.(buckets := t.buckets[t.Bucket(s.key) := chain[..i] + chain[i + 1..]])
    ensures Holds(t', slots - {s})
  {
    WithoutOne(t.buckets[t.Bucket(s.key)], i, t'.buckets[t.Bucket(s.key)]);
  }
}
