/** The per-uid window as the broker stores it: two parallel fixed-size arrays
    used as a FIFO ring with a running byte sum. */
module UidRing {
  import opened Types
  import opened Rates

  lemma WrapOnce(x: nat, cap: nat)
    requires cap > 0 && x < 2 * cap
    ensures x % cap == if x < cap then x else x - cap
  {
    if x >= cap {
      assert x == cap + (x - cap);
      assert (cap + (x - cap)) % cap == (x - cap) % cap by { AddCap(x - cap, cap); }
    }
  }

  lemma AddCap(y: nat, cap: nat)
    requires cap > 0 && y < cap
    ensures (cap + y) % cap == y
  {
    assert (cap + y) / cap == 1;
  }

  lemma SumFront(s: seq<Entry>)
    requires s != []
    ensures Sum(s) == s[0].bytes + Sum(s[1..])
  {
    assert s == [s[0]] + s[1..];
    SumConcat([s[0]], s[1..]);
    SumSnoc([], s[0]);
    assert [] + [s[0]] == [s[0]];
  }

  /** Ring indices wrap with a remainder. */
  function Wrap(x: nat, cap: nat): nat
    requires cap > 0
  {
    x % cap
  }

  class Ring {
    const ts: array<nat>
    const bytes: array<nat>
    const cap: nat
    var n: nat
    var head: nat
    var bsum: nat

    ghost predicate Shape()
      reads this
    {
      && cap > 0 && ts.Length == cap && bytes.Length == cap && ts != bytes
      && head < cap && n <= cap
    }

    /** Entry `i` counted from the front. */
    ghost function At(i: nat): Entry
      requires Shape() && i < n
      reads this, ts, bytes
    {
      Entry(ts[Slot(i)], bytes[Slot(i)])
    }

    ghost function Slot(i: nat): (k: nat)
      requires Shape() && i <= n && i < cap
      reads this
      ensures k < cap
    {
      if head + i < cap then head + i else head + i - cap
    }

    ghost function Contents(): (s: seq<Entry>)
      requires Shape()
      reads this, ts, bytes
      ensures |s| == n && forall i :: 0 <= i < n ==> s[i] == At(i)
    {
      seq(n, i requires 0 <= i < n && Shape() reads this, ts, bytes => At(i))
    }

    ghost predicate Valid()
      reads this, ts, bytes
    {
      Shape() && bsum == Sum(Contents())
    }

    /** A limit of zero still allocates one slot. */
    constructor (maxInWindow: nat)
      ensures Valid() && fresh(ts) && fresh(bytes)
      ensures cap == (if maxInWindow == 0 then 1 else maxInWindow) && Contents() == []
    {
      var c := if maxInWindow == 0 then 1 else maxInWindow;
      cap := c;
      ts := new nat[c](_ => 0);
      bytes := new nat[c](_ => 0);
      n, head, bsum := 0, 0, 0;
    }

    /** Drop the oldest entry, keeping the byte sum in step. */
    method DropFront()
      requires Valid() && n > 0
      modifies this`n, this`head, this`bsum
      ensures Valid() && Contents() == old(Contents())[1..]
    {
      ghost var was := Contents();
      SumFront(was);
      assert was[0] == At(0);
      var next := Wrap(head + 1, cap);
      assert next == if head + 1 < cap then head + 1 else 0 by { WrapOnce(head + 1, cap); }
      bsum := bsum - bytes[head];
      head := next;
      n := n - 1;
      assert forall i :: 0 <= i < n ==> At(i) == was[i + 1];
      assert Contents() == was[1..];
    }

    method Evict(th: nat)
      requires Valid()
      modifies this`n, this`head, this`bsum
      ensures Valid() && Contents() == Rates.Evict(old(Contents()), th)
    {
      while n > 0 && ts[head] < th
        invariant Valid() && Rates.Evict(Contents(), th) == Rates.Evict(old(Contents()), th)
        decreases n
      {
        assert Contents()[0] == At(0);
        DropFront();
      }
      assert n > 0 ==> Contents()[0] == At(0);
    }

    method Push(t: nat, nbytes: nat)
      requires Valid()
      modifies this`n, this`head, this`bsum, ts, bytes
      ensures Valid() && Contents() == Rates.Push(cap, old(Contents()), Entry(t, nbytes))
    {
      if n == cap {
        DropFront();
      }
      Append(t, nbytes);
    }

    method Append(t: nat, nbytes: nat)
      requires Valid() && n < cap
      modifies this`n, this`bsum, ts, bytes
      ensures Valid() && Contents() == old(Contents()) + [Entry(t, nbytes)]
    {
      ghost var was := Contents();
      SumSnoc(was, Entry(t, nbytes));
      var idx := Wrap(head + n, cap);
      assert idx == Slot(n) by { WrapOnce(head + n, cap); }
      assert forall i :: 0 <= i < n ==> Slot(i) != idx;
      ts[idx] := t;
      bytes[idx] := nbytes;
      bsum := bsum + nbytes;
      n := n + 1;
      forall i | 0 <= i < n ensures Contents()[i] == (was + [Entry(t, nbytes)])[i] {
        assert Contents()[i] == At(i);
      }
      assert Contents() == was + [Entry(t, nbytes)];
    }

    /** The entries in order, as rotation copies them out. */
    method Copy() returns (times: seq<nat>, sizes: seq<nat>)
      requires Valid()
      ensures |times| == |sizes| == n
      ensures forall k :: 0 <= k < n ==> Entry(times[k], sizes[k]) == Contents()[k]
    {
      times, sizes := [], [];
      for k := 0 to n
        invariant |times| == |sizes| == k
        invariant forall j :: 0 <= j < k ==> Entry(times[j], sizes[j]) == At(j)
      {
        var idx := Wrap(head + k, cap);
        assert idx == Slot(k) by { WrapOnce(head + k, cap); }
        times := times + [ts[idx]];
        sizes := sizes + [bytes[idx]];
      }
    }

    /** The op-count check, made on the stored ring. */
    method RateAllowed(cfg: Config, now: nat) returns (ok: bool)
      requires Valid()
      modifies this`n, this`head, this`bsum
      ensures Valid() && ok == Rates.RateAllowed(cfg, old(Contents()), now)
      ensures Contents() == if cfg.rateMaxInWindow == 0 then old(Contents())
                            else Rates.Evict(old(Contents()), cfg.Threshold(now))
      ensures InOrder(old(Contents()), now) ==>
                (ok <==> cfg.rateMaxInWindow == 0 || |Recent(cfg, old(Contents()), now)| < cfg.rateMaxInWindow)
    {
      if InOrder(Contents(), now) { QuotaExact(cfg, Contents(), now, 0); }
      if cfg.rateMaxInWindow == 0 {
        return true;
      }
      Evict(cfg.Threshold(now));
      ok := n < cfg.rateMaxInWindow;
    }

    method BytesAllowed(cfg: Config, now: nat, nbytes: nat) returns (ok: bool)
      requires Valid()
      modifies this`n, this`head, this`bsum
      ensures Valid() && ok == UidBytesAllowed(cfg, old(Contents()), now, nbytes)
      ensures Contents() == if cfg.rateMaxBytesPerUid == 0 then old(Contents())
                            else Rates.Evict(old(Contents()), cfg.Threshold(now))
      ensures InOrder(old(Contents()), now) ==>
                (ok <==> cfg.rateMaxBytesPerUid == 0 ||
                         Sum(Recent(cfg, old(Contents()), now)) + nbytes <= cfg.rateMaxBytesPerUid)
    {
      if InOrder(Contents(), now) { QuotaExact(cfg, Contents(), now, nbytes); }
      if cfg.rateMaxBytesPerUid == 0 {
        return true;
      }
      Evict(cfg.Threshold(now));
      ok := bsum + nbytes <= cfg.rateMaxBytesPerUid;
    }
  }
}
