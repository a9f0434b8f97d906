/**
 * `values(key).annotate(x=Sum(field))`: group rows by a key and sum a field per
 * group, and `order_by('-x')`: order the groups by their sums, largest first.
 * A row to be grouped is a one-row `Bucket(key, amount)`.
 */
module Grouping {

  datatype Bucket<K> = Bucket(key: K, sum: int)

  function Keys<K(==,!new)>(g: seq<Bucket<K>>): set<K> {
    set b | b in g :: b.key
  }

  /** One group per key. */
  predicate DistinctKeys<K(==,!new)>(g: seq<Bucket<K>>) {
    forall i, j :: 0 <= i < |g| && 0 <= j < |g| && g[i].key == g[j].key ==> i == j
  }

  /** The sum of all amounts. */
  function Total<K(==,!new)>(g: seq<Bucket<K>>): int {
    if g == [] then 0 else g[0].sum + Total(g[1..])
  }

  /** The sum of the amounts whose key is `k`. */
  function SumFor<K(==,!new)>(g: seq<Bucket<K>>, k: K): int {
    if g == [] then 0 else (if g[0].key == k then g[0].sum else 0) + SumFor(g[1..], k)
  }

  lemma {:induction false} SumForConcat<K(!new)>(a: seq<Bucket<K>>, b: seq<Bucket<K>>, k: K)
    ensures SumFor(a + b, k) == SumFor(a, k) + SumFor(b, k)
    ensures Total(a + b) == Total(a) + Total(b)
  {
    if a != [] {
      assert (a + b)[1..] == a[1..] + b;
      SumForConcat(a[1..], b, k);
    } else {
      assert a + b == b;
    }
  }

  /** A key that labels no bucket sums to 0. */
  lemma {:induction false} SumForAbsent<K(!new)>(g: seq<Bucket<K>>, k: K)
    requires k !in Keys(g)
    ensures SumFor(g, k) == 0
  {
    if g != [] {
      assert g[0] in g;
      assert Keys(g[1..]) <= Keys(g) by {
        forall x | x in Keys(g[1..]) ensures x in Keys(g) {
          var b :| b in g[1..] && b.key == x;
          assert b in g;
        }
      }
      SumForAbsent(g[1..], k);
    }
  }

  /** Helper: the keys of a sequence with a group in front. */
  lemma KeysCons<K(!new)>(b: Bucket<K>, g: seq<Bucket<K>>)
    ensures Keys([b] + g) == {b.key} + Keys(g)
  {
    assert forall x :: x in [b] + g <==> x == b || x in g;
  }

  /** Helper: a group in front keeps keys distinct exactly when its key is new. */
  lemma DistinctCons<K(!new)>(b: Bucket<K>, g: seq<Bucket<K>>)
    ensures DistinctKeys([b] + g) <==> DistinctKeys(g) && b.key !in Keys(g)
  {
    var r := [b] + g;
    if DistinctKeys(r) {
      forall i, j | 0 <= i < |g| && 0 <= j < |g| && g[i].key == g[j].key ensures i == j {
        assert r[i + 1] == g[i] && r[j + 1] == g[j];
      }
      assert b.key !in Keys(g) by {
        forall c | c in g ensures c.key != b.key {
          var i :| 0 <= i < |g| && g[i] == c;
          assert r[i + 1] == c && r[0] == b;
        }
      }
      assert DistinctKeys(g);
    }
    if DistinctKeys(g) && b.key !in Keys(g) {
      forall i, j | 0 <= i < |r| && 0 <= j < |r| && r[i].key == r[j].key ensures i == j {
        if i > 0 { assert r[i] == g[i - 1] && r[i] in g && r[i].key in Keys(g); }
        if j > 0 { assert r[j] == g[j - 1] && r[j] in g && r[j].key in Keys(g); }
        if i > 0 && j > 0 { assert g[i - 1].key == g[j - 1].key; }
      }
      assert DistinctKeys(r);
    }
  }

  /** Helper: the tail of a sequence with distinct keys. */
  lemma DistinctTail<K(!new)>(g: seq<Bucket<K>>)
    requires g != [] && DistinctKeys(g)
    ensures DistinctKeys(g[1..]) && g[0].key !in Keys(g[1..])
  {
    assert g == [g[0]] + g[1..];
    DistinctCons(g[0], g[1..]);
  }

  /** With one group per key, a group's sum is what its key sums to. */
  lemma {:induction false} SumForDistinct<K(!new)>(g: seq<Bucket<K>>, j: nat)
    requires DistinctKeys(g) && j < |g|
    ensures SumFor(g, g[j].key) == g[j].sum
  {
    DistinctTail(g);
    if j == 0 {
      SumForAbsent(g[1..], g[0].key);
    } else {
      assert g[0].key != g[j].key;
      assert g[1..][j - 1] == g[j];
      SumForDistinct(g[1..], j - 1);
    }
  }

  /** Add one row to the groups: into its key's group, or as a new group at the end. */
  function Accumulate<K(==,!new)>(g: seq<Bucket<K>>, b: Bucket<K>): (r: seq<Bucket<K>>)
    ensures Keys(r) == Keys(g) + {b.key}
    ensures DistinctKeys(g) ==> DistinctKeys(r)
    ensures forall k :: SumFor(r, k) == SumFor(g, k) + (if k == b.key then b.sum else 0)
    ensures Total(r) == Total(g) + b.sum
  {
    if g == [] then
      KeysCons(b, []);
      [b]
    else
      var head := if g[0].key == b.key then Bucket(b.key, g[0].sum + b.sum) else g[0];
      var tail := if g[0].key == b.key then g[1..] else Accumulate(g[1..], b);
      var r := [head] + tail;
      assert r[1..] == tail;
      assert g == [g[0]] + g[1..];
      KeysCons(head, tail);
      KeysCons(g[0], g[1..]);
      assert DistinctKeys(g) ==> DistinctKeys(r) by {
        if DistinctKeys(g) {
          DistinctCons(g[0], g[1..]);
          DistinctCons(head, tail);
        }
      }
      r
  }

  /**
   * The groups of `items`, in order of first appearance of each key: one group
   * per distinct key, each holding the sum of that key's amounts.
   */
  function GroupSum<K(==,!new)>(items: seq<Bucket<K>>): (r: seq<Bucket<K>>)
    ensures DistinctKeys(r)
    ensures Keys(r) == Keys(items)
    ensures forall k :: SumFor(r, k) == SumFor(items, k)
    ensures Total(r) == Total(items)
  {
    if items == [] then []
    else
      var n := |items| - 1;
      var r := Accumulate(GroupSum(items[..n]), items[n]);
      assert items == items[..n] + [items[n]];
      forall k ensures SumFor(r, k) == SumFor(items, k) {
        SumForConcat(items[..n], [items[n]], k);
      }
      SumForConcat(items[..n], [items[n]], items[n].key);
      assert Keys(items) == Keys(items[..n]) + {items[n].key} by {
        assert forall x :: x in items <==> x in items[..n] || x == items[n];
      }
      r
  }

  /** Each group of `GroupSum(items)` carries the sum of the amounts of its key. */
  lemma GroupSumAt<K(!new)>(items: seq<Bucket<K>>, j: nat)
    requires j < |GroupSum(items)|
    ensures GroupSum(items)[j].sum == SumFor(items, GroupSum(items)[j].key)
  {
    SumForDistinct(GroupSum(items), j);
  }

  /** Each row falls into exactly one group. */
  lemma ExactlyOneGroup<K(!new)>(items: seq<Bucket<K>>, i: nat)
    requires i < |items|
    ensures exists j :: 0 <= j < |GroupSum(items)| && GroupSum(items)[j].key == items[i].key
    ensures forall j, j' ::
      (0 <= j < |GroupSum(items)| && 0 <= j' < |GroupSum(items)| &&
       GroupSum(items)[j].key == items[i].key && GroupSum(items)[j'].key == items[i].key) ==> j == j'
  {
    var g := GroupSum(items);
    assert items[i] in items;
    assert items[i].key in Keys(g);
    var b :| b in g && b.key == items[i].key;
  }

  // ---------------------------------------------------------------- order_by('-sum')

  /** Largest sum first. */
  predicate NonIncreasing<K(==,!new)>(g: seq<Bucket<K>>) {
    forall i, j :: 0 <= i < j < |g| ==> g[i].sum >= g[j].sum
  }

  /** Place `b` before the first group whose sum does not exceed its own. */
  function Insert<K(==,!new)>(b: Bucket<K>, g: seq<Bucket<K>>): (r: seq<Bucket<K>>)
    requires NonIncreasing(g)
    ensures NonIncreasing(r)
    ensures multiset(r) == multiset(g) + multiset{b}
    ensures Keys(r) == Keys(g) + {b.key}
    ensures DistinctKeys(g) && b.key !in Keys(g) ==> DistinctKeys(r)
  {
    if g == [] || b.sum >= g[0].sum then
      KeysCons(b, g);
      DistinctCons(b, g);
      [b] + g
    else
      var t := Insert(b, g[1..]);
      InsertBehindHead(b, g, t);
      [g[0]] + t
  }

  /** Helper: putting the first group back in front of the tail with `b` inserted. */
  lemma InsertBehindHead<K(!new)>(b: Bucket<K>, g: seq<Bucket<K>>, t: seq<Bucket<K>>)
    requires g != [] && NonIncreasing(g) && b.sum < g[0].sum
    requires NonIncreasing(t) && multiset(t) == multiset(g[1..]) + multiset{b}
    requires Keys(t) == Keys(g[1..]) + {b.key}
    requires DistinctKeys(g[1..]) && b.key !in Keys(g[1..]) ==> DistinctKeys(t)
    ensures NonIncreasing([g[0]] + t)
    ensures multiset([g[0]] + t) == multiset(g) + multiset{b}
    ensures Keys([g[0]] + t) == Keys(g) + {b.key}
    ensures DistinctKeys(g) && b.key !in Keys(g) ==> DistinctKeys([g[0]] + t)
  {
    assert g == [g[0]] + g[1..];
    InsertHeadBound(b, g, t);
    KeysCons(g[0], t);
    KeysCons(g[0], g[1..]);
    if DistinctKeys(g) && b.key !in Keys(g) {
      DistinctCons(g[0], g[1..]);
      DistinctCons(g[0], t);
    }
  }

  /** Helper: the first group stays in front of a tail made of smaller sums. */
  lemma InsertHeadBound<K(!new)>(b: Bucket<K>, g: seq<Bucket<K>>, t: seq<Bucket<K>>)
    requires g != [] && NonIncreasing(g) && b.sum < g[0].sum
    requires NonIncreasing(t) && multiset(t) == multiset(g[1..]) + multiset{b}
    ensures NonIncreasing([g[0]] + t)
  {
    var r := [g[0]] + t;
    forall j | 0 <= j < |t| ensures g[0].sum >= t[j].sum {
      assert t[j] in multiset(t);
      if t[j] != b {
        assert t[j] in multiset(g[1..]);
        var k :| 0 <= k < |g[1..]| && g[1..][k] == t[j];
        assert g[k + 1] == t[j];
      }
    }
    forall i, j | 0 <= i < j < |r| ensures r[i].sum >= r[j].sum {
      assert r[j] == t[j - 1];
      if i > 0 { assert r[i] == t[i - 1]; }
    }
  }

  /**
   * The groups reordered by non-increasing sum: a permutation of the input.
   * Groups with equal sums keep their relative order.
   */
  function SortBySumDesc<K(==,!new)>(g: seq<Bucket<K>>): (r: seq<Bucket<K>>)
    ensures NonIncreasing(r)
    ensures multiset(r) == multiset(g)
    ensures Keys(r) == Keys(g)
    ensures DistinctKeys(g) ==> DistinctKeys(r)
  {
    if g == [] then []
    else
      var t := SortBySumDesc(g[1..]);
      var r := Insert(g[0], t);
      assert g == [g[0]] + g[1..];
      assert multiset(g) == multiset(g[1..]) + multiset{g[0]};
      KeysCons(g[0], g[1..]);
      DistinctCons(g[0], g[1..]);
      r
  }

  /** Sorting keeps every group: the same buckets, just reordered. */
  lemma SortKeepsGroups<K(!new)>(g: seq<Bucket<K>>, b: Bucket<K>)
    ensures b in SortBySumDesc(g) <==> b in g
  {
    var r := SortBySumDesc(g);
    assert b in r <==> multiset(r)[b] > 0;
    assert b in g <==> multiset(g)[b] > 0;
  }
}
