/** Grouping a sequence by a key: filters, counters and sums over groups. */
module Grouping {

  function Filter<E>(es: seq<E>, p: E -> bool): seq<E> {
    if es == [] then []
    else Filter(es[..|es| - 1], p) + if p(es[|es| - 1]) then [es[|es| - 1]] else []
  }

  function Group<E, K(==)>(es: seq<E>, key: E -> K, k: K): seq<E> {
    Filter(es, e => key(e) == k)
  }

  /** `m` holds the summary of every non-empty group and nothing else. */
  ghost predicate Grouped<E, K, V>(m: map<K, V>, es: seq<E>, key: E -> K, summary: seq<E> -> V) {
    && (forall i | 0 <= i < |es| :: key(es[i]) in m)
    && forall k | k in m :: Group(es, key, k) != [] && m[k] == summary(Group(es, key, k))
  }

  lemma {:induction false} PrefixGrows<E>(es: seq<E>, i: nat)
    requires i < |es|
    ensures es[..i] + [es[i]] == es[..i + 1]
  {
  }

  lemma {:induction false} FilterSnoc<E>(es: seq<E>, e: E, p: E -> bool)
    ensures Filter(es + [e], p) == Filter(es, p) + if p(e) then [e] else []
  {
    assert (es + [e])[..|es|] == es;
  }

  lemma {:induction false} FilterAll<E>(es: seq<E>, p: E -> bool)
    ensures |Filter(es, p)| <= |es|
    ensures forall i | 0 <= i < |Filter(es, p)| :: Filter(es, p)[i] in es && p(Filter(es, p)[i])
  {
    if es != [] {
      FilterAll(es[..|es| - 1], p);
    }
  }

  lemma {:induction false} GroupMember<E, K>(es: seq<E>, key: E -> K, i: nat)
    requires i < |es|
    ensures Group(es, key, key(es[i])) != []
  {
    if i < |es| - 1 {
      GroupMember(es[..|es| - 1], key, i);
    }
  }

  lemma {:induction false} GroupMissing<E, K>(es: seq<E>, key: E -> K, k: K)
    requires forall i | 0 <= i < |es| :: key(es[i]) != k
    ensures Group(es, key, k) == []
  {
    if es != [] {
      GroupMissing(es[..|es| - 1], key, k);
    }
  }

  /** Resummarizing the group an element joins keeps the grouping. */
  lemma {:induction false} GroupedSnoc<E, K, V>(m: map<K, V>, es: seq<E>, e: E, key: E -> K, summary: seq<E> -> V)
    requires Grouped(m, es, key, summary)
    ensures Grouped(m[key(e) := summary(Group(es, key, key(e)) + [e])], es + [e], key, summary)
  {
    var m' := m[key(e) := summary(Group(es, key, key(e)) + [e])];
    forall k | k in m' ensures Group(es + [e], key, k) != [] && m'[k] == summary(Group(es + [e], key, k)) {
      FilterSnoc(es, e, x => key(x) == k);
      assert Group(es + [e], key, k) == Group(es, key, k) + if key(e) == k then [e] else [];
      if k != key(e) {
        assert Group(es + [e], key, k) == Group(es, key, k);
      }
    }
  }

  /** A missing key stands for the empty group. */
  lemma {:induction false} GroupedGet<E, K, V>(m: map<K, V>, es: seq<E>, key: E -> K, summary: seq<E> -> V, k: K)
    requires Grouped(m, es, key, summary)
    ensures (if k in m then m[k] else summary([])) == summary(Group(es, key, k))
  {
    if k !in m {
      GroupMissing(es, key, k);
    }
  }

  function Find<K, V>(m: map<K, V>, k: K, default: V): V {
    if k in m then m[k] else default
  }

  /** A table built in one pass, each element updating the entry of its key. */
  function Fold<E, K(==), V>(es: seq<E>, key: E -> K, empty: V, add: (V, E) -> V): map<K, V> {
    if es == [] then map[]
    else
      var m, e := Fold(es[..|es| - 1], key, empty, add), es[|es| - 1];
      m[key(e) := add(Find(m, key(e), empty), e)]
  }

  /** `add` maintains `summary`. */
  ghost predicate Maintains<E(!new), V>(summary: seq<E> -> V, empty: V, add: (V, E) -> V) {
    summary([]) == empty && forall s: seq<E>, e: E :: summary(s + [e]) == add(summary(s), e)
  }

  /** A summary is determined by its step. */
  lemma {:induction false} SummaryIsUnique<E(!new), V>(es: seq<E>, f: seq<E> -> V, g: seq<E> -> V, empty: V,
                                                       add: (V, E) -> V)
    requires Maintains(f, empty, add) && Maintains(g, empty, add)
    ensures f(es) == g(es)
  {
    if es != [] {
      var init, e := es[..|es| - 1], es[|es| - 1];
      SummaryIsUnique(init, f, g, empty, add);
      assert init + [e] == es;
    }
  }

  lemma {:induction false} FoldSnoc<E, K, V>(es: seq<E>, e: E, key: E -> K, empty: V, add: (V, E) -> V)
    ensures var m := Fold(es, key, empty, add);
            Fold(es + [e], key, empty, add) == m[key(e) := add(Find(m, key(e), empty), e)]
  {
    assert (es + [e])[..|es|] == es;
  }

  /** The one-pass table is the grouping: for every key that occurs and no other, it holds the
      summary of the elements with that key. */
  lemma {:induction false} FoldIsGrouping<E(!new), K, V>(es: seq<E>, key: E -> K, summary: seq<E> -> V, empty: V,
                                                         add: (V, E) -> V)
    requires Maintains(summary, empty, add)
    ensures Grouped(Fold(es, key, empty, add), es, key, summary)
  {
    if es != [] {
      var init, e := es[..|es| - 1], es[|es| - 1];
      FoldIsGrouping(init, key, summary, empty, add);
      GroupedGet(Fold(init, key, empty, add), init, key, summary, key(e));
      GroupedSnoc(Fold(init, key, empty, add), init, e, key, summary);
      assert init + [e] == es;
    }
  }

  lemma {:induction false} FilterKeys<E, K>(es: seq<E>, p: E -> bool, key: E -> K, keys: set<K>)
    requires forall i | 0 <= i < |es| :: key(es[i]) in keys
    ensures forall i | 0 <= i < |Filter(es, p)| :: key(Filter(es, p)[i]) in keys
  {
    if es != [] {
      FilterKeys(es[..|es| - 1], p, key, keys);
    }
  }

  lemma {:induction false} FiltersCommute<E>(es: seq<E>, p: E -> bool, q: E -> bool)
    ensures Filter(Filter(es, p), q) == Filter(Filter(es, q), p)
  {
    if es != [] {
      var init, e := es[..|es| - 1], es[|es| - 1];
      FiltersCommute(init, p, q);
      FilterSnoc(Filter(init, p), e, q);
      FilterSnoc(Filter(init, q), e, p);
      assert Filter(init, p) + [] == Filter(init, p) && Filter(init, q) + [] == Filter(init, q);
      assert Filter(Filter(init, p), q) + [] == Filter(Filter(init, p), q);
    }
  }

  // ---------------------------------------------------------------- counters

  type Counter<K> = map<K, nat>

  function Get<K>(c: Counter<K>, k: K): nat {
    if k in c then c[k] else 0
  }

  function Bump<K>(c: Counter<K>, k: K): Counter<K> {
    c[k := Get(c, k) + 1]
  }

  function Counts<E, K>(es: seq<E>, key: E -> K): Counter<K> {
    if es == [] then map[] else Bump(Counts(es[..|es| - 1], key), key(es[|es| - 1]))
  }

  lemma {:induction false} CountsSnoc<E, K>(es: seq<E>, e: E, key: E -> K)
    ensures Counts(es + [e], key) == Bump(Counts(es, key), key(e))
  {
    assert (es + [e])[..|es|] == es;
  }

  /** A counter holds, for every key that occurs, how often it does. */
  lemma {:induction false} CountsAreGroupSizes<E, K>(es: seq<E>, key: E -> K, k: K)
    ensures Get(Counts(es, key), k) == |Group(es, key, k)|
    ensures k in Counts(es, key) <==> Group(es, key, k) != []
  {
    if es != [] {
      CountsAreGroupSizes(es[..|es| - 1], key, k);
    }
  }

  // ---------------------------------------------------------------- sums over a set of keys

  ghost function SumOver<K(!new)>(keys: set<K>, f: K -> nat): nat
    decreases |keys|
  {
    if keys == {} then 0
    else
      var k :| k in keys;
      f(k) + SumOver(keys - {k}, f)
  }

  lemma {:induction false} SumZero<K(!new)>(keys: set<K>, f: K -> nat)
    requires forall k | k in keys :: f(k) == 0
    ensures SumOver(keys, f) == 0
    decreases |keys|
  {
    if keys != {} {
      var k :| k in keys && SumOver(keys, f) == f(k) + SumOver(keys - {k}, f);
      SumZero(keys - {k}, f);
    }
  }

  lemma {:induction false} SumSame<K(!new)>(keys: set<K>, f: K -> nat, g: K -> nat)
    requires forall k | k in keys :: f(k) == g(k)
    ensures SumOver(keys, f) == SumOver(keys, g)
    decreases |keys|
  {
    if keys != {} {
      var k :| k in keys && SumOver(keys, f) == f(k) + SumOver(keys - {k}, f);
      SumSplit(keys, k, g);
      SumSame(keys - {k}, f, g);
    }
  }

  lemma {:induction false} SumSplit<K(!new)>(keys: set<K>, k: K, f: K -> nat)
    requires k in keys
    ensures SumOver(keys, f) == f(k) + SumOver(keys - {k}, f)
    decreases |keys|
  {
    var j :| j in keys && SumOver(keys, f) == f(j) + SumOver(keys - {j}, f);
    if j != k {
      SumSplit(keys - {j}, k, f);
      SumSplit(keys - {k}, j, f);
      assert keys - {j} - {k} == keys - {k} - {j};
    }
  }

  lemma {:induction false} SumPlusOne<K(!new)>(keys: set<K>, k: K, f: K -> nat, g: K -> nat)
    requires k in keys && g(k) == f(k) + 1 && forall j | j in keys && j != k :: g(j) == f(j)
    ensures SumOver(keys, g) == SumOver(keys, f) + 1
  {
    SumSplit(keys, k, f);
    SumSplit(keys, k, g);
    SumSame(keys - {k}, f, g);
  }

  function SizeOf<E, K(==)>(es: seq<E>, key: E -> K): K -> nat {
    k => |Group(es, key, k)|
  }

  /** The groups under a set of keys that covers a sequence partition it. */
  lemma {:induction false} GroupsPartition<E, K(!new)>(es: seq<E>, key: E -> K, keys: set<K>)
    requires forall i | 0 <= i < |es| :: key(es[i]) in keys
    ensures SumOver(keys, SizeOf(es, key)) == |es|
  {
    if es == [] {
      SumZero(keys, SizeOf(es, key));
    } else {
      var init, e := es[..|es| - 1], es[|es| - 1];
      GroupsPartition(init, key, keys);
      SumPlusOne(keys, key(e), SizeOf(init, key), SizeOf(es, key));
    }
  }

  function WeightIn<K(==), V>(m: map<K, V>, weight: V -> nat): K -> nat {
    k => if k in m then weight(m[k]) else 0
  }

  /** If a group's summary weighs its elements that satisfy `p`, the weights of a grouping sum
      to all of those. */
  lemma {:induction false} WeightsPartition<E(!new), K(!new), V>(
      m: map<K, V>, es: seq<E>, key: E -> K, summary: seq<E> -> V, weight: V -> nat, p: E -> bool)
    requires Grouped(m, es, key, summary) && forall s: seq<E> :: weight(summary(s)) == |Filter(s, p)|
    ensures SumOver(m.Keys, WeightIn(m, weight)) == |Filter(es, p)|
  {
    var sub := Filter(es, p);
    FilterKeys(es, p, key, m.Keys);
    GroupsPartition(sub, key, m.Keys);
    forall k | k in m ensures WeightIn(m, weight)(k) == SizeOf(sub, key)(k) {
      FiltersCommute(es, e => key(e) == k, p);
    }
    SumSame(m.Keys, WeightIn(m, weight), SizeOf(sub, key));
  }

  lemma {:induction false} FilterEvery<E>(es: seq<E>, p: E -> bool)
    requires forall i | 0 <= i < |es| :: p(es[i])
    ensures Filter(es, p) == es
  {
    if es != [] {
      FilterEvery(es[..|es| - 1], p);
    }
  }

  ghost function Total<K(!new)>(c: Counter<K>): nat {
    SumOver(c.Keys, k => Get(c, k))
  }

  /** A counter's values sum to the number of elements counted. */
  lemma {:induction false} CounterTotal<E, K(!new)>(es: seq<E>, key: E -> K)
    ensures Total(Counts(es, key)) == |es|
  {
    var c := Counts(es, key);
    forall i | 0 <= i < |es| ensures key(es[i]) in c {
      GroupMember(es, key, i);
      CountsAreGroupSizes(es, key, key(es[i]));
    }
    GroupsPartition(es, key, c.Keys);
    forall k | k in c ensures Get(c, k) == SizeOf(es, key)(k) {
      CountsAreGroupSizes(es, key, k);
    }
    SumSame(c.Keys, k => Get(c, k), SizeOf(es, key));
  }

  // ---------------------------------------------------------------- sums over a range

  function SumRange(lo: int, hi: int, f: int -> nat): nat
    decreases hi - lo
  {
    if lo >= hi then 0 else SumRange(lo, hi - 1, f) + f(hi - 1)
  }

  lemma {:induction false} SumRangeZero(lo: int, hi: int, f: int -> nat)
    requires forall h | lo <= h < hi :: f(h) == 0
    ensures SumRange(lo, hi, f) == 0
    decreases hi - lo
  {
    if lo < hi {
      SumRangeZero(lo, hi - 1, f);
    }
  }

  lemma {:induction false} SumRangePlusOne(lo: int, hi: int, k: int, f: int -> nat, g: int -> nat)
    requires g(k) == f(k) + 1 && forall h | lo <= h < hi && h != k :: g(h) == f(h)
    ensures SumRange(lo, hi, g) == SumRange(lo, hi, f) + if lo <= k < hi then 1 else 0
    decreases hi - lo
  {
    if lo < hi {
      SumRangePlusOne(lo, hi - 1, k, f, g);
    }
  }

  /** The groups under a range of keys that covers a sequence partition it. */
  lemma {:induction false} RangePartition<E>(es: seq<E>, key: E -> int, lo: int, hi: int)
    requires forall i | 0 <= i < |es| :: lo <= key(es[i]) < hi
    ensures SumRange(lo, hi, SizeOf(es, key)) == |es|
  {
    if es == [] {
      SumRangeZero(lo, hi, SizeOf(es, key));
    } else {
      var init, e := es[..|es| - 1], es[|es| - 1];
      RangePartition(init, key, lo, hi);
      SumRangePlusOne(lo, hi, key(e), SizeOf(init, key), SizeOf(es, key));
    }
  }
}
