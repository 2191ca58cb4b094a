/** Grouping a list by a key in a hash map, and reading the groups in no particular order. */
module Grouping {
  import opened Sequences

  /** The elements with each key, in their original order. */
  ghost predicate Groups<T, K>(groups: map<K, seq<T>>, s: seq<T>, key: T -> K) {
    (forall k | k in groups :: groups[k] == Retain(s, WithKey(key, k)))
    && forall i | 0 <= i < |s| :: key(s[i]) in groups
  }

  /** No empty group is ever created. */
  ghost predicate NoEmptyGroup<T, K>(groups: map<K, seq<T>>) {
    forall k | k in groups :: groups[k] != []
  }

  lemma GroupsStep<T, K>(groups: map<K, seq<T>>, s: seq<T>, key: T -> K, x: T)
    requires Groups(groups, s, key)
    ensures var k := key(x);
      Groups(groups[k := (if k in groups then groups[k] else []) + [x]], s + [x], key)
  {
    hide Retain;
    var k := key(x);
    var after := groups[k := (if k in groups then groups[k] else []) + [x]];
    forall other | other in after ensures after[other] == Retain(s + [x], WithKey(key, other)) {
      RetainAppend(s, [x], WithKey(key, other));
      RetainOne(x, WithKey(key, other));
      if other == k && k !in groups {
        forall i | 0 <= i < |s| ensures !WithKey(key, k)(s[i]) {
        }
        RetainNone(s, WithKey(key, k));
      }
    }
  }

  /** `groups.entry(key).or_default().push(x)` for every element. */
  method GroupBy<T, K(==)>(s: seq<T>, key: T -> K) returns (groups: map<K, seq<T>>)
    ensures Groups(groups, s, key) && NoEmptyGroup(groups)
  {
    hide Retain;
    groups := map[];
    for i := 0 to |s|
      invariant Groups(groups, s[..i], key) && NoEmptyGroup(groups)
    {
      GroupsStep(groups, s[..i], key, s[i]);
      assert s[..i + 1] == s[..i] + [s[i]];
      var k := key(s[i]);
      groups := groups[k := (if k in groups then groups[k] else []) + [s[i]]];
    }
    assert s[..|s|] == s;
  }

  predicate Distinct<K(==)>(keys: seq<K>) {
    forall i, j | 0 <= i < j < |keys| :: keys[i] != keys[j]
  }

  /** An order in which a hash map of the groups of `s` may be read. */
  ghost predicate KeyOrder<T(!new), K(!new)>(keys: seq<K>, s: seq<T>, key: T -> K) {
    Distinct(keys) && forall k :: k in keys <==> exists i :: 0 <= i < |s| && key(s[i]) == k
  }

  lemma {:induction false} DistinctMultiset<K>(keys: seq<K>)
    requires Distinct(keys)
    ensures forall k :: multiset(keys)[k] == if k in keys then 1 else 0
  {
    if keys != [] {
      DistinctMultiset(keys[1..]);
      assert keys == [keys[0]] + keys[1..];
      assert keys[0] !in keys[1..];
    }
  }

  /** Any two orders of the same keys are permutations of each other. */
  lemma KeyOrdersAgree<T(!new), K(!new)>(a: seq<K>, b: seq<K>, s: seq<T>, key: T -> K)
    requires KeyOrder(a, s, key) && KeyOrder(b, s, key)
    ensures multiset(a) == multiset(b)
  {
    DistinctMultiset(a);
    DistinctMultiset(b);
    forall k ensures multiset(a)[k] == multiset(b)[k] {
      assert k in a <==> k in b;
    }
  }

  /** `for x in s { result.extend(f(x)) }`. */
  function FlatMap<A, B>(s: seq<A>, f: A -> seq<B>): seq<B> {
    if s == [] then [] else FlatMap(s[..|s| - 1], f) + f(s[|s| - 1])
  }

  lemma FlatMapNone<A, B>(f: A -> seq<B>)
    ensures FlatMap([], f) == []
  {
  }

  function Without<A>(s: seq<A>, i: nat): (r: seq<A>)
    requires i < |s|
    ensures |r| == |s| - 1
  {
    s[..i] + s[i + 1..]
  }

  lemma WithoutMultiset<A>(s: seq<A>, i: nat)
    requires i < |s|
    ensures multiset(Without(s, i)) == multiset(s) - multiset{s[i]}
  {
    assert s == s[..i] + ([s[i]] + s[i + 1..]);
  }

  lemma {:induction false} FlatMapRemove<A, B>(s: seq<A>, f: A -> seq<B>, i: nat)
    requires i < |s|
    ensures multiset(FlatMap(s, f)) == multiset(FlatMap(Without(s, i), f)) + multiset(f(s[i]))
  {
    hide FlatMap, Without;
    var (before, last) := (s[..|s| - 1], s[|s| - 1]);
    assert s == before + [last];
    FlatMapAppend(before, last, f);
    WithoutPrefix(s, i);
    if i < |before| {
      FlatMapRemove(before, f, i);
      FlatMapAppend(Without(before, i), last, f);
      var (whole, rest) := (multiset(FlatMap(before, f)), multiset(FlatMap(Without(before, i), f)));
      assert whole == rest + multiset(f(s[i]));
    }
  }

  lemma WithoutPrefix<A>(s: seq<A>, i: nat)
    requires i < |s|
    ensures Without(s, i) == if i == |s| - 1 then s[..i] else Without(s[..|s| - 1], i) + [s[|s| - 1]]
  {
  }

  lemma FlatMapAppend<A, B>(s: seq<A>, x: A, f: A -> seq<B>)
    ensures FlatMap(s + [x], f) == FlatMap(s, f) + f(x)
  {
    assert (s + [x])[..|s + [x]| - 1] == s;
  }

  /** The order of reading does not matter to the collected elements. */
  lemma {:induction false} FlatMapPermuted<A, B>(a: seq<A>, b: seq<A>, f: A -> seq<B>)
    requires multiset(a) == multiset(b)
    ensures multiset(FlatMap(a, f)) == multiset(FlatMap(b, f))
    decreases |a|
  {
    assert |multiset(a)| == |multiset(b)| == |a| == |b|;
    if a != [] {
      hide FlatMap, Without;
      assert a[0] in multiset(b);
      var i :| 0 <= i < |b| && b[i] == a[0];
      WithoutMultiset(a, 0);
      WithoutMultiset(b, i);
      FlatMapRemove(a, f, 0);
      FlatMapRemove(b, f, i);
      FlatMapPermuted(Without(a, 0), Without(b, i), f);
    }
  }

  /** The group of each key. */
  function GroupOf<T, K(==)>(s: seq<T>, key: T -> K): K -> seq<T> {
    k => Retain(s, WithKey(key, k))
  }

  lemma {:induction false} GroupsHold<T, K>(s: seq<T>, key: T -> K, keys: seq<K>, x: T)
    requires Distinct(keys)
    ensures multiset(FlatMap(keys, GroupOf(s, key)))[x] == if key(x) in keys then multiset(s)[x] else 0
  {
    if keys != [] {
      hide Retain;
      var (before, last) := (keys[..|keys| - 1], keys[|keys| - 1]);
      assert keys == before + [last];
      GroupsHold(s, key, before, x);
      RetainMultiset(s, WithKey(key, last));
    }
  }

  /** Every element is in exactly one group. */
  lemma GroupsPartition<T(!new), K(!new)>(s: seq<T>, key: T -> K, keys: seq<K>)
    requires KeyOrder(keys, s, key)
    ensures multiset(FlatMap(keys, GroupOf(s, key))) == multiset(s)
  {
    hide FlatMap;
    forall x ensures multiset(FlatMap(keys, GroupOf(s, key)))[x] == multiset(s)[x] {
      GroupsHold(s, key, keys, x);
      if x in multiset(s) {
        var i :| 0 <= i < |s| && s[i] == x;
        assert key(s[i]) in keys;
      }
    }
  }

  lemma {:induction false} FlatMapSame<A, B>(s: seq<A>, f: A -> seq<B>, g: A -> seq<B>)
    requires forall i | 0 <= i < |s| :: multiset(f(s[i])) == multiset(g(s[i]))
    ensures multiset(FlatMap(s, f)) == multiset(FlatMap(s, g))
  {
    if s != [] {
      FlatMapSame(s[..|s| - 1], f, g);
    }
  }

  /** Reading every key of a hash map once, in the order it happens to yield them. */
  ghost predicate ReadSoFar<K(!new)>(keys: seq<K>, remaining: set<K>, all: set<K>) {
    Distinct(keys) && remaining <= all && forall k :: k in keys <==> k in all && k !in remaining
  }

  lemma ReadNext<K(!new)>(keys: seq<K>, remaining: set<K>, all: set<K>, k: K)
    requires ReadSoFar(keys, remaining, all) && k in remaining
    ensures ReadSoFar(keys + [k], remaining - {k}, all)
  {
  }

  lemma ReadAll<T(!new), K(!new)>(keys: seq<K>, groups: map<K, seq<T>>, s: seq<T>, key: T -> K)
    requires ReadSoFar(keys, {}, groups.Keys) && Groups(groups, s, key) && NoEmptyGroup(groups)
    ensures KeyOrder(keys, s, key)
  {
    hide Retain;
    forall k ensures k in keys <==> exists i :: 0 <= i < |s| && key(s[i]) == k {
      if k in keys {
        RetainMember(s, WithKey(key, k), groups[k][0]);
      }
    }
  }
}
