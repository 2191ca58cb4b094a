/** `Vec::retain` and the stable `sort_by` (best first) on sequences. */
module Sequences {
  import opened Floats

  /** The elements that satisfy `keep`, in order. */
  function Retain<T>(s: seq<T>, keep: T -> bool): (r: seq<T>)
    ensures |r| <= |s|
  {
    if s == [] then []
    else if keep(s[0]) then [s[0]] + Retain(s[1..], keep)
    else Retain(s[1..], keep)
  }

  lemma {:induction false} RetainMember<T>(s: seq<T>, keep: T -> bool, x: T)
    ensures x in Retain(s, keep) <==> x in s && keep(x)
  {
    if s != [] {
      RetainMember(s[1..], keep, x);
      assert s == [s[0]] + s[1..];
    }
  }

  lemma {:induction false} RetainAll<T>(s: seq<T>, keep: T -> bool)
    requires forall x | x in s :: keep(x)
    ensures Retain(s, keep) == s
  {
    if s != [] {
      RetainAll(s[1..], keep);
    }
  }

  lemma {:induction false} RetainNone<T>(s: seq<T>, keep: T -> bool)
    requires forall i | 0 <= i < |s| :: !keep(s[i])
    ensures Retain(s, keep) == []
  {
    if s != [] {
      RetainNone(s[1..], keep);
    }
  }

  lemma RetainOne<T>(x: T, keep: T -> bool)
    ensures Retain([x], keep) == if keep(x) then [x] else []
  {
    assert [x][1..] == [];
  }

  lemma RetainCons<T>(x: T, s: seq<T>, keep: T -> bool)
    ensures Retain([x] + s, keep) == (if keep(x) then [x] else []) + Retain(s, keep)
  {
    assert ([x] + s)[1..] == s;
  }

  lemma {:induction false} RetainAppend<T>(a: seq<T>, b: seq<T>, keep: T -> bool)
    ensures Retain(a + b, keep) == Retain(a, keep) + Retain(b, keep)
  {
    if a == [] {
      assert a + b == b;
    } else {
      hide Retain;
      RetainAppend(a[1..], b, keep);
      RetainCons(a[0], a[1..], keep);
      RetainCons(a[0], a[1..] + b, keep);
      assert a == [a[0]] + a[1..];
      assert a + b == [a[0]] + (a[1..] + b);
    }
  }

  /** Keeping the elements with `p` and those without it splits the sequence. */
  lemma {:induction false} RetainMultiset<T>(s: seq<T>, keep: T -> bool)
    ensures forall x :: multiset(Retain(s, keep))[x] == if keep(x) then multiset(s)[x] else 0
  {
    if s != [] {
      RetainMultiset(s[1..], keep);
      assert s == [s[0]] + s[1..];
    }
  }

  /** Two elements that stay do so in their order. */
  lemma RetainInOrder<T>(s: seq<T>, p: T -> bool, i: nat, j: nat) returns (a: nat, b: nat)
    requires i < j < |s| && p(s[i]) && p(s[j])
    ensures a < b < |Retain(s, p)| && Retain(s, p)[a] == s[i] && Retain(s, p)[b] == s[j]
  {
    hide Retain;
    assert s == s[..j] + s[j..] && s[j..] == [s[j]] + s[j + 1..];
    RetainAppend(s[..j], s[j..], p);
    RetainCons(s[j], s[j + 1..], p);
    assert s[i] in s[..j];
    RetainMember(s[..j], p, s[i]);
    a :| 0 <= a < |Retain(s[..j], p)| && Retain(s[..j], p)[a] == s[i];
    b := |Retain(s[..j], p)|;
  }

  /** The first element that stays comes before every other with the property. */
  lemma {:induction false} RetainFirst<T>(s: seq<T>, p: T -> bool) returns (i: nat)
    requires Retain(s, p) != []
    ensures i < |s| && p(s[i]) && Retain(s, p)[0] == s[i]
    ensures forall j | 0 <= j < i :: !p(s[j])
  {
    if p(s[0]) {
      i := 0;
    } else {
      var later := RetainFirst(s[1..], p);
      i := later + 1;
      assert forall j | 0 < j < i :: s[j] == s[1..][j - 1];
    }
  }

  lemma {:induction false} RetainSame<T>(s: seq<T>, p: T -> bool, q: T -> bool)
    requires forall x | x in s :: p(x) == q(x)
    ensures Retain(s, p) == Retain(s, q)
  {
    if s != [] {
      RetainSame(s[1..], p, q);
    }
  }

  /** Two passes are one pass with both conditions. */
  lemma {:induction false} RetainTwice<T>(s: seq<T>, p: T -> bool, q: T -> bool, both: T -> bool)
    requires forall x | x in s :: both(x) <==> p(x) && q(x)
    ensures Retain(Retain(s, p), q) == Retain(s, both)
  {
    if s != [] {
      RetainTwice(s[1..], p, q, both);
      if p(s[0]) {
        RetainCons(s[0], Retain(s[1..], p), q);
      }
    }
  }

  /** The places of the elements that satisfy `p`. */
  function Places<T>(s: seq<T>, p: T -> bool): set<nat> {
    set i: nat | i < |s| && p(s[i])
  }

  lemma PlacesAppend<T>(s: seq<T>, x: T, p: T -> bool)
    ensures Places(s + [x], p) == Places(s, p) + if p(x) then {|s|} else {}
    ensures |Places(s + [x], p)| == |Places(s, p)| + if p(x) then 1 else 0
  {
  }

  lemma {:induction false} RetainPlaces<T>(s: seq<T>, p: T -> bool)
    ensures |Retain(s, p)| == |Places(s, p)|
    decreases |s|
  {
    if s == [] {
      assert Places(s, p) == {};
    } else {
      hide Retain, Places;
      var (before, x) := (s[..|s| - 1], s[|s| - 1]);
      assert s == before + [x];
      RetainPlaces(before, p);
      RetainAppend(before, [x], p);
      RetainCons(x, [], p);
      RetainNone([], p);
      assert [x] + [] == [x];
      PlacesAppend(before, x, p);
    }
  }

  /** A pass drops as many elements as there are places without the condition. */
  lemma {:induction false} RetainDrops<T>(s: seq<T>, p: T -> bool, q: T -> bool, dropped: T -> bool)
    requires forall x | x in s :: dropped(x) <==> p(x) && !q(x)
    ensures |Retain(s, p)| - |Retain(Retain(s, p), q)| == |Places(s, dropped)|
    decreases |s|
  {
    if s == [] {
      assert Places(s, dropped) == {};
    } else {
      hide Retain, Places;
      var (before, x) := (s[..|s| - 1], s[|s| - 1]);
      assert s == before + [x];
      RetainDrops(before, p, q, dropped);
      RetainOne(x, p);
      RetainOne(x, q);
      RetainNone([], q);
      RetainAppend(before, [x], p);
      RetainAppend(Retain(before, p), Retain([x], p), q);
      PlacesAppend(before, x, dropped);
    }
  }

  /** Selecting after mapping is selecting by the mapped value. */
  lemma {:induction false} RetainMap<A, B>(s: seq<A>, f: A -> B, p: B -> bool, q: A -> bool)
    requires forall x | x in s :: q(x) == p(f(x))
    ensures Retain(Map(s, f), p) == Map(Retain(s, q), f)
  {
    if s != [] {
      RetainMap(s[1..], f, p, q);
      RetainCons(f(s[0]), Map(s[1..], f), p);
    }
  }

  lemma {:induction false} MapSame<A, B>(s: seq<A>, f: A -> B, g: A -> B)
    requires forall x | x in s :: f(x) == g(x)
    ensures Map(s, f) == Map(s, g)
  {
    if s != [] {
      MapSame(s[1..], f, g);
    }
  }

  /** `iter().map(f).collect()`. */
  function Map<A, B>(s: seq<A>, f: A -> B): seq<B> {
    if s == [] then [] else [f(s[0])] + Map(s[1..], f)
  }

  lemma {:induction false} MapLength<A, B>(s: seq<A>, f: A -> B)
    ensures |Map(s, f)| == |s|
    ensures forall i | 0 <= i < |s| :: Map(s, f)[i] == f(s[i])
  {
    if s != [] {
      MapLength(s[1..], f);
    }
  }

  lemma SameLength<T>(a: seq<T>, b: seq<T>)
    requires multiset(a) == multiset(b)
    ensures |a| == |b|
  {
    assert |multiset(a)| == |a| && |multiset(b)| == |b|;
  }

  predicate SortedDesc<T>(s: seq<T>, key: T -> Float) {
    forall i, j | 0 <= i < j < |s| :: TotalLe(key(s[j]), key(s[i]))
  }

  /** Put `x` before the first element that does not outrank it. */
  function InsertDesc<T>(x: T, s: seq<T>, key: T -> Float): seq<T> {
    if s == [] || TotalLe(key(s[0]), key(x)) then [x] + s
    else [s[0]] + InsertDesc(x, s[1..], key)
  }

  /** Stable sort, greatest key first, by `total_cmp`. */
  function SortDesc<T>(s: seq<T>, key: T -> Float): seq<T> {
    if s == [] then [] else InsertDesc(s[0], SortDesc(s[1..], key), key)
  }

  lemma {:induction false} InsertPermutes<T>(x: T, s: seq<T>, key: T -> Float)
    ensures multiset(InsertDesc(x, s, key)) == multiset(s) + multiset{x}
    ensures |InsertDesc(x, s, key)| == |s| + 1
  {
    if !(s == [] || TotalLe(key(s[0]), key(x))) {
      InsertPermutes(x, s[1..], key);
      assert s == [s[0]] + s[1..];
    }
  }

  lemma {:induction false} SortPermutes<T>(s: seq<T>, key: T -> Float)
    ensures multiset(SortDesc(s, key)) == multiset(s) && |SortDesc(s, key)| == |s|
  {
    if s != [] {
      SortPermutes(s[1..], key);
      InsertPermutes(s[0], SortDesc(s[1..], key), key);
      assert s == [s[0]] + s[1..];
    }
  }

  lemma {:induction false} InsertOrders<T>(x: T, s: seq<T>, key: T -> Float)
    requires SortedDesc(s, key)
    ensures SortedDesc(InsertDesc(x, s, key), key)
  {
    if s != [] {
      if TotalLe(key(s[0]), key(x)) {
        forall j | 0 <= j < |s| ensures TotalLe(key(s[j]), key(x)) {
          TotalLeIsTotalOrder(key(s[j]), key(s[0]), key(x));
        }
      } else {
        InsertOrders(x, s[1..], key);
        InsertPermutes(x, s[1..], key);
        var rest := InsertDesc(x, s[1..], key);
        forall j | 0 <= j < |rest| ensures TotalLe(key(rest[j]), key(s[0])) {
          assert rest[j] in multiset(rest);
          assert rest[j] == x || rest[j] in s[1..];
          TotalLeIsTotalOrder(key(s[0]), key(x), key(x));
        }
      }
    }
  }

  lemma {:induction false} SortOrders<T>(s: seq<T>, key: T -> Float)
    ensures SortedDesc(SortDesc(s, key), key)
  {
    if s != [] {
      SortOrders(s[1..], key);
      InsertOrders(s[0], SortDesc(s[1..], key), key);
    }
  }

  /** Selects the elements with one particular key. */
  function WithKey<T, K(==)>(key: T -> K, k: K): T -> bool {
    x => key(x) == k
  }

  lemma {:induction false} InsertIsStable<T>(x: T, s: seq<T>, key: T -> Float, k: Float)
    requires SortedDesc(s, key)
    ensures Retain(InsertDesc(x, s, key), WithKey(key, k)) == Retain([x] + s, WithKey(key, k))
  {
    assert ([x] + s)[1..] == s;
    if s != [] && !TotalLe(key(s[0]), key(x)) {
      InsertIsStable(x, s[1..], key, k);
      assert ([x] + s[1..])[1..] == s[1..];
      assert s == [s[0]] + s[1..];
    }
  }

  /** Elements with equal keys keep their relative order. */
  lemma {:induction false} SortIsStable<T>(s: seq<T>, key: T -> Float, k: Float)
    ensures Retain(SortDesc(s, key), WithKey(key, k)) == Retain(s, WithKey(key, k))
  {
    if s != [] {
      SortIsStable(s[1..], key, k);
      SortOrders(s[1..], key);
      InsertIsStable(s[0], SortDesc(s[1..], key), key, k);
      var rest := SortDesc(s[1..], key);
      assert ([s[0]] + rest)[1..] == rest;
    }
  }

  /** The first of the best elements comes first. */
  lemma {:induction false} SortHead<T>(s: seq<T>, key: T -> Float)
    requires s != [] && forall i | 0 <= i < |s| :: TotalLe(key(s[i]), key(s[0]))
    ensures SortDesc(s, key)[..1] == [s[0]]
  {
    SortPermutes(s[1..], key);
    var rest := SortDesc(s[1..], key);
    if rest != [] {
      assert rest[0] in multiset(s[1..]);
      assert rest[0] in s;
    }
  }
}
