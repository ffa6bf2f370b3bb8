/** Filtering, counting and partitioning of finite sequences: the vocabulary in
    which SELECT, WHERE, COUNT and GROUP BY are stated. */
module Seqs {

  function Filter<T>(s: seq<T>, p: T -> bool): (r: seq<T>)
    ensures |r| <= |s|
    ensures forall x :: x in r ==> x in s && p(x)
    ensures forall x :: x in s && p(x) ==> x in r
  {
    if s == [] then [] else (if p(s[0]) then [s[0]] else []) + Filter(s[1..], p)
  }

  function Map<A, B>(s: seq<A>, f: A -> B): (r: seq<B>)
    ensures |r| == |s|
    ensures forall i :: 0 <= i < |s| ==> r[i] == f(s[i])
  {
    seq(|s|, i requires 0 <= i < |s| => f(s[i]))
  }

  function Count<T>(s: seq<T>, p: T -> bool): nat {
    |Filter(s, p)|
  }

  function Sum(s: seq<nat>): nat {
    if s == [] then 0 else s[0] + Sum(s[1..])
  }

  predicate Distinct<T(==)>(s: seq<T>) {
    forall i, j :: 0 <= i < j < |s| ==> s[i] != s[j]
  }

  /** The distinct elements of `s`, in order of first occurrence. */
  function Dedup<T(==)>(s: seq<T>): (r: seq<T>)
    ensures Distinct(r)
    ensures forall x :: x in s ==> x in r
    ensures forall x :: x in r ==> x in s
  {
    if s == [] then [] else
      var rest := Dedup(s[..|s| - 1]);
      assert s == s[..|s| - 1] + [s[|s| - 1]];
      if s[|s| - 1] in rest then rest else rest + [s[|s| - 1]]
  }

  lemma {:induction false} FilterAppend<T>(a: seq<T>, b: seq<T>, p: T -> bool)
    ensures Filter(a + b, p) == Filter(a, p) + Filter(b, p)
  {
    if a == [] {
      assert a + b == b;
    } else {
      assert (a + b)[1..] == a[1..] + b;
      FilterAppend(a[1..], b, p);
    }
  }

  lemma FilterSnoc<T>(s: seq<T>, x: T, p: T -> bool)
    ensures Filter(s + [x], p) == if p(x) then Filter(s, p) + [x] else Filter(s, p)
  {
    FilterAppend(s, [x], p);
    assert [x][1..] == [];
  }

  lemma FilterHead<T>(x: T, s: seq<T>, p: T -> bool)
    ensures Filter([x] + s, p) == (if p(x) then [x] else []) + Filter(s, p)
  {
    assert ([x] + s)[1..] == s;
  }

  lemma {:induction false} FilterCong<T>(s: seq<T>, p: T -> bool, q: T -> bool)
    requires forall x :: x in s ==> p(x) == q(x)
    ensures Filter(s, p) == Filter(s, q)
  {
    if s != [] {
      FilterCong(s[1..], p, q);
    }
  }

  lemma {:induction false} FilterFilter<T>(s: seq<T>, p: T -> bool, q: T -> bool)
    ensures Filter(Filter(s, p), q) == Filter(s, x => p(x) && q(x))
  {
    if s != [] {
      FilterFilter(s[1..], p, q);
      FilterAppend(if p(s[0]) then [s[0]] else [], Filter(s[1..], p), q);
    }
  }

  lemma {:induction false} FilterNarrow<T>(s: seq<T>, p: T -> bool, q: T -> bool, r: T -> bool)
    requires forall x :: x in s ==> r(x) == (p(x) && q(x))
    ensures Filter(Filter(s, p), q) == Filter(s, r)
  {
    FilterFilter(s, p, q);
    FilterCong(s, x => p(x) && q(x), r);
  }

  lemma FiltersCommute<T>(s: seq<T>, p: T -> bool, q: T -> bool)
    ensures Filter(Filter(s, p), q) == Filter(Filter(s, q), p)
  {
    FilterFilter(s, p, q);
    FilterFilter(s, q, p);
    FilterCong(s, x => p(x) && q(x), x => q(x) && p(x));
  }

  lemma MapCons<A, B>(s: seq<A>, f: A -> B)
    requires s != []
    ensures Map(s, f) == [f(s[0])] + Map(s[1..], f)
  {
  }

  lemma {:induction false} FilterMap<A, B>(s: seq<A>, f: A -> B, p: B -> bool, q: A -> bool)
    requires forall x :: x in s ==> p(f(x)) == q(x)
    ensures Filter(Map(s, f), p) == Map(Filter(s, q), f)
  {
    if s != [] {
      MapCons(s, f);
      FilterMap(s[1..], f, p, q);
      assert Map(s, f)[1..] == Map(s[1..], f);
      assert p(f(s[0])) == q(s[0]);
      if q(s[0]) {
        MapCons(Filter(s, q), f);
      }
    }
  }

  lemma {:induction false} FilterAll<T>(s: seq<T>, p: T -> bool)
    requires forall x :: x in s ==> p(x)
    ensures Filter(s, p) == s
  {
    if s != [] {
      FilterAll(s[1..], p);
    }
  }

  lemma {:induction false} FilterDistinct<T>(s: seq<T>, p: T -> bool)
    requires Distinct(s)
    ensures Distinct(Filter(s, p))
  {
    if s != [] {
      FilterDistinct(s[1..], p);
      assert s[0] !in s[1..];
    }
  }

  lemma {:induction false} FilterMultiset<T>(s: seq<T>, p: T -> bool, x: T)
    ensures multiset(Filter(s, p))[x] == if p(x) then multiset(s)[x] else 0
  {
    if s != [] {
      FilterMultiset(s[1..], p, x);
      assert s == [s[0]] + s[1..];
    }
  }

  /** Filtering depends on the rows, not on the order the engine stores them in. */
  lemma FilterPermutation<T(!new)>(a: seq<T>, b: seq<T>, p: T -> bool)
    requires multiset(a) == multiset(b)
    ensures multiset(Filter(a, p)) == multiset(Filter(b, p))
    ensures Count(a, p) == Count(b, p)
  {
    forall x: T
      ensures multiset(Filter(a, p))[x] == multiset(Filter(b, p))[x]
    {
      FilterMultiset(a, p, x);
      FilterMultiset(b, p, x);
    }
    assert multiset(Filter(a, p)) == multiset(Filter(b, p));
    assert |multiset(Filter(a, p))| == |Filter(a, p)|;
  }

  lemma {:induction false} CountAppend<T>(a: seq<T>, b: seq<T>, p: T -> bool)
    ensures Count(a + b, p) == Count(a, p) + Count(b, p)
  {
    FilterAppend(a, b, p);
  }

  lemma {:induction false} CountZero<T>(s: seq<T>, p: T -> bool)
    ensures Count(s, p) == 0 <==> forall x :: x in s ==> !p(x)
  {
    if Count(s, p) == 0 {
      assert forall x :: x in s && p(x) ==> x in Filter(s, p);
    } else {
      assert Filter(s, p)[0] in s;
    }
  }

  lemma {:induction false} CountOr<T>(s: seq<T>, p: T -> bool, q: T -> bool, r: T -> bool)
    requires forall x :: x in s ==> !(p(x) && q(x))
    requires forall x :: x in s ==> r(x) == (p(x) || q(x))
    ensures Count(s, r) == Count(s, p) + Count(s, q)
  {
    if s != [] {
      CountOr(s[1..], p, q, r);
      assert s[0] in s;
    }
  }

  lemma {:induction false} SumAppend(a: seq<nat>, b: seq<nat>)
    ensures Sum(a + b) == Sum(a) + Sum(b)
  {
    if a == [] {
      assert a + b == b;
    } else {
      assert (a + b)[1..] == a[1..] + b;
      SumAppend(a[1..], b);
    }
  }

  function KeyIs<T, K(==)>(key: T -> K, k: K): T -> bool {
    x => key(x) == k
  }

  /** Bucket sizes: how many elements of `s` fall under each key of `ks`. */
  function Buckets<T, K(==)>(s: seq<T>, key: T -> K, ks: seq<K>): seq<nat> {
    Map(ks, k => Count(s, KeyIs(key, k)))
  }

  function HasKeyIn<T, K(==)>(key: T -> K, ks: seq<K>): T -> bool {
    x => key(x) in ks
  }

  /** Counting per distinct key counts exactly the elements whose key is listed. */
  lemma {:induction false} BucketSum<T, K>(s: seq<T>, key: T -> K, ks: seq<K>)
    requires Distinct(ks)
    ensures Sum(Buckets(s, key, ks)) == Count(s, HasKeyIn(key, ks))
  {
    if ks == [] {
      CountZero(s, HasKeyIn(key, ks));
    } else {
      var f := k => Count(s, KeyIs(key, k));
      assert Map(ks, f) == [f(ks[0])] + Map(ks[1..], f);
      BucketSum(s, key, ks[1..]);
      assert ks[0] !in ks[1..];
      CountOr(s, KeyIs(key, ks[0]), HasKeyIn(key, ks[1..]), HasKeyIn(key, ks));
    }
  }

  /** A partition loses nothing: if every key is listed, the buckets sum to the whole. */
  lemma PartitionSum<T, K>(s: seq<T>, key: T -> K, ks: seq<K>)
    requires Distinct(ks)
    requires forall x :: x in s ==> key(x) in ks
    ensures Sum(Buckets(s, key, ks)) == |s|
  {
    BucketSum(s, key, ks);
    FilterAll(s, HasKeyIn(key, ks));
  }

  lemma {:induction false} FilterFull<T>(s: seq<T>, p: T -> bool)
    ensures |Filter(s, p)| == |s| <==> forall x :: x in s ==> p(x)
  {
    if s != [] {
      FilterFull(s[1..], p);
      assert forall x :: x in s <==> x == s[0] || x in s[1..];
    }
  }

  lemma {:induction false} FilterKeys<T, K>(s: seq<T>, key: T -> K, p: T -> bool)
    requires Distinct(Map(s, key))
    ensures Distinct(Map(Filter(s, p), key))
    ensures forall k :: k in Map(Filter(s, p), key) ==> k in Map(s, key)
  {
    if s != [] {
      var rest := Map(Filter(s[1..], p), key);
      assert Map(s, key)[1..] == Map(s[1..], key);
      FilterKeys(s[1..], key, p);
      assert key(s[0]) == Map(s, key)[0];
      assert key(s[0]) !in Map(s[1..], key);
      assert Map(Filter(s, p), key) == (if p(s[0]) then [key(s[0])] else []) + rest;
    }
  }

  lemma DistinctTail<T>(s: seq<T>)
    requires s != [] && Distinct(s)
    ensures Distinct(s[1..]) && s[0] !in s[1..]
  {
  }

  lemma {:induction false} DistinctSize<T>(s: seq<T>, m: set<T>)
    requires Distinct(s) && forall x :: x in s <==> x in m
    ensures |s| == |m|
  {
    if s != [] {
      DistinctTail(s);
      assert forall x :: x in s <==> x == s[0] || x in s[1..];
      DistinctSize(s[1..], m - {s[0]});
    } else {
      assert m == {};
    }
  }

  /** Where keys are distinct, a key picks out its one element. */
  lemma {:induction false} KeyUnique<T, K>(s: seq<T>, key: T -> K, x: T)
    requires Distinct(Map(s, key)) && x in s
    ensures Filter(s, KeyIs(key, key(x))) == [x]
  {
    assert Map(s, key)[1..] == Map(s[1..], key);
    DistinctTail(Map(s, key));
    forall y | y in s[1..] ensures key(y) != key(s[0]) {
      var i :| 0 <= i < |s[1..]| && s[1..][i] == y;
      assert Map(s[1..], key)[i] == key(y);
    }
    if x == s[0] {
      CountZero(s[1..], KeyIs(key, key(x)));
    } else {
      KeyUnique(s[1..], key, x);
    }
  }

  lemma DedupSnoc<T>(s: seq<T>, x: T)
    ensures Dedup(s + [x]) == if x in Dedup(s) then Dedup(s) else Dedup(s) + [x]
  {
    assert (s + [x])[..|s|] == s;
  }

  lemma MapSnoc<A, B>(s: seq<A>, x: A, f: A -> B)
    ensures Map(s + [x], f) == Map(s, f) + [f(x)]
  {
  }

  /** The first occurrence of a kept key leads what is kept. */
  lemma {:induction false} DedupFilterHead<T>(s: seq<T>, q: T -> bool)
    requires Filter(s, q) != []
    ensures Filter(Dedup(s), q) != [] && Filter(Dedup(s), q)[0] == Filter(s, q)[0]
    decreases |s|
  {
    var init, x := s[..|s| - 1], s[|s| - 1];
    assert s == init + [x];
    FilterSnoc(init, x, q);
    FilterSnoc(Dedup(init), x, q);
    if Filter(init, q) != [] {
      DedupFilterHead(init, q);
    } else {
      forall y | y in Dedup(init) ensures !q(y) {
        assert y in init;
      }
      CountZero(Dedup(init), q);
    }
  }

  lemma {:induction false} MapMultiplicity<A, B>(s: seq<A>, f: A -> B, y: B)
    ensures multiset(Map(s, f))[y] == Count(s, KeyIs(f, y))
  {
    if s != [] {
      MapCons(s, f);
      MapMultiplicity(s[1..], f, y);
    }
  }

  lemma MapMultiset<A(!new), B(!new)>(a: seq<A>, b: seq<A>, f: A -> B)
    requires multiset(a) == multiset(b)
    ensures multiset(Map(a, f)) == multiset(Map(b, f))
  {
    forall y ensures multiset(Map(a, f))[y] == multiset(Map(b, f))[y] {
      MapMultiplicity(a, f, y);
      MapMultiplicity(b, f, y);
      FilterPermutation(a, b, KeyIs(f, y));
    }
  }

  // ----- another arrangement: one row moved to the front -----

  function WithoutFirst<T(==)>(s: seq<T>, x: T): seq<T> {
    if s == [] then [] else if s[0] == x then s[1..] else [s[0]] + WithoutFirst(s[1..], x)
  }

  function Fronted<T(==)>(s: seq<T>, x: T): seq<T> {
    [x] + WithoutFirst(s, x)
  }

  lemma {:induction false} FrontedMultiset<T>(s: seq<T>, x: T)
    requires x in s
    ensures multiset(Fronted(s, x)) == multiset(s)
  {
    assert s == [s[0]] + s[1..];
    if s[0] != x {
      FrontedMultiset(s[1..], x);
      assert multiset(Fronted(s, x)) == multiset{s[0]} + multiset(Fronted(s[1..], x));
    }
  }

  /** A row that a filter drops may move without the filter noticing. */
  lemma {:induction false} FrontedUnseen<T>(s: seq<T>, x: T, p: T -> bool)
    requires !p(x)
    ensures Filter(Fronted(s, x), p) == Filter(s, p)
  {
    if s == [] {
      assert Fronted(s, x)[1..] == [];
    } else if s[0] == x {
      assert Fronted(s, x)[1..] == s[1..];
    } else {
      FrontedUnseen(s[1..], x, p);
      assert Fronted(s, x)[1..] == [s[0]] + WithoutFirst(s[1..], x);
      assert Fronted(s[1..], x)[1..] == WithoutFirst(s[1..], x);
    }
  }

  function Flatten<T>(s: seq<seq<T>>): seq<T> {
    if s == [] then [] else s[0] + Flatten(s[1..])
  }

  lemma {:induction false} FlattenAppend<T>(a: seq<seq<T>>, b: seq<seq<T>>)
    ensures Flatten(a + b) == Flatten(a) + Flatten(b)
  {
    if a == [] {
      assert a + b == b;
    } else {
      assert (a + b)[1..] == a[1..] + b;
      FlattenAppend(a[1..], b);
    }
  }

  lemma FlattenSnoc<T>(parts: seq<seq<T>>, last: seq<T>)
    ensures Flatten(parts + [last]) == Flatten(parts) + last
  {
    FlattenAppend(parts, [last]);
    assert [last][1..] == [];
  }

  /** `counts.get(k, 0)`. */
  function Get<K(==)>(counts: map<K, nat>, k: K): nat {
    if k in counts then counts[k] else 0
  }
}
