/** Total orders on rows, stable sorting (Python's `sorted`, SQL's ORDER BY) and
    page slicing. */
module Ordering {
  import opened Seqs

  /** Code-point order on strings; a proper prefix comes first. */
  predicate StrLess(a: string, b: string) {
    b != [] && (a == [] || a[0] < b[0] || (a[0] == b[0] && StrLess(a[1..], b[1..])))
  }

  lemma {:induction false} StrLessIrreflexive(a: string)
    ensures !StrLess(a, a)
  {
    if a != [] {
      StrLessIrreflexive(a[1..]);
    }
  }

  lemma {:induction false} StrLessTransitive(a: string, b: string, c: string)
    requires StrLess(a, b) && StrLess(b, c)
    ensures StrLess(a, c)
  {
    if a != [] && a[0] == b[0] == c[0] {
      StrLessTransitive(a[1..], b[1..], c[1..]);
    }
  }

  lemma {:induction false} StrLessTotal(a: string, b: string)
    ensures StrLess(a, b) || a == b || StrLess(b, a)
  {
    if a != [] && b != [] && a[0] == b[0] {
      StrLessTotal(a[1..], b[1..]);
      assert a == [a[0]] + a[1..] && b == [b[0]] + b[1..];
    }
  }

  /** A sort key: every key tuple of the source is one of these, unused places held constant. */
  datatype Key = Key(n1: int, n2: int, s1: string, s2: string, n3: int)

  predicate KeyLess(a: Key, b: Key) {
    a.n1 < b.n1 || (a.n1 == b.n1 && (
      a.n2 < b.n2 || (a.n2 == b.n2 && (
        StrLess(a.s1, b.s1) || (a.s1 == b.s1 && (
          StrLess(a.s2, b.s2) || (a.s2 == b.s2 && a.n3 < b.n3)))))))
  }

  lemma KeyLessTransitive(a: Key, b: Key, c: Key)
    requires KeyLess(a, b) && KeyLess(b, c)
    ensures KeyLess(a, c)
  {
    if StrLess(a.s1, b.s1) && StrLess(b.s1, c.s1) { StrLessTransitive(a.s1, b.s1, c.s1); }
    if StrLess(a.s2, b.s2) && StrLess(b.s2, c.s2) { StrLessTransitive(a.s2, b.s2, c.s2); }
  }

  lemma KeyLessTrichotomy(a: Key, b: Key)
    ensures KeyLess(a, b) || a == b || KeyLess(b, a)
    ensures !(KeyLess(a, b) && KeyLess(b, a))
  {
    StrLessTotal(a.s1, b.s1);
    StrLessTotal(a.s2, b.s2);
    if KeyLess(a, b) && KeyLess(b, a) {
      KeyLessTransitive(a, b, a);
      StrLessIrreflexive(a.s1);
      StrLessIrreflexive(a.s2);
    }
  }

  predicate Precedes<T>(key: T -> Key, reverse: bool, a: T, b: T) {
    if reverse then KeyLess(key(b), key(a)) else KeyLess(key(a), key(b))
  }

  predicate SortedBy<T>(s: seq<T>, key: T -> Key, reverse: bool) {
    forall i, j :: 0 <= i < j < |s| ==> !Precedes(key, reverse, s[j], s[i])
  }

  function Insert<T>(x: T, s: seq<T>, key: T -> Key, reverse: bool): (r: seq<T>)
    ensures multiset(r) == multiset(s) + multiset{x}
  {
    if s == [] || !Precedes(key, reverse, s[0], x) then
      assert [x] + s == [x] + s[..];
      [x] + s
    else
      assert s == [s[0]] + s[1..];
      [s[0]] + Insert(x, s[1..], key, reverse)
  }

  /** Stable sort by `key`; with `reverse`, descending and still stable. */
  function SortBy<T>(s: seq<T>, key: T -> Key, reverse: bool): (r: seq<T>)
    ensures multiset(r) == multiset(s)
  {
    if s == [] then []
    else
      assert s == [s[0]] + s[1..];
      Insert(s[0], SortBy(s[1..], key, reverse), key, reverse)
  }

  lemma {:induction false} InsertSorted<T>(x: T, s: seq<T>, key: T -> Key, reverse: bool)
    requires SortedBy(s, key, reverse)
    ensures SortedBy(Insert(x, s, key, reverse), key, reverse)
  {
    var r := Insert(x, s, key, reverse);
    if s == [] {
    } else if !Precedes(key, reverse, s[0], x) {
      forall j | 0 <= j < |s| ensures !Precedes(key, reverse, s[j], x) {
        if Precedes(key, reverse, s[j], x) {
          NotPrecedesTransitive(key, reverse, s[j], s[0], x);
        }
      }
    } else {
      InsertSorted(x, s[1..], key, reverse);
      var t := Insert(x, s[1..], key, reverse);
      forall j | 0 <= j < |t| ensures !Precedes(key, reverse, t[j], s[0]) {
        assert t[j] in multiset(t);
        KeyLessTrichotomy(key(s[0]), key(x));
        if t[j] != x {
          assert t[j] in s[1..];
        }
      }
    }
  }

  lemma NotPrecedesTransitive<T>(key: T -> Key, reverse: bool, a: T, b: T, c: T)
    requires !Precedes(key, reverse, a, b) && !Precedes(key, reverse, b, c)
    ensures !Precedes(key, reverse, a, c)
  {
    KeyLessTrichotomy(key(a), key(b));
    KeyLessTrichotomy(key(b), key(c));
    KeyLessTrichotomy(key(a), key(c));
    if Precedes(key, reverse, a, c) {
      if key(a) != key(b) && key(b) != key(c) {
        if reverse { KeyLessTransitive(key(a), key(b), key(c)); } else { KeyLessTransitive(key(c), key(b), key(a)); }
      }
    }
  }

  lemma {:induction false} SortBySorted<T>(s: seq<T>, key: T -> Key, reverse: bool)
    ensures SortedBy(SortBy(s, key, reverse), key, reverse)
  {
    if s != [] {
      SortBySorted(s[1..], key, reverse);
      InsertSorted(s[0], SortBy(s[1..], key, reverse), key, reverse);
    }
  }

  ghost predicate KeyInjective<T>(s: seq<T>, key: T -> Key) {
    forall x, y :: x in s && y in s && key(x) == key(y) ==> x == y
  }

  lemma HeadIsLeast<T>(s: seq<T>, key: T -> Key, reverse: bool, x: T)
    requires SortedBy(s, key, reverse) && x in s
    ensures !Precedes(key, reverse, x, s[0])
  {
    var i :| 0 <= i < |s| && s[i] == x;
    KeyLessTrichotomy(key(x), key(x));
  }

  /** A key that tells rows apart admits one sorted arrangement only. */
  lemma {:induction false} SortedPermutationUnique<T>(a: seq<T>, b: seq<T>, key: T -> Key, reverse: bool)
    requires multiset(a) == multiset(b)
    requires SortedBy(a, key, reverse) && SortedBy(b, key, reverse)
    requires KeyInjective(a, key)
    ensures a == b
  {
    assert |multiset(a)| == |a| && |multiset(b)| == |b|;
    if a != [] {
      assert a[0] == b[0] by {
        assert a[0] in multiset(b) && b[0] in multiset(a);
        HeadIsLeast(a, key, reverse, b[0]);
        HeadIsLeast(b, key, reverse, a[0]);
        KeyLessTrichotomy(key(a[0]), key(b[0]));
      }
      TailMultiset(a);
      TailMultiset(b);
      assert KeyInjective(a[1..], key) by {
        forall x, y | x in a[1..] && y in a[1..] && key(x) == key(y) ensures x == y {
          assert x in a && y in a;
        }
      }
      SortedPermutationUnique(a[1..], b[1..], key, reverse);
    }
  }

  lemma TailMultiset<T>(s: seq<T>)
    requires s != []
    ensures multiset(s[1..]) == multiset(s) - multiset{s[0]}
  {
    assert s == [s[0]] + s[1..];
  }

  /** Sorting by such a key forgets the order the rows arrived in. */
  lemma SortByOrderIndependent<T>(a: seq<T>, b: seq<T>, key: T -> Key, reverse: bool)
    requires multiset(a) == multiset(b)
    requires KeyInjective(a, key)
    ensures SortBy(a, key, reverse) == SortBy(b, key, reverse)
  {
    SortBySorted(a, key, reverse);
    SortBySorted(b, key, reverse);
    var r := SortBy(a, key, reverse);
    forall x, y | x in r && y in r && key(x) == key(y) ensures x == y {
      assert x in multiset(r) && y in multiset(r);
      assert x in a && y in a;
    }
    SortedPermutationUnique(r, SortBy(b, key, reverse), key, reverse);
  }

  function ClampPage(page: int): (r: int)
    ensures r >= 1 && r >= page && (r == page || r == 1)
  {
    if page < 1 then 1 else page
  }

  function ClampSize(size: int, cap: int): (r: int)
    requires cap >= 1
    ensures 1 <= r <= cap && (1 <= size <= cap ==> r == size) && (size > cap ==> r == cap) && (size < 1 ==> r == 1)
  {
    if size > cap then cap else if size < 1 then 1 else size
  }

  function Min(a: int, b: int): int {
    if a < b then a else b
  }

  /** `s[(page - 1) * size : page * size]`, bounds clipped as Python and OFFSET/LIMIT do. */
  function Page<T>(s: seq<T>, page: int, size: int): (r: seq<T>)
    requires page >= 1 && size >= 1
    ensures |r| <= size
  {
    var start := Min((page - 1) * size, |s|);
    assert 0 <= (page - 1) * size;
    s[start..Min(start + size, |s|)]
  }

  lemma PageMembers<T(!new)>(s: seq<T>, page: int, size: int)
    requires page >= 1 && size >= 1
    ensures forall x :: x in Page(s, page, size) ==> x in s
  {
    assert 0 <= (page - 1) * size;
  }

  /** The rows of a page are consecutive rows of the whole, from the page's own place on. */
  lemma PagePlace<T>(s: seq<T>, page: int, size: int, k: nat) returns (at: nat)
    requires page >= 1 && size >= 1 && k < |Page(s, page, size)|
    ensures at == (page - 1) * size + k && at < |s| && Page(s, page, size)[k] == s[at]
  {
    assert 0 <= (page - 1) * size;
    at := (page - 1) * size + k;
  }

  function FirstPages<T>(s: seq<T>, n: nat, size: int): seq<T>
    requires size >= 1
  {
    if n == 0 then [] else FirstPages(s, n - 1, size) + Page(s, n, size)
  }

  /** Reading page after page yields each row exactly once, in order. */
  lemma {:induction false} PagesConcatenate<T>(s: seq<T>, n: nat, size: int)
    requires size >= 1
    ensures FirstPages(s, n, size) == s[..Min(n * size, |s|)]
  {
    if n > 0 {
      PagesConcatenate(s, n - 1, size);
      assert n * size == (n - 1) * size + size;
    }
  }

  /** What a paged view rests on: one arrangement for both arrival orders, each row once, the
      pages in sequence being that arrangement. */
  ghost predicate OneView<T(!new)>(a: seq<T>, b: seq<T>, key: T -> Key, reverse: bool, n: nat, size: int)
    requires size >= 1
  {
    var rows := SortBy(a, key, reverse);
    && SortBy(b, key, reverse) == rows
    && multiset(rows) == multiset(a) && Distinct(rows)
    && FirstPages(rows, n, size) == rows[..Min(n * size, |rows|)]
  }

  lemma StablePages<T(!new)>(a: seq<T>, b: seq<T>, key: T -> Key, reverse: bool, n: nat, size: int)
    requires multiset(a) == multiset(b) && Distinct(a) && KeyInjective(a, key) && size >= 1
    ensures OneView(a, b, key, reverse, n, size)
  {
    SortByOrderIndependent(a, b, key, reverse);
    PermutationDistinct(a, SortBy(a, key, reverse));
    PagesConcatenate(SortBy(a, key, reverse), n, size);
  }

  lemma PermutationDistinct<T>(a: seq<T>, b: seq<T>)
    requires Distinct(a) && multiset(a) == multiset(b)
    ensures Distinct(b)
  {
    forall i, j | 0 <= i < j < |b| ensures b[i] != b[j] {
      if b[i] == b[j] {
        assert b == b[..j] + [b[j]] + b[j + 1..];
        assert b[i] in b[..j];
        assert multiset(b)[b[j]] >= 2;
        DistinctMultiplicity(a, b[j]);
        assert false;
      }
    }
  }

  lemma {:induction false} DistinctMultiplicity<T>(a: seq<T>, x: T)
    requires Distinct(a)
    ensures multiset(a)[x] <= 1
  {
    if a != [] {
      assert a == [a[0]] + a[1..];
      DistinctMultiplicity(a[1..], x);
    }
  }

  lemma DistinctSameElements<T(!new)>(a: seq<T>, b: seq<T>)
    requires Distinct(a) && Distinct(b) && forall x :: x in a <==> x in b
    ensures multiset(a) == multiset(b)
  {
    forall x: T ensures multiset(a)[x] == multiset(b)[x] {
      DistinctMultiplicity(a, x);
      DistinctMultiplicity(b, x);
      assert x in a <==> x in multiset(a);
      assert x in b <==> x in multiset(b);
    }
  }

  /** Sorting keeps the rows: same length, same members, no new repeats. */
  lemma SortByMembers<T(!new)>(s: seq<T>, key: T -> Key, reverse: bool)
    ensures |SortBy(s, key, reverse)| == |s|
    ensures forall x :: x in SortBy(s, key, reverse) <==> x in s
    ensures Distinct(s) ==> Distinct(SortBy(s, key, reverse))
  {
    var r := SortBy(s, key, reverse);
    assert |multiset(r)| == |r| && |multiset(s)| == |s|;
    SamePermutationMembers(r, s);
    if Distinct(s) {
      PermutationDistinct(s, r);
    }
  }

  lemma SamePermutationMembers<T(!new)>(a: seq<T>, b: seq<T>)
    requires multiset(a) == multiset(b)
    ensures forall x :: x in a <==> x in b
  {
    forall x ensures x in a <==> x in b {
      assert x in a <==> x in multiset(a);
      assert x in b <==> x in multiset(b);
    }
  }

  /** A key that tells rows apart sorts them strictly. */
  lemma SortedStrictly<T(!new)>(s: seq<T>, key: T -> Key, reverse: bool, i: nat, j: nat)
    requires Distinct(s) && KeyInjective(s, key) && i < j < |SortBy(s, key, reverse)|
    ensures var r := SortBy(s, key, reverse); Precedes(key, reverse, r[i], r[j])
  {
    var r := SortBy(s, key, reverse);
    SortBySorted(s, key, reverse);
    SortByMembers(s, key, reverse);
    assert r[i] in r && r[j] in r && r[i] != r[j];
    assert !Precedes(key, reverse, r[j], r[i]);
    KeyLessTrichotomy(key(r[i]), key(r[j]));
  }

  /** So does a page of them. */
  lemma PageStrictly<T(!new)>(s: seq<T>, key: T -> Key, reverse: bool, page: int, size: int, i: nat, j: nat)
    requires Distinct(s) && KeyInjective(s, key) && page >= 1 && size >= 1
    requires i < j < |Page(SortBy(s, key, reverse), page, size)|
    ensures var r := Page(SortBy(s, key, reverse), page, size); Precedes(key, reverse, r[i], r[j])
  {
    var a := PagePlace(SortBy(s, key, reverse), page, size, i);
    var b := PagePlace(SortBy(s, key, reverse), page, size, j);
    SortedStrictly(s, key, reverse, a, b);
  }

  // ----- what a stable sort keeps -----

  lemma {:induction false} InsertGroup<T>(x: T, s: seq<T>, key: T -> Key, reverse: bool, k: Key)
    ensures Filter(Insert(x, s, key, reverse), KeyIs(key, k))
            == (if key(x) == k then [x] else []) + Filter(s, KeyIs(key, k))
  {
    if s == [] || !Precedes(key, reverse, s[0], x) {
      FilterHead(x, s, KeyIs(key, k));
    } else {
      KeyLessTrichotomy(key(s[0]), key(x));
      InsertGroup(x, s[1..], key, reverse, k);
      SteppedOver(x, s[0], s[1..], Insert(x, s[1..], key, reverse), KeyIs(key, k));
      assert s == [s[0]] + s[1..];
    }
  }

  /** A row stepped over has another key, so no group changes its order. */
  lemma SteppedOver<T>(x: T, y: T, rest: seq<T>, t: seq<T>, p: T -> bool)
    requires !(p(x) && p(y)) && Filter(t, p) == (if p(x) then [x] else []) + Filter(rest, p)
    ensures Filter([y] + t, p) == (if p(x) then [x] else []) + Filter([y] + rest, p)
  {
    FilterHead(y, t, p);
    FilterHead(y, rest, p);
    if p(y) {
      assert Filter(t, p) == Filter(rest, p);
      assert Filter([y] + t, p) == [y] + Filter(rest, p) == Filter([y] + rest, p);
    } else {
      assert Filter([y] + t, p) == Filter(t, p) && Filter([y] + rest, p) == Filter(rest, p);
    }
  }

  /** Rows with equal keys keep the order they arrived in. */
  lemma {:induction false} SortGroup<T>(s: seq<T>, key: T -> Key, reverse: bool, k: Key)
    ensures Filter(SortBy(s, key, reverse), KeyIs(key, k)) == Filter(s, KeyIs(key, k))
  {
    if s != [] {
      SortGroup(s[1..], key, reverse, k);
      InsertGroup(s[0], SortBy(s[1..], key, reverse), key, reverse, k);
    }
  }

  ghost predicate SameGroups<T>(a: seq<T>, b: seq<T>, key: T -> Key) {
    forall k :: Filter(a, KeyIs(key, k)) == Filter(b, KeyIs(key, k))
  }

  lemma GroupHead<T>(a: seq<T>, b: seq<T>, key: T -> Key, reverse: bool)
    requires SortedBy(a, key, reverse) && SameGroups(a, b, key) && b != []
    ensures a != [] && !Precedes(key, reverse, b[0], a[0])
  {
    var k := key(b[0]);
    assert Filter(a, KeyIs(key, k)) == Filter(b, KeyIs(key, k)) == [b[0]] + Filter(b[1..], KeyIs(key, k));
    assert b[0] in Filter(a, KeyIs(key, k));
    HeadIsLeast(a, key, reverse, b[0]);
  }

  lemma GroupTails<T>(a: seq<T>, b: seq<T>, key: T -> Key)
    requires SameGroups(a, b, key) && a != [] && b != [] && key(a[0]) == key(b[0])
    ensures a[0] == b[0] && SameGroups(a[1..], b[1..], key)
  {
    var k0 := key(a[0]);
    assert Filter(a, KeyIs(key, k0)) == Filter(b, KeyIs(key, k0));
    assert Filter(a, KeyIs(key, k0))[0] == a[0] && Filter(b, KeyIs(key, k0))[0] == b[0];
    forall k ensures Filter(a[1..], KeyIs(key, k)) == Filter(b[1..], KeyIs(key, k)) {
      assert Filter(a, KeyIs(key, k)) == Filter(b, KeyIs(key, k));
      var head := if key(a[0]) == k then [a[0]] else [];
      assert Filter(a, KeyIs(key, k)) == head + Filter(a[1..], KeyIs(key, k));
      assert Filter(b, KeyIs(key, k)) == head + Filter(b[1..], KeyIs(key, k));
      assert Filter(a[1..], KeyIs(key, k)) == Filter(a, KeyIs(key, k))[|head|..];
    }
  }

  /** A sorted arrangement is known by its groups. */
  lemma {:induction false} SortedByGroups<T>(a: seq<T>, b: seq<T>, key: T -> Key, reverse: bool)
    requires SortedBy(a, key, reverse) && SortedBy(b, key, reverse) && SameGroups(a, b, key)
    ensures a == b
  {
    if b != [] {
      GroupHead(a, b, key, reverse);
      GroupHead(b, a, key, reverse);
      KeyLessTrichotomy(key(a[0]), key(b[0]));
      GroupTails(a, b, key);
      SortedByGroups(a[1..], b[1..], key, reverse);
    } else if a != [] {
      GroupHead(b, a, key, reverse);
    }
  }

  /** Two arrivals sort alike exactly when each key's rows arrive in the same order. */
  lemma SortsAlike<T>(a: seq<T>, b: seq<T>, key: T -> Key, reverse: bool)
    ensures SortBy(a, key, reverse) == SortBy(b, key, reverse) <==> SameGroups(a, b, key)
  {
    var x, y := SortBy(a, key, reverse), SortBy(b, key, reverse);
    forall k ensures Filter(x, KeyIs(key, k)) == Filter(a, KeyIs(key, k)) {
      SortGroup(a, key, reverse, k);
    }
    forall k ensures Filter(y, KeyIs(key, k)) == Filter(b, KeyIs(key, k)) {
      SortGroup(b, key, reverse, k);
    }
    SortBySorted(a, key, reverse);
    SortBySorted(b, key, reverse);
    if SameGroups(a, b, key) {
      assert SameGroups(x, y, key);
      SortedByGroups(x, y, key, reverse);
    }
  }

  lemma {:induction false} FilterSorted<T>(s: seq<T>, key: T -> Key, reverse: bool, p: T -> bool)
    requires SortedBy(s, key, reverse)
    ensures SortedBy(Filter(s, p), key, reverse)
  {
    if s != [] {
      assert SortedBy(s[1..], key, reverse);
      FilterSorted(s[1..], key, reverse, p);
      var rest := Filter(s[1..], p);
      forall x | x in rest ensures !Precedes(key, reverse, x, s[0]) {
        HeadIsLeast(s, key, reverse, x);
      }
      forall j | 0 <= j < |rest| ensures !Precedes(key, reverse, rest[j], s[0]) {
        assert rest[j] in rest;
      }
    }
  }

  /** Filtering what was sorted is sorting what was filtered. */
  lemma SortFilter<T>(s: seq<T>, key: T -> Key, reverse: bool, p: T -> bool)
    ensures Filter(SortBy(s, key, reverse), p) == SortBy(Filter(s, p), key, reverse)
  {
    var a, b := Filter(SortBy(s, key, reverse), p), SortBy(Filter(s, p), key, reverse);
    SortBySorted(s, key, reverse);
    FilterSorted(SortBy(s, key, reverse), key, reverse, p);
    SortBySorted(Filter(s, p), key, reverse);
    forall k ensures Filter(a, KeyIs(key, k)) == Filter(b, KeyIs(key, k)) {
      FiltersCommute(SortBy(s, key, reverse), p, KeyIs(key, k));
      SortGroup(s, key, reverse, k);
      FiltersCommute(s, p, KeyIs(key, k));
      SortGroup(Filter(s, p), key, reverse, k);
    }
    SortedByGroups(a, b, key, reverse);
  }

  lemma Apart<T>(a: seq<T>, b: seq<T>, c: seq<T>, d: seq<T>, p: T -> bool)
    requires (forall x :: x in a || x in c ==> p(x)) && (forall x :: x in b || x in d ==> !p(x))
    ensures a + b == c + d <==> a == c && b == d
  {
    if a + b == c + d {
      FilterAppend(a, b, p);
      FilterAppend(c, d, p);
      FilterAll(a, p);
      FilterAll(c, p);
      CountZero(b, p);
      CountZero(d, p);
      assert a == Filter(a + b, p) == c;
      assert b == (a + b)[|a|..] == d;
    }
  }

  /** Two kinds of rows sort alike together exactly when each kind does. */
  lemma SortsApart<T>(a: seq<T>, b: seq<T>, c: seq<T>, d: seq<T>, key: T -> Key, reverse: bool, p: T -> bool)
    requires (forall x :: x in a || x in c ==> p(x)) && (forall x :: x in b || x in d ==> !p(x))
    ensures SortBy(a + b, key, reverse) == SortBy(c + d, key, reverse)
            <==> (&& SortBy(a, key, reverse) == SortBy(c, key, reverse)
                  && SortBy(b, key, reverse) == SortBy(d, key, reverse))
  {
    SortsAlike(a + b, c + d, key, reverse);
    SortsAlike(a, c, key, reverse);
    SortsAlike(b, d, key, reverse);
    forall k
      ensures Filter(a + b, KeyIs(key, k)) == Filter(c + d, KeyIs(key, k))
              <==> Filter(a, KeyIs(key, k)) == Filter(c, KeyIs(key, k))
                   && Filter(b, KeyIs(key, k)) == Filter(d, KeyIs(key, k)) {
      FilterAppend(a, b, KeyIs(key, k));
      FilterAppend(c, d, KeyIs(key, k));
      Apart(Filter(a, KeyIs(key, k)), Filter(b, KeyIs(key, k)), Filter(c, KeyIs(key, k)), Filter(d, KeyIs(key, k)), p);
    }
  }

  lemma SortTwice<T>(s: seq<T>, key: T -> Key, reverse: bool)
    ensures SortBy(SortBy(s, key, reverse), key, reverse) == SortBy(s, key, reverse)
  {
    forall k ensures Filter(SortBy(s, key, reverse), KeyIs(key, k)) == Filter(s, KeyIs(key, k)) {
      SortGroup(s, key, reverse, k);
    }
    SortsAlike(SortBy(s, key, reverse), s, key, reverse);
  }

  /** Selecting, sorting, selecting and sorting again is one selection, sorted once. */
  lemma SortSelection<T>(s: seq<T>, key: T -> Key, reverse: bool, p: T -> bool, q: T -> bool, r: T -> bool)
    requires forall x :: x in s ==> r(x) == (p(x) && q(x))
    ensures SortBy(Filter(SortBy(Filter(s, p), key, reverse), q), key, reverse) == SortBy(Filter(s, r), key, reverse)
  {
    SortFilter(Filter(s, p), key, reverse, q);
    FilterNarrow(s, p, q, r);
    SortTwice(Filter(s, r), key, reverse);
  }

  lemma HeadKept<T>(s: seq<T>, p: T -> bool)
    requires s != [] && p(s[0])
    ensures Filter(s, p) != [] && Filter(s, p)[0] == s[0]
  {
  }

  /** A row read first stays the first of its key. */
  lemma FirstOfKey<T>(s: seq<T>, key: T -> Key, reverse: bool, p: T -> bool, q: T -> bool)
    requires s != [] && p(s[0]) && q(s[0])
    ensures var group := Filter(Filter(SortBy(Filter(s, p), key, reverse), q), KeyIs(key, key(s[0])));
            group != [] && group[0] == s[0]
  {
    var rows, mine := SortBy(Filter(s, p), key, reverse), KeyIs(key, key(s[0]));
    FiltersCommute(rows, q, mine);
    SortGroup(Filter(s, p), key, reverse, key(s[0]));
    HeadKept(s, p);
    HeadKept(Filter(s, p), mine);
    HeadKept(Filter(Filter(s, p), mine), q);
  }

  /** Two sorted arrangements of the same rows have the same keys, place by place. */
  lemma SortedKeys<T(!new)>(a: seq<T>, b: seq<T>, key: T -> Key, reverse: bool)
    requires multiset(a) == multiset(b) && SortedBy(a, key, reverse) && SortedBy(b, key, reverse)
    ensures Map(a, key) == Map(b, key)
  {
    var same := (k: Key) => k;
    MapMultiset(a, b, key);
    SortedPermutationUnique(Map(a, key), Map(b, key), same, reverse);
  }

  lemma SamePlaces<A, B>(a: seq<A>, b: seq<A>, f: A -> B)
    requires Map(a, f) == Map(b, f)
    ensures |a| == |b| && forall i :: 0 <= i < |a| ==> f(a[i]) == f(b[i])
  {
    assert |a| == |Map(a, f)| == |Map(b, f)| == |b|;
    assert forall i :: 0 <= i < |a| ==> Map(a, f)[i] == Map(b, f)[i];
  }

  /** Sorting two arrivals of the same rows puts equal keys in equal places. */
  lemma SortedPlaces<T(!new)>(a: seq<T>, b: seq<T>, key: T -> Key, reverse: bool)
    requires multiset(a) == multiset(b)
    ensures var x, y := SortBy(a, key, reverse), SortBy(b, key, reverse);
            |x| == |y| && forall i :: 0 <= i < |x| ==> key(x[i]) == key(y[i])
  {
    SortBySorted(a, key, reverse);
    SortBySorted(b, key, reverse);
    SortedKeys(SortBy(a, key, reverse), SortBy(b, key, reverse), key, reverse);
    SamePlaces(SortBy(a, key, reverse), SortBy(b, key, reverse), key);
  }

  // ----- pages -----

  ghost predicate PagesAlike<T>(a: seq<T>, b: seq<T>, size: int)
    requires size >= 1
  {
    forall page :: page >= 1 ==> Page(a, page, size) == Page(b, page, size)
  }

  lemma {:induction false} SamePages<T>(a: seq<T>, b: seq<T>, n: nat, size: int)
    requires size >= 1 && PagesAlike(a, b, size)
    ensures FirstPages(a, n, size) == FirstPages(b, n, size)
  {
    if n > 0 {
      SamePages(a, b, n - 1, size);
    }
  }

  lemma EnoughPages<T>(s: seq<T>, n: nat, size: int)
    requires size >= 1 && n >= |s|
    ensures FirstPages(s, n, size) == s
  {
    PagesConcatenate(s, n, size);
    Grows(n, size);
    assert s[..|s|] == s;
  }

  lemma Grows(n: nat, size: int)
    requires size >= 1
    ensures n * size >= n
  {
  }

  /** Arrangements with the same pages are the same. */
  lemma PagedAlike<T>(a: seq<T>, b: seq<T>, size: int)
    requires size >= 1
    ensures PagesAlike(a, b, size) <==> a == b
  {
    if PagesAlike(a, b, size) {
      var n := |a| + |b|;
      SamePages(a, b, n, size);
      EnoughPages(a, n, size);
      EnoughPages(b, n, size);
    }
  }
}
