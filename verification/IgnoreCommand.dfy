/** The `@toleman ignore finding=...` comment grammar (app/api/webhooks.py): a regular
    expression with Python's backtracking priorities, and the text it captures. */
module IgnoreCommand {
  import opened Prelude
  import opened Seqs

  // ----- characters -----

  /** What `\s` and str.strip treat as whitespace. */
  predicate IsSpace(c: char) {
    || '\U{0009}' <= c <= '\U{000D}' || '\U{001C}' <= c <= '\U{0020}' || c == '\U{0085}' || c == '\U{00A0}'
    || c == '\U{1680}' || '\U{2000}' <= c <= '\U{200A}' || c == '\U{2028}' || c == '\U{2029}'
    || c == '\U{202F}' || c == '\U{205F}' || c == '\U{3000}'
  }

  /** The code points one by one. */
  lemma SpaceMeans(c: char)
    ensures var n := c as int;
            IsSpace(c) <==> || 9 <= n <= 13 || 28 <= n <= 32 || n == 133 || n == 160 || n == 5760 || 8192 <= n <= 8202
                            || n == 8232 || n == 8233 || n == 8239 || n == 8287 || n == 12288
  {
  }

  predicate IsDigit(c: char) {
    '0' <= c <= '9'
  }

  datatype Class = Space | Digit | Dot

  predicate In(c: Class, x: char) {
    match c
    case Space => IsSpace(x)
    case Digit => IsDigit(x)
    case Dot => x != '\n'
  }

  function Lower(c: char): char {
    if 'A' <= c <= 'Z' then 'a' + (c - 'A') else if c == '\U{0130}' || c == '\U{0131}' then 'i' else c
  }

  /** What a letter of the command matches: itself, its capital and, for `i`, the dotted capital and the
      dotless small one. */
  lemma LowerMeans(c: char, letter: char)
    requires 'a' <= letter <= 'z'
    ensures Lower(c) == letter
            <==> (|| c == letter || c as int == letter as int - 32
                  || (letter == 'i' && (c as int == 304 || c as int == 305)))
  {
  }

  /** re.IGNORECASE on the command's letters. */
  predicate CaseEq(a: string, b: string) {
    |a| == |b| && forall k :: 0 <= k < |a| ==> Lower(a[k]) == Lower(b[k])
  }

  // ----- backtracking matching -----

  datatype Re = Lit(text: string) | One(c: Class) | Cat(a: Re, b: Re) | Star(r: Re)

  function Plus(r: Re): Re {
    Cat(r, Star(r))
  }

  predicate Within(js: seq<nat>, lo: int, hi: int) {
    forall k :: 0 <= k < |js| ==> lo <= js[k] <= hi
  }

  /** Where a match starting at `i` can end, in the order backtracking tries them:
      greedy repetition first, an empty repetition never looping. */
  function Ends(re: Re, s: string, i: nat): (r: seq<nat>)
    requires i <= |s|
    ensures Within(r, i, |s|)
    decreases |s| - i, re, 0
  {
    match re
    case Lit(t) => if i + |t| <= |s| && CaseEq(s[i..i + |t|], t) then [i + |t|] else []
    case One(c) => if i < |s| && In(c, s[i]) then [i + 1] else []
    case Cat(a, b) => EndsFrom(b, s, Ends(a, s, i), i)
    case Star(r) => AgainFrom(r, s, Ends(r, s, i), i) + [i]
  }

  function EndsFrom(b: Re, s: string, js: seq<nat>, i: nat): (r: seq<nat>)
    requires i <= |s| && Within(js, i, |s|)
    ensures Within(r, i, |s|)
    decreases |s| - i, b, |js|
  {
    if js == [] then [] else Ends(b, s, js[0]) + EndsFrom(b, s, js[1..], i)
  }

  function AgainFrom(r: Re, s: string, js: seq<nat>, i: nat): (e: seq<nat>)
    requires i <= |s| && Within(js, i, |s|)
    ensures Within(e, i, |s|)
    decreases |s| - i, r, |js|
  {
    if js == [] then [] else (if js[0] > i then Ends(Star(r), s, js[0]) else []) + AgainFrom(r, s, js[1..], i)
  }

  // ----- IGNORE_COMMAND_RE -----

  const SP := Plus(One(Space))
  const DIGITS := Plus(One(Digit))
  const HEAD := Cat(Lit("@toleman"), Cat(SP, Cat(Lit("ignore"), Cat(SP, Lit("finding=")))))
  const MORE := Cat(Star(One(Space)), Cat(Lit(","), Cat(Star(One(Space)), DIGITS)))
  const IDS := Cat(DIGITS, Star(MORE))
  const REASON := Plus(One(Dot))

  datatype Command = Command(ids: string, reason: string)

  function TryReason(s: string, from: nat, e: nat, ws: seq<nat>): Option<Command>
    requires from <= e <= |s| && Within(ws, e, |s|)
    decreases |ws|
  {
    if ws == [] then None
    else
      var rs := Ends(REASON, s, ws[0]);
      if rs != [] then Some(Command(s[from..e], s[ws[0]..rs[0]])) else TryReason(s, from, e, ws[1..])
  }

  function TryIds(s: string, from: nat, es: seq<nat>): Option<Command>
    requires from <= |s| && Within(es, from, |s|)
    decreases |es|
  {
    if es == [] then None
    else
      var m := TryReason(s, from, es[0], Ends(SP, s, es[0]));
      if m.Some? then m else TryIds(s, from, es[1..])
  }

  function TryHead(s: string, starts: seq<nat>): Option<Command>
    requires Within(starts, 0, |s|)
    decreases |starts|
  {
    if starts == [] then None
    else
      var m := TryIds(s, starts[0], Ends(IDS, s, starts[0]));
      if m.Some? then m else TryHead(s, starts[1..])
  }

  /** The whole expression, tried from `i`. */
  function MatchAt(s: string, i: nat): Option<Command>
    requires i <= |s|
  {
    TryHead(s, Ends(HEAD, s, i))
  }

  /** IGNORE_COMMAND_RE.search: the leftmost start that matches at all. */
  function Search(s: string, i: nat): Option<Command>
    requires i <= |s|
    decreases |s| - i
  {
    var m := MatchAt(s, i);
    if m.Some? then m else if i == |s| then None else Search(s, i + 1)
  }

  // ----- first choices -----

  lemma CatFirst(a: Re, b: Re, s: string, i: nat, j: nat, k: nat)
    requires i <= |s| && Ends(a, s, i) != [] && Ends(a, s, i)[0] == j
    requires j <= |s| && Ends(b, s, j) != [] && Ends(b, s, j)[0] == k
    ensures Ends(Cat(a, b), s, i) != [] && Ends(Cat(a, b), s, i)[0] == k
  {
  }

  lemma StarFirst(r: Re, s: string, i: nat, j: nat)
    requires i < j && i <= |s| && Ends(r, s, i) != [] && Ends(r, s, i)[0] == j && j <= |s|
    ensures Ends(Star(r), s, j) != []
    ensures Ends(Star(r), s, i) != [] && Ends(Star(r), s, i)[0] == Ends(Star(r), s, j)[0]
  {
  }

  predicate All(c: Class, t: string) {
    forall k :: 0 <= k < |t| ==> In(c, t[k])
  }

  /** `t` occurs in `s` at `i`. */
  predicate At(s: string, i: nat, t: string) {
    i + |t| <= |s| && s[i..i + |t|] == t
  }

  /** The run of class characters ends here. */
  predicate Stops(c: Class, s: string, e: nat) {
    e <= |s| && (e == |s| || !In(c, s[e]))
  }

  lemma {:induction false} RunStar(c: Class, s: string, i: nat, t: string)
    requires At(s, i, t) && All(c, t) && Stops(c, s, i + |t|)
    ensures var es := Ends(Star(One(c)), s, i);
            es != [] && es[0] == i + |t| && Within(es, i, i + |t|)
    decreases |t|
  {
    if t != [] {
      assert s[i] == t[0];
      assert s[i + 1..i + |t|] == t[1..];
      RunStar(c, s, i + 1, t[1..]);
      StarFirst(One(c), s, i, i + 1);
      assert AgainFrom(One(c), s, [], i) == [];
      assert AgainFrom(One(c), s, [i + 1], i) == Ends(Star(One(c)), s, i + 1);
    } else {
      assert AgainFrom(One(c), s, [], i) == [];
    }
  }

  lemma RunPlus(c: Class, s: string, i: nat, t: string)
    requires At(s, i, t) && All(c, t) && t != [] && Stops(c, s, i + |t|)
    ensures Ends(Plus(One(c)), s, i) != [] && Ends(Plus(One(c)), s, i)[0] == i + |t|
  {
    assert s[i] == t[0];
    assert s[i + 1..i + |t|] == t[1..];
    RunStar(c, s, i + 1, t[1..]);
    CatFirst(One(c), Star(One(c)), s, i, i + 1, i + |t|);
  }

  lemma LitEnds(t: string, s: string, i: nat, w: string)
    requires At(s, i, w) && CaseEq(w, t)
    ensures Ends(Lit(t), s, i) == [i + |t|]
  {
  }

  // ----- all choices: a match enters the list, and every entry is a match -----

  lemma {:induction false} EndsFromEnter(b: Re, s: string, js: seq<nat>, i: nat, j: nat, k: nat)
    requires i <= |s| && Within(js, i, |s|) && j in js && j <= |s| && k in Ends(b, s, j)
    ensures k in EndsFrom(b, s, js, i)
    decreases |js|
  {
    if j != js[0] {
      EndsFromEnter(b, s, js[1..], i, j, k);
    }
  }

  lemma {:induction false} EndsFromLeave(b: Re, s: string, js: seq<nat>, i: nat, k: nat) returns (j: nat)
    requires i <= |s| && Within(js, i, |s|) && k in EndsFrom(b, s, js, i)
    ensures j in js && i <= j <= |s| && k in Ends(b, s, j)
    decreases |js|
  {
    if k in Ends(b, s, js[0]) {
      j := js[0];
    } else {
      j := EndsFromLeave(b, s, js[1..], i, k);
    }
  }

  lemma CatEnter(a: Re, b: Re, s: string, i: nat, j: nat, k: nat)
    requires i <= |s| && j in Ends(a, s, i) && j <= |s| && k in Ends(b, s, j)
    ensures k in Ends(Cat(a, b), s, i)
  {
    EndsFromEnter(b, s, Ends(a, s, i), i, j, k);
  }

  lemma CatLeave(a: Re, b: Re, s: string, i: nat, k: nat) returns (j: nat)
    requires i <= |s| && k in Ends(Cat(a, b), s, i)
    ensures j in Ends(a, s, i) && i <= j <= |s| && k in Ends(b, s, j)
  {
    j := EndsFromLeave(b, s, Ends(a, s, i), i, k);
  }

  lemma {:induction false} AgainFromEnter(r: Re, s: string, js: seq<nat>, i: nat, j: nat, k: nat)
    requires i <= |s| && Within(js, i, |s|) && j in js && i < j <= |s| && k in Ends(Star(r), s, j)
    ensures k in AgainFrom(r, s, js, i)
    decreases |js|
  {
    if j != js[0] {
      AgainFromEnter(r, s, js[1..], i, j, k);
    }
  }

  lemma {:induction false} AgainFromLeave(r: Re, s: string, js: seq<nat>, i: nat, k: nat) returns (j: nat)
    requires i <= |s| && Within(js, i, |s|) && k in AgainFrom(r, s, js, i)
    ensures j in js && i < j <= |s| && k in Ends(Star(r), s, j)
    decreases |js|
  {
    if js[0] > i && k in Ends(Star(r), s, js[0]) {
      j := js[0];
    } else {
      j := AgainFromLeave(r, s, js[1..], i, k);
    }
  }

  lemma StarEnter(r: Re, s: string, i: nat, j: nat, k: nat)
    requires i < j <= |s| && j in Ends(r, s, i) && k in Ends(Star(r), s, j)
    ensures k in Ends(Star(r), s, i)
  {
    AgainFromEnter(r, s, Ends(r, s, i), i, j, k);
  }

  lemma StarLeave(r: Re, s: string, i: nat, k: nat) returns (j: nat)
    requires i <= |s| && k in Ends(Star(r), s, i) && k != i
    ensures j in Ends(r, s, i) && i < j <= |s| && k in Ends(Star(r), s, j)
  {
    assert k in AgainFrom(r, s, Ends(r, s, i), i);
    j := AgainFromLeave(r, s, Ends(r, s, i), i, k);
  }

  lemma {:induction false} RunEnter(c: Class, s: string, i: nat, t: string)
    requires At(s, i, t) && All(c, t)
    ensures i + |t| in Ends(Star(One(c)), s, i)
    decreases |t|
  {
    if t != [] {
      assert s[i] == t[0];
      assert s[i + 1..i + |t|] == t[1..];
      RunEnter(c, s, i + 1, t[1..]);
      StarEnter(One(c), s, i, i + 1, i + |t|);
    }
  }

  lemma OneLeave(c: Class, s: string, i: nat, j: nat)
    requires i <= |s| && j in Ends(One(c), s, i)
    ensures j == i + 1 <= |s| && In(c, s[i])
  {
  }

  lemma AllCons(c: Class, s: string, i: nat, k: nat)
    requires i < k <= |s| && In(c, s[i]) && All(c, s[i + 1..k])
    ensures All(c, s[i..k])
  {
    assert s[i..k] == [s[i]] + s[i + 1..k];
  }

  lemma {:induction false} RunLeave(c: Class, s: string, i: nat, k: nat)
    requires i <= |s| && k in Ends(Star(One(c)), s, i)
    ensures i <= k <= |s| && All(c, s[i..k])
    decreases |s| - i
  {
    if k != i {
      var j := StarLeave(One(c), s, i, k);
      OneLeave(c, s, i, j);
      RunLeave(c, s, j, k);
      AllCons(c, s, i, k);
    }
  }

  lemma PlusEnter(c: Class, s: string, i: nat, t: string)
    requires At(s, i, t) && All(c, t) && t != []
    ensures i + |t| in Ends(Plus(One(c)), s, i)
  {
    assert s[i] == t[0];
    assert s[i + 1..i + |t|] == t[1..];
    RunEnter(c, s, i + 1, t[1..]);
    CatEnter(One(c), Star(One(c)), s, i, i + 1, i + |t|);
  }

  lemma PlusLeave(c: Class, s: string, i: nat, k: nat)
    requires i <= |s| && k in Ends(Plus(One(c)), s, i)
    ensures i < k <= |s| && All(c, s[i..k])
  {
    var j := CatLeave(One(c), Star(One(c)), s, i, k);
    OneLeave(c, s, i, j);
    RunLeave(c, s, j, k);
    AllCons(c, s, i, k);
  }

  // ----- the printed command -----

  /** One separator: whitespace, a comma, whitespace. */
  datatype Sep = Sep(before: string, after: string)

  function SepText(p: Sep): string {
    p.before + "," + p.after
  }

  predicate ValidItems(items: seq<string>, seps: seq<Sep>) {
    && |items| == |seps| + 1
    && (forall d :: d in items ==> d != [] && All(Digit, d))
    && (forall p :: p in seps ==> All(Space, p.before) && All(Space, p.after))
  }

  /** The ids after the first, each behind its separator. */
  function TailText(items: seq<string>, seps: seq<Sep>): string
    requires |items| == |seps|
  {
    if items == [] then "" else SepText(seps[0]) + items[0] + TailText(items[1..], seps[1..])
  }

  function IdsText(items: seq<string>, seps: seq<Sep>): string
    requires |items| == |seps| + 1
  {
    items[0] + TailText(items[1..], seps)
  }

  lemma AtSplit(s: string, i: nat, a: string, b: string)
    requires At(s, i, a + b)
    ensures At(s, i, a) && At(s, i + |a|, b)
  {
    assert s[i..i + |a|] == (a + b)[..|a|];
    assert s[i + |a|..i + |a| + |b|] == (a + b)[|a|..];
  }

  /** Whitespace follows, so a number ends here. */
  predicate GapAt(s: string, e: nat) {
    e < |s| && IsSpace(s[e])
  }

  /** What may follow a number in the list: another separator, or the gap. */
  lemma NumberStops(s: string, e: nat, items: seq<string>, seps: seq<Sep>)
    requires |items| == |seps| && forall p :: p in seps ==> All(Space, p.before)
    requires At(s, e, TailText(items, seps)) && GapAt(s, e + |TailText(items, seps)|)
    ensures Stops(Digit, s, e)
  {
    if items != [] {
      assert s[e] == TailText(items, seps)[0] == SepText(seps[0])[0];
      assert seps[0] in seps;
    }
  }

  lemma SpacedNumber(s: string, i: nat, a: string, d: string)
    requires All(Space, a) && d != [] && All(Digit, d)
    requires At(s, i, a + d) && Stops(Digit, s, i + |a + d|)
    ensures Ends(Cat(Star(One(Space)), DIGITS), s, i) != []
            && Ends(Cat(Star(One(Space)), DIGITS), s, i)[0] == i + |a + d|
  {
    AtSplit(s, i, a, d);
    assert s[i + |a|] == d[0];
    assert In(Digit, d[0]);
    RunStar(Space, s, i, a);
    RunPlus(Digit, s, i + |a|, d);
    CatFirst(Star(One(Space)), DIGITS, s, i, i + |a|, i + |a + d|);
  }

  lemma CommaNumber(s: string, i: nat, a: string, d: string)
    requires All(Space, a) && d != [] && All(Digit, d)
    requires At(s, i, "," + (a + d)) && Stops(Digit, s, i + 1 + |a + d|)
    ensures var re := Cat(Lit(","), Cat(Star(One(Space)), DIGITS));
            Ends(re, s, i) != [] && Ends(re, s, i)[0] == i + 1 + |a + d|
  {
    AtSplit(s, i, ",", a + d);
    LitEnds(",", s, i, ",");
    SpacedNumber(s, i + 1, a, d);
    CatFirst(Lit(","), Cat(Star(One(Space)), DIGITS), s, i, i + 1, i + 1 + |a + d|);
  }

  lemma SpaceThenComma(s: string, i: nat, b: string, rest: string)
    requires All(Space, b) && At(s, i, b) && At(s, i + |b|, "," + rest)
    ensures Ends(Star(One(Space)), s, i) != [] && Ends(Star(One(Space)), s, i)[0] == i + |b|
  {
    assert s[i + |b|] == ("," + rest)[0];
    RunStar(Space, s, i, b);
  }

  lemma SpacedComma(s: string, i: nat, b: string, rest: string, re: Re)
    requires All(Space, b) && At(s, i, b) && At(s, i + |b|, "," + rest)
    requires Ends(Cat(Lit(","), re), s, i + |b|) != []
    ensures Ends(Cat(Star(One(Space)), Cat(Lit(","), re)), s, i) != []
    ensures Ends(Cat(Star(One(Space)), Cat(Lit(","), re)), s, i)[0] == Ends(Cat(Lit(","), re), s, i + |b|)[0]
  {
    var j := i + |b|;
    SpaceThenComma(s, i, b, rest);
    CatFirst(Star(One(Space)), Cat(Lit(","), re), s, i, j, Ends(Cat(Lit(","), re), s, j)[0]);
  }

  lemma OneMore(s: string, i: nat, p: Sep, d: string)
    requires All(Space, p.before) && All(Space, p.after) && d != [] && All(Digit, d)
    requires At(s, i, SepText(p) + d) && Stops(Digit, s, i + |SepText(p) + d|)
    ensures Ends(MORE, s, i) != [] && Ends(MORE, s, i)[0] == i + |SepText(p) + d|
  {
    var j := i + |p.before|;
    assert SepText(p) + d == p.before + ("," + (p.after + d));
    AtSplit(s, i, p.before, "," + (p.after + d));
    CommaNumber(s, j, p.after, d);
    SpacedComma(s, i, p.before, p.after + d, Cat(Star(One(Space)), DIGITS));
  }

  predicate ValidTailItems(items: seq<string>, seps: seq<Sep>) {
    && |items| == |seps| && (forall d :: d in items ==> d != [] && All(Digit, d))
    && forall p :: p in seps ==> All(Space, p.before) && All(Space, p.after)
  }

  lemma FirstTailItem(s: string, i: nat, items: seq<string>, seps: seq<Sep>)
    requires ValidTailItems(items, seps) && items != []
    requires At(s, i, TailText(items, seps))
    ensures ValidTailItems(items[1..], seps[1..])
    ensures var j, rest := i + |SepText(seps[0]) + items[0]|, TailText(items[1..], seps[1..]);
            && j + |rest| == i + |TailText(items, seps)| && At(s, j, rest)
            && At(s, i, SepText(seps[0]) + items[0])
  {
    var d, p, rest := items[0], seps[0], TailText(items[1..], seps[1..]);
    assert d in items && p in seps;
    assert forall x :: x in items[1..] ==> x in items;
    assert forall x :: x in seps[1..] ==> x in seps;
    assert TailText(items, seps) == (SepText(p) + d) + rest;
    AtSplit(s, i, SepText(p) + d, rest);
  }

  lemma StarPrefix(r: Re, s: string, i: nat, j: nat)
    requires i < j <= |s| && Ends(r, s, i) != [] && Ends(r, s, i)[0] == j
    ensures Ends(Star(r), s, j) <= Ends(Star(r), s, i)
  {
  }

  lemma PrefixTrans(a: seq<nat>, b: seq<nat>, c: seq<nat>)
    requires a <= b && b <= c
    ensures a <= c
  {
  }

  lemma StarStep(r: Re, s: string, i: nat, j: nat, e: nat)
    requires i < j <= |s| && Ends(r, s, i) != [] && Ends(r, s, i)[0] == j
    requires e <= |s| && Ends(Star(r), s, e) <= Ends(Star(r), s, j)
    ensures Ends(Star(r), s, e) <= Ends(Star(r), s, i)
  {
    StarPrefix(r, s, i, j);
    PrefixTrans(Ends(Star(r), s, e), Ends(Star(r), s, j), Ends(Star(r), s, i));
  }

  /** One printed item is the first thing greedy matching takes. */
  lemma ItemFirst(s: string, i: nat, items: seq<string>, seps: seq<Sep>)
    requires ValidTailItems(items, seps) && items != []
    requires At(s, i, TailText(items, seps)) && GapAt(s, i + |TailText(items, seps)|)
    ensures var j := i + |SepText(seps[0]) + items[0]|;
            && i < j <= |s| && Ends(MORE, s, i) != [] && Ends(MORE, s, i)[0] == j
            && ValidTailItems(items[1..], seps[1..]) && At(s, j, TailText(items[1..], seps[1..]))
            && j + |TailText(items[1..], seps[1..])| == i + |TailText(items, seps)|
  {
    FirstTailItem(s, i, items, seps);
    assert items[0] in items && seps[0] in seps;
    NumberStops(s, i + |SepText(seps[0]) + items[0]|, items[1..], seps[1..]);
    OneMore(s, i, seps[0], items[0]);
  }

  /** Greedy matching walks the printed list to its end before it tries anything else. */
  lemma {:induction false} TailPrefix(s: string, i: nat, items: seq<string>, seps: seq<Sep>)
    requires ValidTailItems(items, seps)
    requires At(s, i, TailText(items, seps)) && GapAt(s, i + |TailText(items, seps)|)
    ensures Ends(Star(MORE), s, i + |TailText(items, seps)|) <= Ends(Star(MORE), s, i)
    decreases |items|
  {
    if items != [] {
      ItemFirst(s, i, items, seps);
      var j, e := i + |SepText(seps[0]) + items[0]|, i + |TailText(items, seps)|;
      TailPrefix(s, j, items[1..], seps[1..]);
      StarStep(MORE, s, i, j, e);
    }
  }

  lemma ValidItemsTail(items: seq<string>, seps: seq<Sep>)
    requires ValidItems(items, seps)
    ensures ValidTailItems(items[1..], seps) && items[0] != [] && All(Digit, items[0])
  {
    assert items[0] in items;
    assert forall x :: x in items[1..] ==> x in items;
  }

  lemma IdsPrefix(s: string, i: nat, items: seq<string>, seps: seq<Sep>)
    requires ValidItems(items, seps)
    requires At(s, i, IdsText(items, seps)) && GapAt(s, i + |IdsText(items, seps)|)
    ensures Ends(Star(MORE), s, i + |IdsText(items, seps)|) <= Ends(IDS, s, i)
  {
    var j, e := i + |items[0]|, i + |IdsText(items, seps)|;
    ValidItemsTail(items, seps);
    AtSplit(s, i, items[0], TailText(items[1..], seps));
    NumberStops(s, j, items[1..], seps);
    RunPlus(Digit, s, i, items[0]);
    TailPrefix(s, j, items[1..], seps);
    CatPrefix(DIGITS, Star(MORE), s, i, j);
    PrefixTrans(Ends(Star(MORE), s, e), Ends(Star(MORE), s, j), Ends(IDS, s, i));
  }

  lemma CatPrefix(a: Re, b: Re, s: string, i: nat, j: nat)
    requires i <= |s| && Ends(a, s, i) != [] && Ends(a, s, i)[0] == j <= |s|
    ensures Ends(b, s, j) <= Ends(Cat(a, b), s, i)
  {
  }

  // ----- how a list can go on -----

  lemma SpacedEnter(s: string, i: nat, a: string, d: string)
    requires All(Space, a) && d != [] && All(Digit, d) && At(s, i, a + d)
    ensures i + |a| + |d| in Ends(Cat(Star(One(Space)), DIGITS), s, i)
  {
    AtSplit(s, i, a, d);
    RunEnter(Space, s, i, a);
    PlusEnter(Digit, s, i + |a|, d);
    CatEnter(Star(One(Space)), DIGITS, s, i, i + |a|, i + |a| + |d|);
  }

  lemma CommaEnter(s: string, i: nat, a: string, d: string)
    requires All(Space, a) && d != [] && All(Digit, d) && At(s, i, "," + (a + d))
    ensures i + 1 + |a| + |d| in Ends(Cat(Lit(","), Cat(Star(One(Space)), DIGITS)), s, i)
  {
    AtSplit(s, i, ",", a + d);
    LitEnds(",", s, i, ",");
    SpacedEnter(s, i + 1, a, d);
    CatEnter(Lit(","), Cat(Star(One(Space)), DIGITS), s, i, i + 1, i + 1 + |a| + |d|);
  }

  /** Whitespace, then whatever matches behind it. */
  lemma AfterSpaces(s: string, i: nat, before: string, re: Re, k: nat)
    requires All(Space, before) && At(s, i, before) && k in Ends(re, s, i + |before|)
    ensures k in Ends(Cat(Star(One(Space)), re), s, i)
  {
    RunEnter(Space, s, i, before);
    CatEnter(Star(One(Space)), re, s, i, i + |before|, k);
  }

  lemma SepSplit(s: string, i: nat, p: Sep, d: string)
    requires At(s, i, SepText(p) + d)
    ensures At(s, i, p.before) && At(s, i + |p.before|, "," + (p.after + d))
    ensures |SepText(p) + d| == |p.before| + 1 + |p.after| + |d|
  {
    assert SepText(p) + d == p.before + ("," + (p.after + d));
    AtSplit(s, i, p.before, "," + (p.after + d));
  }

  lemma MoreEnter(s: string, i: nat, p: Sep, d: string)
    requires All(Space, p.before) && All(Space, p.after) && d != [] && All(Digit, d) && At(s, i, SepText(p) + d)
    ensures i + |SepText(p) + d| in Ends(MORE, s, i)
  {
    SepSplit(s, i, p, d);
    CommaEnter(s, i + |p.before|, p.after, d);
    AfterSpaces(s, i, p.before, Cat(Lit(","), Cat(Star(One(Space)), DIGITS)), i + |SepText(p) + d|);
  }

  lemma CommaLeave(s: string, i: nat, k: nat)
    requires i <= |s| && k in Ends(Lit(","), s, i)
    ensures k == i + 1 <= |s| && s[i] == ','
  {
    assert Lower(s[i..i + 1][0]) == Lower(","[0]);
  }

  lemma SpacedLeave(s: string, i: nat, k: nat) returns (j: nat)
    requires i <= |s| && k in Ends(Cat(Star(One(Space)), DIGITS), s, i)
    ensures i <= j < k <= |s| && All(Space, s[i..j]) && All(Digit, s[j..k])
  {
    j := CatLeave(Star(One(Space)), DIGITS, s, i, k);
    RunLeave(Space, s, i, j);
    PlusLeave(Digit, s, j, k);
  }

  lemma MoreLeave(s: string, i: nat, k: nat) returns (p: Sep, d: string)
    requires i <= |s| && k in Ends(MORE, s, i)
    ensures All(Space, p.before) && All(Space, p.after) && d != [] && All(Digit, d)
    ensures At(s, i, SepText(p) + d) && k == i + |SepText(p) + d|
  {
    var i1 := CatLeave(Star(One(Space)), Cat(Lit(","), Cat(Star(One(Space)), DIGITS)), s, i, k);
    RunLeave(Space, s, i, i1);
    var c := CatLeave(Lit(","), Cat(Star(One(Space)), DIGITS), s, i1, k);
    CommaLeave(s, i1, c);
    var i2 := SpacedLeave(s, c, k);
    p, d := Sep(s[i..i1], s[c..i2]), s[i2..k];
    Pieces(s, i, i1, i2, k);
  }

  lemma Pieces(s: string, i: nat, i1: nat, i2: nat, k: nat)
    requires i <= i1 < i2 <= k <= |s| && s[i1] == ','
    ensures s[i..k] == s[i..i1] + "," + s[i1 + 1..i2] + s[i2..k]
  {
  }

  lemma {:induction false} TailEnter(s: string, i: nat, items: seq<string>, seps: seq<Sep>)
    requires ValidTailItems(items, seps) && At(s, i, TailText(items, seps))
    ensures i + |TailText(items, seps)| in Ends(Star(MORE), s, i)
    decreases |items|
  {
    if items != [] {
      FirstTailItem(s, i, items, seps);
      assert items[0] in items && seps[0] in seps;
      MoreEnter(s, i, seps[0], items[0]);
      var j := i + |SepText(seps[0]) + items[0]|;
      TailEnter(s, j, items[1..], seps[1..]);
      StarEnter(MORE, s, i, j, i + |TailText(items, seps)|);
    }
  }

  lemma {:induction false} TailLeave(s: string, i: nat, k: nat) returns (items: seq<string>, seps: seq<Sep>)
    requires i <= |s| && k in Ends(Star(MORE), s, i)
    ensures ValidTailItems(items, seps) && At(s, i, TailText(items, seps)) && k == i + |TailText(items, seps)|
    decreases |s| - i
  {
    if k == i {
      items, seps := [], [];
    } else {
      var j := StarLeave(MORE, s, i, k);
      var p, d := MoreLeave(s, i, j);
      var items', seps' := TailLeave(s, j, k);
      items, seps := [d] + items', [p] + seps';
      TailCons(s, i, j, p, d, items', seps');
    }
  }

  lemma TailCons(s: string, i: nat, j: nat, p: Sep, d: string, items: seq<string>, seps: seq<Sep>)
    requires All(Space, p.before) && All(Space, p.after) && d != [] && All(Digit, d)
    requires At(s, i, SepText(p) + d) && j == i + |SepText(p) + d|
    requires ValidTailItems(items, seps) && At(s, j, TailText(items, seps))
    ensures ValidTailItems([d] + items, [p] + seps)
    ensures TailText([d] + items, [p] + seps) == SepText(p) + d + TailText(items, seps)
    ensures At(s, i, TailText([d] + items, [p] + seps))
  {
    assert ([d] + items)[1..] == items && ([p] + seps)[1..] == seps;
    var k := j + |TailText(items, seps)|;
    assert s[i..k] == s[i..j] + s[j..k];
  }

  /** Whitespace from `n`, then something on that line: what `\s+(.+)` needs. */
  predicate GapTo(t: string, n: nat, w: nat) {
    n < w < |t| && All(Space, t[n..w]) && t[w] != '\n'
  }

  /** The text after the gap itself reads on as list: a comma, spaces, digits, any number of further
      ids, then whitespace and more text. */
  ghost predicate ReadsOn(tail: string) {
    exists items, seps, w :: ReadsOnBy(tail, items, seps, w)
  }

  predicate ReadsOnBy(tail: string, items: seq<string>, seps: seq<Sep>, w: nat) {
    && items != [] && ValidTailItems(items, seps)
    && At(tail, 0, TailText(items, seps)) && GapTo(tail, |TailText(items, seps)|, w)
  }

  lemma {:induction false} TailEndsInDigit(items: seq<string>, seps: seq<Sep>)
    requires ValidTailItems(items, seps) && items != []
    ensures TailText(items, seps) != "" && IsDigit(TailText(items, seps)[|TailText(items, seps)| - 1])
    decreases |items|
  {
    assert items[0] in items;
    if |items| > 1 {
      assert forall x :: x in items[1..] ==> x in items;
      assert forall x :: x in seps[1..] ==> x in seps;
      TailEndsInDigit(items[1..], seps[1..]);
    } else {
      assert In(Digit, items[0][|items[0]| - 1]);
    }
  }

  lemma DigitThenSpace(reason: string, items: seq<string>, seps: seq<Sep>, w: nat)
    requires ReadsOnBy(reason, items, seps, w)
    ensures var n := |TailText(items, seps)|; 0 < n < |reason| && IsSpace(reason[n]) && IsDigit(reason[n - 1])
  {
    TailEndsInDigit(items, seps);
    var n := |TailText(items, seps)|;
    assert reason[0..n] == TailText(items, seps);
    assert In(Space, reason[n..w][0]);
  }

  /** Only a number with whitespace right behind it makes a reason read on. */
  lemma NoNumberBeforeSpace(reason: string)
    requires forall k :: 0 < k < |reason| && IsSpace(reason[k]) ==> !IsDigit(reason[k - 1])
    ensures !ReadsOn(reason)
  {
    if ReadsOn(reason) {
      var items: seq<string>, seps: seq<Sep>, w: nat :| ReadsOnBy(reason, items, seps, w);
      DigitThenSpace(reason, items, seps, w);
    }
  }

  lemma TailBegins(items: seq<string>, seps: seq<Sep>)
    requires ValidTailItems(items, seps) && items != []
    ensures TailText(items, seps) != "" && (IsSpace(TailText(items, seps)[0]) || TailText(items, seps)[0] == ',')
  {
    assert seps[0] in seps;
    assert TailText(items, seps)[0] == SepText(seps[0])[0];
  }

  /** And only whitespace or a comma can begin one. */
  lemma ReadsOnBegins(tail: string)
    ensures ReadsOn(tail) ==> tail != "" && (IsSpace(tail[0]) || tail[0] == ',')
  {
    if ReadsOn(tail) {
      var items: seq<string>, seps: seq<Sep>, w: nat :| ReadsOnBy(tail, items, seps, w);
      TailBegins(items, seps);
      assert tail[0..|TailText(items, seps)|][0] == TailText(items, seps)[0];
    }
  }

  /** The words before the list: any capitalisation, any whitespace between them. */
  datatype Words = Words(toleman: string, gap1: string, ignore: string, gap2: string, finding: string)

  predicate ValidWords(w: Words) {
    && CaseEq(w.toleman, "@toleman") && CaseEq(w.ignore, "ignore") && CaseEq(w.finding, "finding=")
    && w.gap1 != "" && All(Space, w.gap1) && w.gap2 != "" && All(Space, w.gap2)
  }

  function WordsText(w: Words): string {
    w.toleman + (w.gap1 + (w.ignore + (w.gap2 + w.finding)))
  }

  lemma NotSpace(c: char, letter: char)
    requires Lower(c) == Lower(letter) && ('a' <= letter <= 'z' || letter == '@')
    ensures !IsSpace(c) && (letter == '@' ==> c == '@') && (c == '@' ==> letter == '@')
  {
  }

  lemma HeadEnds(s: string, i: nat, w: Words)
    requires ValidWords(w) && At(s, i, WordsText(w))
    ensures Ends(HEAD, s, i) != [] && Ends(HEAD, s, i)[0] == i + |WordsText(w)|
  {
    var i1 := i + |w.toleman|;
    var i2 := i1 + |w.gap1|;
    var i3 := i2 + |w.ignore|;
    var i4 := i3 + |w.gap2|;
    var e := i4 + |w.finding|;
    AtSplit(s, i, w.toleman, w.gap1 + (w.ignore + (w.gap2 + w.finding)));
    AtSplit(s, i1, w.gap1, w.ignore + (w.gap2 + w.finding));
    AtSplit(s, i2, w.ignore, w.gap2 + w.finding);
    AtSplit(s, i3, w.gap2, w.finding);
    assert s[i2] == w.ignore[0] by { assert s[i2..i2 + |w.ignore|][0] == w.ignore[0]; }
    assert s[i4] == w.finding[0] by { assert s[i4..i4 + |w.finding|][0] == w.finding[0]; }
    NotSpace(w.ignore[0], "ignore"[0]);
    NotSpace(w.finding[0], "finding="[0]);
    LitEnds("finding=", s, i4, w.finding);
    RunPlus(Space, s, i3, w.gap2);
    CatFirst(SP, Lit("finding="), s, i3, i4, e);
    LitEnds("ignore", s, i2, w.ignore);
    CatFirst(Lit("ignore"), Cat(SP, Lit("finding=")), s, i2, i3, e);
    RunPlus(Space, s, i1, w.gap1);
    CatFirst(SP, Cat(Lit("ignore"), Cat(SP, Lit("finding="))), s, i1, i2, e);
    LitEnds("@toleman", s, i, w.toleman);
    CatFirst(Lit("@toleman"), Cat(SP, Cat(Lit("ignore"), Cat(SP, Lit("finding=")))), s, i, i1, e);
  }

  /** `@toleman`, in any capitalisation, starts here. */
  predicate Mention(s: string, i: nat) {
    i + 8 <= |s| && CaseEq(s[i..i + 8], "@toleman")
  }

  /** The expression matches at none of the first `n` places. */
  predicate NoEarlierMatch(s: string, n: nat) {
    n <= |s| && forall i :: 0 <= i < n ==> MatchAt(s, i) == None
  }

  lemma {:induction false} SearchSkips(s: string, i: nat, p: nat)
    requires i <= p <= |s| && NoEarlierMatch(s, p)
    ensures Search(s, i) == Search(s, p)
    decreases p - i
  {
    if i < p {
      SearchSkips(s, i + 1, p);
    }
  }

  lemma NoMentionNoMatch(s: string, i: nat)
    requires i <= |s| && !Mention(s, i)
    ensures MatchAt(s, i) == None
  {
    assert Ends(Lit("@toleman"), s, i) == [];
    assert EndsFrom(Cat(SP, Cat(Lit("ignore"), Cat(SP, Lit("finding=")))), s, [], i) == [];
  }

  /** A mention that no whitespace follows starts no command. */
  lemma BareMentionNoMatch(s: string, i: nat)
    requires i <= |s| && Mention(s, i) && !GapAt(s, i + 8)
    ensures MatchAt(s, i) == None
  {
    var rest := Cat(Lit("ignore"), Cat(SP, Lit("finding=")));
    LitEnds("@toleman", s, i, s[i..i + 8]);
    assert Ends(One(Space), s, i + 8) == [];
    assert EndsFrom(Star(One(Space)), s, [], i + 8) == [];
    assert Ends(SP, s, i + 8) == [];
    assert EndsFrom(rest, s, [], i + 8) == [];
    assert Ends(Cat(SP, rest), s, i + 8) == [];
    assert EndsFrom(Cat(SP, rest), s, [i + 8], i) == [] + EndsFrom(Cat(SP, rest), s, [], i);
  }

  /** A mention does not reach across an `@`: a letter of the name would have to be it. */
  lemma NameNotAcross(s: string, i: nat, n: nat)
    requires i < n < i + 8 <= |s| && s[n] == '@'
    ensures !Mention(s, i)
  {
    assert s[i..i + 8][n - i] == '@';
    NotALetterOfTheName(n - i);
  }

  /** So one begun in the text ahead of the command lies inside that text. */
  lemma MentionInside(s: string, pre: string, toleman: string, i: nat)
    requires CaseEq(toleman, "@toleman") && At(s, 0, pre) && At(s, |pre|, toleman) && i < |pre|
    ensures Mention(s, i) ==> Mention(pre, i) && (GapAt(s, i + 8) ==> GapAt(pre, i + 8))
  {
    assert s[|pre|] == s[|pre|..|pre| + 8][0] == toleman[0];
    NotSpace(toleman[0], "@toleman"[0]);
    if i + 8 <= |pre| {
      assert s[i..i + 8] == s[0..|pre|][i..i + 8];
      assert i + 8 < |pre| ==> s[i + 8] == s[0..|pre|][i + 8];
    } else if i + 8 <= |s| {
      NameNotAcross(s, i, |pre|);
    }
  }

  /** So text is harmless when no mention in it is followed by whitespace: "thanks @toleman." is. */
  lemma QuietText(s: string, pre: string, toleman: string)
    requires CaseEq(toleman, "@toleman") && At(s, 0, pre) && At(s, |pre|, toleman)
    requires forall k :: 0 <= k < |pre| && Mention(pre, k) ==> !GapAt(pre, k + 8)
    ensures NoEarlierMatch(s, |pre|)
  {
    forall i | 0 <= i < |pre| ensures MatchAt(s, i) == None {
      MentionInside(s, pre, toleman, i);
      if Mention(s, i) {
        BareMentionNoMatch(s, i);
      } else {
        NoMentionNoMatch(s, i);
      }
    }
  }

  lemma NotALetterOfTheName(k: nat)
    requires 1 <= k < 8
    ensures Lower('@') != Lower("@toleman"[k])
  {
  }

  predicate OneLine(t: string) {
    forall k :: 0 <= k < |t| ==> t[k] != '\n'
  }

  /** The reason as the grammar sees it: one line, starting with neither comma nor space. */
  predicate ReasonText(reason: string) {
    reason != "" && OneLine(reason) && !IsSpace(reason[0]) && reason[0] != ','
  }

  /** A comment holding the command, with text before it and lines after it. */
  function Comment(pre: string, w: Words, items: seq<string>, seps: seq<Sep>, gap: string, reason: string,
                   post: string): string
    requires |items| == |seps| + 1
  {
    pre + (WordsText(w) + (IdsText(items, seps) + ((gap + reason) + post)))
  }

  /** IGNORE_COMMAND_RE.search(body). */
  function FindCommand(body: string): Option<Command> {
    Search(body, 0)
  }

  lemma TryHeadFirst(s: string, starts: seq<nat>, i: nat)
    requires Within(starts, 0, |s|) && starts != [] && starts[0] == i && TryIds(s, i, Ends(IDS, s, i)).Some?
    ensures TryHead(s, starts) == TryIds(s, i, Ends(IDS, s, i))
  {
  }

  /** The search comes down to the choices for the id list after the written words. */
  lemma SearchIsIds(s: string, pre: string, w: Words)
    requires NoEarlierMatch(s, |pre|) && ValidWords(w) && At(s, |pre|, WordsText(w))
    requires TryIds(s, |pre| + |WordsText(w)|, Ends(IDS, s, |pre| + |WordsText(w)|)).Some?
    ensures FindCommand(s) == TryIds(s, |pre| + |WordsText(w)|, Ends(IDS, s, |pre| + |WordsText(w)|))
  {
    SearchSkips(s, 0, |pre|);
    HeadEnds(s, |pre|, w);
    TryHeadFirst(s, Ends(HEAD, s, |pre|), |pre| + |WordsText(w)|);
  }

  lemma CommentLayout(s: string, pre: string, words: string, ids: string, tail: string, post: string)
    requires s == pre + (words + (ids + (tail + post)))
    ensures At(s, 0, pre)
    ensures At(s, |pre|, words) && At(s, |pre| + |words|, ids) && At(s, |pre| + |words| + |ids|, tail)
    ensures s[|pre| + |words| + |ids| + |tail|..] == post
  {
    AtSplit(s, 0, pre, words + (ids + (tail + post)));
    AtSplit(s, |pre|, words, ids + (tail + post));
    AtSplit(s, |pre| + |words|, ids, tail + post);
    AtSplit(s, |pre| + |words| + |ids|, tail, post);
  }

  lemma ReasonEnds(s: string, i1: nat, i2: nat, gap: string, reason: string, post: string)
    requires gap != "" && All(Space, gap) && reason != "" && OneLine(reason) && !IsSpace(reason[0])
    requires post == "" || post[0] == '\n'
    requires i1 <= i2 && At(s, i2, gap + reason) && s[i2 + |gap + reason|..] == post
    ensures TryReason(s, i1, i2, Ends(SP, s, i2)) == Some(Command(s[i1..i2], reason))
  {
    var i3 := i2 + |gap|;
    AtSplit(s, i2, gap, reason);
    assert s[i3] == reason[0];
    RunPlus(Space, s, i2, gap);
    assert Stops(Dot, s, i3 + |reason|) by {
      if i3 + |reason| < |s| { assert s[i3 + |reason|] == post[0]; }
    }
    RunPlus(Dot, s, i3, reason);
  }

  // ----- what the reason leaves to the list -----

  lemma {:induction false} TryIdsSkips(s: string, i1: nat, es: seq<nat>, rest: seq<nat>)
    requires i1 <= |s| && Within(es, i1, |s|) && Within(rest, i1, |s|)
    requires forall k :: 0 <= k < |es| ==> TryReason(s, i1, es[k], Ends(SP, s, es[k])) == None
    ensures TryIds(s, i1, es + rest) == TryIds(s, i1, rest)
    decreases |es|
  {
    if es == [] {
      assert es + rest == rest;
    } else {
      assert (es + rest)[1..] == es[1..] + rest;
      TryIdsSkips(s, i1, es[1..], rest);
    }
  }

  lemma {:induction false} TryIdsPrefix(s: string, i1: nat, es: seq<nat>, all: seq<nat>)
    requires i1 <= |s| && Within(all, i1, |s|) && es <= all && TryIds(s, i1, es).Some?
    ensures TryIds(s, i1, all) == TryIds(s, i1, es)
    decreases |es|
  {
    var m := TryReason(s, i1, es[0], Ends(SP, s, es[0]));
    if m.None? {
      TryIdsPrefix(s, i1, es[1..], all[1..]);
    }
  }

  lemma {:induction false} TryReasonFinds(s: string, i1: nat, e: nat, ws: seq<nat>, w: nat)
    requires i1 <= e <= |s| && Within(ws, e, |s|) && w in ws && w < |s| && s[w] != '\n'
    ensures TryReason(s, i1, e, ws).Some?
    decreases |ws|
  {
    if ws[0] == w {
      assert Ends(One(Dot), s, w) == [w + 1];
      assert w + 1 in Ends(Star(One(Dot)), s, w + 1);
      CatEnter(One(Dot), Star(One(Dot)), s, w, w + 1, w + 1);
    } else {
      TryReasonFinds(s, i1, e, ws[1..], w);
    }
  }

  /** A reason found starts on a character of its line, behind the gap; its ids end at `e`. */
  lemma {:induction false} TryReasonFound(s: string, i1: nat, e: nat, ws: seq<nat>) returns (w: nat)
    requires i1 <= e <= |s| && Within(ws, e, |s|) && TryReason(s, i1, e, ws).Some?
    ensures w in ws && e <= w < |s| && s[w] != '\n' && TryReason(s, i1, e, ws).value.ids == s[i1..e]
    decreases |ws|
  {
    var rs := Ends(REASON, s, ws[0]);
    if rs != [] {
      w := ws[0];
      PlusLeave(Dot, s, w, rs[0]);
      assert In(Dot, s[w..rs[0]][0]);
    } else {
      w := TryReasonFound(s, i1, e, ws[1..]);
    }
  }

  /** The rest of the expression matches behind `e` when whitespace and text follow, and only then. */
  lemma ReasonThere(s: string, i1: nat, e: nat, w: nat)
    requires i1 <= e <= |s| && GapTo(s, e, w)
    ensures TryReason(s, i1, e, Ends(SP, s, e)).Some?
  {
    PlusEnter(Space, s, e, s[e..w]);
    TryReasonFinds(s, i1, e, Ends(SP, s, e), w);
  }

  lemma ReasonGap(s: string, i1: nat, e: nat) returns (w: nat)
    requires i1 <= e <= |s| && TryReason(s, i1, e, Ends(SP, s, e)).Some?
    ensures GapTo(s, e, w)
  {
    w := TryReasonFound(s, i1, e, Ends(SP, s, e));
    PlusLeave(Space, s, e, w);
  }

  lemma {:induction false} TryIdsFinds(s: string, i1: nat, es: seq<nat>, e: nat)
    requires i1 <= |s| && Within(es, i1, |s|) && e in es && TryReason(s, i1, e, Ends(SP, s, e)).Some?
    ensures TryIds(s, i1, es).Some?
    decreases |es|
  {
    if es[0] != e {
      TryIdsFinds(s, i1, es[1..], e);
    }
  }

  /** The captured ids end at one of the choices. */
  lemma {:induction false} TryIdsChoice(s: string, i1: nat, es: seq<nat>) returns (e: nat)
    requires i1 <= |s| && Within(es, i1, |s|) && TryIds(s, i1, es).Some?
    ensures e in es && i1 <= e <= |s| && TryIds(s, i1, es).value.ids == s[i1..e]
    decreases |es|
  {
    if TryReason(s, i1, es[0], Ends(SP, s, es[0])).Some? {
      e := es[0];
      var w := TryReasonFound(s, i1, e, Ends(SP, s, e));
    } else {
      e := TryIdsChoice(s, i1, es[1..]);
    }
  }

  /** A gap and then `tail`, up to the end of the text. */
  predicate Written(s: string, b: nat, gap: string, tail: string) {
    && gap != "" && All(Space, gap) && tail != "" && !IsSpace(tail[0])
    && |s| == b + |gap| + |tail| && At(s, b, gap) && At(s, b + |gap|, tail)
  }

  function Regap(seps: seq<Sep>, before: string): seq<Sep>
    requires seps != []
  {
    seps[0 := Sep(before, seps[0].after)]
  }

  lemma TailNonEmpty(items: seq<string>, seps: seq<Sep>)
    requires |items| == |seps| && items != []
    ensures TailText(items, seps) != ""
  {
  }

  lemma RegapValid(items: seq<string>, seps: seq<Sep>, before: string)
    requires ValidTailItems(items, seps) && items != [] && All(Space, before)
    ensures ValidTailItems(items, Regap(seps, before))
  {
    assert seps[0] in seps;
    forall p | p in Regap(seps, before) ensures All(Space, p.before) && All(Space, p.after) {
      var i :| 0 <= i < |seps| && Regap(seps, before)[i] == p;
      assert seps[i] in seps;
    }
  }

  lemma RegapText(items: seq<string>, seps: seq<Sep>, gap: string)
    requires |items| == |seps| && items != []
    ensures TailText(items, Regap(seps, gap + seps[0].before)) == gap + TailText(items, seps)
  {
    assert Regap(seps, gap + seps[0].before)[1..] == seps[1..];
    assert gap + (SepText(seps[0]) + items[0]) == gap + SepText(seps[0]) + items[0];
  }

  /** A separator starts with its whitespace, up to the comma. */
  lemma SepRun(s: string, b: nat, p: Sep, d: string)
    requires All(Space, p.before) && At(s, b, SepText(p) + d)
    ensures At(s, b, p.before) && Stops(Space, s, b + |p.before|)
  {
    assert SepText(p) + d == p.before + ("," + (p.after + d));
    AtSplit(s, b, p.before, "," + (p.after + d));
    assert s[b + |p.before|] == ("," + (p.after + d))[0];
  }

  lemma GapRuns(s: string, b: nat, gap: string, tail: string)
    requires Written(s, b, gap, tail)
    ensures At(s, b, gap) && Stops(Space, s, b + |gap|)
  {
    assert s[b + |gap|] == s[b + |gap|..b + |gap| + |tail|][0];
  }

  /** A list that goes on past `b` takes the whole gap into its first separator. */
  lemma SameGap(s: string, b: nat, gap: string, reason: string, items: seq<string>, seps: seq<Sep>)
    requires Written(s, b, gap, reason)
    requires ValidTailItems(items, seps) && items != [] && At(s, b, TailText(items, seps))
    ensures seps[0].before == gap
  {
    FirstTailItem(s, b, items, seps);
    assert seps[0] in seps;
    SepRun(s, b, seps[0], items[0]);
    GapRuns(s, b, gap, reason);
    SameRun(s, b, gap, seps[0].before);
  }

  /** Two whitespace runs from one place, both followed by something else, are one. */
  lemma SameRun(s: string, b: nat, x: string, y: string)
    requires All(Space, x) && All(Space, y) && At(s, b, x) && At(s, b, y)
    requires Stops(Space, s, b + |x|) && Stops(Space, s, b + |y|)
    ensures x == y
  {
    assert forall k :: 0 <= k < |x| ==> s[b + k] == x[k];
    assert forall k :: 0 <= k < |y| ==> s[b + k] == y[k];
    assert |x| == |y|;
  }

  lemma GoesOnInTail(s: string, b: nat, gap: string, reason: string, k: nat)
    returns (items: seq<string>, seps: seq<Sep>)
    requires Written(s, b, gap, reason) && k in Ends(Star(MORE), s, b) && k != b
    ensures b + |gap| < k <= |s| && ValidTailItems(items, seps) && items != []
    ensures At(reason, 0, TailText(items, seps)) && |TailText(items, seps)| == k - b - |gap|
  {
    var seps0;
    items, seps0 := TailLeave(s, b, k);
    SameGap(s, b, gap, reason, items, seps0);
    seps := Regap(seps0, "");
    UngapText(items, seps0, gap);
    AtSplit(s, b, gap, TailText(items, seps));
    assert reason[..|TailText(items, seps)|] == s[b + |gap|..k];
  }

  lemma UngapText(items: seq<string>, seps: seq<Sep>, gap: string)
    requires ValidTailItems(items, seps) && items != [] && seps[0].before == gap
    ensures ValidTailItems(items, Regap(seps, "")) && TailText(items, Regap(seps, "")) != ""
    ensures TailText(items, seps) == gap + TailText(items, Regap(seps, ""))
  {
    var bare := Regap(seps, "");
    RegapValid(items, seps, "");
    TailNonEmpty(items, bare);
    RegapText(items, bare, gap);
    assert gap + "" == gap;
    assert Regap(bare, gap) == seps;
  }

  /** Places in the tail are places in the text. */
  lemma GapCarries(s: string, i: nat, tail: string, n: nat, w: nat)
    requires i + |tail| == |s| && s[i..] == tail
    ensures GapTo(tail, n, w) <==> GapTo(s, i + n, i + w)
  {
    if n < w < |tail| {
      assert tail[n..w] == s[i + n..i + w];
      assert tail[w] == s[i + w];
    }
  }

  lemma WrittenEnd(s: string, b: nat, gap: string, tail: string)
    requires Written(s, b, gap, tail)
    ensures s[b + |gap|..] == tail
  {
    assert s[b + |gap|..] == s[b + |gap|..b + |gap| + |tail|];
  }

  /** Where the text could be read as more ids, with whitespace and text behind them, the tail reads
      on. */
  lemma WayAhead(s: string, b: nat, gap: string, tail: string, e: nat, w: nat)
    requires Written(s, b, gap, tail) && e in Ends(Star(MORE), s, b) && e != b && GapTo(s, e, w)
    ensures ReadsOn(tail)
  {
    var more, between := GoesOnInTail(s, b, gap, tail, e);
    WrittenEnd(s, b, gap, tail);
    var i := b + |gap|;
    GapCarries(s, i, tail, e - i, w - i);
    assert ReadsOnBy(tail, more, between, w - i);
  }

  lemma NoWayAhead(s: string, i1: nat, b: nat, gap: string, tail: string, e: nat)
    requires i1 <= b && Written(s, b, gap, tail) && !ReadsOn(tail) && e in Ends(Star(MORE), s, b) && b < e <= |s|
    ensures TryReason(s, i1, e, Ends(SP, s, e)) == None
  {
    if TryReason(s, i1, e, Ends(SP, s, e)).Some? {
      var w := ReasonGap(s, i1, e);
      WayAhead(s, b, gap, tail, e, w);
    }
  }

  lemma SplitEnds(s: string, b: nat) returns (es: seq<nat>)
    requires b <= |s|
    ensures Ends(Star(MORE), s, b) == es + [b] && Within(es, b + 1, |s|)
    ensures forall e :: e in es <==> e in Ends(Star(MORE), s, b) && e != b
  {
    es := AgainFrom(MORE, s, Ends(MORE, s, b), b);
    forall e | e in es ensures b < e <= |s| {
      var j := AgainFromLeave(MORE, s, Ends(MORE, s, b), b, e);
    }
    assert forall k :: 0 <= k < |es| ==> es[k] in es;
  }

  lemma KeptFrom(s: string, i1: nat, b: nat, gap: string, reason: string, post: string, all: seq<nat>)
    requires i1 <= b && Written(s, b, gap, reason + post) && !ReadsOn(reason + post)
    requires reason != "" && OneLine(reason) && !IsSpace(reason[0]) && (post == "" || post[0] == '\n')
    requires Within(all, i1, |s|) && Ends(Star(MORE), s, b) <= all
    ensures TryIds(s, i1, all) == Some(Command(s[i1..b], reason))
  {
    var es := SplitEnds(s, b);
    forall k | 0 <= k < |es| ensures TryReason(s, i1, es[k], Ends(SP, s, es[k])) == None {
      assert es[k] in es;
      NoWayAhead(s, i1, b, gap, reason + post, es[k]);
    }
    TryIdsSkips(s, i1, es, [b]);
    ReasonAt(s, b, gap, reason, post);
    ReasonEnds(s, i1, b, gap, reason, post);
    TryIdsPrefix(s, i1, es + [b], all);
  }

  lemma ReasonAt(s: string, b: nat, gap: string, reason: string, post: string)
    requires Written(s, b, gap, reason + post)
    ensures At(s, b, gap + reason) && s[b + |gap + reason|..] == post
  {
    AtSplit(s, b + |gap|, reason, post);
    assert s[b..b + |gap + reason|] == s[b..b + |gap|] + s[b + |gap|..b + |gap| + |reason|];
  }

  lemma LongerList(s: string, b: nat, gap: string, reason: string, items: seq<string>, seps: seq<Sep>)
    requires Written(s, b, gap, reason) && items != [] && ValidTailItems(items, seps)
             && At(reason, 0, TailText(items, seps))
    ensures b + |gap| + |TailText(items, seps)| in Ends(Star(MORE), s, b)
  {
    assert seps[0] in seps;
    RegapValid(items, seps, gap + seps[0].before);
    RegapText(items, seps, gap);
    AtJoin(s, b, gap, reason, TailText(items, seps));
    TailEnter(s, b, items, Regap(seps, gap + seps[0].before));
  }

  lemma AtJoin(s: string, b: nat, gap: string, reason: string, tail: string)
    requires Written(s, b, gap, reason) && At(reason, 0, tail)
    ensures At(s, b, gap + tail)
  {
    assert s[b + |gap|..b + |gap| + |tail|] == reason[..|tail|];
    assert s[b..b + |gap + tail|] == s[b..b + |gap|] + s[b + |gap|..b + |gap| + |tail|];
  }

  /** A tail that reads on offers a longer list with whitespace and text behind it: then the captured
      ids end past `b`. */
  lemma CutFrom(s: string, i1: nat, b: nat, gap: string, tail: string, all: seq<nat>,
                items: seq<string>, seps: seq<Sep>, w: nat) returns (e: nat)
    requires i1 <= b && Written(s, b, gap, tail) && ReadsOnBy(tail, items, seps, w)
    requires Within(all, i1, |s|) && Ends(Star(MORE), s, b) <= all
    ensures TryIds(s, i1, all).Some?
    ensures b < e <= |s| && e in Ends(Star(MORE), s, b) && TryIds(s, i1, all).value.ids == s[i1..e]
  {
    var i, n := b + |gap|, |TailText(items, seps)|;
    LongerList(s, b, gap, tail, items, seps);
    WrittenEnd(s, b, gap, tail);
    GapCarries(s, i, tail, n, w);
    e := CutAt(s, i1, b, all, i + n, i + w);
  }

  lemma CutAt(s: string, i1: nat, b: nat, all: seq<nat>, way: nat, w: nat) returns (e: nat)
    requires i1 <= b < way <= |s| && way in Ends(Star(MORE), s, b) && GapTo(s, way, w)
    requires Within(all, i1, |s|) && Ends(Star(MORE), s, b) <= all
    ensures TryIds(s, i1, all).Some?
    ensures b < e <= |s| && e in Ends(Star(MORE), s, b) && TryIds(s, i1, all).value.ids == s[i1..e]
  {
    var es := SplitEnds(s, b);
    ReasonThere(s, i1, way, w);
    TryIdsFinds(s, i1, es, way);
    e := TryIdsChoice(s, i1, es);
    TryIdsPrefix(s, i1, es, all);
  }

  /** Wherever the repetition can get to from `b`, the id list starting at `i1` can. */
  predicate MoreFollows(s: string, i1: nat, b: nat)
    requires i1 <= b <= |s|
  {
    Ends(Star(MORE), s, b) <= Ends(IDS, s, i1)
  }

  /** The layout of a comment whose id list, from `i1`, ends at `b`. */
  predicate Laid(s: string, pre: string, words: string, b: nat, gap: string, tail: string) {
    var i1 := |pre| + |words|;
    && At(s, 0, pre) && At(s, |pre|, words) && i1 <= b && Written(s, b, gap, tail)
    && MoreFollows(s, i1, b)
  }

  lemma WrittenTail(s: string, pre: string, words: string, ids: string, gap: string, tail: string)
    requires s == pre + (words + (ids + (gap + tail)))
    requires gap != "" && All(Space, gap) && tail != "" && !IsSpace(tail[0])
    ensures var i1 := |pre| + |words|;
            && At(s, 0, pre) && At(s, |pre|, words) && At(s, i1, ids)
            && GapAt(s, i1 + |ids|) && Written(s, i1 + |ids|, gap, tail)
  {
    CommentLayout(s, pre, words, ids, gap, tail);
    var b := |pre| + |words| + |ids|;
    assert s[b] == s[b..b + |gap|][0];
  }

  lemma LaidTail(s: string, pre: string, words: string, ids: string, gap: string, tail: string)
    requires s == pre + (words + (ids + (gap + tail)))
    requires gap != "" && All(Space, gap) && tail != "" && !IsSpace(tail[0])
    requires var i1 := |pre| + |words|; At(s, i1, ids) && GapAt(s, i1 + |ids|) ==> MoreFollows(s, i1, i1 + |ids|)
    ensures var i1 := |pre| + |words|;
            Laid(s, pre, words, i1 + |ids|, gap, tail) && s[i1..i1 + |ids|] == ids
  {
    WrittenTail(s, pre, words, ids, gap, tail);
  }

  lemma IdsFollow(s: string, i1: nat, ids: string, items: seq<string>, seps: seq<Sep>)
    requires ValidItems(items, seps) && ids == IdsText(items, seps)
    ensures At(s, i1, ids) && GapAt(s, i1 + |ids|) ==> MoreFollows(s, i1, i1 + |ids|)
  {
    if At(s, i1, ids) && GapAt(s, i1 + |ids|) {
      IdsPrefix(s, i1, items, seps);
    }
  }

  lemma WrittenComment(s: string, pre: string, words: string, ids: string, items: seq<string>, seps: seq<Sep>,
                       gap: string, tail: string) returns (b: nat)
    requires ValidItems(items, seps) && ids == IdsText(items, seps) && s == pre + (words + (ids + (gap + tail)))
    requires gap != "" && All(Space, gap) && tail != "" && !IsSpace(tail[0])
    ensures Laid(s, pre, words, b, gap, tail) && s[|pre| + |words|..b] == ids
  {
    b := |pre| + |words| + |ids|;
    IdsFollow(s, |pre| + |words|, ids, items, seps);
    LaidTail(s, pre, words, ids, gap, tail);
  }

  lemma KeptLaid(s: string, pre: string, w: Words, b: nat, gap: string, reason: string, post: string)
    requires NoEarlierMatch(s, |pre|) && ValidWords(w) && Laid(s, pre, WordsText(w), b, gap, reason + post)
    requires reason != "" && OneLine(reason) && !IsSpace(reason[0]) && (post == "" || post[0] == '\n')
    requires !ReadsOn(reason + post)
    ensures FindCommand(s) == Some(Command(s[|pre| + |WordsText(w)|..b], reason))
  {
    var i1 := |pre| + |WordsText(w)|;
    KeptFrom(s, i1, b, gap, reason, post, Ends(IDS, s, i1));
    SearchIsIds(s, pre, w);
  }

  /** More items were read, each behind its separator. */
  lemma CutLaid(s: string, pre: string, w: Words, b: nat, gap: string, tail: string,
                items: seq<string>, seps: seq<Sep>, to: nat) returns (more: seq<string>, between: seq<Sep>)
    requires NoEarlierMatch(s, |pre|) && ValidWords(w) && Laid(s, pre, WordsText(w), b, gap, tail)
    requires ReadsOnBy(tail, items, seps, to)
    ensures more != [] && ValidTailItems(more, between) && FindCommand(s).Some?
    ensures FindCommand(s).value.ids == s[|pre| + |WordsText(w)|..b] + TailText(more, between)
  {
    var e := CutEnd(s, pre, w, b, gap, tail, items, seps, to);
    more, between := TailLeave(s, b, e);
    assert s[|pre| + |WordsText(w)|..e] == s[|pre| + |WordsText(w)|..b] + s[b..e];
  }

  lemma CutEnd(s: string, pre: string, w: Words, b: nat, gap: string, tail: string,
               items: seq<string>, seps: seq<Sep>, to: nat) returns (e: nat)
    requires NoEarlierMatch(s, |pre|) && ValidWords(w) && Laid(s, pre, WordsText(w), b, gap, tail)
    requires ReadsOnBy(tail, items, seps, to)
    ensures b < e <= |s| && e in Ends(Star(MORE), s, b)
    ensures FindCommand(s).Some? && FindCommand(s).value.ids == s[|pre| + |WordsText(w)|..e]
  {
    var i1 := |pre| + |WordsText(w)|;
    e := CutFrom(s, i1, b, gap, tail, Ends(IDS, s, i1), items, seps, to);
    SearchIsIds(s, pre, w);
  }

  lemma {:induction false} TailTextAppend(items: seq<string>, seps: seq<Sep>, more: seq<string>, between: seq<Sep>)
    requires |items| == |seps| && |more| == |between|
    ensures TailText(items + more, seps + between) == TailText(items, seps) + TailText(more, between)
    decreases |items|
  {
    if items == [] {
      assert items + more == more && seps + between == between;
    } else {
      assert (items + more)[1..] == items[1..] + more && (seps + between)[1..] == seps[1..] + between;
      TailTextAppend(items[1..], seps[1..], more, between);
    }
  }

  lemma IdsTextAppend(items: seq<string>, seps: seq<Sep>, more: seq<string>, between: seq<Sep>)
    requires |items| == |seps| + 1 && |more| == |between|
    ensures IdsText(items + more, seps + between) == IdsText(items, seps) + TailText(more, between)
  {
    assert (items + more)[1..] == items[1..] + more;
    TailTextAppend(items[1..], seps, more, between);
  }

  /** The same text, the reason and what follows it read as one tail. */
  lemma CommentTail(pre: string, w: Words, items: seq<string>, seps: seq<Sep>, gap: string, reason: string,
                    post: string)
    requires |items| == |seps| + 1
    ensures Comment(pre, w, items, seps, gap, reason, post)
            == pre + (WordsText(w) + (IdsText(items, seps) + (gap + (reason + post))))
  {
    assert (gap + reason) + post == gap + (reason + post);
  }

  lemma KeptComment(s: string, pre: string, w: Words, ids: string, items: seq<string>, seps: seq<Sep>, gap: string,
                    reason: string, post: string)
    requires NoEarlierMatch(s, |pre|) && ValidWords(w) && ValidItems(items, seps) && ids == IdsText(items, seps)
    requires s == pre + (WordsText(w) + (ids + (gap + (reason + post)))) && gap != "" && All(Space, gap)
    requires reason != "" && OneLine(reason) && !IsSpace(reason[0]) && (post == "" || post[0] == '\n')
    requires !ReadsOn(reason + post)
    ensures FindCommand(s) == Some(Command(ids, reason))
  {
    var b := WrittenComment(s, pre, WordsText(w), ids, items, seps, gap, reason + post);
    KeptLaid(s, pre, w, b, gap, reason, post);
  }

  /** The grammar reads back what was written: for every id list, separator style, spacing,
      capitalisation and surrounding text, unless the expression already matches earlier or the
      reason and the lines after it read on as list. */
  lemma ReasonKept(pre: string, w: Words, items: seq<string>, seps: seq<Sep>, gap: string, reason: string,
                   post: string)
    requires ValidWords(w) && ValidItems(items, seps) && gap != "" && All(Space, gap)
    requires NoEarlierMatch(Comment(pre, w, items, seps, gap, reason, post), |pre|)
    requires reason != "" && OneLine(reason) && !IsSpace(reason[0]) && (post == "" || post[0] == '\n')
    requires !ReadsOn(reason + post)
    ensures FindCommand(Comment(pre, w, items, seps, gap, reason, post)) == Some(Command(IdsText(items, seps), reason))
  {
    CommentTail(pre, w, items, seps, gap, reason, post);
    KeptComment(Comment(pre, w, items, seps, gap, reason, post), pre, w, IdsText(items, seps), items, seps, gap, reason,
                post);
  }

  lemma CutBy(s: string, pre: string, w: Words, items: seq<string>, seps: seq<Sep>, b: nat, gap: string, tail: string,
              next: seq<string>, apart: seq<Sep>, to: nat) returns (more: seq<string>, between: seq<Sep>)
    requires NoEarlierMatch(s, |pre|) && ValidWords(w) && ValidItems(items, seps)
    requires Laid(s, pre, WordsText(w), b, gap, tail) && s[|pre| + |WordsText(w)|..b] == IdsText(items, seps)
    requires ReadsOnBy(tail, next, apart, to)
    ensures more != [] && ValidItems(items + more, seps + between)
    ensures FindCommand(s).Some? && FindCommand(s).value.ids == IdsText(items + more, seps + between)
  {
    more, between := CutLaid(s, pre, w, b, gap, tail, next, apart, to);
    IdsTextAppend(items, seps, more, between);
    JoinedItemsValid(items, seps, more, between);
  }

  lemma JoinedItemsValid(items: seq<string>, seps: seq<Sep>, more: seq<string>, between: seq<Sep>)
    requires ValidItems(items, seps) && ValidTailItems(more, between)
    ensures ValidItems(items + more, seps + between)
  {
  }

  lemma CommentLaid(pre: string, w: Words, items: seq<string>, seps: seq<Sep>, gap: string, reason: string,
                    post: string) returns (b: nat)
    requires ValidItems(items, seps) && gap != "" && All(Space, gap) && reason != "" && !IsSpace(reason[0])
    ensures var s := Comment(pre, w, items, seps, gap, reason, post);
            && Laid(s, pre, WordsText(w), b, gap, reason + post)
            && s[|pre| + |WordsText(w)|..b] == IdsText(items, seps)
  {
    CommentTail(pre, w, items, seps, gap, reason, post);
    b := WrittenComment(Comment(pre, w, items, seps, gap, reason, post), pre, WordsText(w), IdsText(items, seps), items,
                        seps, gap, reason + post);
  }

  /** Where they do, the captured list holds more ids. */
  lemma ReasonCut(pre: string, w: Words, items: seq<string>, seps: seq<Sep>, gap: string, reason: string,
                  post: string) returns (more: seq<string>, between: seq<Sep>)
    requires ValidWords(w) && ValidItems(items, seps) && gap != "" && All(Space, gap)
    requires NoEarlierMatch(Comment(pre, w, items, seps, gap, reason, post), |pre|)
    requires reason != "" && !IsSpace(reason[0]) && ReadsOn(reason + post)
    ensures more != [] && ValidItems(items + more, seps + between)
    ensures var c := FindCommand(Comment(pre, w, items, seps, gap, reason, post));
            c.Some? && c.value.ids == IdsText(items + more, seps + between)
  {
    var next: seq<string>, apart: seq<Sep>, to: nat :| ReadsOnBy(reason + post, next, apart, to);
    var b := CommentLaid(pre, w, items, seps, gap, reason, post);
    more, between := CutBy(Comment(pre, w, items, seps, gap, reason, post), pre, w, items, seps, b, gap, reason + post,
                           next, apart, to);
  }

  /** A reason that starts with no comma is always kept, whatever lines follow. */
  lemma SearchFindsCommand(pre: string, w: Words, items: seq<string>, seps: seq<Sep>, gap: string, reason: string,
                           post: string)
    requires ValidWords(w) && ValidItems(items, seps)
    requires NoEarlierMatch(Comment(pre, w, items, seps, gap, reason, post), |pre|)
    requires gap != "" && All(Space, gap) && ReasonText(reason)
    requires post == "" || post[0] == '\n'
    ensures FindCommand(Comment(pre, w, items, seps, gap, reason, post)) == Some(Command(IdsText(items, seps), reason))
  {
    ReadsOnBegins(reason + post);
    ReasonKept(pre, w, items, seps, gap, reason, post);
  }
}
