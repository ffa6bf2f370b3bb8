/** Paging the audit feed (app/api/audit.py): when two requests over the same rows, which the
    database may return in any order, show the same pages. Rows of one trail at one instant are
    left as they come, so it depends on what those rows show. */
module AuditPaging {
  import opened Prelude
  import opened Seqs
  import opened Ordering
  import opened AuditFeed

  // ----- a trail of single rows -----

  /** The rows shown, newest first, each as one entry. */
  function Trail<R>(s: seq<R>, p: R -> bool, key: R -> Key, f: R -> Event): seq<Event> {
    Map(SortBy(Filter(s, p), key, true), f)
  }

  /** Rows shown at one instant show the same. */
  ghost predicate TiedAlike<R(!new)>(s: seq<R>, p: R -> bool, key: R -> Key, f: R -> Event) {
    forall x, y :: x in s && y in s && p(x) && p(y) && key(x) == key(y) ==> f(x) == f(y)
  }

  /** The entry's stamp says the row's instant. */
  ghost predicate StampsMatch<R(!new)>(s: seq<R>, p: R -> bool, key: R -> Key, f: R -> Event) {
    forall x, y :: x in s && y in s && p(x) && p(y) ==> (key(x) == key(y) <==> Stamp(f(x)) == Stamp(f(y)))
  }

  /** Whatever order the table is read in, its entries sort alike. */
  ghost predicate TrailStable<R(!new)>(s: seq<R>, p: R -> bool, key: R -> Key, f: R -> Event) {
    forall t :: multiset(t) == multiset(s) ==>
      SortBy(Trail(t, p, key, f), Stamp, true) == SortBy(Trail(s, p, key, f), Stamp, true)
  }

  lemma RowsShown<R(!new)>(s: seq<R>, t: seq<R>, p: R -> bool, key: R -> Key)
    requires multiset(t) == multiset(s)
    ensures forall x :: x in SortBy(Filter(t, p), key, true) ==> x in s && p(x)
  {
    SamePermutationMembers(t, s);
    SortByMembers(Filter(t, p), key, true);
  }

  lemma TiedTrail<R(!new)>(s: seq<R>, t: seq<R>, p: R -> bool, key: R -> Key, f: R -> Event)
    requires TiedAlike(s, p, key, f) && multiset(t) == multiset(s)
    ensures Trail(t, p, key, f) == Trail(s, p, key, f)
  {
    var a, b := SortBy(Filter(t, p), key, true), SortBy(Filter(s, p), key, true);
    FilterPermutation(t, s, p);
    SortedPlaces(Filter(t, p), Filter(s, p), key, true);
    RowsShown(s, t, p, key);
    RowsShown(s, s, p, key);
    forall i | 0 <= i < |a| ensures f(a[i]) == f(b[i]) {
      assert a[i] in a && b[i] in b;
    }
  }

  /** A row read first is the first entry of its stamp. */
  lemma FrontedLeads<R(!new)>(s: seq<R>, p: R -> bool, key: R -> Key, f: R -> Event, x: R)
    requires StampsMatch(s, p, key, f) && x in s && p(x)
    ensures var group := Filter(Trail(Fronted(s, x), p, key, f), KeyIs(Stamp, Stamp(f(x))));
            group != [] && group[0] == f(x)
  {
    var t := Fronted(s, x);
    var rows := SortBy(Filter(t, p), key, true);
    var stamped := (r: R) => Stamp(f(r)) == Stamp(f(x));
    FrontedMultiset(s, x);
    SamePermutationMembers(t, s);
    SortByMembers(Filter(t, p), key, true);
    FilterMap(rows, f, KeyIs(Stamp, Stamp(f(x))), stamped);
    FilterCong(rows, stamped, KeyIs(key, key(x)));
    SortGroup(Filter(t, p), key, true, key(x));
    HeadKept(t, p);
    HeadKept(Filter(t, p), KeyIs(key, key(x)));
  }

  lemma TrailTied<R(!new)>(s: seq<R>, p: R -> bool, key: R -> Key, f: R -> Event, x: R, y: R)
    requires StampsMatch(s, p, key, f) && TrailStable(s, p, key, f)
    requires x in s && y in s && p(x) && p(y) && key(x) == key(y)
    ensures f(x) == f(y)
  {
    var a, b := Trail(Fronted(s, x), p, key, f), Trail(Fronted(s, y), p, key, f);
    FrontedMultiset(s, x);
    FrontedMultiset(s, y);
    assert SortBy(a, Stamp, true) == SortBy(b, Stamp, true);
    SortsAlike(a, b, Stamp, true);
    FrontedLeads(s, p, key, f, x);
    FrontedLeads(s, p, key, f, y);
    assert Filter(a, KeyIs(Stamp, Stamp(f(x)))) == Filter(b, KeyIs(Stamp, Stamp(f(x))));
  }

  lemma TrailExactly<R(!new)>(s: seq<R>, p: R -> bool, key: R -> Key, f: R -> Event)
    requires StampsMatch(s, p, key, f)
    ensures TrailStable(s, p, key, f) <==> TiedAlike(s, p, key, f)
  {
    if TiedAlike(s, p, key, f) {
      forall t | multiset(t) == multiset(s)
        ensures SortBy(Trail(t, p, key, f), Stamp, true) == SortBy(Trail(s, p, key, f), Stamp, true) {
        TiedTrail(s, t, p, key, f);
      }
    }
    if TrailStable(s, p, key, f) {
      forall x, y | x in s && y in s && p(x) && p(y) && key(x) == key(y) ensures f(x) == f(y) {
        TrailTied(s, p, key, f, x, y);
      }
    }
  }

  // ----- the batches -----

  /** The rows shown, as the query returns them. */
  function Arrived(s: seq<Log>, p: Log -> bool): seq<Log> {
    SortBy(Filter(s, p), Newest, true)
  }

  function BatchAt(s: seq<Log>, p: Log -> bool, k: string): seq<Log> {
    BatchRows(Arrived(s, p))(k)
  }

  const NO_ENTRY := Event(Triage, "", "", "", "", 0, None)

  function BatchEntry(titles: Titles, rows: seq<Log>): string -> Event {
    (k: string) => if BatchRows(rows)(k) == [] then NO_ENTRY else BatchEvent(titles, BatchRows(rows)(k))
  }

  function BatchTrail(titles: Titles, s: seq<Log>, p: Log -> bool): seq<Event> {
    Map(BatchIds(Arrived(s, p)), BatchEntry(titles, Arrived(s, p)))
  }

  ghost predicate BatchesStable(titles: Titles, s: seq<Log>, p: Log -> bool) {
    forall t :: multiset(t) == multiset(s) ==>
      SortBy(BatchTrail(titles, t, p), Stamp, true) == SortBy(BatchTrail(titles, s, p), Stamp, true)
  }

  /** A row shown as part of batch `k`. */
  function Within(p: Log -> bool, k: string): Log -> bool {
    (l: Log) => p(l) && InBatch(k)(l)
  }

  /** No row of its batch is newer. */
  ghost predicate Leads(s: seq<Log>, p: Log -> bool, l: Log) {
    forall r :: r in s && Within(p, Batch(l))(r) ==> Instant(r.createdAt) <= Instant(l.createdAt)
  }

  ghost predicate TiedInBatch(s: seq<Log>, p: Log -> bool, l: Log, m: Log) {
    && l in s && m in s && Within(p, Batch(l))(l) && Within(p, Batch(l))(m)
    && Instant(l.createdAt) == Instant(m.createdAt)
  }

  /** Rows of one batch at one instant expand alike; those that lead it name one actor and reason. */
  ghost predicate MembersAlike(titles: Titles, s: seq<Log>, p: Log -> bool) {
    forall l, m :: TiedInBatch(s, p, l, m) ==>
      && Expand(titles)(l) == Expand(titles)(m)
      && (Leads(s, p, l) ==> l.actor == m.actor && l.reason == m.reason)
  }

  /** Batches under one stamp are one entry. */
  ghost predicate LeadersAlike(titles: Titles, s: seq<Log>, p: Log -> bool) {
    KeyInjective(BatchTrail(titles, s, p), Stamp)
  }

  ghost predicate AllValid(s: seq<Log>) {
    forall l :: l in s ==> Valid(l.createdAt)
  }

  lemma BatchAtIs(s: seq<Log>, p: Log -> bool, k: string)
    ensures BatchAt(s, p, k) == SortBy(Filter(s, Within(p, k)), Newest, true)
  {
    SortSelection(s, Newest, true, p, InBatch(k), Within(p, k));
  }

  lemma BatchAtFacts(s: seq<Log>, p: Log -> bool, k: string)
    ensures SortedBy(BatchAt(s, p, k), Newest, true)
    ensures forall l :: l in BatchAt(s, p, k) <==> l in s && Within(p, k)(l)
  {
    BatchAtIs(s, p, k);
    SortBySorted(Filter(s, Within(p, k)), Newest, true);
    SortByMembers(Filter(s, Within(p, k)), Newest, true);
  }

  lemma BatchIdsShown(s: seq<Log>, p: Log -> bool, k: string)
    ensures k in BatchIds(Arrived(s, p)) <==> exists l :: l in s && Within(p, k)(l)
  {
    BatchIdsOccur(Arrived(s, p), k);
    SortByMembers(Filter(s, p), Newest, true);
    if l :| l in s && Within(p, k)(l) {
      assert l in Arrived(s, p) && InBatch(k)(l);
    }
  }

  lemma BatchFilled(s: seq<Log>, p: Log -> bool, k: string)
    requires k in BatchIds(Arrived(s, p))
    ensures BatchAt(s, p, k) != [] && BatchAt(s, p, k)[0] in s && Within(p, k)(BatchAt(s, p, k)[0])
  {
    BatchAtFacts(s, p, k);
    BatchIdsShown(s, p, k);
    var w :| w in s && Within(p, k)(w);
    assert w in BatchAt(s, p, k);
    assert BatchAt(s, p, k)[0] in BatchAt(s, p, k);
  }

  lemma HeadLeads(s: seq<Log>, p: Log -> bool, k: string)
    requires BatchAt(s, p, k) != [] && Batch(BatchAt(s, p, k)[0]) == k
    ensures Leads(s, p, BatchAt(s, p, k)[0])
  {
    BatchAtFacts(s, p, k);
    forall r | r in s && Within(p, k)(r) ensures Instant(r.createdAt) <= Instant(BatchAt(s, p, k)[0].createdAt) {
      HeadIsLeast(BatchAt(s, p, k), Newest, true, r);
    }
  }

  lemma EntryIs(titles: Titles, s: seq<Log>, p: Log -> bool, k: string)
    requires BatchAt(s, p, k) != []
    ensures BatchEntry(titles, Arrived(s, p))(k) == BatchEvent(titles, BatchAt(s, p, k))
  {
  }

  /** The newest row of a batch gives its entry the stamp. */
  lemma Leader(titles: Titles, s: seq<Log>, p: Log -> bool, k: string) returns (n: Log)
    requires k in BatchIds(Arrived(s, p))
    ensures BatchAt(s, p, k) != [] && n == BatchAt(s, p, k)[0]
    ensures n in s && Within(p, k)(n) && Leads(s, p, n)
    ensures BatchEntry(titles, Arrived(s, p))(k) == BatchEvent(titles, BatchAt(s, p, k))
    ensures BatchEntry(titles, Arrived(s, p))(k).timestamp == Iso(n.createdAt)
  {
    BatchFilled(s, p, k);
    HeadLeads(s, p, k);
    EntryIs(titles, s, p, k);
    n := BatchAt(s, p, k)[0];
  }

  lemma SameMembers(s: seq<Log>, t: seq<Log>, p: Log -> bool)
    requires multiset(t) == multiset(s)
    ensures forall l :: l in t <==> l in s
    ensures forall k :: k in BatchIds(Arrived(t, p)) <==> k in BatchIds(Arrived(s, p))
    ensures multiset(BatchIds(Arrived(t, p))) == multiset(BatchIds(Arrived(s, p)))
  {
    SamePermutationMembers(t, s);
    forall k ensures k in BatchIds(Arrived(t, p)) <==> k in BatchIds(Arrived(s, p)) {
      BatchIdsShown(t, p, k);
      BatchIdsShown(s, p, k);
    }
    DistinctSameElements(BatchIds(Arrived(t, p)), BatchIds(Arrived(s, p)));
  }

  /** Two arrangements of a batch tie place by place. */
  lemma PlacesTie(s: seq<Log>, t: seq<Log>, p: Log -> bool, k: string)
    requires multiset(t) == multiset(s)
    ensures var a, b := BatchAt(t, p, k), BatchAt(s, p, k);
            |a| == |b| && forall i :: 0 <= i < |a| ==> TiedInBatch(s, p, b[i], a[i])
  {
    var a, b := BatchAt(t, p, k), BatchAt(s, p, k);
    BatchAtIs(s, p, k);
    BatchAtIs(t, p, k);
    BatchAtFacts(s, p, k);
    BatchAtFacts(t, p, k);
    FilterPermutation(t, s, Within(p, k));
    SortedPlaces(Filter(t, Within(p, k)), Filter(s, Within(p, k)), Newest, true);
    SamePermutationMembers(t, s);
    forall i | 0 <= i < |a| ensures TiedInBatch(s, p, b[i], a[i]) {
      assert a[i] in a && b[i] in b;
    }
  }

  /** Then a batch's entry is the same in every arrangement. */
  lemma SameEntry(titles: Titles, s: seq<Log>, t: seq<Log>, p: Log -> bool, k: string)
    requires MembersAlike(titles, s, p) && multiset(t) == multiset(s) && k in BatchIds(Arrived(s, p))
    ensures BatchEntry(titles, Arrived(t, p))(k) == BatchEntry(titles, Arrived(s, p))(k)
  {
    SameMembers(s, t, p);
    var a, b := BatchAt(t, p, k), BatchAt(s, p, k);
    var n := Leader(titles, s, p, k);
    var m := Leader(titles, t, p, k);
    PlacesTie(s, t, p, k);
    assert TiedInBatch(s, p, n, m);
    forall i | 0 <= i < |a| ensures Expand(titles)(a[i]) == Expand(titles)(b[i]) {
      assert TiedInBatch(s, p, b[i], a[i]);
    }
    SameBatchEvent(titles, a, b);
  }

  lemma SameBatchEvent(titles: Titles, a: seq<Log>, b: seq<Log>)
    requires |a| == |b| > 0 && forall i :: 0 <= i < |a| ==> Expand(titles)(a[i]) == Expand(titles)(b[i])
    requires a[0].actor == b[0].actor && a[0].reason == b[0].reason
    ensures BatchEvent(titles, a) == BatchEvent(titles, b)
  {
    assert Map(a, Expand(titles)) == Map(b, Expand(titles));
    assert Expand(titles)(a[0]) == Expand(titles)(b[0]);
  }

  lemma AlikeBatches(titles: Titles, s: seq<Log>, t: seq<Log>, p: Log -> bool)
    requires MembersAlike(titles, s, p) && LeadersAlike(titles, s, p) && multiset(t) == multiset(s)
    ensures SortBy(BatchTrail(titles, t, p), Stamp, true) == SortBy(BatchTrail(titles, s, p), Stamp, true)
  {
    SameMembers(s, t, p);
    var ids, entry := BatchIds(Arrived(t, p)), BatchEntry(titles, Arrived(s, p));
    forall i | 0 <= i < |ids| ensures BatchTrail(titles, t, p)[i] == Map(ids, entry)[i] {
      assert ids[i] in ids;
      SameEntry(titles, s, t, p, ids[i]);
    }
    assert BatchTrail(titles, t, p) == Map(ids, entry);
    MapMultiset(ids, BatchIds(Arrived(s, p)), entry);
    SortByOrderIndependent(BatchTrail(titles, s, p), BatchTrail(titles, t, p), Stamp, true);
  }

  // ----- what moving one row to the front shows -----

  function StampOf(l: Log): Key {
    Key(0, 0, Iso(l.createdAt), "", 0)
  }

  function StampedAt(titles: Titles, rows: seq<Log>, k: Key): string -> bool {
    (id: string) => Stamp(BatchEntry(titles, rows)(id)) == k
  }

  function OfBatches(q: string -> bool): Log -> bool {
    (l: Log) => q(Batch(l))
  }

  function BatchedOf(q: string -> bool): Log -> bool {
    (l: Log) => Batched(l) && q(Batch(l))
  }

  lemma StampsLeader(titles: Titles, t: seq<Log>, p: Log -> bool, k: string, n: Log)
    requires AllValid(t) && n in t && k in BatchIds(Arrived(t, p))
    ensures BatchAt(t, p, k) != []
    ensures StampedAt(titles, Arrived(t, p), StampOf(n))(k)
            <==> Instant(BatchAt(t, p, k)[0].createdAt) == Instant(n.createdAt)
  {
    var leader := Leader(titles, t, p, k);
    IsoInjective(leader.createdAt, n.createdAt);
  }

  /** No row of a batch under a leader's stamp is newer than that leader. */
  lemma UnderIsOlder(titles: Titles, t: seq<Log>, p: Log -> bool, n: Log, r: Log)
    requires AllValid(t) && n in t && r in t && Within(p, Batch(r))(r)
    requires StampedAt(titles, Arrived(t, p), StampOf(n))(Batch(r))
    ensures Instant(r.createdAt) <= Instant(n.createdAt)
  {
    BatchIdsShown(t, p, Batch(r));
    StampsLeader(titles, t, p, Batch(r), n);
    var leader := Leader(titles, t, p, Batch(r));
  }

  lemma LeaderUnder(titles: Titles, t: seq<Log>, p: Log -> bool, n: Log)
    requires AllValid(t) && n in t && Within(p, Batch(n))(n) && Leads(t, p, n)
    ensures StampedAt(titles, Arrived(t, p), StampOf(n))(Batch(n))
  {
    BatchIdsShown(t, p, Batch(n));
    StampsLeader(titles, t, p, Batch(n), n);
    var leader := Leader(titles, t, p, Batch(n));
  }

  /** A leader read first is the first row of all batches under its stamp. */
  lemma FirstUnder(titles: Titles, t: seq<Log>, p: Log -> bool, n: Log)
    requires AllValid(t) && t != [] && t[0] == n && Within(p, Batch(n))(n) && Leads(t, p, n)
    ensures var rows := Filter(Arrived(t, p), BatchedOf(StampedAt(titles, Arrived(t, p), StampOf(n))));
            rows != [] && rows[0] == n
  {
    var q := BatchedOf(StampedAt(titles, Arrived(t, p), StampOf(n)));
    var rows := Filter(Arrived(t, p), q);
    LeaderUnder(titles, t, p, n);
    SortByMembers(Filter(t, p), Newest, true);
    assert n in rows;
    SortBySorted(Filter(t, p), Newest, true);
    FilterSorted(Arrived(t, p), Newest, true, q);
    HeadIsLeast(rows, Newest, true, n);
    UnderIsOlder(titles, t, p, n, rows[0]);
    assert Newest(rows[0]) == Newest(n);
    FirstOfKey(t, Newest, true, p, q);
    HeadKept(rows, KeyIs(Newest, Newest(n)));
  }

  /** So its batch is the first entry of that stamp. */
  lemma LeaderFirst(titles: Titles, t: seq<Log>, p: Log -> bool, n: Log)
    requires AllValid(t) && t != [] && t[0] == n && Within(p, Batch(n))(n) && Leads(t, p, n)
    ensures var group := Filter(BatchTrail(titles, t, p), KeyIs(Stamp, StampOf(n)));
            group != [] && group[0] == BatchEntry(titles, Arrived(t, p))(Batch(n))
  {
    var rows := Arrived(t, p);
    var q, entry := StampedAt(titles, rows, StampOf(n)), BatchEntry(titles, rows);
    FirstUnder(titles, t, p, n);
    FilterNarrow(rows, Batched, OfBatches(q), BatchedOf(q));
    FilterMap(Filter(rows, Batched), Batch, q, OfBatches(q));
    DedupFilterHead(Map(Filter(rows, Batched), Batch), q);
    FilterMap(BatchIds(rows), entry, KeyIs(Stamp, StampOf(n)), q);
  }

  /** `l` read ahead of the rows at its instant, and a leader of its batch at the very front. */
  function Poised(s: seq<Log>, l: Log, n: Log): seq<Log> {
    if Newest(l) == Newest(n) then Fronted(s, l) else Fronted(Fronted(s, l), n)
  }

  function WithinAt(p: Log -> bool, k: string, key: Key): Log -> bool {
    (l: Log) => Within(p, k)(l) && Newest(l) == key
  }

  lemma PoisedMultiset(s: seq<Log>, l: Log, n: Log)
    requires l in s && n in s
    ensures multiset(Poised(s, l, n)) == multiset(s)
    ensures forall r :: r in Poised(s, l, n) <==> r in s
  {
    FrontedMultiset(s, l);
    SamePermutationMembers(Fronted(s, l), s);
    if Newest(l) != Newest(n) {
      FrontedMultiset(Fronted(s, l), n);
    }
    SamePermutationMembers(Poised(s, l, n), s);
  }

  lemma PoisedLeads(s: seq<Log>, p: Log -> bool, l: Log, n: Log)
    requires l in s && n in s && Within(p, Batch(l))(l) && Within(p, Batch(l))(n) && Leads(s, p, n)
    ensures var t := Poised(s, l, n);
            t != [] && Within(p, Batch(l))(t[0]) && Batch(t[0]) == Batch(l) && Leads(t, p, t[0])
            && Newest(t[0]) == Newest(n)
  {
    PoisedMultiset(s, l, n);
  }

  lemma PoisedFirst(s: seq<Log>, p: Log -> bool, l: Log, n: Log)
    requires l in s && n in s && Within(p, Batch(l))(l)
    ensures var mine := Filter(BatchAt(Poised(s, l, n), p, Batch(l)), KeyIs(Newest, Newest(l)));
            mine != [] && mine[0] == l
  {
    var t, w, z := Poised(s, l, n), Within(p, Batch(l)), WithinAt(p, Batch(l), Newest(l));
    BatchAtIs(t, p, Batch(l));
    SortGroup(Filter(t, w), Newest, true, Newest(l));
    FilterNarrow(t, w, KeyIs(Newest, Newest(l)), z);
    HeadKept(Fronted(s, l), z);
    if Newest(l) != Newest(n) {
      FrontedUnseen(Fronted(s, l), n, z);
    }
  }

  function ItemAt(stamp: string): ExpandItem -> bool {
    (x: ExpandItem) => x.timestamp == stamp
  }

  lemma ExpandHead(titles: Titles, a: seq<Log>, l: Log)
    requires AllValid(a) && Filter(a, KeyIs(Newest, Newest(l))) != [] && Filter(a, KeyIs(Newest, Newest(l)))[0] == l
    ensures var items := Filter(Map(a, Expand(titles)), ItemAt(Iso(l.createdAt)));
            items != [] && items[0] == Expand(titles)(l)
  {
    var stamped := (r: Log) => Iso(r.createdAt) == Iso(l.createdAt);
    assert l in Filter(a, KeyIs(Newest, Newest(l)));
    forall r | r in a ensures stamped(r) == KeyIs(Newest, Newest(l))(r) {
      IsoInjective(r.createdAt, l.createdAt);
    }
    FilterCong(a, stamped, KeyIs(Newest, Newest(l)));
    FilterMap(a, Expand(titles), ItemAt(Iso(l.createdAt)), stamped);
  }

  lemma LeaderHead(s: seq<Log>, p: Log -> bool, l: Log, a: seq<Log>)
    requires Leads(s, p, l) && SortedBy(a, Newest, true) && forall r :: r in a ==> r in s && Within(p, Batch(l))(r)
    requires Filter(a, KeyIs(Newest, Newest(l))) != [] && Filter(a, KeyIs(Newest, Newest(l)))[0] == l
    ensures a != [] && a[0] == l
  {
    assert l in Filter(a, KeyIs(Newest, Newest(l)));
    HeadIsLeast(a, Newest, true, l);
    assert a[0] in a;
    HeadKept(a, KeyIs(Newest, Newest(l)));
  }

  /** The poised batch is the first entry of its stamp. */
  lemma PoisedGroup(titles: Titles, s: seq<Log>, p: Log -> bool, l: Log, n: Log)
    requires AllValid(s) && l in s && n in s && Within(p, Batch(l))(l) && Within(p, Batch(l))(n) && Leads(s, p, n)
    ensures var t := Poised(s, l, n); var a := BatchAt(t, p, Batch(l));
            var group := Filter(BatchTrail(titles, t, p), KeyIs(Stamp, StampOf(n)));
            group != [] && a != [] && group[0] == BatchEvent(titles, a)
  {
    var t := Poised(s, l, n);
    PoisedMultiset(s, l, n);
    PoisedLeads(s, p, l, n);
    IsoInjective(t[0].createdAt, n.createdAt);
    LeaderFirst(titles, t, p, t[0]);
    BatchIdsShown(t, p, Batch(l));
    BatchFilled(t, p, Batch(l));
    EntryIs(titles, t, p, Batch(l));
  }

  /** Stability makes the two ways to poise tied rows give one entry. */
  lemma PoisedAlike(titles: Titles, s: seq<Log>, p: Log -> bool, l: Log, m: Log, n: Log)
    requires AllValid(s) && BatchesStable(titles, s, p) && TiedInBatch(s, p, l, m)
    requires n in s && Within(p, Batch(l))(n) && Leads(s, p, n)
    ensures var a, b := BatchAt(Poised(s, l, n), p, Batch(l)), BatchAt(Poised(s, m, n), p, Batch(l));
            a != [] && b != [] && BatchEvent(titles, a) == BatchEvent(titles, b)
  {
    PoisedGroup(titles, s, p, l, n);
    PoisedGroup(titles, s, p, m, n);
    PoisedMultiset(s, l, n);
    PoisedMultiset(s, m, n);
    SameGroup(titles, s, Poised(s, l, n), Poised(s, m, n), p, StampOf(n));
  }

  lemma SameGroup(titles: Titles, s: seq<Log>, t: seq<Log>, u: seq<Log>, p: Log -> bool, k: Key)
    requires BatchesStable(titles, s, p) && multiset(t) == multiset(s) && multiset(u) == multiset(s)
    ensures Filter(BatchTrail(titles, t, p), KeyIs(Stamp, k)) == Filter(BatchTrail(titles, u, p), KeyIs(Stamp, k))
  {
    assert SortBy(BatchTrail(titles, t, p), Stamp, true) == SortBy(BatchTrail(titles, u, p), Stamp, true);
    SortsAlike(BatchTrail(titles, t, p), BatchTrail(titles, u, p), Stamp, true);
  }

  /** The batch as read from the poised rows. */
  lemma PoisedBatch(titles: Titles, s: seq<Log>, p: Log -> bool, l: Log, n: Log) returns (a: seq<Log>)
    requires AllValid(s) && l in s && n in s && Within(p, Batch(l))(l)
    ensures a == BatchAt(Poised(s, l, n), p, Batch(l))
    ensures var items := Filter(Map(a, Expand(titles)), ItemAt(Iso(l.createdAt)));
            items != [] && items[0] == Expand(titles)(l)
    ensures Leads(s, p, l) ==> a != [] && a[0] == l
  {
    var t := Poised(s, l, n);
    a := BatchAt(t, p, Batch(l));
    PoisedMultiset(s, l, n);
    BatchAtFacts(t, p, Batch(l));
    PoisedFirst(s, p, l, n);
    ExpandHead(titles, a, l);
    if Leads(s, p, l) {
      LeaderHead(s, p, l, a);
    }
  }

  /** What one entry says of two readings of a batch that begin, at `stamp`, with `l` and `m`. */
  lemma OneEntry(titles: Titles, a: seq<Log>, b: seq<Log>, l: Log, m: Log, stamp: string)
    requires a != [] && b != [] && BatchEvent(titles, a) == BatchEvent(titles, b)
    requires var items := Filter(Map(a, Expand(titles)), ItemAt(stamp)); items != [] && items[0] == Expand(titles)(l)
    requires var items := Filter(Map(b, Expand(titles)), ItemAt(stamp)); items != [] && items[0] == Expand(titles)(m)
    ensures Expand(titles)(l) == Expand(titles)(m)
    ensures a[0] == l && b[0] == m ==> l.actor == m.actor && l.reason == m.reason
  {
    assert BatchEvent(titles, a).expand.value == Map(a, Expand(titles));
    assert BatchEvent(titles, b).expand.value == Map(b, Expand(titles));
  }

  lemma TiesForced(titles: Titles, s: seq<Log>, p: Log -> bool, l: Log, m: Log)
    requires AllValid(s) && BatchesStable(titles, s, p) && TiedInBatch(s, p, l, m)
    ensures Expand(titles)(l) == Expand(titles)(m)
    ensures Leads(s, p, l) ==> l.actor == m.actor && l.reason == m.reason
  {
    BatchIdsShown(s, p, Batch(l));
    var n := Leader(titles, s, p, Batch(l));
    PoisedAlike(titles, s, p, l, m, n);
    PoisedEntries(titles, s, p, l, m, n);
  }

  lemma PoisedEntries(titles: Titles, s: seq<Log>, p: Log -> bool, l: Log, m: Log, n: Log)
    requires AllValid(s) && TiedInBatch(s, p, l, m) && n in s
    requires var a, b := BatchAt(Poised(s, l, n), p, Batch(l)), BatchAt(Poised(s, m, n), p, Batch(l));
             a != [] && b != [] && BatchEvent(titles, a) == BatchEvent(titles, b)
    ensures Expand(titles)(l) == Expand(titles)(m)
    ensures Leads(s, p, l) ==> l.actor == m.actor && l.reason == m.reason
  {
    var a := PoisedBatch(titles, s, p, l, n);
    var b := PoisedBatch(titles, s, p, m, n);
    IsoInjective(l.createdAt, m.createdAt);
    OneEntry(titles, a, b, l, m, Iso(l.createdAt));
    assert Leads(s, p, l) ==> Leads(s, p, m);
  }

  /** Two batches under one stamp can each be read first. */
  lemma LeadersForced(titles: Titles, s: seq<Log>, p: Log -> bool, j: string, k: string)
    requires AllValid(s) && BatchesStable(titles, s, p) && MembersAlike(titles, s, p)
    requires j in BatchIds(Arrived(s, p)) && k in BatchIds(Arrived(s, p))
    requires var entry := BatchEntry(titles, Arrived(s, p)); Stamp(entry(j)) == Stamp(entry(k))
    ensures var entry := BatchEntry(titles, Arrived(s, p)); entry(j) == entry(k)
  {
    var l := Leader(titles, s, p, j);
    var m := Leader(titles, s, p, k);
    var t, u := Fronted(s, l), Fronted(s, m);
    PoisedMultiset(s, l, l);
    PoisedMultiset(s, m, m);
    LeaderFirst(titles, t, p, l);
    LeaderFirst(titles, u, p, m);
    SameGroup(titles, s, t, u, p, StampOf(l));
    SameEntry(titles, s, t, p, j);
    SameEntry(titles, s, u, p, k);
  }

  /** The batches sort alike in every arrangement exactly when tied rows of a batch, and tied
      batches, look alike. */
  lemma BatchesExactly(titles: Titles, s: seq<Log>, p: Log -> bool)
    requires AllValid(s)
    ensures BatchesStable(titles, s, p) <==> MembersAlike(titles, s, p) && LeadersAlike(titles, s, p)
  {
    if MembersAlike(titles, s, p) && LeadersAlike(titles, s, p) {
      forall t | multiset(t) == multiset(s)
        ensures SortBy(BatchTrail(titles, t, p), Stamp, true) == SortBy(BatchTrail(titles, s, p), Stamp, true) {
        AlikeBatches(titles, s, t, p);
      }
    }
    if BatchesStable(titles, s, p) {
      forall l, m | TiedInBatch(s, p, l, m)
        ensures Expand(titles)(l) == Expand(titles)(m)
        ensures Leads(s, p, l) ==> l.actor == m.actor && l.reason == m.reason {
        TiesForced(titles, s, p, l, m);
      }
      StableLeaders(titles, s, p);
    }
  }

  lemma StableLeaders(titles: Titles, s: seq<Log>, p: Log -> bool)
    requires AllValid(s) && BatchesStable(titles, s, p) && MembersAlike(titles, s, p)
    ensures LeadersAlike(titles, s, p)
  {
    var entries, ids := BatchTrail(titles, s, p), BatchIds(Arrived(s, p));
    forall x, y | x in entries && y in entries && Stamp(x) == Stamp(y) ensures x == y {
      var i :| 0 <= i < |entries| && entries[i] == x;
      var j :| 0 <= j < |entries| && entries[j] == y;
      LeadersForced(titles, s, p, ids[i], ids[j]);
    }
  }

  // ----- the whole feed -----

  function SinglesShown(p: Log -> bool): Log -> bool {
    (l: Log) => p(l) && Unbatched(l)
  }

  function Singles(db: Db, c: Caller, q: Query): seq<Event> {
    Trail(db.logs, SinglesShown(LogsShown(db, c, q)), Newest, SingleEvent(Titled(db, c)))
  }

  function Batches(db: Db, c: Caller, q: Query): seq<Event> {
    BatchTrail(Titled(db, c), db.logs, LogsShown(db, c, q))
  }

  function Scans(db: Db, c: Caller, q: Query): seq<Event> {
    Trail(db.scans, ScansShown(db, c, q), Started, ScanEvent(Named(db, c)))
  }

  function Calls(db: Db, c: Caller, q: Query): seq<Event> {
    Trail(db.mcp, CallsShown(db, c, q), Called, McpEvent(db.users))
  }

  lemma AloneEvents(titles: Titles, logs: seq<Log>)
    requires forall l :: l in logs ==> Unbatched(l)
    ensures EventsOf(titles, Map(logs, Alone)) == Map(logs, SingleEvent(titles))
  {
    forall i | 0 <= i < |logs| ensures EventOf(titles, Alone(logs[i])) == SingleEvent(titles)(logs[i]) {
      assert logs[i] in logs;
    }
  }

  lemma BatchesFilled(rows: seq<Log>)
    ensures forall i :: 0 <= i < |BatchIds(rows)| ==>
              Map(BatchIds(rows), BatchRows(rows))[i] != [] && Batched(Map(BatchIds(rows), BatchRows(rows))[i][0])
  {
    forall i | 0 <= i < |BatchIds(rows)|
      ensures BatchRows(rows)(BatchIds(rows)[i]) != [] && Batched(BatchRows(rows)(BatchIds(rows)[i])[0]) {
      BatchRowsFacts(rows, BatchIds(rows)[i]);
    }
  }

  lemma WholeBatches(titles: Titles, rows: seq<Log>)
    ensures forall i :: 0 <= i < |BatchIds(rows)| ==> Map(BatchIds(rows), BatchRows(rows))[i] != []
    ensures EventsOf(titles, Map(BatchIds(rows), BatchRows(rows))) == Map(BatchIds(rows), BatchEntry(titles, rows))
  {
    BatchesFilled(rows);
  }

  lemma EventsAppend(titles: Titles, a: seq<seq<Log>>, b: seq<seq<Log>>)
    requires forall i :: 0 <= i < |a| ==> a[i] != []
    requires forall i :: 0 <= i < |b| ==> b[i] != []
    ensures EventsOf(titles, a + b) == EventsOf(titles, a) + EventsOf(titles, b)
  {
  }

  lemma TriageHalves(titles: Titles, rows: seq<Log>)
    ensures TriageFeed(titles, rows)
            == Map(Filter(rows, Unbatched), SingleEvent(titles)) + Map(BatchIds(rows), BatchEntry(titles, rows))
  {
    AloneEvents(titles, Filter(rows, Unbatched));
    WholeBatches(titles, rows);
    EventsAppend(titles, Map(Filter(rows, Unbatched), Alone), Map(BatchIds(rows), BatchRows(rows)));
  }

  lemma TriageParts(titles: Titles, s: seq<Log>, p: Log -> bool)
    ensures TriageFeed(titles, Arrived(s, p))
            == Trail(s, SinglesShown(p), Newest, SingleEvent(titles)) + BatchTrail(titles, s, p)
  {
    TriageHalves(titles, Arrived(s, p));
    SortFilter(Filter(s, p), Newest, true, Unbatched);
    FilterNarrow(s, p, Unbatched, SinglesShown(p));
  }

  lemma GatheredParts(db: Db, c: Caller, q: Query)
    ensures Gathered(db, c, q) == Singles(db, c, q) + Batches(db, c, q) + Scans(db, c, q) + Calls(db, c, q)
  {
    TriageParts(Titled(db, c), db.logs, LogsShown(db, c, q));
  }

  predicate IsSingle(e: Event) { e.kind.Triage? && e.expand.None? }

  predicate IsTriage(e: Event) { e.kind.Triage? }

  predicate NotCall(e: Event) { !e.kind.Mcp? }

  lemma Kinds(db: Db, c: Caller, q: Query)
    ensures forall e :: e in Singles(db, c, q) ==> IsSingle(e)
    ensures forall e :: e in Batches(db, c, q) ==> IsTriage(e) && !IsSingle(e)
    ensures forall e :: e in Scans(db, c, q) ==> e.kind.ScanRun?
    ensures forall e :: e in Calls(db, c, q) ==> e.kind.Mcp?
  {
    var ids := BatchIds(LogRows(db, c, q));
    forall e | e in Batches(db, c, q) ensures IsTriage(e) && !IsSingle(e) {
      var i :| 0 <= i < |ids| && Batches(db, c, q)[i] == e;
      BatchRowsFacts(LogRows(db, c, q), ids[i]);
    }
  }

  /** Two feeds are one exactly when each of their four parts sorts alike. */
  lemma FeedAlike(a: Db, b: Db, c: Caller, q: Query)
    ensures Feed(a, c, q) == Feed(b, c, q)
            <==> (&& SortBy(Singles(a, c, q), Stamp, true) == SortBy(Singles(b, c, q), Stamp, true)
                  && SortBy(Batches(a, c, q), Stamp, true) == SortBy(Batches(b, c, q), Stamp, true)
                  && SortBy(Scans(a, c, q), Stamp, true) == SortBy(Scans(b, c, q), Stamp, true)
                  && SortBy(Calls(a, c, q), Stamp, true) == SortBy(Calls(b, c, q), Stamp, true))
  {
    GatheredParts(a, c, q);
    GatheredParts(b, c, q);
    Kinds(a, c, q);
    Kinds(b, c, q);
    TriageApart(Singles(a, c, q), Batches(a, c, q), Singles(b, c, q), Batches(b, c, q));
    OthersApart(Singles(a, c, q) + Batches(a, c, q), Scans(a, c, q), Calls(a, c, q),
                Singles(b, c, q) + Batches(b, c, q), Scans(b, c, q), Calls(b, c, q));
  }

  lemma TriageApart(s: seq<Event>, b: seq<Event>, s': seq<Event>, b': seq<Event>)
    requires forall e :: e in s || e in s' ==> IsSingle(e)
    requires forall e :: e in b || e in b' ==> IsTriage(e) && !IsSingle(e)
    ensures forall e :: e in s + b || e in s' + b' ==> IsTriage(e)
    ensures SortBy(s + b, Stamp, true) == SortBy(s' + b', Stamp, true)
            <==> SortBy(s, Stamp, true) == SortBy(s', Stamp, true) && SortBy(b, Stamp, true) == SortBy(b', Stamp, true)
  {
    SortsApart(s, b, s', b', Stamp, true, IsSingle);
  }

  lemma OthersApart(t: seq<Event>, r: seq<Event>, m: seq<Event>, t': seq<Event>, r': seq<Event>, m': seq<Event>)
    requires forall e :: e in t || e in t' ==> IsTriage(e)
    requires forall e :: e in r || e in r' ==> e.kind.ScanRun?
    requires forall e :: e in m || e in m' ==> e.kind.Mcp?
    ensures SortBy(t + r + m, Stamp, true) == SortBy(t' + r' + m', Stamp, true)
            <==> (&& SortBy(t, Stamp, true) == SortBy(t', Stamp, true)
                  && SortBy(r, Stamp, true) == SortBy(r', Stamp, true)
                  && SortBy(m, Stamp, true) == SortBy(m', Stamp, true))
  {
    SortsApart(t, r, t', r', Stamp, true, IsTriage);
    SortsApart(t + r, m, t' + r', m', Stamp, true, NotCall);
  }

  /** The same rows, each trail's table read in any order. */
  ghost predicate Shuffled(a: Db, b: Db) {
    && b == a.(logs := b.logs, scans := b.scans, mcp := b.mcp)
    && multiset(b.logs) == multiset(a.logs) && multiset(b.scans) == multiset(a.scans)
    && multiset(b.mcp) == multiset(a.mcp)
  }

  /** Two requests get the same pages, whatever order the database returns rows in. */
  ghost predicate FeedStable(db: Db, c: Caller, q: Query, size: int)
    requires size >= 1
  {
    forall e :: Shuffled(db, e) ==> PagesAlike(Feed(e, c, q), Feed(db, c, q), size)
  }

  ghost predicate ValidTimes(db: Db) {
    && AllValid(db.logs)
    && (forall s :: s in db.scans ==> Valid(s.startedAt))
    && (forall m :: m in db.mcp ==> Valid(m.createdAt))
  }

  lemma SameScope(a: Db, b: Db, c: Caller, q: Query)
    requires Shuffled(a, b)
    ensures LogsShown(b, c, q) == LogsShown(a, c, q) && Titled(b, c) == Titled(a, c)
    ensures ScansShown(b, c, q) == ScansShown(a, c, q) && Named(b, c) == Named(a, c)
    ensures CallsShown(b, c, q) == CallsShown(a, c, q) && b.users == a.users
  {
    assert TargetsSeen(b, c) == TargetsSeen(a, c);
    assert FindingsSeen(b, c) == FindingsSeen(a, c);
  }

  ghost predicate PartsStable(db: Db, c: Caller, q: Query) {
    && TrailStable(db.logs, SinglesShown(LogsShown(db, c, q)), Newest, SingleEvent(Titled(db, c)))
    && BatchesStable(Titled(db, c), db.logs, LogsShown(db, c, q))
    && TrailStable(db.scans, ScansShown(db, c, q), Started, ScanEvent(Named(db, c)))
    && TrailStable(db.mcp, CallsShown(db, c, q), Called, McpEvent(db.users))
  }

  lemma PartsGiveFeed(db: Db, e: Db, c: Caller, q: Query)
    requires PartsStable(db, c, q) && Shuffled(db, e)
    ensures Feed(e, c, q) == Feed(db, c, q)
  {
    SameScope(db, e, c, q);
    FeedAlike(e, db, c, q);
  }

  lemma FeedGivesFeed(db: Db, e: Db, c: Caller, q: Query, size: int)
    requires size >= 1 && FeedStable(db, c, q, size) && Shuffled(db, e)
    ensures Feed(e, c, q) == Feed(db, c, q)
  {
    PagedAlike(Feed(e, c, q), Feed(db, c, q), size);
  }

  lemma FeedGivesLogsRead(db: Db, t: seq<Log>, c: Caller, q: Query, size: int)
    requires size >= 1 && FeedStable(db, c, q, size) && multiset(t) == multiset(db.logs)
    ensures SortBy(Trail(t, SinglesShown(LogsShown(db, c, q)), Newest, SingleEvent(Titled(db, c))), Stamp, true)
            == SortBy(Singles(db, c, q), Stamp, true)
    ensures SortBy(BatchTrail(Titled(db, c), t, LogsShown(db, c, q)), Stamp, true)
            == SortBy(Batches(db, c, q), Stamp, true)
  {
    var e := db.(logs := t);
    FeedGivesFeed(db, e, c, q, size);
    FeedAlike(e, db, c, q);
    SameScope(db, e, c, q);
  }

  lemma FeedGivesSingles(db: Db, c: Caller, q: Query, size: int)
    requires size >= 1 && FeedStable(db, c, q, size)
    ensures TrailStable(db.logs, SinglesShown(LogsShown(db, c, q)), Newest, SingleEvent(Titled(db, c)))
  {
    forall t | multiset(t) == multiset(db.logs)
      ensures SortBy(Trail(t, SinglesShown(LogsShown(db, c, q)), Newest, SingleEvent(Titled(db, c))), Stamp, true)
              == SortBy(Singles(db, c, q), Stamp, true) {
      FeedGivesLogsRead(db, t, c, q, size);
    }
  }

  lemma FeedGivesBatches(db: Db, c: Caller, q: Query, size: int)
    requires size >= 1 && FeedStable(db, c, q, size)
    ensures BatchesStable(Titled(db, c), db.logs, LogsShown(db, c, q))
  {
    forall t | multiset(t) == multiset(db.logs)
      ensures SortBy(BatchTrail(Titled(db, c), t, LogsShown(db, c, q)), Stamp, true)
              == SortBy(Batches(db, c, q), Stamp, true) {
      FeedGivesLogsRead(db, t, c, q, size);
    }
  }

  lemma FeedGivesScans(db: Db, c: Caller, q: Query, size: int)
    requires size >= 1 && FeedStable(db, c, q, size)
    ensures TrailStable(db.scans, ScansShown(db, c, q), Started, ScanEvent(Named(db, c)))
  {
    forall t | multiset(t) == multiset(db.scans)
      ensures SortBy(Trail(t, ScansShown(db, c, q), Started, ScanEvent(Named(db, c))), Stamp, true)
              == SortBy(Scans(db, c, q), Stamp, true) {
      var e := db.(scans := t);
      FeedGivesFeed(db, e, c, q, size);
      FeedAlike(e, db, c, q);
      SameScope(db, e, c, q);
    }
  }

  lemma FeedGivesCalls(db: Db, c: Caller, q: Query, size: int)
    requires size >= 1 && FeedStable(db, c, q, size)
    ensures TrailStable(db.mcp, CallsShown(db, c, q), Called, McpEvent(db.users))
  {
    forall t | multiset(t) == multiset(db.mcp)
      ensures SortBy(Trail(t, CallsShown(db, c, q), Called, McpEvent(db.users)), Stamp, true)
              == SortBy(Calls(db, c, q), Stamp, true) {
      var e := db.(mcp := t);
      FeedGivesFeed(db, e, c, q, size);
      FeedAlike(e, db, c, q);
      SameScope(db, e, c, q);
    }
  }

  /** What rows shown at one instant must have in common, trail by trail. */
  ghost predicate TiesLookAlike(db: Db, c: Caller, q: Query) {
    && TiedAlike(db.logs, SinglesShown(LogsShown(db, c, q)), Newest, SingleEvent(Titled(db, c)))
    && MembersAlike(Titled(db, c), db.logs, LogsShown(db, c, q))
    && LeadersAlike(Titled(db, c), db.logs, LogsShown(db, c, q))
    && TiedAlike(db.scans, ScansShown(db, c, q), Started, ScanEvent(Named(db, c)))
    && TiedAlike(db.mcp, CallsShown(db, c, q), Called, McpEvent(db.users))
  }

  lemma StampsFollow(db: Db, c: Caller, q: Query)
    requires ValidTimes(db)
    ensures StampsMatch(db.logs, SinglesShown(LogsShown(db, c, q)), Newest, SingleEvent(Titled(db, c)))
    ensures StampsMatch(db.scans, ScansShown(db, c, q), Started, ScanEvent(Named(db, c)))
    ensures StampsMatch(db.mcp, CallsShown(db, c, q), Called, McpEvent(db.users))
  {
    forall x, y | x in db.logs && y in db.logs
      ensures Newest(x) == Newest(y) <==> Iso(x.createdAt) == Iso(y.createdAt) {
      IsoInjective(x.createdAt, y.createdAt);
    }
    forall x, y | x in db.scans && y in db.scans
      ensures Started(x) == Started(y) <==> Iso(x.startedAt) == Iso(y.startedAt) {
      IsoInjective(x.startedAt, y.startedAt);
    }
    forall x, y | x in db.mcp && y in db.mcp
      ensures Called(x) == Called(y) <==> Iso(x.createdAt) == Iso(y.createdAt) {
      IsoInjective(x.createdAt, y.createdAt);
    }
  }

  lemma PartsExactly(db: Db, c: Caller, q: Query)
    requires ValidTimes(db)
    ensures PartsStable(db, c, q) <==> TiesLookAlike(db, c, q)
  {
    StampsFollow(db, c, q);
    TrailExactly(db.logs, SinglesShown(LogsShown(db, c, q)), Newest, SingleEvent(Titled(db, c)));
    BatchesExactly(Titled(db, c), db.logs, LogsShown(db, c, q));
    TrailExactly(db.scans, ScansShown(db, c, q), Started, ScanEvent(Named(db, c)));
    TrailExactly(db.mcp, CallsShown(db, c, q), Called, McpEvent(db.users));
  }

  /** Two requests page alike, whatever order the database returns rows in, exactly when rows of one
      trail shown at one instant look alike: unbatched rows, the rows inside a batch, whole batches,
      scans, agent calls. Rows of different trails may share an instant freely. */
  lemma FeedPagesStable(db: Db, c: Caller, q: Query, size: int)
    requires size >= 1 && ValidTimes(db)
    ensures FeedStable(db, c, q, size) <==> TiesLookAlike(db, c, q)
  {
    PartsExactly(db, c, q);
    if PartsStable(db, c, q) {
      forall e | Shuffled(db, e) ensures PagesAlike(Feed(e, c, q), Feed(db, c, q), size) {
        PartsGiveFeed(db, e, c, q);
      }
    }
    if FeedStable(db, c, q, size) {
      FeedGivesSingles(db, c, q, size);
      FeedGivesBatches(db, c, q, size);
      FeedGivesScans(db, c, q, size);
      FeedGivesCalls(db, c, q, size);
    }
  }

  lemma DistinctTies<R(!new)>(s: seq<R>, p: R -> bool, key: R -> Key, f: R -> Event)
    requires KeyInjective(Filter(s, p), key)
    ensures TiedAlike(s, p, key, f)
  {
    forall x, y | x in s && y in s && p(x) && p(y) && key(x) == key(y) ensures f(x) == f(y) {
      assert x in Filter(s, p) && y in Filter(s, p);
    }
  }

  lemma OneRow(s: seq<Log>, p: Log -> bool, x: Log, y: Log)
    requires KeyInjective(Filter(s, p), Newest) && x in s && y in s && p(x) && p(y)
    requires Instant(x.createdAt) == Instant(y.createdAt)
    ensures x == y
  {
    assert x in Filter(s, p) && y in Filter(s, p) && Newest(x) == Newest(y);
  }

  lemma DistinctLeader(titles: Titles, s: seq<Log>, p: Log -> bool, j: string, k: string)
    requires AllValid(s) && KeyInjective(Filter(s, p), Newest)
    requires j in BatchIds(Arrived(s, p)) && k in BatchIds(Arrived(s, p))
    requires var entry := BatchEntry(titles, Arrived(s, p)); entry(j).timestamp == entry(k).timestamp
    ensures j == k
  {
    var l := Leader(titles, s, p, j);
    var m := Leader(titles, s, p, k);
    IsoInjective(l.createdAt, m.createdAt);
    OneRow(s, p, l, m);
  }

  lemma DistinctLeaders(titles: Titles, s: seq<Log>, p: Log -> bool)
    requires AllValid(s) && KeyInjective(Filter(s, p), Newest)
    ensures LeadersAlike(titles, s, p)
  {
    var entries, ids := BatchTrail(titles, s, p), BatchIds(Arrived(s, p));
    forall x, y | x in entries && y in entries && Stamp(x) == Stamp(y) ensures x == y {
      var i :| 0 <= i < |entries| && entries[i] == x;
      var j :| 0 <= j < |entries| && entries[j] == y;
      assert ids[i] in ids && ids[j] in ids;
      DistinctLeader(titles, s, p, ids[i], ids[j]);
    }
  }

  lemma DistinctMembers(titles: Titles, s: seq<Log>, p: Log -> bool)
    requires KeyInjective(Filter(s, p), Newest)
    ensures TiedAlike(s, SinglesShown(p), Newest, SingleEvent(titles)) && MembersAlike(titles, s, p)
  {
    var f := SingleEvent(titles);
    forall x, y | x in s && y in s && SinglesShown(p)(x) && SinglesShown(p)(y) && Newest(x) == Newest(y)
      ensures f(x) == f(y) {
      OneRow(s, p, x, y);
    }
    forall l, m | TiedInBatch(s, p, l, m) ensures l == m {
      OneRow(s, p, l, m);
    }
  }

  /** In particular it holds where no two rows shown of one table share an instant. */
  lemma DistinctInstantsPageAlike(db: Db, c: Caller, q: Query, size: int)
    requires size >= 1 && ValidTimes(db)
    requires KeyInjective(Filter(db.logs, LogsShown(db, c, q)), Newest)
    requires KeyInjective(Filter(db.scans, ScansShown(db, c, q)), Started)
    requires KeyInjective(Filter(db.mcp, CallsShown(db, c, q)), Called)
    ensures FeedStable(db, c, q, size)
  {
    DistinctMembers(Titled(db, c), db.logs, LogsShown(db, c, q));
    DistinctLeaders(Titled(db, c), db.logs, LogsShown(db, c, q));
    DistinctTies(db.scans, ScansShown(db, c, q), Started, ScanEvent(Named(db, c)));
    DistinctTies(db.mcp, CallsShown(db, c, q), Called, McpEvent(db.users));
    FeedPagesStable(db, c, q, size);
  }

  function RunOf(tool: string): Scan {
    Scan(1, tool, "completed", 0, DateTime(2026, 1, 1, 0, 0, 0, 0))
  }

  function TwoRuns(): Db {
    Db([], [], [], [RunOf("grype"), RunOf("trivy")], [], [])
  }

  lemma TwoRunsValid()
    ensures ValidTimes(TwoRuns())
  {
  }

  lemma ToolsDiffer(names: int -> Option<string>)
    ensures ScanEvent(names)(RunOf("grype")) != ScanEvent(names)(RunOf("trivy"))
  {
    assert ScanEvent(names)(RunOf("grype")).summary[0] == 'g';
    assert ScanEvent(names)(RunOf("trivy")).summary[0] == 't';
  }

  /** Two runs of different scanners begun at one instant: an admin's pages, of whatever size, depend
      on the order the database returns them in. */
  lemma TiedScansMove(c: Caller, q: Query, size: int) returns (db: Db)
    requires size >= 1 && c.workspaces.None? && q == Query("", "", None, None, 1, size)
    ensures ValidTimes(db) && db.logs == [] && db.mcp == [] && db.scans == [RunOf("grype"), RunOf("trivy")]
    ensures !FeedStable(db, c, q, size)
  {
    db := TwoRuns();
    TwoRunsValid();
    TwoRunsTie(c, q);
    FeedPagesStable(db, c, q, size);
  }

  lemma TwoRunsTie(c: Caller, q: Query)
    requires c.workspaces.None? && q.eventType == "" && q.actor == "" && q.from.None? && q.until.None?
    ensures !TiedAlike(TwoRuns().scans, ScansShown(TwoRuns(), c, q), Started, ScanEvent(Named(TwoRuns(), c)))
  {
    var a, b, s := RunOf("grype"), RunOf("trivy"), TwoRuns().scans;
    ToolsDiffer(Named(TwoRuns(), c));
    assert s[0] == a && s[1] == b;
    assert ScansShown(TwoRuns(), c, q)(a) && ScansShown(TwoRuns(), c, q)(b) && Started(a) == Started(b);
  }

  // ----- order -----

  lemma TrailRow<R(!new)>(s: seq<R>, p: R -> bool, key: R -> Key, f: R -> Event, e: Event) returns (r: R)
    requires e in Trail(s, p, key, f)
    ensures r in s && e == f(r)
  {
    var rows := SortBy(Filter(s, p), key, true);
    var i :| 0 <= i < |rows| && Map(rows, f)[i] == e;
    r := rows[i];
    SortByMembers(Filter(s, p), key, true);
    assert r in rows;
  }

  /** Every entry bears the time of a stored row. */
  lemma EntryStamped(db: Db, c: Caller, q: Query, e: Event) returns (at: DateTime)
    requires ValidTimes(db) && e in Gathered(db, c, q)
    ensures Valid(at) && e.timestamp == Iso(at)
  {
    GatheredParts(db, c, q);
    if e in Singles(db, c, q) {
      var l := TrailRow(db.logs, SinglesShown(LogsShown(db, c, q)), Newest, SingleEvent(Titled(db, c)), e);
      at := l.createdAt;
    } else if e in Batches(db, c, q) {
      var ids := BatchIds(LogRows(db, c, q));
      var i :| 0 <= i < |ids| && Batches(db, c, q)[i] == e;
      var l := Leader(Titled(db, c), db.logs, LogsShown(db, c, q), ids[i]);
      at := l.createdAt;
    } else if e in Scans(db, c, q) {
      var s := TrailRow(db.scans, ScansShown(db, c, q), Started, ScanEvent(Named(db, c)), e);
      at := s.startedAt;
    } else {
      var m := TrailRow(db.mcp, CallsShown(db, c, q), Called, McpEvent(db.users), e);
      at := m.createdAt;
    }
  }

  /** The feed is newest first in time, not only in text. */
  lemma FeedOrder(db: Db, c: Caller, q: Query, i: nat, j: nat) returns (a: DateTime, b: DateTime)
    requires ValidTimes(db) && i < j < |Feed(db, c, q)|
    ensures Valid(a) && Feed(db, c, q)[i].timestamp == Iso(a)
    ensures Valid(b) && Feed(db, c, q)[j].timestamp == Iso(b)
    ensures Instant(a) >= Instant(b)
  {
    var feed := Feed(db, c, q);
    SortByMembers(Gathered(db, c, q), Stamp, true);
    assert feed[i] in feed && feed[j] in feed;
    a := EntryStamped(db, c, q, feed[i]);
    b := EntryStamped(db, c, q, feed[j]);
    SortBySorted(Gathered(db, c, q), Stamp, true);
    assert !Precedes(Stamp, true, feed[j], feed[i]);
    IsoOrder(a, b);
  }

  /** Page after page gives every gathered entry, each as often as it was gathered. */
  lemma FeedPages(gathered: seq<Event>, n: nat, size: int)
    requires size >= 1 && n * size >= |gathered|
    ensures multiset(FirstPages(SortBy(gathered, Stamp, true), n, size)) == multiset(gathered)
  {
    var feed := SortBy(gathered, Stamp, true);
    assert |feed| == |multiset(feed)| == |gathered|;
    PagesConcatenate(feed, n, size);
    assert feed[..|feed|] == feed;
  }
}
