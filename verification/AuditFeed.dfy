/** The audit feed (app/api/audit.py): three trails merged into one ordered, paged list,
    bulk actions folded into one entry each. */
module AuditFeed {
  import opened Prelude
  import opened Seqs
  import opened Ordering
  import Decimal

  // ----- timestamps -----

  datatype DateTime = DateTime(year: nat, month: nat, day: nat, hour: nat, minute: nat, second: nat, micro: nat)

  predicate Valid(d: DateTime) {
    && 1 <= d.year <= 9999 && 1 <= d.month <= 12 && 1 <= d.day <= 31
    && d.hour < 24 && d.minute < 60 && d.second < 60 && d.micro < 1_000_000
  }

  /** A number that orders valid date-times chronologically: day number, then time of day. */
  function Instant(d: DateTime): int {
    DayNumber(d) * 86_400_000_000 + TimeOfDay(d)
  }

  function DayNumber(d: DateTime): int {
    (d.year * 13 + d.month) * 32 + d.day
  }

  function TimeOfDay(d: DateTime): int {
    ((d.hour * 60 + d.minute) * 60 + d.second) * 1_000_000 + d.micro
  }

  function Pow10(w: nat): nat {
    if w == 0 then 1 else 10 * Pow10(w - 1)
  }

  function Pad(n: nat, w: nat): string {
    if w == 0 then "" else Pad(n / 10, w - 1) + [('0' as int + n % 10) as char]
  }

  /** datetime.isoformat(): the fraction is left out when the microseconds are zero. */
  function Iso(d: DateTime): string {
    Pad(d.year, 4) + ("-" + (Pad(d.month, 2) + ("-" + (Pad(d.day, 2) + ("T" + Clock(d))))))
  }

  function Clock(d: DateTime): string {
    Pad(d.hour, 2) + (":" + (Pad(d.minute, 2) + (":" + (Pad(d.second, 2) + Fraction(d.micro)))))
  }

  function Fraction(micro: nat): string {
    if micro == 0 then "" else "." + Pad(micro, 6)
  }

  lemma StrLessHead(c: char, x: string, d: char, y: string)
    ensures StrLess([c] + x, [d] + y) <==> c < d || (c == d && StrLess(x, y))
  {
    assert ([c] + x)[1..] == x && ([d] + y)[1..] == y;
  }

  /** Same-width numbers compare as text exactly as they compare as numbers. */
  lemma {:induction false} PadOrder(n: nat, m: nat, w: nat, x: string, y: string)
    requires n < Pow10(w) && m < Pow10(w)
    ensures StrLess(Pad(n, w) + x, Pad(m, w) + y) <==> n < m || (n == m && StrLess(x, y))
    decreases w
  {
    if w == 0 {
      assert Pad(n, w) + x == x && Pad(m, w) + y == y;
    } else {
      var c, d := ('0' as int + n % 10) as char, ('0' as int + m % 10) as char;
      assert Pad(n, w) + x == Pad(n / 10, w - 1) + ([c] + x);
      assert Pad(m, w) + y == Pad(m / 10, w - 1) + ([d] + y);
      PadOrder(n / 10, m / 10, w - 1, [c] + x, [d] + y);
      StrLessHead(c, x, d, y);
    }
  }

  lemma FieldOrder(n: nat, m: nat, w: nat, sep: char, x: string, y: string)
    requires n < Pow10(w) && m < Pow10(w)
    ensures StrLess(Pad(n, w) + ([sep] + x), Pad(m, w) + ([sep] + y)) <==> n < m || (n == m && StrLess(x, y))
  {
    PadOrder(n, m, w, [sep] + x, [sep] + y);
    StrLessHead(sep, x, sep, y);
  }

  lemma Powers()
    ensures Pow10(2) == 100 && Pow10(4) == 10_000 && Pow10(6) == 1_000_000
  {
    assert Pow10(3) == 1000;
    assert Pow10(5) == 100_000;
  }

  lemma FractionOrder(m: nat, n: nat)
    requires m < 1_000_000 && n < 1_000_000
    ensures StrLess(Fraction(m), Fraction(n)) <==> m < n
  {
    Powers();
    if m != 0 && n != 0 {
      StrLessHead('.', Pad(m, 6), '.', Pad(n, 6));
      PadOrder(m, n, 6, "", "");
      assert Pad(m, 6) + "" == Pad(m, 6) && Pad(n, 6) + "" == Pad(n, 6);
    }
  }

  lemma ClockOrder(a: DateTime, b: DateTime)
    requires Valid(a) && Valid(b)
    ensures StrLess(Clock(a), Clock(b)) <==> TimeOfDay(a) < TimeOfDay(b)
  {
    Powers();
    FractionOrder(a.micro, b.micro);
    var x, y := Pad(a.second, 2) + Fraction(a.micro), Pad(b.second, 2) + Fraction(b.micro);
    assert StrLess(x, y) <==> a.second * 1_000_000 + a.micro < b.second * 1_000_000 + b.micro by {
      PadOrder(a.second, b.second, 2, Fraction(a.micro), Fraction(b.micro));
    }
    FieldOrder(a.minute, b.minute, 2, ':', x, y);
    FieldOrder(a.hour, b.hour, 2, ':', Pad(a.minute, 2) + ([':'] + x), Pad(b.minute, 2) + ([':'] + y));
  }

  lemma TimeOfDayBounds(d: DateTime)
    requires Valid(d)
    ensures 0 <= TimeOfDay(d) < 86_400_000_000
  {
  }

  /** Comparing the feed's timestamp strings compares the times, the omitted fraction
      notwithstanding. */
  lemma IsoOrder(a: DateTime, b: DateTime)
    requires Valid(a) && Valid(b)
    ensures StrLess(Iso(a), Iso(b)) <==> Instant(a) < Instant(b)
  {
    Powers();
    ClockOrder(a, b);
    TimeOfDayBounds(a);
    TimeOfDayBounds(b);
    DateOrder(a, b, Clock(a), Clock(b));
  }

  lemma DateOrder(a: DateTime, b: DateTime, x: string, y: string)
    requires Valid(a) && Valid(b)
    ensures StrLess(Pad(a.year, 4) + ("-" + (Pad(a.month, 2) + ("-" + (Pad(a.day, 2) + ("T" + x))))),
                    Pad(b.year, 4) + ("-" + (Pad(b.month, 2) + ("-" + (Pad(b.day, 2) + ("T" + y))))))
            <==> DayNumber(a) < DayNumber(b) || (DayNumber(a) == DayNumber(b) && StrLess(x, y))
  {
    Powers();
    var d1, d2 := Pad(a.day, 2) + (['T'] + x), Pad(b.day, 2) + (['T'] + y);
    FieldOrder(a.day, b.day, 2, 'T', x, y);
    FieldOrder(a.month, b.month, 2, '-', d1, d2);
    FieldOrder(a.year, b.year, 4, '-', Pad(a.month, 2) + (['-'] + d1), Pad(b.month, 2) + (['-'] + d2));
  }

  lemma IsoInjective(a: DateTime, b: DateTime)
    requires Valid(a) && Valid(b)
    ensures Iso(a) == Iso(b) <==> Instant(a) == Instant(b)
  {
    IsoOrder(a, b);
    IsoOrder(b, a);
    StrLessIrreflexive(Iso(a));
    StrLessTotal(Iso(a), Iso(b));
  }

  lemma PadIsWide(n: nat, w: nat)
    ensures |Pad(n, w)| == w
  {
  }

  lemma ThreePieces(a: string, x: char, b: string, y: char, c: string)
    ensures var s := a + ([x] + (b + ([y] + c)));
            && |s| == |a| + |b| + |c| + 2
            && s[..|a|] == a && s[|a|] == x && s[|a| + 1..|a| + 1 + |b|] == b && s[|a| + 1 + |b|] == y
            && s[|a| + |b| + 2..] == c
  {
    var s := a + ([x] + (b + ([y] + c)));
    assert s[|a| + 1..] == b + ([y] + c);
    assert s[|a| + |b| + 2..] == c;
  }

  lemma Shift(s: string, t: string, k: nat)
    requires k <= |s| && t == s[k..]
    ensures |s| == k + |t|
    ensures forall i, j :: 0 <= i <= j <= |t| ==> s[k + i..k + j] == t[i..j]
    ensures forall i :: 0 <= i < |t| ==> s[k + i] == t[i]
  {
  }

  lemma ClockPieces(h: string, m: string, s: string, f: string)
    requires |h| == 2 && |m| == 2 && |s| == 2
    ensures var t := h + (":" + (m + (":" + (s + f))));
            && |t| == 8 + |f| && t[..2] == h && t[2] == ':' && t[3..5] == m && t[5] == ':' && t[6..8] == s
              && t[8..] == f
  {
    ThreePieces(h, ':', m, ':', s + f);
    var t := h + (":" + (m + (":" + (s + f))));
    assert t[6..] == s + f;
    Shift(t, s + f, 6);
    assert t[6..8] == (s + f)[..2] && t[8..] == (s + f)[2..];
  }

  lemma DatePieces(y: string, m: string, d: string, t: string)
    requires |y| == 4 && |m| == 2 && |d| == 2
    ensures var s := y + ("-" + (m + ("-" + (d + ("T" + t)))));
            && |s| == 11 + |t| && s[..4] == y && s[4] == '-' && s[5..7] == m && s[7] == '-' && s[8..10] == d
            && s[10] == 'T' && s[11..] == t
  {
    ThreePieces(y, '-', m, '-', d + ("T" + t));
    var s := y + ("-" + (m + ("-" + (d + ("T" + t)))));
    assert s[8..] == d + ("T" + t);
    Shift(s, d + ("T" + t), 8);
    assert (d + ("T" + t))[..2] == d && (d + ("T" + t))[2] == 'T' && (d + ("T" + t))[3..] == t;
    assert s[8..10] == (d + ("T" + t))[..2] && s[11..] == (d + ("T" + t))[3..];
  }

  /** HH:MM:SS, and six digits after a dot when there are microseconds. */
  lemma ClockShape(d: DateTime)
    ensures var t := Clock(d);
            && |t| == (if d.micro == 0 then 8 else 15)
            && t[..2] == Pad(d.hour, 2) && t[2] == ':' && t[3..5] == Pad(d.minute, 2) && t[5] == ':'
            && t[6..8] == Pad(d.second, 2) && t[8..] == if d.micro == 0 then "" else "." + Pad(d.micro, 6)
  {
    PadIsWide(d.hour, 2);
    PadIsWide(d.minute, 2);
    PadIsWide(d.second, 2);
    PadIsWide(d.micro, 6);
    ClockPieces(Pad(d.hour, 2), Pad(d.minute, 2), Pad(d.second, 2), Fraction(d.micro));
  }

  /** YYYY-MM-DD and T before it. */
  lemma IsoShape(d: DateTime)
    ensures var s := Iso(d);
            && |s| == (if d.micro == 0 then 19 else 26)
            && s[..4] == Pad(d.year, 4) && s[4] == '-' && s[5..7] == Pad(d.month, 2) && s[7] == '-'
            && s[8..10] == Pad(d.day, 2) && s[10] == 'T' && s[11..] == Clock(d)
  {
    PadIsWide(d.year, 4);
    PadIsWide(d.month, 2);
    PadIsWide(d.day, 2);
    ClockShape(d);
    DatePieces(Pad(d.year, 4), Pad(d.month, 2), Pad(d.day, 2), Clock(d));
  }

  // ----- triage rows -----

  datatype Log = Log(id: int, findingId: int, fromState: string, toState: string, reason: string, actor: string,
                     createdAt: DateTime, batchId: Option<string>)

  datatype ExpandItem = ExpandItem(findingId: int, title: Option<string>, fromState: string, toState: string,
                                   timestamp: string)

  datatype Kind = Triage | ScanRun | Mcp

  datatype Event = Event(kind: Kind, timestamp: string, actor: string, summary: string, reason: string,
                         groupedCount: nat, expand: Option<seq<ExpandItem>>)

  /** `findings.get(id)`: the title of a finding the caller may see. */
  type Titles = int -> Option<string>

  /** `if log.batch_id`: NULL and the empty string both mean "not part of a batch". */
  predicate Batched(l: Log) {
    l.batchId.Some? && l.batchId.value != ""
  }

  predicate Unbatched(l: Log) {
    !Batched(l)
  }

  function Batch(l: Log): string {
    if l.batchId.Some? then l.batchId.value else ""
  }

  function InBatch(batch: string): Log -> bool {
    (l: Log) => Batched(l) && Batch(l) == batch
  }

  function Newest(l: Log): Key {
    Key(Instant(l.createdAt), 0, "", "", 0)
  }

  function Expand(titles: Titles): Log -> ExpandItem {
    (l: Log) => ExpandItem(l.findingId, titles(l.findingId), l.fromState, l.toState, Iso(l.createdAt))
  }

  function SingleEvent(titles: Titles): Log -> Event {
    (l: Log) =>
      var title := titles(l.findingId);
      Event(Triage, Iso(l.createdAt), l.actor,
            l.fromState + " -> " + l.toState + (if title.Some? then ": " + title.value else ""), l.reason, 1, None)
  }

  function BatchEvent(titles: Titles, logs: seq<Log>): Event
    requires logs != []
  {
    var first := logs[0];
    var example := titles(first.findingId);
    Event(Triage, Iso(first.createdAt), first.actor,
          Decimal.Print(|logs|) + " findings " + first.fromState + " -> " + first.toState
          + (if example.Some? then " (e.g. " + example.value + ")" else ""),
          first.reason, |logs|, Some(Map(logs, Expand(titles))))
  }

  /** The batches met, in order of first occurrence: a dict's insertion order. */
  function BatchIds(logs: seq<Log>): seq<string> {
    Dedup(Map(Filter(logs, Batched), Batch))
  }

  lemma BatchIdsOccur(logs: seq<Log>, k: string)
    ensures k in BatchIds(logs) <==> exists l :: l in logs && InBatch(k)(l)
  {
    var rows := Filter(logs, Batched);
    var ids := Map(rows, Batch);
    if k in BatchIds(logs) {
      var i :| 0 <= i < |ids| && ids[i] == k;
      assert rows[i] in logs && InBatch(k)(rows[i]);
    }
    if l :| l in logs && InBatch(k)(l) {
      assert l in rows;
      var i :| 0 <= i < |rows| && rows[i] == l;
      assert ids[i] == k;
    }
  }

  function BatchRows(logs: seq<Log>): string -> seq<Log> {
    (k: string) => SortBy(Filter(logs, InBatch(k)), Newest, true)
  }

  function Alone(l: Log): seq<Log> {
    [l]
  }

  /** The rows behind each triage entry: an unbatched row alone, a batch whole, newest first. */
  function Sources(logs: seq<Log>): seq<seq<Log>> {
    Map(Filter(logs, Unbatched), Alone) + Map(BatchIds(logs), BatchRows(logs))
  }

  /** One entry and the rows it stands for. */
  predicate StandsFor(titles: Titles, e: Event, source: seq<Log>, logs: seq<Log>) {
    && source != []
    && e.kind == Triage && e.groupedCount == |source| && e.timestamp == Iso(source[0].createdAt)
    && (forall l :: l in source ==> Instant(l.createdAt) <= Instant(source[0].createdAt))
    && (if Batched(source[0])
        then multiset(source) == multiset(Filter(logs, InBatch(Batch(source[0])))) && e == BatchEvent(titles, source)
        else source == [source[0]] && source[0] in logs && e == SingleEvent(titles)(source[0]))
  }

  lemma BatchRowsFacts(logs: seq<Log>, k: string)
    requires k in BatchIds(logs)
    ensures var r := BatchRows(logs)(k);
            && r != [] && Batched(r[0]) && Batch(r[0]) == k
            && multiset(r) == multiset(Filter(logs, InBatch(k)))
            && forall l :: l in r ==> Instant(l.createdAt) <= Instant(r[0].createdAt)
  {
    var rows := Filter(logs, InBatch(k));
    var r := SortBy(rows, Newest, true);
    BatchIdsOccur(logs, k);
    var w :| w in logs && InBatch(k)(w);
    assert w in rows;
    SortByMembers(rows, Newest, true);
    assert r[0] in rows;
    SortBySorted(rows, Newest, true);
    forall l | l in r ensures Instant(l.createdAt) <= Instant(r[0].createdAt) {
      HeadIsLeast(r, Newest, true, l);
    }
  }

  /** The entry drawn for a source: a batch as one, an unbatched row as itself. */
  function EventOf(titles: Titles, source: seq<Log>): Event
    requires source != []
  {
    if Batched(source[0]) then BatchEvent(titles, source) else SingleEvent(titles)(source[0])
  }

  function EventsOf(titles: Titles, sources: seq<seq<Log>>): seq<Event>
    requires forall i :: 0 <= i < |sources| ==> sources[i] != []
  {
    seq(|sources|, i requires 0 <= i < |sources| => EventOf(titles, sources[i]))
  }

  // ----- each row in exactly one entry -----

  lemma {:induction false} FlattenAlone(logs: seq<Log>)
    ensures Flatten(Map(logs, Alone)) == logs
  {
    if logs != [] {
      assert Map(logs, Alone)[1..] == Map(logs[1..], Alone);
      FlattenAlone(logs[1..]);
    }
  }

  lemma {:induction false} SplitMultiset<T(!new)>(s: seq<T>, p: T -> bool, q: T -> bool, r: T -> bool)
    requires forall x :: x in s ==> !(p(x) && q(x))
    requires forall x :: x in s ==> r(x) == (p(x) || q(x))
    ensures multiset(Filter(s, r)) == multiset(Filter(s, p)) + multiset(Filter(s, q))
  {
    if s != [] {
      SplitMultiset(s[1..], p, q, r);
      assert s[0] in s;
    }
  }

  function InAnyBatch(ks: seq<string>): Log -> bool {
    (l: Log) => Batched(l) && Batch(l) in ks
  }

  lemma {:induction false} FlattenBatches(logs: seq<Log>, ks: seq<string>)
    requires Distinct(ks)
    ensures multiset(Flatten(Map(ks, BatchRows(logs)))) == multiset(Filter(logs, InAnyBatch(ks)))
  {
    if ks == [] {
      CountZero(logs, InAnyBatch(ks));
    } else {
      assert Map(ks, BatchRows(logs))[1..] == Map(ks[1..], BatchRows(logs));
      FlattenBatches(logs, ks[1..]);
      SplitMultiset(logs, InBatch(ks[0]), InAnyBatch(ks[1..]), InAnyBatch(ks));
    }
  }

  /** The triage entries conserve the rows: every visible row lies behind exactly one entry,
      as often as it occurs. */
  lemma SourcesConserve(logs: seq<Log>)
    ensures multiset(Flatten(Sources(logs))) == multiset(logs)
  {
    FlattenAppend(Map(Filter(logs, Unbatched), Alone), Map(BatchIds(logs), BatchRows(logs)));
    FlattenAlone(Filter(logs, Unbatched));
    FlattenBatches(logs, BatchIds(logs));
    forall l | l in logs ensures InAnyBatch(BatchIds(logs))(l) == Batched(l) {
      if Batched(l) {
        BatchIdsOccur(logs, Batch(l));
        assert InBatch(Batch(l))(l);
      }
    }
    var all := (l: Log) => true;
    SplitMultiset(logs, Unbatched, InAnyBatch(BatchIds(logs)), all);
    FilterAll(logs, all);
  }

  function Size(source: seq<Log>): nat {
    |source|
  }

  lemma {:induction false} FlattenSize(s: seq<seq<Log>>)
    ensures Sum(Map(s, Size)) == |Flatten(s)|
  {
    if s != [] {
      assert Map(s, Size)[1..] == Map(s[1..], Size);
      FlattenSize(s[1..]);
    }
  }

  function GroupedCount(e: Event): nat {
    e.groupedCount
  }

  lemma CountsSumToRows(titles: Titles, events: seq<Event>, sources: seq<seq<Log>>, logs: seq<Log>)
    requires Represented(titles, events, sources, logs) && sources == Sources(logs)
    ensures Sum(Map(events, GroupedCount)) == |logs|
  {
    CountsAreSizes(titles, events, sources, logs);
    FlattenSize(sources);
    SourcesConserve(logs);
    assert |multiset(Flatten(sources))| == |Flatten(sources)| && |multiset(logs)| == |logs|;
  }

  lemma CountsAreSizes(titles: Titles, events: seq<Event>, sources: seq<seq<Log>>, logs: seq<Log>)
    requires Represented(titles, events, sources, logs)
    ensures Map(events, GroupedCount) == Map(sources, Size)
  {
  }

  // ----- the grouping loops -----

  lemma BatchIdsStep(logs: seq<Log>, l: Log)
    ensures BatchIds(logs + [l]) ==
            if Batched(l) && Batch(l) !in BatchIds(logs) then BatchIds(logs) + [Batch(l)] else BatchIds(logs)
  {
    FilterSnoc(logs, l, Batched);
    var before, after := Map(Filter(logs, Batched), Batch), Map(Filter(logs + [l], Batched), Batch);
    if Batched(l) {
      assert after == before + [Batch(l)];
      DedupSnoc(before, Batch(l));
    }
  }

  /** Dict entries hold exactly their batch's rows, in arrival order. */
  ghost predicate Entries(logs: seq<Log>, ks: seq<string>, grouped: map<string, seq<Log>>) {
    && (forall k :: k in grouped <==> k in ks)
    && (forall k :: k in grouped ==> grouped[k] == Filter(logs, InBatch(k)))
  }

  lemma EntriesSkip(logs: seq<Log>, ks: seq<string>, grouped: map<string, seq<Log>>, l: Log)
    requires Entries(logs, ks, grouped) && !Batched(l)
    ensures Entries(logs + [l], ks, grouped)
  {
    forall k | k in grouped ensures grouped[k] == Filter(logs + [l], InBatch(k)) {
      FilterSnoc(logs, l, InBatch(k));
    }
  }

  function WithLog(grouped: map<string, seq<Log>>, l: Log): map<string, seq<Log>> {
    grouped[Batch(l) := (if Batch(l) in grouped then grouped[Batch(l)] else []) + [l]]
  }

  lemma NoRowsYet(logs: seq<Log>, k: string)
    requires k !in BatchIds(logs)
    ensures Filter(logs, InBatch(k)) == []
  {
    if Filter(logs, InBatch(k)) != [] {
      var l := Filter(logs, InBatch(k))[0];
      assert l in logs && InBatch(k)(l);
      BatchIdsOccur(logs, k);
    }
  }

  /** The dict entry of one key, after one more row. */
  lemma EntryAfter(logs: seq<Log>, grouped: map<string, seq<Log>>, l: Log, k: string)
    requires Batched(l)
    requires Filter(logs, InBatch(k)) == if k in grouped then grouped[k] else []
    ensures k in WithLog(grouped, l) <==> k in grouped || k == Batch(l)
    ensures k in WithLog(grouped, l) ==> WithLog(grouped, l)[k] == Filter(logs + [l], InBatch(k))
  {
    FilterSnoc(logs, l, InBatch(k));
  }

  lemma KeysAfter(ks: seq<string>, grouped: map<string, seq<Log>>, l: Log)
    requires forall k :: k in grouped <==> k in ks
    ensures var ks' := if Batch(l) in grouped then ks else ks + [Batch(l)];
            forall k :: k in WithLog(grouped, l) <==> k in ks'
  {
  }

  /** Filtering by any batch gives its entry, or nothing where there is none. */
  lemma EntryOrNothing(logs: seq<Log>, ks: seq<string>, grouped: map<string, seq<Log>>, k: string)
    requires ks == BatchIds(logs) && Entries(logs, ks, grouped)
    ensures Filter(logs, InBatch(k)) == if k in grouped then grouped[k] else []
  {
    if k !in grouped {
      NoRowsYet(logs, k);
    }
  }

  lemma EntriesAdd(logs: seq<Log>, ks: seq<string>, grouped: map<string, seq<Log>>, l: Log)
    requires ks == BatchIds(logs) && Entries(logs, ks, grouped) && Batched(l)
    ensures Entries(logs + [l], if Batch(l) in grouped then ks else ks + [Batch(l)], WithLog(grouped, l))
  {
    KeysAfter(ks, grouped, l);
    forall k | k in WithLog(grouped, l) ensures WithLog(grouped, l)[k] == Filter(logs + [l], InBatch(k)) {
      EntryOrNothing(logs, ks, grouped, k);
      EntryAfter(logs, grouped, l, k);
    }
  }

  ghost predicate Partitioned(logs: seq<Log>, ungrouped: seq<Log>, ks: seq<string>, grouped: map<string, seq<Log>>) {
    ungrouped == Filter(logs, Unbatched) && ks == BatchIds(logs) && Entries(logs, ks, grouped)
  }

  lemma PartitionAlone(logs: seq<Log>, ungrouped: seq<Log>, ks: seq<string>, grouped: map<string, seq<Log>>, l: Log)
    requires Partitioned(logs, ungrouped, ks, grouped) && !Batched(l)
    ensures Partitioned(logs + [l], ungrouped + [l], ks, grouped)
  {
    FilterSnoc(logs, l, Unbatched);
    BatchIdsStep(logs, l);
    EntriesSkip(logs, ks, grouped, l);
  }

  lemma PartitionBatched(logs: seq<Log>, ungrouped: seq<Log>, ks: seq<string>, grouped: map<string, seq<Log>>, l: Log)
    requires Partitioned(logs, ungrouped, ks, grouped) && Batched(l)
    ensures Partitioned(logs + [l], ungrouped, if Batch(l) in grouped then ks else ks + [Batch(l)], WithLog(grouped, l))
  {
    FilterSnoc(logs, l, Unbatched);
    BatchIdsStep(logs, l);
    EntriesAdd(logs, ks, grouped, l);
  }

  /** The body of the loop: `grouped.setdefault(batch_id, []).append(log)`, or an unbatched row. */
  method PartitionNext(ghost done: seq<Log>, ungrouped: seq<Log>, ks: seq<string>, grouped: map<string, seq<Log>>,
                       l: Log)
    returns (ungrouped': seq<Log>, ks': seq<string>, grouped': map<string, seq<Log>>)
    requires Partitioned(done, ungrouped, ks, grouped)
    ensures Partitioned(done + [l], ungrouped', ks', grouped')
  {
    ungrouped', ks', grouped' := ungrouped, ks, grouped;
    if Batched(l) {
      PartitionBatched(done, ungrouped, ks, grouped, l);
      ks' := if Batch(l) in grouped then ks else ks + [Batch(l)];
      grouped' := WithLog(grouped, l);
    } else {
      PartitionAlone(done, ungrouped, ks, grouped, l);
      ungrouped' := ungrouped + [l];
    }
  }

  /** Dict keys stay in insertion order. */
  method Partition(logs: seq<Log>) returns (ungrouped: seq<Log>, ks: seq<string>, grouped: map<string, seq<Log>>)
    ensures Partitioned(logs, ungrouped, ks, grouped)
  {
    ungrouped, ks, grouped := [], [], map[];
    ghost var done: seq<Log> := [];
    for i := 0 to |logs|
      invariant done == logs[..i] && Partitioned(done, ungrouped, ks, grouped)
    {
      ungrouped, ks, grouped := PartitionNext(done, ungrouped, ks, grouped, logs[i]);
      done := done + [logs[i]];
    }
    assert logs[..|logs|] == logs;
  }

  /** The entries so far, each beside the rows behind it. */
  ghost predicate Represented(titles: Titles, events: seq<Event>, sources: seq<seq<Log>>, logs: seq<Log>) {
    && |events| == |sources|
    && forall i :: 0 <= i < |events| ==> StandsFor(titles, events[i], sources[i], logs)
  }

  lemma StandsAlone(titles: Titles, l: Log, logs: seq<Log>)
    requires l in Filter(logs, Unbatched)
    ensures StandsFor(titles, SingleEvent(titles)(l), Alone(l), logs)
  {
  }

  function Stands(titles: Titles, logs: seq<Log>): (Event, seq<Log>) -> bool {
    (e: Event, source: seq<Log>) => StandsFor(titles, e, source, logs)
  }

  ghost predicate Paired(events: seq<Event>, sources: seq<seq<Log>>, stands: (Event, seq<Log>) -> bool) {
    |events| == |sources| && forall i :: 0 <= i < |events| ==> stands(events[i], sources[i])
  }

  lemma PairedSnoc(events: seq<Event>, sources: seq<seq<Log>>, event: Event, source: seq<Log>,
                   stands: (Event, seq<Log>) -> bool)
    requires Paired(events, sources, stands) && stands(event, source)
    ensures Paired(events + [event], sources + [source], stands)
  {
  }

  method SingleEvents(titles: Titles, ungrouped: seq<Log>, ghost stands: (Event, seq<Log>) -> bool)
    returns (events: seq<Event>)
    requires forall i :: 0 <= i < |ungrouped| ==> stands(SingleEvent(titles)(ungrouped[i]), Alone(ungrouped[i]))
    ensures Paired(events, Map(ungrouped, Alone), stands)
  {
    events := [];
    for i := 0 to |ungrouped|
      invariant |events| == i && forall j :: 0 <= j < i ==> stands(events[j], Alone(ungrouped[j]))
    {
      events := events + [SingleEvent(titles)(ungrouped[i])];
    }
  }

  /** Sorting the dict entry of `k` gives `rows(k)`, which its event stands for. */
  ghost predicate EntryOf(titles: Titles, k: string, grouped: map<string, seq<Log>>, rows: string -> seq<Log>,
                          stands: (Event, seq<Log>) -> bool) {
    && k in grouped && SortBy(grouped[k], Newest, true) == rows(k)
    && rows(k) != [] && stands(BatchEvent(titles, rows(k)), rows(k))
  }

  lemma StandsForBatch(titles: Titles, k: string, logs: seq<Log>)
    requires k in BatchIds(logs)
    ensures BatchRows(logs)(k) != [] && StandsFor(titles, BatchEvent(titles, BatchRows(logs)(k)), BatchRows(logs)(k),
                                                  logs)
  {
    BatchRowsFacts(logs, k);
  }

  lemma EntriesStand(titles: Titles, logs: seq<Log>, grouped: map<string, seq<Log>>, k: string)
    requires k in BatchIds(logs) && k in grouped && grouped[k] == Filter(logs, InBatch(k))
    ensures EntryOf(titles, k, grouped, BatchRows(logs), Stands(titles, logs))
  {
    StandsForBatch(titles, k, logs);
    assert SortBy(grouped[k], Newest, true) == BatchRows(logs)(k);
  }

  lemma PartsStand(titles: Titles, logs: seq<Log>, ungrouped: seq<Log>, ks: seq<string>, grouped: map<string, seq<Log>>)
    requires Partitioned(logs, ungrouped, ks, grouped)
    ensures forall i :: 0 <= i < |ungrouped| ==>
              Stands(titles, logs)(SingleEvent(titles)(ungrouped[i]), Alone(ungrouped[i]))
    ensures forall i :: 0 <= i < |ks| ==> EntryOf(titles, ks[i], grouped, BatchRows(logs), Stands(titles, logs))
  {
    forall i | 0 <= i < |ungrouped|
      ensures Stands(titles, logs)(SingleEvent(titles)(ungrouped[i]), Alone(ungrouped[i])) {
      StandsAlone(titles, ungrouped[i], logs);
    }
    forall i | 0 <= i < |ks| ensures EntryOf(titles, ks[i], grouped, BatchRows(logs), Stands(titles, logs)) {
      EntriesStand(titles, logs, grouped, ks[i]);
    }
  }

  ghost predicate BatchesStand(titles: Titles, ks: seq<string>, grouped: map<string, seq<Log>>,
                               rows: string -> seq<Log>,
                               stands: (Event, seq<Log>) -> bool) {
    forall i :: 0 <= i < |ks| ==> EntryOf(titles, ks[i], grouped, rows, stands)
  }

  /** `logs.sort(reverse=True)`, the batch speaking through its newest row. */
  method OneBatch(titles: Titles, ks: seq<string>, i: nat, grouped: map<string, seq<Log>>, before: seq<Event>,
                  ghost rows: string -> seq<Log>, ghost stands: (Event, seq<Log>) -> bool)
    returns (events: seq<Event>)
    requires i < |ks| && BatchesStand(titles, ks, grouped, rows, stands) && Paired(before, Map(ks[..i], rows), stands)
    ensures Paired(events, Map(ks[..i + 1], rows), stands)
  {
    assert EntryOf(titles, ks[i], grouped, rows, stands);
    var sorted := SortBy(grouped[ks[i]], Newest, true);
    assert ks[..i + 1] == ks[..i] + [ks[i]];
    MapSnoc(ks[..i], ks[i], rows);
    PairedSnoc(before, Map(ks[..i], rows), BatchEvent(titles, sorted), rows(ks[i]), stands);
    events := before + [BatchEvent(titles, sorted)];
  }

  method BatchEvents(titles: Titles, ks: seq<string>, grouped: map<string, seq<Log>>, ghost rows: string -> seq<Log>,
                     ghost stands: (Event, seq<Log>) -> bool)
    returns (events: seq<Event>)
    requires BatchesStand(titles, ks, grouped, rows, stands)
    ensures Paired(events, Map(ks, rows), stands)
  {
    events := [];
    for i := 0 to |ks|
      invariant Paired(events, Map(ks[..i], rows), stands)
    {
      events := OneBatch(titles, ks, i, grouped, events, rows, stands);
    }
    assert ks[..|ks|] == ks;
  }

  lemma PairedRepresent(titles: Titles, e1: seq<Event>, s1: seq<seq<Log>>, e2: seq<Event>, s2: seq<seq<Log>>,
                        logs: seq<Log>)
    requires Paired(e1, s1, Stands(titles, logs)) && Paired(e2, s2, Stands(titles, logs))
    ensures Represented(titles, e1 + e2, s1 + s2, logs)
  {
    forall i | 0 <= i < |e1 + e2| ensures StandsFor(titles, (e1 + e2)[i], (s1 + s2)[i], logs) {
      if i < |e1| {
        assert Stands(titles, logs)(e1[i], s1[i]);
      } else {
        assert Stands(titles, logs)(e2[i - |e1|], s2[i - |e1|]);
      }
    }
  }

  lemma WholeFeed(titles: Titles, logs: seq<Log>, ungrouped: seq<Log>, ks: seq<string>, singles: seq<Event>,
                  batches: seq<Event>)
    requires ungrouped == Filter(logs, Unbatched) && ks == BatchIds(logs)
    requires Paired(singles, Map(ungrouped, Alone), Stands(titles, logs))
    requires Paired(batches, Map(ks, BatchRows(logs)), Stands(titles, logs))
    ensures Represented(titles, singles + batches, Sources(logs), logs)
    ensures Sum(Map(singles + batches, GroupedCount)) == |logs|
  {
    PairedRepresent(titles, singles, Map(ungrouped, Alone), batches, Map(ks, BatchRows(logs)), logs);
    CountsSumToRows(titles, singles + batches, Sources(logs), logs);
  }

  lemma RepresentedIsEvents(titles: Titles, events: seq<Event>, sources: seq<seq<Log>>, logs: seq<Log>)
    requires Represented(titles, events, sources, logs)
    ensures forall i :: 0 <= i < |sources| ==> sources[i] != []
    ensures events == EventsOf(titles, sources)
  {
    forall i | 0 <= i < |sources| ensures sources[i] != [] && events[i] == EventOf(titles, sources[i]) {
      assert StandsFor(titles, events[i], sources[i], logs);
    }
  }

  /** No source is empty. */
  lemma SourcesFilled(logs: seq<Log>)
    ensures forall i :: 0 <= i < |Sources(logs)| ==> Sources(logs)[i] != []
  {
    SourcesFilledIn(Map(Filter(logs, Unbatched), Alone), Map(BatchIds(logs), BatchRows(logs)), logs);
  }

  lemma SourcesFilledIn(alone: seq<seq<Log>>, batches: seq<seq<Log>>, logs: seq<Log>)
    requires alone == Map(Filter(logs, Unbatched), Alone) && batches == Map(BatchIds(logs), BatchRows(logs))
    ensures forall i :: 0 <= i < |alone + batches| ==> (alone + batches)[i] != []
  {
    forall i | 0 <= i < |batches| ensures batches[i] != [] {
      BatchRowsFacts(logs, BatchIds(logs)[i]);
    }
  }

  /** What the triage half of the feed shows. */
  function TriageFeed(titles: Titles, logs: seq<Log>): seq<Event> {
    SourcesFilled(logs);
    EventsOf(titles, Sources(logs))
  }

  lemma EventOfAlone(titles: Titles, l: Log, logs: seq<Log>)
    requires l in Filter(logs, Unbatched)
    ensures Alone(l) != [] && Stands(titles, logs)(EventOf(titles, Alone(l)), Alone(l))
  {
    StandsAlone(titles, l, logs);
  }

  lemma EventOfBatch(titles: Titles, k: string, logs: seq<Log>)
    requires k in BatchIds(logs)
    ensures BatchRows(logs)(k) != [] && Stands(titles, logs)(EventOf(titles, BatchRows(logs)(k)), BatchRows(logs)(k))
  {
    BatchRowsFacts(logs, k);
    StandsForBatch(titles, k, logs);
  }

  ghost predicate AllStand(titles: Titles, sources: seq<seq<Log>>, stands: (Event, seq<Log>) -> bool) {
    forall i :: 0 <= i < |sources| ==> sources[i] != [] && stands(EventOf(titles, sources[i]), sources[i])
  }

  lemma AllStandTogether(titles: Titles, a: seq<seq<Log>>, b: seq<seq<Log>>, stands: (Event, seq<Log>) -> bool)
    requires AllStand(titles, a, stands) && AllStand(titles, b, stands)
    ensures AllStand(titles, a + b, stands)
  {
  }

  lemma BothHalvesStand(titles: Titles, logs: seq<Log>)
    ensures AllStand(titles, Map(Filter(logs, Unbatched), Alone), Stands(titles, logs))
    ensures AllStand(titles, Map(BatchIds(logs), BatchRows(logs)), Stands(titles, logs))
  {
    var single, ks := Filter(logs, Unbatched), BatchIds(logs);
    forall i | 0 <= i < |single|
      ensures Alone(single[i]) != [] && Stands(titles, logs)(EventOf(titles, Alone(single[i])), Alone(single[i])) {
      EventOfAlone(titles, single[i], logs);
    }
    forall i | 0 <= i < |ks|
      ensures BatchRows(logs)(ks[i]) != [] && Stands(titles, logs)(EventOf(titles, BatchRows(logs)(ks[i])),
                                                                   BatchRows(logs)(ks[i])) {
      EventOfBatch(titles, ks[i], logs);
    }
  }

  lemma StandRepresent(titles: Titles, sources: seq<seq<Log>>, logs: seq<Log>)
    requires AllStand(titles, sources, Stands(titles, logs))
    ensures (forall i :: 0 <= i < |sources| ==> sources[i] != [])
            && Represented(titles, EventsOf(titles, sources), sources, logs)
  {
    forall i | 0 <= i < |sources| ensures StandsFor(titles, EventOf(titles, sources[i]), sources[i], logs) {
      assert Stands(titles, logs)(EventOf(titles, sources[i]), sources[i]);
    }
  }

  /** Every entry stands for one row or one whole batch, and the counts shown add up to the
      visible rows. */
  lemma TriageFeedConserves(titles: Titles, logs: seq<Log>)
    ensures Represented(titles, TriageFeed(titles, logs), Sources(logs), logs)
    ensures Sum(Map(TriageFeed(titles, logs), GroupedCount)) == |logs|
  {
    BothHalvesStand(titles, logs);
    AllStandTogether(titles, Map(Filter(logs, Unbatched), Alone), Map(BatchIds(logs), BatchRows(logs)),
                     Stands(titles, logs));
    StandRepresent(titles, Sources(logs), logs);
    CountsSumToRows(titles, TriageFeed(titles, logs), Sources(logs), logs);
  }

  /** The triage half of `audit_log`. */
  method TriageEvents(titles: Titles, logs: seq<Log>) returns (events: seq<Event>)
    ensures events == TriageFeed(titles, logs)
    ensures Represented(titles, events, Sources(logs), logs)
    ensures Sum(Map(events, GroupedCount)) == |logs|
  {
    var ungrouped, ks, grouped := Partition(logs);
    PartsStand(titles, logs, ungrouped, ks, grouped);
    var singles := SingleEvents(titles, ungrouped, Stands(titles, logs));
    var batches := BatchEvents(titles, ks, grouped, BatchRows(logs), Stands(titles, logs));
    events := singles + batches;
    WholeFeed(titles, logs, ungrouped, ks, singles, batches);
    RepresentedIsEvents(titles, events, Sources(logs), logs);
  }

  // ----- entries, read plainly -----

  /** One line of a batch entry says what happened to one finding. */
  predicate LineFor(titles: Titles, item: ExpandItem, l: Log) {
    && item.findingId == l.findingId && item.title == titles(l.findingId) && item.timestamp == Iso(l.createdAt)
    && item.fromState == l.fromState && item.toState == l.toState
  }

  /** An entry speaks through its newest row: its time, actor and reason. A row without a batch id is
      alone and has no lines; rows that share one are together, all of them, a line each. */
  ghost predicate EntryFor(titles: Titles, e: Event, source: seq<Log>, logs: seq<Log>) {
    && source != [] && e.kind == Triage && e.groupedCount == |source|
    && e.timestamp == Iso(source[0].createdAt) && e.actor == source[0].actor && e.reason == source[0].reason
    && (forall l :: l in source ==> Instant(l.createdAt) <= Instant(source[0].createdAt))
    && if source[0].batchId.Some? && source[0].batchId.value != "" then BatchEntry(titles, e, source, logs)
       else SingleEntry(titles, e, source)
  }

  predicate SingleEntry(titles: Titles, e: Event, source: seq<Log>)
    requires source != []
  {
    var l, title := source[0], titles(source[0].findingId);
    && |source| == 1 && e.expand == None
    && e.summary == (l.fromState + " -> " + l.toState) + (if title.None? then "" else ": " + title.value)
  }

  ghost predicate BatchEntry(titles: Titles, e: Event, source: seq<Log>, logs: seq<Log>)
    requires source != []
  {
    var l, title := source[0], titles(source[0].findingId);
    && (forall row :: multiset(source)[row] == if row.batchId == l.batchId then multiset(logs)[row] else 0)
    && e.expand.Some? && |e.expand.value| == |source|
    && (forall i :: 0 <= i < |source| ==> LineFor(titles, e.expand.value[i], source[i]))
    && e.summary == (Decimal.Print(|source|) + " findings " + l.fromState + " -> " + l.toState)
                    + (if title.None? then "" else " (e.g. " + title.value + ")")
  }

  lemma StandsMeans(titles: Titles, e: Event, source: seq<Log>, logs: seq<Log>)
    requires StandsFor(titles, e, source, logs)
    ensures EntryFor(titles, e, source, logs)
  {
    if Batched(source[0]) {
      var k := Batch(source[0]);
      forall row ensures multiset(source)[row] == if row.batchId == Some(k) then multiset(logs)[row] else 0 {
        FilterMultiset(logs, InBatch(k), row);
      }
    }
  }

  /** Every triage entry shown is such an entry, over the rows behind it. */
  lemma TriageEntries(titles: Titles, logs: seq<Log>)
    ensures |TriageFeed(titles, logs)| == |Sources(logs)|
    ensures forall i :: 0 <= i < |Sources(logs)| ==>
              EntryFor(titles, TriageFeed(titles, logs)[i], Sources(logs)[i], logs)
  {
    TriageFeedConserves(titles, logs);
    forall i | 0 <= i < |Sources(logs)|
      ensures EntryFor(titles, TriageFeed(titles, logs)[i], Sources(logs)[i], logs) {
      StandsMeans(titles, TriageFeed(titles, logs)[i], Sources(logs)[i], logs);
    }
  }

  // ----- scope -----

  datatype TargetRow = TargetRow(id: int, workspaceId: int, name: string)

  datatype FindingRow = FindingRow(id: int, targetId: int, title: string)

  datatype Scan = Scan(targetId: nat, tool: string, status: string, findingsCount: nat, startedAt: DateTime)

  datatype McpLog = McpLog(targetId: Option<int>, findingId: Option<int>, userId: nat, createdAt: DateTime,
                           tool: string, summary: string, success: bool, agent: string, error: string)

  datatype UserRow = UserRow(id: nat, email: string)

  datatype Db = Db(targets: seq<TargetRow>, findings: seq<FindingRow>, logs: seq<Log>, scans: seq<Scan>,
                   mcp: seq<McpLog>, users: seq<UserRow>)

  /** `workspaces` is None for a global admin. */
  datatype Caller = Caller(id: nat, workspaces: Option<set<int>>)

  datatype Query = Query(eventType: string, actor: string, from: Option<DateTime>, until: Option<DateTime>,
                         page: int, pageSize: int)

  function TargetsSeen(db: Db, c: Caller): set<int> {
    set t | t in db.targets && (c.workspaces.None? || t.workspaceId in c.workspaces.value) :: t.id
  }

  function FindingsSeen(db: Db, c: Caller): set<int> {
    set f | f in db.findings && (c.workspaces.None? || f.targetId in TargetsSeen(db, c)) :: f.id
  }

  /** Titles and names as the scoped dicts hold them. */
  function TitleAmong(findings: seq<FindingRow>, seen: set<int>): Titles {
    (id: int) => if id !in seen then None else TitleOf(findings, id)
  }

  function TitleOf(findings: seq<FindingRow>, id: int): Option<string> {
    if findings == [] then None
    else if findings[0].id == id then Some(findings[0].title)
    else TitleOf(findings[1..], id)
  }

  function NameAmong(targets: seq<TargetRow>, seen: set<int>): int -> Option<string> {
    (id: int) => if id !in seen then None else NameOf(targets, id)
  }

  function NameOf(targets: seq<TargetRow>, id: int): Option<string> {
    if targets == [] then None
    else if targets[0].id == id then Some(targets[0].name)
    else NameOf(targets[1..], id)
  }

  function Titled(db: Db, c: Caller): Titles {
    TitleAmong(db.findings, FindingsSeen(db, c))
  }

  function Named(db: Db, c: Caller): int -> Option<string> {
    NameAmong(db.targets, TargetsSeen(db, c))
  }

  predicate InRange(at: DateTime, q: Query) {
    && (q.from.Some? ==> Instant(q.from.value) <= Instant(at))
    && (q.until.Some? ==> Instant(at) <= Instant(q.until.value))
  }

  predicate Wanted(q: Query, kind: string) {
    q.eventType == "" || q.eventType == kind
  }

  function Email(users: seq<UserRow>, id: nat): Option<string> {
    if users == [] then None else if users[0].id == id then Some(users[0].email) else Email(users[1..], id)
  }

  function McpVisible(targets: set<int>, findings: set<int>, c: Caller): McpLog -> bool {
    (l: McpLog) =>
      if l.targetId.Some? then l.targetId.value in targets
      else if l.findingId.Some? then l.findingId.value in findings
      else c.workspaces.None? || l.userId == c.id
  }

  function LogShown(seen: set<int>, c: Caller, q: Query): Log -> bool {
    (l: Log) =>
      && Wanted(q, "triage") && (q.actor == "" || l.actor == q.actor) && InRange(l.createdAt, q)
      && (c.workspaces.None? || l.findingId in seen)
  }

  /** Scans speak only for "system". */
  function ScanShown(seen: set<int>, c: Caller, q: Query): Scan -> bool {
    (s: Scan) =>
      && Wanted(q, "scan") && (q.actor == "" || q.actor == "system") && InRange(s.startedAt, q)
      && (c.workspaces.None? || s.targetId in seen)
  }

  function McpShown(users: seq<UserRow>, targets: set<int>, findings: set<int>, c: Caller, q: Query): McpLog -> bool {
    (l: McpLog) =>
      && Wanted(q, "mcp") && (q.actor == "" || Email(users, l.userId) == Some(q.actor)) && InRange(l.createdAt, q)
      && McpVisible(targets, findings, c)(l)
  }

  function LogsShown(db: Db, c: Caller, q: Query): Log -> bool {
    LogShown(FindingsSeen(db, c), c, q)
  }

  function ScansShown(db: Db, c: Caller, q: Query): Scan -> bool {
    ScanShown(TargetsSeen(db, c), c, q)
  }

  function CallsShown(db: Db, c: Caller, q: Query): McpLog -> bool {
    McpShown(db.users, TargetsSeen(db, c), FindingsSeen(db, c), c, q)
  }

  function Started(s: Scan): Key {
    Key(Instant(s.startedAt), 0, "", "", 0)
  }

  function Called(m: McpLog): Key {
    Key(Instant(m.createdAt), 0, "", "", 0)
  }

  /** ORDER BY the time, newest first: rows at one instant in whatever order they are stored. */
  function LogRows(db: Db, c: Caller, q: Query): seq<Log> {
    SortBy(Filter(db.logs, LogsShown(db, c, q)), Newest, true)
  }

  function ScanRows(db: Db, c: Caller, q: Query): seq<Scan> {
    SortBy(Filter(db.scans, ScansShown(db, c, q)), Started, true)
  }

  function McpRows(db: Db, c: Caller, q: Query): seq<McpLog> {
    SortBy(Filter(db.mcp, CallsShown(db, c, q)), Called, true)
  }

  /** A target in the caller's workspaces; for an admin, any that exists. */
  ghost predicate TargetInScope(db: Db, workspaces: Option<set<int>>, target: int) {
    exists t :: t in db.targets && t.id == target && (workspaces.None? || t.workspaceId in workspaces.value)
  }

  ghost predicate FindingInScope(db: Db, workspaces: Option<set<int>>, finding: int) {
    exists f :: f in db.findings && f.id == finding && (workspaces.None? || TargetInScope(db, workspaces, f.targetId))
  }

  lemma TargetsSeenInScope(db: Db, c: Caller, target: int)
    ensures target in TargetsSeen(db, c) <==> TargetInScope(db, c.workspaces, target)
  {
  }

  lemma FindingsSeenInScope(db: Db, c: Caller, finding: int)
    ensures finding in FindingsSeen(db, c) <==> FindingInScope(db, c.workspaces, finding)
  {
    forall f | f in db.findings
      ensures f.targetId in TargetsSeen(db, c) <==> TargetInScope(db, c.workspaces, f.targetId) {
      TargetsSeenInScope(db, c, f.targetId);
    }
  }

  /** A triage row is shown exactly when the filters pass it and, for anyone but an admin, its
      finding's target lies in one of the caller's workspaces. The same for a scan row, whose
      actor is always "system". */
  lemma FeedScope(db: Db, c: Caller, q: Query, l: Log, s: Scan)
    ensures l in LogRows(db, c, q) <==>
            (&& l in db.logs && (q.eventType == "" || q.eventType == "triage")
             && (q.actor == "" || l.actor == q.actor)
             && (q.from.Some? ==> Instant(l.createdAt) >= Instant(q.from.value))
             && (q.until.Some? ==> Instant(l.createdAt) <= Instant(q.until.value))
             && (c.workspaces.None? || FindingInScope(db, c.workspaces, l.findingId)))
    ensures s in ScanRows(db, c, q) <==>
            (&& s in db.scans && (q.eventType == "" || q.eventType == "scan") && (q.actor == "" || q.actor == "system")
             && (q.from.Some? ==> Instant(s.startedAt) >= Instant(q.from.value))
             && (q.until.Some? ==> Instant(s.startedAt) <= Instant(q.until.value))
             && (c.workspaces.None? || TargetInScope(db, c.workspaces, s.targetId)))
  {
    FindingsSeenInScope(db, c, l.findingId);
    TargetsSeenInScope(db, c, s.targetId);
    SortByMembers(Filter(db.logs, LogsShown(db, c, q)), Newest, true);
    SortByMembers(Filter(db.scans, ScansShown(db, c, q)), Started, true);
  }

  ghost predicate CallInScope(db: Db, c: Caller, m: McpLog) {
    if m.targetId.Some? then TargetInScope(db, c.workspaces, m.targetId.value)
    else if m.findingId.Some? then FindingInScope(db, c.workspaces, m.findingId.value)
    else c.workspaces.None? || m.userId == c.id
  }

  /** And an agent call exactly when the filters pass it and the target or finding it names is in
      scope, or it names neither and the caller is an admin or made it. */
  lemma McpScope(db: Db, c: Caller, q: Query, m: McpLog)
    ensures m in McpRows(db, c, q) <==>
            (&& m in db.mcp && (q.eventType == "" || q.eventType == "mcp")
             && (q.actor == "" || Email(db.users, m.userId) == Some(q.actor))
             && (q.from.Some? ==> Instant(m.createdAt) >= Instant(q.from.value))
             && (q.until.Some? ==> Instant(m.createdAt) <= Instant(q.until.value))
             && CallInScope(db, c, m))
  {
    if m.targetId.Some? {
      TargetsSeenInScope(db, c, m.targetId.value);
    } else if m.findingId.Some? {
      FindingsSeenInScope(db, c, m.findingId.value);
    }
    assert McpVisible(TargetsSeen(db, c), FindingsSeen(db, c), c)(m) == CallInScope(db, c, m);
    SortByMembers(Filter(db.mcp, CallsShown(db, c, q)), Called, true);
  }

  // ----- the merged feed -----

  function ScanEvent(names: int -> Option<string>): Scan -> Event {
    (s: Scan) =>
      var name := names(s.targetId);
      Event(ScanRun, Iso(s.startedAt), "system",
            s.tool + " scan on " + (if name.Some? then name.value else Decimal.Print(s.targetId)) + ": " + s.status
            + " (" + Decimal.Print(s.findingsCount) + " findings)", "", 1, None)
  }

  function ActorName(users: seq<UserRow>, id: nat): string {
    match Email(users, id)
    case Some(email) => email
    case None => "user#" + Decimal.Print(id)
  }

  function McpEvent(users: seq<UserRow>): McpLog -> Event {
    (l: McpLog) =>
      Event(Mcp, Iso(l.createdAt), ActorName(users, l.userId),
            "[" + l.tool + "] " + l.summary + (if l.success then "" else " (failed)"),
            "via " + l.agent + (if l.error != "" then ": " + l.error else ""), 1, None)
  }

  function Stamp(e: Event): Key {
    Key(0, 0, e.timestamp, "", 0)
  }

  /** The feed before sorting: the triage entries of the visible rows, then one entry per
      visible scan and agent call. */
  function Gathered(db: Db, c: Caller, q: Query): seq<Event> {
    TriageFeed(Titled(db, c), LogRows(db, c, q)) + Map(ScanRows(db, c, q), ScanEvent(Named(db, c)))
      + Map(McpRows(db, c, q), McpEvent(db.users))
  }

  function Feed(db: Db, c: Caller, q: Query): seq<Event> {
    SortBy(Gathered(db, c, q), Stamp, true)
  }

  method ScanEvents(scans: seq<Scan>, names: int -> Option<string>) returns (events: seq<Event>)
    ensures events == Map(scans, ScanEvent(names))
  {
    events := [];
    for i := 0 to |scans|
      invariant events == Map(scans[..i], ScanEvent(names))
    {
      events := events + [ScanEvent(names)(scans[i])];
    }
    assert scans[..|scans|] == scans;
  }

  method McpEvents(logs: seq<McpLog>, users: seq<UserRow>) returns (events: seq<Event>)
    ensures events == Map(logs, McpEvent(users))
  {
    events := [];
    for i := 0 to |logs|
      invariant events == Map(logs[..i], McpEvent(users))
    {
      events := events + [McpEvent(users)(logs[i])];
    }
    assert logs[..|logs|] == logs;
  }

  /** GET /api/audit/log. */
  method AuditLog(db: Db, c: Caller, q: Query) returns (items: seq<Event>, total: nat)
    ensures total == |Gathered(db, c, q)|
    ensures items == Page(Feed(db, c, q), ClampPage(q.page), ClampSize(q.pageSize, 200))
  {
    var triage := TriageEvents(Titled(db, c), LogRows(db, c, q));
    var scans := ScanEvents(ScanRows(db, c, q), Named(db, c));
    var mcp := McpEvents(McpRows(db, c, q), db.users);
    var events := triage + scans + mcp;
    total := |events|;
    items := Page(SortBy(events, Stamp, true), ClampPage(q.page), ClampSize(q.pageSize, 200));
  }

  // ----- names and the other two kinds of entry -----

  lemma {:induction false} FirstTitle(findings: seq<FindingRow>, id: int)
    ensures TitleOf(findings, id).None? <==> forall f :: f in findings ==> f.id != id
    ensures TitleOf(findings, id).Some? ==>
              exists f :: f in findings && f.id == id && f.title == TitleOf(findings, id).value
  {
    if findings != [] && findings[0].id != id {
      FirstTitle(findings[1..], id);
    }
  }

  lemma {:induction false} FirstName(targets: seq<TargetRow>, id: int)
    ensures NameOf(targets, id).None? <==> forall t :: t in targets ==> t.id != id
    ensures NameOf(targets, id).Some? ==> exists t :: t in targets && t.id == id && t.name == NameOf(targets, id).value
  {
    if targets != [] && targets[0].id != id {
      FirstName(targets[1..], id);
    }
  }

  lemma {:induction false} FirstEmail(users: seq<UserRow>, id: nat)
    ensures Email(users, id).None? <==> forall u :: u in users ==> u.id != id
    ensures Email(users, id).Some? ==> exists u :: u in users && u.id == id && u.email == Email(users, id).value
  {
    if users != [] && users[0].id != id {
      FirstEmail(users[1..], id);
    }
  }

  /** A title or a name is shown exactly for what the caller may see, and it is the stored one. */
  lemma NamesMean(db: Db, c: Caller, id: int)
    ensures Titled(db, c)(id).Some? <==> FindingInScope(db, c.workspaces, id)
    ensures Titled(db, c)(id).Some? ==>
              exists f :: f in db.findings && f.id == id && f.title == Titled(db, c)(id).value
    ensures Named(db, c)(id).Some? <==> TargetInScope(db, c.workspaces, id)
    ensures Named(db, c)(id).Some? ==> exists t :: t in db.targets && t.id == id && t.name == Named(db, c)(id).value
  {
    FirstTitle(db.findings, id);
    FirstName(db.targets, id);
    FindingsSeenInScope(db, c, id);
    TargetsSeenInScope(db, c, id);
  }

  predicate ScanEntry(names: int -> Option<string>, e: Event, s: Scan) {
    var name := names(s.targetId);
    && e.kind == ScanRun && e.timestamp == Iso(s.startedAt) && e.actor == "system" && e.reason == ""
    && e.groupedCount == 1 && e.expand == None
    && e.summary == s.tool + " scan on " + (if name.None? then Decimal.Print(s.targetId) else name.value) + ": "
                    + s.status + " (" + Decimal.Print(s.findingsCount) + " findings)"
  }

  predicate CallEntry(users: seq<UserRow>, e: Event, m: McpLog) {
    var email := Email(users, m.userId);
    && e.kind == Mcp && e.timestamp == Iso(m.createdAt) && e.groupedCount == 1 && e.expand == None
    && e.actor == (if email.None? then "user#" + Decimal.Print(m.userId) else email.value)
    && e.summary == "[" + m.tool + "] " + m.summary + (if !m.success then " (failed)" else "")
    && e.reason == "via " + m.agent + (if m.error == "" then "" else ": " + m.error)
  }

  lemma TriageEntryMeans(titles: Titles, logs: seq<Log>, e: Event)
    requires e in TriageFeed(titles, logs)
    ensures exists source :: source in Sources(logs) && EntryFor(titles, e, source, logs)
  {
    TriageEntries(titles, logs);
    var i :| 0 <= i < |Sources(logs)| && TriageFeed(titles, logs)[i] == e;
    assert Sources(logs)[i] in Sources(logs);
  }

  lemma ScanEntryMeans(scans: seq<Scan>, names: int -> Option<string>, e: Event)
    requires e in Map(scans, ScanEvent(names))
    ensures exists s :: s in scans && ScanEntry(names, e, s)
  {
    var i :| 0 <= i < |scans| && Map(scans, ScanEvent(names))[i] == e;
    assert ScanEntry(names, e, scans[i]);
  }

  lemma CallEntryMeans(calls: seq<McpLog>, users: seq<UserRow>, e: Event)
    requires e in Map(calls, McpEvent(users))
    ensures exists m :: m in calls && CallEntry(users, e, m)
  {
    var i :| 0 <= i < |calls| && Map(calls, McpEvent(users))[i] == e;
    assert CallEntry(users, e, calls[i]);
  }

  /** Every entry of a feed is one of the three kinds, and says what its rows say. */
  lemma EntriesMean(db: Db, c: Caller, q: Query, e: Event)
    requires e in Feed(db, c, q)
    ensures || (exists source :: source in Sources(LogRows(db, c, q))
                                 && EntryFor(Titled(db, c), e, source, LogRows(db, c, q)))
            || (exists s :: s in ScanRows(db, c, q) && ScanEntry(Named(db, c), e, s))
            || (exists m :: m in McpRows(db, c, q) && CallEntry(db.users, e, m))
  {
    var a, b := TriageFeed(Titled(db, c), LogRows(db, c, q)), Map(ScanRows(db, c, q), ScanEvent(Named(db, c)));
    var calls := Map(McpRows(db, c, q), McpEvent(db.users));
    SortByMembers(Gathered(db, c, q), Stamp, true);
    assert e in a + b + calls;
    if e in a {
      TriageEntryMeans(Titled(db, c), LogRows(db, c, q), e);
    } else if e in b {
      ScanEntryMeans(ScanRows(db, c, q), Named(db, c), e);
    } else {
      CallEntryMeans(McpRows(db, c, q), db.users, e);
    }
  }
}
