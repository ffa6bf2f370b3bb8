/** GET /api/findings/facets: per-value counts beside every filter option. A count is a
    promise about what the list returns when that option is clicked. */
module FindingFacets {
  import opened Prelude
  import opened Seqs
  import opened Ordering
  import opened ToolRegistry
  import opened FindingsModel
  import opened FindingsQuery

  datatype FacetCount<V> = FacetCount(value: V, count: nat)

  datatype Facets = Facets(
    severity: seq<FacetCount<Severity>>, state: seq<FacetCount<FindingState>>, tool: seq<FacetCount<string>>,
    fixability: seq<FacetCount<Fixability>>, environment: seq<FacetCount<string>>, owner: seq<FacetCount<string>>,
    category: seq<FacetCount<string>>, total: nat)

  datatype Dimension = DSeverity | DState | DTool | DFixability | DEnvironment | DOwner | DCategory

  /** _FACET_SELF_EXCLUSIONS: what a dimension drops when it counts itself. */
  function Excluding(q: Filters, d: Dimension): Filters {
    match d
    case DSeverity => q.(severity := None)
    case DState => q.(state := None, resolved := None)
    case DTool => q.(tool := None)
    case DFixability => q.(fixability := None)
    case DEnvironment => q.(environment := None)
    case DOwner => q.(owner := None)
    case DCategory => q
  }

  /** Category tab and queue exclusion apply to every dimension but their own. */
  function CategoryFor(c: CategoryFilter, d: Dimension): CategoryFilter {
    if d.DCategory? then CategoryFilter(None, []) else c
  }

  /** The rows one dimension's counts are measured over. */
  function Scoped(db: Db, caller: Caller, reg: Registry, q: Filters, c: CategoryFilter, d: Dimension): seq<Finding> {
    Selected(db, caller, reg, Excluding(q, d), CategoryFor(c, d))
  }

  // ----- GROUP BY and the Python folds over its rows -----

  /** SELECT column, count(*) ... GROUP BY column. */
  function GroupCounts<T, R(==)>(rows: seq<T>, column: T -> Option<R>): seq<(Option<R>, nat)> {
    Map(Dedup(Map(rows, column)), v => (v, Count(rows, KeyIs(column, v))))
  }

  function UnderKey<T, R, K(==)>(column: T -> Option<R>, key: R -> K, k: K): T -> bool {
    x => column(x).Some? && key(column(x).value) == k
  }

  function UnderKeyAmong<T, R(==), K(==)>(column: T -> Option<R>, key: R -> K, k: K,
                                          listed: seq<Option<R>>): T -> bool {
    x => column(x) in listed && column(x).Some? && key(column(x).value) == k
  }

  lemma CountSkip<T, R, K>(rows: seq<T>, column: T -> Option<R>, key: R -> K, k: K, listed: seq<Option<R>>,
                           v: Option<R>)
    requires v !in listed
    ensures Count(rows, UnderKeyAmong(column, key, k, listed + [v]))
            == Count(rows, UnderKeyAmong(column, key, k, listed))
               + (if v.Some? && key(v.value) == k then Count(rows, KeyIs(column, v)) else 0)
  {
    if v.Some? && key(v.value) == k {
      CountOr(rows, UnderKeyAmong(column, key, k, listed), KeyIs(column, v),
              UnderKeyAmong(column, key, k, listed + [v]));
    } else {
      FilterCong(rows, UnderKeyAmong(column, key, k, listed + [v]), UnderKeyAmong(column, key, k, listed));
    }
  }

  /** Folds GROUP BY rows into a dict: NULL groups are dropped and groups whose values
      share a key are added up, so two spellings, or two tools of one category, merge.
      Every key's entry is exactly the number of rows under that key. */
  method FoldCounts<T, R(==, !new), K(==, !new)>(rows: seq<T>, column: T -> Option<R>, key: R -> K)
    returns (counts: map<K, nat>)
    ensures forall k :: Get(counts, k) == Count(rows, UnderKey(column, key, k))
  {
    var groups := GroupCounts(rows, column);
    ghost var values := Dedup(Map(rows, column));
    counts := map[];
    forall k ensures Count(rows, UnderKeyAmong(column, key, k, values[..0])) == 0 {
      CountZero(rows, UnderKeyAmong(column, key, k, values[..0]));
    }
    for i := 0 to |groups|
      invariant forall k :: Get(counts, k) == Count(rows, UnderKeyAmong(column, key, k, values[..i]))
    {
      var (value, count) := groups[i];
      forall k
        ensures Count(rows, UnderKeyAmong(column, key, k, values[..i + 1]))
                == Count(rows, UnderKeyAmong(column, key, k, values[..i]))
                  + (if value.Some? && key(value.value) == k then count else 0)
      {
        assert values[..i + 1] == values[..i] + [values[i]];
        assert groups[i] == (values[i], Count(rows, KeyIs(column, values[i])));
        CountSkip(rows, column, key, k, values[..i], values[i]);
      }
      ghost var before := counts;
      if value.Some? {
        counts := counts[key(value.value) := Get(counts, key(value.value)) + count];
      }
      assert forall k :: Get(counts, k) == Get(before, k) + (if value.Some? && key(value.value) == k then count else 0);
    }
    forall k
      ensures Count(rows, UnderKeyAmong(column, key, k, values[..|groups|])) == Count(rows, UnderKey(column, key, k)) {
      forall x | x in rows ensures column(x) in values {
        MappedMembership(rows, column, column(x));
      }
      FilterCong(rows, UnderKeyAmong(column, key, k, values[..|groups|]), UnderKey(column, key, k));
    }
  }

  /** Options driven by the universe, zeros and all. */
  function FacetList<V(==)>(values: seq<V>, counts: map<V, nat>): seq<FacetCount<V>> {
    Map(values, v => FacetCount(v, Get(counts, v)))
  }

  function Values<V>(facet: seq<FacetCount<V>>): seq<V> {
    Map(facet, (o: FacetCount<V>) => o.value)
  }

  function TotalOf<V>(facet: seq<FacetCount<V>>): nat {
    Sum(Map(facet, (o: FacetCount<V>) => o.count))
  }

  /** If the options cover every row, the listed counts sum to all the rows. */
  lemma ListedCountsSum<T, V>(rows: seq<T>, key: T -> V, facet: seq<FacetCount<V>>)
    requires Distinct(Values(facet))
    requires forall x :: x in rows ==> key(x) in Values(facet)
    requires forall o :: o in facet ==> o.count == Count(rows, KeyIs(key, o.value))
    ensures TotalOf(facet) == |rows|
  {
    PartitionSum(rows, key, Values(facet));
    assert Map(facet, (o: FacetCount<V>) => o.count) == Buckets(rows, key, Values(facet)) by {
      forall i | 0 <= i < |facet| ensures facet[i].count == Count(rows, KeyIs(key, Values(facet)[i])) {
        assert facet[i] in facet;
      }
    }
  }

  // ----- what clicking an option would select -----

  function Click(q: Filters, d: Dimension, v: Choice): Filters {
    match (d, v)
    case (DSeverity, SeverityChoice(s)) => q.(severity := Some([s]))
    case (DState, StateChoice(s)) => q.(state := Some([s]))
    case (DTool, Text(t)) => q.(tool := Some([t]))
    case (DFixability, FixabilityChoice(b)) => q.(fixability := Some([b]))
    case (DEnvironment, Text(t)) => q.(environment := Some([t]))
    case (DOwner, Text(t)) => q.(owner := Some([t]))
    case _ => q
  }

  datatype Choice =
    | SeverityChoice(s: Severity)
    | StateChoice(t: FindingState)
    | FixabilityChoice(b: Fixability)
    | Text(text: string)

  function AsSeverity(s: Severity): Choice { SeverityChoice(s) }
  function AsState(s: FindingState): Choice { StateChoice(s) }
  function AsBucket(b: Fixability): Choice { FixabilityChoice(b) }
  function AsText(t: string): Choice { Text(t) }

  function SeverityOf(f: Finding): Severity { f.severity }
  function StateOf(f: Finding): FindingState { f.state }
  function ToolOf(f: Finding): string { f.tool }

  /** The category in place of the tab, nothing excluded: the page offers categories only where no
      queue excludes any. */
  function ClickCategory(c: CategoryFilter, d: Dimension, v: Choice): CategoryFilter {
    if d.DCategory? && v.Text? then CategoryFilter(Some(v.text), []) else c
  }

  /** GET /api/findings' total once option `v` of `d` is the only value of that dimension
      and every other filter is kept, but for an exclusion of categories when one is picked
      (`UrlTotal` keeps that too). */
  function ListTotal(db: Db, caller: Caller, reg: Registry, q: Filters, c: CategoryFilter, d: Dimension,
                     v: Choice): nat {
    |Selected(db, caller, reg, Click(q, d, v), ClickCategory(c, d, v))|
  }

  function TargetColumn(db: Db, d: Dimension, f: Finding): Option<string> {
    var t := LookupTarget(db.targets, f.targetId);
    if t.None? then None else if d.DEnvironment? then t.value.environment else t.value.owner
  }

  /** Whether a row belongs under an option, dimension by dimension. */
  predicate Under(db: Db, reg: Registry, d: Dimension, v: Choice, f: Finding) {
    match (d, v)
    case (DSeverity, SeverityChoice(s)) => f.severity == s
    case (DState, StateChoice(s)) => f.state == s
    case (DTool, Text(t)) => f.tool == t
    case (DFixability, FixabilityChoice(b)) => Bucket(db.enrichment, f.cveId) == b
    case (DEnvironment, Text(t)) => TargetColumn(db, d, f) == Some(t)
    case (DOwner, Text(t)) => TargetColumn(db, d, f) == Some(t)
    case (DCategory, Text(t)) => ToolCategory(reg, f.tool) == t
    case _ => true
  }

  predicate Offered(d: Dimension, v: Choice) {
    match d
    case DSeverity => v.SeverityChoice?
    case DState => v.StateChoice?
    case DFixability => v.FixabilityChoice?
    case _ => v.Text?
  }

  lemma ClickTarget(db: Db, caller: Caller, reg: Registry, q: Filters, d: Dimension, v: Choice, f: Finding, t: Target)
    requires Offered(d, v) && LookupTarget(db.targets, f.targetId) == Some(t)
    ensures MatchesTarget(db, caller, Click(q, d, v), f, t)
            == (MatchesTarget(db, caller, Excluding(q, d), f, t) && (d.DCategory? || Under(db, reg, d, v, f)))
  {
  }

  lemma ClickTab(reg: Registry, c: CategoryFilter, d: Dimension, v: Choice, f: Finding)
    requires Offered(d, v)
    ensures d.DCategory? ==> InCategory(reg, ClickCategory(c, d, v), f)
                             == (InCategory(reg, CategoryFor(c, d), f) && ToolCategory(reg, f.tool) == v.text)
    ensures !d.DCategory? ==> ClickCategory(c, d, v) == CategoryFor(c, d)
  {
  }

  lemma ClickMeaning(db: Db, caller: Caller, reg: Registry, q: Filters, c: CategoryFilter, d: Dimension, v: Choice,
                     f: Finding)
    requires Offered(d, v)
    ensures Selecting(db, caller, reg, Click(q, d, v), ClickCategory(c, d, v))(f)
            == (Selecting(db, caller, reg, Excluding(q, d), CategoryFor(c, d))(f) && Under(db, reg, d, v, f))
  {
    ClickTab(reg, c, d, v, f);
    var t := LookupTarget(db.targets, f.targetId);
    if t.Some? {
      ClickTarget(db, caller, reg, q, d, v, f, t.value);
    }
  }

  /** The facet law: counting the option's rows among the dimension's own rows gives the
      total the list would show after clicking it. */
  lemma FacetIsPromise(db: Db, caller: Caller, reg: Registry, q: Filters, c: CategoryFilter, d: Dimension, v: Choice)
    requires Offered(d, v)
    ensures ListTotal(db, caller, reg, q, c, d, v)
            == Count(Scoped(db, caller, reg, q, c, d), f => Under(db, reg, d, v, f))
  {
    if caller.workspaces != Some({}) {
      var clicked := ClickCategory(c, d, v);
      forall f ensures Selecting(db, caller, reg, Click(q, d, v), clicked)(f)
            == (Selecting(db, caller, reg, Excluding(q, d), CategoryFor(c, d))(f) && Under(db, reg, d, v, f)) {
        ClickMeaning(db, caller, reg, q, c, d, v, f);
      }
      FilterNarrow(db.findings, Selecting(db, caller, reg, Excluding(q, d), CategoryFor(c, d)),
                   f => Under(db, reg, d, v, f), Selecting(db, caller, reg, Click(q, d, v), clicked));
    }
  }

  /** Each listed count is the list's total for its option. */
  ghost predicate Honest<V>(facet: seq<FacetCount<V>>, wrap: V -> Choice, db: Db, caller: Caller, reg: Registry,
                            q: Filters, c: CategoryFilter, d: Dimension) {
    forall o :: o in facet ==> o.count == ListTotal(db, caller, reg, q, c, d, wrap(o.value))
  }

  method ScopedQuery(db: Db, caller: Caller, reg: Registry, q: Filters, c: CategoryFilter, d: Dimension)
    returns (query: Option<seq<Finding>>)
    requires ValidDb(db) && Consistent(reg)
    ensures query.None? ==> Scoped(db, caller, reg, q, c, d) == []
    ensures query.Some? ==> query.value == Scoped(db, caller, reg, q, c, d)
  {
    query := SelectFindings(db, caller, reg, Excluding(q, d), CategoryFor(c, d));
  }

  /** Bucket sizes over a dimension's rows are honest, and lose nothing if they cover them. */
  lemma CountsAreHonest<V>(facet: seq<FacetCount<V>>, valueOf: Finding -> V, wrap: V -> Choice, rows: seq<Finding>,
                           db: Db, caller: Caller, reg: Registry, q: Filters, c: CategoryFilter, d: Dimension)
    requires rows == Scoped(db, caller, reg, q, c, d)
    requires forall o :: o in facet ==> o.count == Count(rows, KeyIs(valueOf, o.value))
    requires forall v :: Offered(d, wrap(v))
    requires forall v, f :: Under(db, reg, d, wrap(v), f) <==> valueOf(f) == v
    ensures Honest(facet, wrap, db, caller, reg, q, c, d)
    ensures Distinct(Values(facet)) && (forall f :: f in rows ==> valueOf(f) in Values(facet)) ==>
              TotalOf(facet) == |rows|
  {
    forall o | o in facet ensures o.count == ListTotal(db, caller, reg, q, c, d, wrap(o.value)) {
      FacetIsPromise(db, caller, reg, q, c, d, wrap(o.value));
      FilterCong(rows, KeyIs(valueOf, o.value), f => Under(db, reg, d, wrap(o.value), f));
    }
    if Distinct(Values(facet)) && forall f :: f in rows ==> valueOf(f) in Values(facet) {
      ListedCountsSum(rows, valueOf, facet);
    }
  }

  function Compose<R, V>(raw: Finding -> R, key: R -> V): Finding -> V {
    f => key(raw(f))
  }

  /** A dimension grouped in SQL by a non-null column and keyed in Python. */
  method ColumnFacet<V(==, !new), R(==, !new)>(db: Db, caller: Caller, reg: Registry, q: Filters, c: CategoryFilter,
                                               d: Dimension,
      values: seq<V>, raw: Finding -> R, key: R -> V, ghost wrap: V -> Choice) returns (facet: seq<FacetCount<V>>)
    requires ValidDb(db) && Consistent(reg)
    requires forall v :: Offered(d, wrap(v))
    requires forall v, f :: Under(db, reg, d, wrap(v), f) <==> key(raw(f)) == v
    ensures Values(facet) == values
    ensures Honest(facet, wrap, db, caller, reg, q, c, d)
    ensures Distinct(values) && (forall f :: f in Scoped(db, caller, reg, q, c, d) ==> key(raw(f)) in values)
            ==> TotalOf(facet) == |Scoped(db, caller, reg, q, c, d)|
  {
    var query := ScopedQuery(db, caller, reg, q, c, d);
    var rows := if query.Some? then query.value else [];
    var counts := CountRows(rows, raw, key);
    facet := FacetList(values, if query.Some? then counts else map[]);
    CountsAreHonest(facet, Compose(raw, key), wrap, rows, db, caller, reg, q, c, d);
  }

  method CountRows<V(==, !new), R(==, !new)>(rows: seq<Finding>, raw: Finding -> R, key: R -> V)
    returns (counts: map<V, nat>)
    ensures forall v :: Get(counts, v) == Count(rows, KeyIs(Compose(raw, key), v))
  {
    counts := FoldCounts(rows, f => Some(raw(f)), key);
    forall v ensures Count(rows, UnderKey(f => Some(raw(f)), key, v)) == Count(rows, KeyIs(Compose(raw, key), v)) {
      FilterCong(rows, UnderKey(f => Some(raw(f)), key, v), KeyIs(Compose(raw, key), v));
    }
  }

  function BucketOf(enrichment: seq<Enrichment>): Finding -> Fixability {
    (f: Finding) => Bucket(enrichment, f.cveId)
  }

  /** The rows for which the bucket's SQL condition is true. */
  function CountBucket(rows: seq<Finding>, enrichment: seq<Enrichment>, b: Fixability): (n: nat)
    ensures n == Count(rows, KeyIs(BucketOf(enrichment), b))
  {
    assert Count(rows, (f: Finding) => FixabilityCondition(b, f.cveId, enrichment) == TT)
           == Count(rows, KeyIs(BucketOf(enrichment), b)) by {
      forall f: Finding
        ensures FixabilityCondition(b, f.cveId, enrichment) == TT <==> Bucket(enrichment, f.cveId) == b {
        BucketsPartition(enrichment, f.cveId, b);
      }
      FilterCong(rows, (f: Finding) => FixabilityCondition(b, f.cveId, enrichment) == TT,
                 KeyIs(BucketOf(enrichment), b));
    }
    Count(rows, (f: Finding) => FixabilityCondition(b, f.cveId, enrichment) == TT)
  }

  /** One COUNT per bucket, each with the filter's own condition. */
  method BucketCounts(rows: seq<Finding>, enrichment: seq<Enrichment>) returns (facet: seq<FacetCount<Fixability>>)
    ensures Values(facet) == BUCKETS
    ensures forall o :: o in facet ==> o.count == Count(rows, KeyIs(BucketOf(enrichment), o.value))
  {
    facet := Map(BUCKETS, b => FacetCount(b, CountBucket(rows, enrichment, b)));
  }

  lemma BucketsHonest(facet: seq<FacetCount<Fixability>>, rows: seq<Finding>, db: Db, caller: Caller, reg: Registry,
                      q: Filters, c: CategoryFilter)
    requires rows == Scoped(db, caller, reg, q, c, DFixability) && Values(facet) == BUCKETS
    requires forall o :: o in facet ==> o.count == Count(rows, KeyIs(BucketOf(db.enrichment), o.value))
    ensures Honest(facet, AsBucket, db, caller, reg, q, c, DFixability) && TotalOf(facet) == |rows|
  {
    CountsAreHonest(facet, BucketOf(db.enrichment), AsBucket, rows, db, caller, reg, q, c, DFixability);
    OptionsDistinct();
    forall f: Finding ensures BucketOf(db.enrichment)(f) in Values(facet) {
      BucketListed(Bucket(db.enrichment, f.cveId));
    }
  }

  method FixabilityFacet(db: Db, caller: Caller, reg: Registry, q: Filters, c: CategoryFilter)
    returns (facet: seq<FacetCount<Fixability>>)
    requires ValidDb(db) && Consistent(reg)
    ensures Values(facet) == BUCKETS
    ensures Honest(facet, AsBucket, db, caller, reg, q, c, DFixability)
    ensures TotalOf(facet) == |Scoped(db, caller, reg, q, c, DFixability)|
  {
    var query := ScopedQuery(db, caller, reg, q, c, DFixability);
    var rows := if query.Some? then query.value else [];
    facet := BucketCounts(rows, db.enrichment);
    BucketsHonest(facet, rows, db, caller, reg, q, c);
  }

  /** Distinct non-empty values of a target column among the live targets in scope. */
  function TargetFacet(db: Db, caller: Caller, d: Dimension): (r: seq<string>)
    ensures "" !in r
  {
    var names := Map(Filter(db.targets, t => InScope(caller, t)),
                     (t: Target) => Shown(if d.DEnvironment? then t.environment else t.owner));
    Sorted(Dedup(Filter(names, s => s != "")))
  }

  function Shown(column: Option<string>): string {
    if column.Some? then column.value else ""
  }

  function Sorted(names: seq<string>): (r: seq<string>)
    ensures multiset(r) == multiset(names)
    ensures forall v :: v in r ==> v in names
  {
    var r := SortBy(names, (s: string) => Key(0, 0, s, "", 0), false);
    assert forall v :: v in r ==> v in multiset(r);
    r
  }

  function RowColumn(d: Dimension): Row -> Option<string> {
    (r: Row) => if r.target.None? then None
         else NonEmpty(if d.DEnvironment? then r.target.value.environment else r.target.value.owner)
  }

  /** `if value`: NULL and the empty string both drop out. */
  function NonEmpty(value: Option<string>): Option<string> {
    if value == Some("") then None else value
  }

  /** A dimension grouped by a column of the finding's target, joined onto the rows. */
  method TargetColumnFacet(db: Db, caller: Caller, reg: Registry, q: Filters, c: CategoryFilter, d: Dimension)
    returns (facet: seq<FacetCount<string>>)
    requires ValidDb(db) && Consistent(reg) && (d.DEnvironment? || d.DOwner?)
    ensures Values(facet) == TargetFacet(db, caller, d)
    ensures Honest(facet, AsText, db, caller, reg, q, c, d)
  {
    var query := ScopedQuery(db, caller, reg, q, c, d);
    var rows := if query.Some? then query.value else [];
    var counts := CountTargetColumn(db, rows, d);
    facet := FacetList(TargetFacet(db, caller, d), counts);
    TargetCountsHonest(facet, rows, db, caller, reg, q, c, d);
  }

  lemma TargetCountsHonest(facet: seq<FacetCount<string>>, rows: seq<Finding>, db: Db, caller: Caller, reg: Registry,
                           q: Filters, c: CategoryFilter, d: Dimension)
    requires rows == Scoped(db, caller, reg, q, c, d) && (d.DEnvironment? || d.DOwner?)
    requires forall o :: o in facet ==> o.count == Count(rows, KeyIs(ColumnOf(db, d), Some(o.value)))
    ensures Honest(facet, AsText, db, caller, reg, q, c, d)
  {
    forall o | o in facet ensures o.count == ListTotal(db, caller, reg, q, c, d, AsText(o.value)) {
      FacetIsPromise(db, caller, reg, q, c, d, AsText(o.value));
      FilterCong(rows, KeyIs(ColumnOf(db, d), Some(o.value)), f => Under(db, reg, d, AsText(o.value), f));
    }
  }

  function ColumnOf(db: Db, d: Dimension): Finding -> Option<string> {
    f => TargetColumn(db, d, f)
  }

  function JoinedRow(db: Db, joined: bool): Finding -> Row {
    (f: Finding) => MakeRow(db, joined, f)
  }

  lemma JoinedRows(db: Db, rows: seq<Finding>)
    requires ValidDb(db) && forall f :: f in rows ==> f in db.findings
    ensures JoinTarget(Map(rows, JoinedRow(db, false)), db.targets) == Map(rows, JoinedRow(db, true))
  {
    EachJoinsOnce(db, false, rows);
    JoinTargetRows(Map(rows, JoinedRow(db, false)), rows, db, false);
  }

  lemma JoinedColumn(db: Db, rows: seq<Finding>, d: Dimension, v: string)
    requires ValidDb(db) && (d.DEnvironment? || d.DOwner?) && v != ""
    requires forall f :: f in rows ==> f in db.findings
    ensures Count(Map(rows, JoinedRow(db, true)), UnderKey(RowColumn(d), Itself, v))
            == Count(rows, KeyIs(ColumnOf(db, d), Some(v)))
  {
    FilterMap(rows, JoinedRow(db, true), UnderKey(RowColumn(d), Itself, v), KeyIs(ColumnOf(db, d), Some(v)));
  }

  method CountTargetColumn(db: Db, rows: seq<Finding>, d: Dimension) returns (counts: map<string, nat>)
    requires ValidDb(db) && (d.DEnvironment? || d.DOwner?)
    requires forall f :: f in rows ==> f in db.findings
    ensures forall v :: v != "" ==> Get(counts, v) == Count(rows, KeyIs(ColumnOf(db, d), Some(v)))
  {
    var joined := JoinTarget(Map(rows, JoinedRow(db, false)), db.targets);
    JoinedRows(db, rows);
    counts := FoldCounts(joined, RowColumn(d), Itself);
    forall v | v != "" ensures Get(counts, v) == Count(rows, KeyIs(ColumnOf(db, d), Some(v))) {
      JoinedColumn(db, rows, d, v);
    }
  }

  /** _visible_tools: the option universe, deliberately unfiltered. */
  function VisibleTools(db: Db, caller: Caller): seq<string> {
    if caller.workspaces == Some({}) then []
    else Sorted(Dedup(Map(Filter(db.findings, f => Visible(db, caller, f)), (f: Finding) => f.tool)))
  }

  lemma ToolListed(db: Db, caller: Caller, reg: Registry, q: Filters, c: CategoryFilter, f: Finding)
    requires f in Selected(db, caller, reg, q, c)
    ensures f.tool in VisibleTools(db, caller)
  {
    var visible := Filter(db.findings, f => Visible(db, caller, f));
    assert f in visible;
    MappedMembership(visible, (f: Finding) => f.tool, f.tool);
    var tools := Dedup(Map(visible, (f: Finding) => f.tool));
    assert f.tool in multiset(tools);
    assert f.tool in multiset(VisibleTools(db, caller));
  }

  lemma VisibleToolsDistinct(db: Db, caller: Caller)
    ensures Distinct(VisibleTools(db, caller))
  {
    if caller.workspaces != Some({}) {
      var tools := Dedup(Map(Filter(db.findings, f => Visible(db, caller, f)), (f: Finding) => f.tool));
      PermutationDistinct(tools, Sorted(tools));
    }
  }

  /** Once each, in code-point order. */
  ghost predicate Alphabetical(values: seq<string>) {
    forall i, j :: 0 <= i < j < |values| ==> StrLess(values[i], values[j])
  }

  lemma SortedMeans(names: seq<string>)
    requires Distinct(names)
    ensures Alphabetical(Sorted(names)) && forall v :: v in Sorted(names) <==> v in names
  {
    var key, r := (s: string) => Key(0, 0, s, "", 0), Sorted(names);
    SortBySorted(names, key, false);
    PermutationDistinct(names, r);
    forall i, j | 0 <= i < j < |r| ensures StrLess(r[i], r[j]) {
      assert !Precedes(key, false, r[j], r[i]) && r[i] != r[j];
      StrLessTotal(r[i], r[j]);
    }
    forall v ensures v in r <==> v in names { assert v in multiset(r) <==> v in multiset(names); }
  }

  /** Some live target in the caller's workspaces records it. */
  ghost predicate Recorded(db: Db, caller: Caller, d: Dimension, v: string) {
    exists t :: t in db.targets && !t.deleted && (caller.workspaces.Some? ==> t.workspaceId in caller.workspaces.value)
                && (if d.DOwner? then t.owner == Some(v) else t.environment == Some(v))
  }

  /** The environments (or owners) on offer: every non-empty one a live target in scope records,
      and no other. */
  lemma TargetFacetMeans(db: Db, caller: Caller, d: Dimension)
    requires d.DEnvironment? || d.DOwner?
    ensures Alphabetical(TargetFacet(db, caller, d))
    ensures forall v :: v in TargetFacet(db, caller, d) <==> v != "" && Recorded(db, caller, d, v)
  {
    var live := Filter(db.targets, t => InScope(caller, t));
    var column := (t: Target) => Shown(if d.DEnvironment? then t.environment else t.owner);
    var names := Dedup(Filter(Map(live, column), s => s != ""));
    SortedMeans(names);
    forall v ensures v in names <==> v != "" && Recorded(db, caller, d, v) {
      MappedMembership(live, column, v);
    }
  }

  /** Some finding of a live target in the caller's workspaces came from it. */
  ghost predicate Reported(db: Db, caller: Caller, tool: string) {
    exists f, t :: f in db.findings && f.tool == tool && t in db.targets && t.id == f.targetId && !t.deleted
                   && (caller.workspaces.Some? ==> t.workspaceId in caller.workspaces.value)
  }

  lemma ReportedMeans(db: Db, caller: Caller, visible: seq<Finding>, tool: string)
    requires ValidDb(db) && visible == Filter(db.findings, f => Visible(db, caller, f))
    ensures tool in Map(visible, (f: Finding) => f.tool) <==> Reported(db, caller, tool)
  {
    MappedMembership(visible, (f: Finding) => f.tool, tool);
    if f, t :| f in db.findings && f.tool == tool && t in db.targets && t.id == f.targetId && !t.deleted
               && (caller.workspaces.Some? ==> t.workspaceId in caller.workspaces.value) {
      UniqueTarget(db, f);
      assert f in visible;
    }
    if f :| f in visible && f.tool == tool {
      var t := LookupTarget(db.targets, f.targetId).value;
      assert f in db.findings && t in db.targets;
    }
  }

  /** The tools on offer, whatever the filters: the empty name included when a finding carries it. */
  lemma VisibleToolsMean(db: Db, caller: Caller)
    requires ValidDb(db)
    ensures Alphabetical(VisibleTools(db, caller))
    ensures forall v :: v in VisibleTools(db, caller) <==> Reported(db, caller, v)
  {
    var visible := Filter(db.findings, f => Visible(db, caller, f));
    SortedMeans(Dedup(Map(visible, (f: Finding) => f.tool)));
    forall v ensures v in Dedup(Map(visible, (f: Finding) => f.tool)) <==> Reported(db, caller, v) {
      ReportedMeans(db, caller, visible, v);
    }
  }

  /** The facets route takes neither rule_id, dependency_scope nor the report's window. */
  function RouteFilters(q: Filters): Filters {
    q.(ruleId := None, dependencyScope := None, dateFrom := None, dateTo := None)
  }

  method SeverityFacet(db: Db, caller: Caller, reg: Registry, q: Filters, c: CategoryFilter)
    returns (facet: seq<FacetCount<Severity>>)
    requires ValidDb(db) && Consistent(reg)
    ensures Values(facet) == SEVERITIES
    ensures Honest(facet, AsSeverity, db, caller, reg, q, c, DSeverity)
    ensures TotalOf(facet) == |Scoped(db, caller, reg, q, c, DSeverity)|
  {
    OptionsDistinct();
    forall f: Finding ensures f.severity in SEVERITIES { SeverityListed(f.severity); }
    facet := ColumnFacet(db, caller, reg, q, c, DSeverity, SEVERITIES, SeverityOf, s => s, AsSeverity);
  }

  method StateFacet(db: Db, caller: Caller, reg: Registry, q: Filters, c: CategoryFilter)
    returns (facet: seq<FacetCount<FindingState>>)
    requires ValidDb(db) && Consistent(reg)
    ensures Values(facet) == STATES
    ensures Honest(facet, AsState, db, caller, reg, q, c, DState)
    ensures TotalOf(facet) == |Scoped(db, caller, reg, q, c, DState)|
  {
    OptionsDistinct();
    forall f: Finding ensures f.state in STATES { StateListed(f.state); }
    facet := ColumnFacet(db, caller, reg, q, c, DState, STATES, StateOf, s => s, AsState);
  }

  lemma SeverityListed(s: Severity)
    ensures s in SEVERITIES
  {
    assert SEVERITIES[0] == Critical && SEVERITIES[1] == High && SEVERITIES[2] == Medium && SEVERITIES[3] == Low
           && SEVERITIES[4] == Informational;
  }

  lemma StateListed(s: FindingState)
    ensures s in STATES
  {
    assert STATES[0] == Open && STATES[1] == AcceptedRisk && STATES[2] == FalsePositive && STATES[3] == WontFix
           && STATES[4] == Mitigated && STATES[5] == Reopened;
  }

  lemma BucketListed(b: Fixability)
    ensures b in BUCKETS
  {
    assert BUCKETS[0] == Fixable && BUCKETS[1] == NoKnownFix && BUCKETS[2] == Unknown;
  }

  lemma OptionsDistinct()
    ensures Distinct(SEVERITIES) && Distinct(STATES) && Distinct(BUCKETS)
  {
  }

  method ToolFacet(db: Db, caller: Caller, reg: Registry, q: Filters, c: CategoryFilter)
    returns (facet: seq<FacetCount<string>>)
    requires ValidDb(db) && Consistent(reg)
    ensures Values(facet) == VisibleTools(db, caller)
    ensures Honest(facet, AsText, db, caller, reg, q, c, DTool)
    ensures TotalOf(facet) == |Scoped(db, caller, reg, q, c, DTool)|
  {
    var tools := VisibleTools(db, caller);
    ToolsCover(db, caller, reg, q, c, tools);
    facet := FacetOverTools(db, caller, reg, q, c, tools);
  }

  method FacetOverTools(db: Db, caller: Caller, reg: Registry, q: Filters, c: CategoryFilter, tools: seq<string>)
    returns (facet: seq<FacetCount<string>>)
    requires ValidDb(db) && Consistent(reg) && Distinct(tools)
    requires forall f :: f in Scoped(db, caller, reg, q, c, DTool) ==> Itself(ToolOf(f)) in tools
    ensures Values(facet) == tools
    ensures Honest(facet, AsText, db, caller, reg, q, c, DTool)
    ensures TotalOf(facet) == |Scoped(db, caller, reg, q, c, DTool)|
  {
    facet := ColumnFacet(db, caller, reg, q, c, DTool, tools, ToolOf, Itself, AsText);
  }

  function Itself(t: string): string { t }

  lemma ToolsCover(db: Db, caller: Caller, reg: Registry, q: Filters, c: CategoryFilter, tools: seq<string>)
    requires ValidDb(db) && Consistent(reg) && tools == VisibleTools(db, caller)
    ensures Distinct(tools)
    ensures forall f :: f in Scoped(db, caller, reg, q, c, DTool) ==> Itself(ToolOf(f)) in tools
  {
    VisibleToolsDistinct(db, caller);
    forall f | f in Scoped(db, caller, reg, q, c, DTool) ensures f.tool in tools {
      ToolListed(db, caller, reg, Excluding(q, DTool), c, f);
    }
  }

  method CategoryFacet(db: Db, caller: Caller, reg: Registry, q: Filters, c: CategoryFilter)
    returns (facet: seq<FacetCount<string>>)
    requires ValidDb(db) && Consistent(reg)
    ensures Values(facet) == AllCategories(reg)
    ensures Honest(facet, AsText, db, caller, reg, q, c, DCategory)
    ensures TotalOf(facet) == |Scoped(db, caller, reg, q, c, DCategory)|
  {
    facet := ColumnFacet(db, caller, reg, q, c, DCategory, AllCategories(reg), ToolOf, t => ToolCategory(reg, t),
                         AsText);
    forall f: Finding ensures ToolCategory(reg, f.tool) in AllCategories(reg) {
      CategoryInverse(reg, f.tool, UNKNOWN_TOOL_CATEGORY);
    }
  }

  /** GET /api/findings/facets. Beside every option of every dimension stands the total
      the list returns once that option is clicked, and in the five dimensions whose
      options cover every row the listed counts lose nothing. */
  method ListFindingFacets(db: Db, caller: Caller, reg: Registry, query: Filters, c: CategoryFilter) returns (r: Facets)
    requires ValidDb(db) && Consistent(reg)
    ensures var q := RouteFilters(query);
      && Values(r.severity) == SEVERITIES && Honest(r.severity, AsSeverity, db, caller, reg, q, c, DSeverity)
      && Values(r.state) == STATES && Honest(r.state, AsState, db, caller, reg, q, c, DState)
      && Values(r.tool) == VisibleTools(db, caller) && Honest(r.tool, AsText, db, caller, reg, q, c, DTool)
      && Values(r.fixability) == BUCKETS && Honest(r.fixability, AsBucket, db, caller, reg, q, c, DFixability)
      && Values(r.environment) == TargetFacet(db, caller, DEnvironment)
      && Honest(r.environment, AsText, db, caller, reg, q, c, DEnvironment)
      && Values(r.owner) == TargetFacet(db, caller, DOwner) && Honest(r.owner, AsText, db, caller, reg, q, c, DOwner)
      && Values(r.category) == AllCategories(reg) && Honest(r.category, AsText, db, caller, reg, q, c, DCategory)
      && r.total == |Selected(db, caller, reg, q, c)|
    ensures var q := RouteFilters(query);
      && TotalOf(r.severity) == |Scoped(db, caller, reg, q, c, DSeverity)|
      && TotalOf(r.state) == |Scoped(db, caller, reg, q, c, DState)|
      && TotalOf(r.tool) == |Scoped(db, caller, reg, q, c, DTool)|
      && TotalOf(r.fixability) == |Scoped(db, caller, reg, q, c, DFixability)|
      && TotalOf(r.category) == |Scoped(db, caller, reg, q, c, DCategory)|
    ensures forall v :: v in Values(r.environment) <==> v != "" && Recorded(db, caller, DEnvironment, v)
    ensures forall v :: v in Values(r.owner) <==> v != "" && Recorded(db, caller, DOwner, v)
    ensures forall v :: v in Values(r.tool) <==> Reported(db, caller, v)
  {
    TargetFacetMeans(db, caller, DEnvironment);
    TargetFacetMeans(db, caller, DOwner);
    VisibleToolsMean(db, caller);
    var q := RouteFilters(query);
    var all := SelectFindings(db, caller, reg, q, c);
    var total := if all.Some? then |all.value| else 0;
    var severity := SeverityFacet(db, caller, reg, q, c);
    var state := StateFacet(db, caller, reg, q, c);
    var tool := ToolFacet(db, caller, reg, q, c);
    var category := CategoryFacet(db, caller, reg, q, c);
    var fixability := FixabilityFacet(db, caller, reg, q, c);
    var environment := TargetColumnFacet(db, caller, reg, q, c, DEnvironment);
    var owner := TargetColumnFacet(db, caller, reg, q, c, DOwner);
    r := Facets(severity, state, tool, fixability, environment, owner, category, total);
  }

  function PassesDropped(q: Filters): Finding -> bool {
    (f: Finding) => Picks(q.ruleId, f.ruleId) && Picks(q.dependencyScope, f.scope)
  }

  /** The list accepts rule_id and dependency_scope and the facets do not, so for one URL
      the two totals agree exactly when no finding in the facets' set fails those two. */
  lemma FacetTotalAgrees(db: Db, caller: Caller, reg: Registry, q: Filters, c: CategoryFilter)
    requires q.dateFrom.None? && q.dateTo.None?
    ensures |Selected(db, caller, reg, q, c)| <= |Selected(db, caller, reg, RouteFilters(q), c)|
    ensures |Selected(db, caller, reg, q, c)| == |Selected(db, caller, reg, RouteFilters(q), c)|
            <==> forall f :: f in Selected(db, caller, reg, RouteFilters(q), c) ==> PassesDropped(q)(f)
  {
    if caller.workspaces != Some({}) {
      FilterNarrow(db.findings, Selecting(db, caller, reg, RouteFilters(q), c), PassesDropped(q),
                   Selecting(db, caller, reg, q, c));
      FilterFull(Selected(db, caller, reg, RouteFilters(q), c), PassesDropped(q));
    }
  }

  const NO_FILTERS := Filters(None, None, None, None, None, None, None, None,
                              None, None, None, None, None, None, None, None)

  // ----- a database of one finding -----

  const REPO := Target(1, 1, "repo", "main", None, None, false, true)

  function Lone(f: Finding): Db {
    Db([f], [REPO], [], [])
  }

  lemma LoneTotal(f: Finding, caller: Caller, reg: Registry, q: Filters, c: CategoryFilter)
    requires f.targetId == 1 && caller.workspaces != Some({})
    ensures ValidDb(Lone(f))
    ensures |Selected(Lone(f), caller, reg, q, c)|
            == if MatchesTarget(Lone(f), caller, q, f, REPO) && InCategory(reg, c, f) then 1 else 0
  {
    assert [f][1..] == [];
    assert LookupTarget([REPO], 1) == Some(REPO);
  }

  /** They can disagree: one development-only finding, asked for with dependency_scope=runtime. */
  lemma FacetTotalCanDisagree(reg: Registry)
    ensures exists db, caller, q ::
              ValidDb(db) && |Selected(db, caller, reg, q, EVERY_TAB)| == 0
              && |Selected(db, caller, reg, RouteFilters(q), EVERY_TAB)| == 1
  {
    var f := Finding(1, 1, "t", "r", "", "", High, 0, "development", "main", Open, None, None, false, 0, 0);
    var caller := Caller(None, 0, (a, b) => false);
    var q := NO_FILTERS.(dependencyScope := Some(["runtime"]));
    assert !Picks(q.dependencyScope, f.scope) by { assert |f.scope| != |"runtime"|; }
    LoneTotal(f, caller, reg, q, EVERY_TAB);
    LoneTotal(f, caller, reg, RouteFilters(q), EVERY_TAB);
  }

  // ----- one option's count, for one URL -----

  /** The rows the facets count under an option. */
  function Counted(db: Db, caller: Caller, reg: Registry, q: Filters, c: CategoryFilter, d: Dimension,
                   v: Choice): seq<Finding> {
    Selected(db, caller, reg, RouteFilters(Click(q, d, v)), ClickCategory(c, d, v))
  }

  /** What the list takes when only the option changes in the URL: its `category` replaces the tab,
      and an `exclude_category` stays and applies too. */
  function KeptCategory(c: CategoryFilter, d: Dimension, v: Choice): CategoryFilter {
    if d.DCategory? && v.Text? then CategoryFilter(Some(v.text), c.exclude) else c
  }

  /** The list's total for the URL with the option put in and everything else kept. */
  function UrlTotal(db: Db, caller: Caller, reg: Registry, q: Filters, c: CategoryFilter, d: Dimension,
                    v: Choice): nat {
    |Selected(db, caller, reg, Click(q, d, v), KeptCategory(c, d, v))|
  }

  /** What a row counted under an option must still pass in the list. */
  function PassesKept(reg: Registry, q: Filters, c: CategoryFilter, d: Dimension): Finding -> bool {
    (f: Finding) => PassesDropped(q)(f) && (d.DCategory? ==> ToolCategory(reg, f.tool) !in c.exclude)
  }

  lemma KeptMeaning(db: Db, caller: Caller, reg: Registry, q: Filters, c: CategoryFilter, d: Dimension, v: Choice,
                    f: Finding)
    requires Offered(d, v)
    ensures InCategory(reg, KeptCategory(c, d, v), f)
            == (InCategory(reg, ClickCategory(c, d, v), f)
                && (d.DCategory? ==> ToolCategory(reg, f.tool) !in c.exclude))
  {
  }

  lemma DroppedMeaning(db: Db, caller: Caller, q: Filters, f: Finding)
    requires q.dateFrom.None? && q.dateTo.None?
    ensures Matches(db, caller, q, f) == (Matches(db, caller, RouteFilters(q), f) && PassesDropped(q)(f))
  {
  }

  /** The count beside an option is what the list returns for the URL with that option put in,
      exactly when every row counted passes the two filters the facets do not take and, counting
      categories, lies outside the exclusion the list still applies. */
  lemma OptionAgrees(db: Db, caller: Caller, reg: Registry, q: Filters, c: CategoryFilter, d: Dimension, v: Choice)
    requires q.dateFrom.None? && q.dateTo.None? && Offered(d, v)
    ensures UrlTotal(db, caller, reg, q, c, d, v) == ListTotal(db, caller, reg, RouteFilters(q), c, d, v)
            <==> forall f :: f in Counted(db, caller, reg, q, c, d, v) ==> PassesKept(reg, q, c, d)(f)
  {
    var clicked, passes := Click(q, d, v), PassesKept(reg, q, c, d);
    assert RouteFilters(clicked) == Click(RouteFilters(q), d, v);
    if caller.workspaces != Some({}) {
      var counted := Selecting(db, caller, reg, RouteFilters(clicked), ClickCategory(c, d, v));
      var listed := Selecting(db, caller, reg, clicked, KeptCategory(c, d, v));
      forall f ensures listed(f) == (counted(f) && passes(f)) {
        KeptMeaning(db, caller, reg, q, c, d, v, f);
        DroppedMeaning(db, caller, clicked, f);
        assert PassesDropped(clicked)(f) == PassesDropped(q)(f);
      }
      FilterNarrow(db.findings, counted, passes, listed);
      FilterFull(Counted(db, caller, reg, q, c, d, v), passes);
    }
  }

  /** So each count of the response is right or wrong for its URL by that test. */
  lemma HonestForUrl<V>(facet: seq<FacetCount<V>>, wrap: V -> Choice, db: Db, caller: Caller, reg: Registry,
                        q: Filters, c: CategoryFilter, d: Dimension, o: FacetCount<V>)
    requires q.dateFrom.None? && q.dateTo.None? && Offered(d, wrap(o.value))
    requires Honest(facet, wrap, db, caller, reg, RouteFilters(q), c, d) && o in facet
    ensures o.count == UrlTotal(db, caller, reg, q, c, d, wrap(o.value))
            <==> forall f :: f in Counted(db, caller, reg, q, c, d, wrap(o.value)) ==> PassesKept(reg, q, c, d)(f)
  {
    OptionAgrees(db, caller, reg, q, c, d, wrap(o.value));
  }

  lemma PlainAgrees(db: Db, caller: Caller, reg: Registry, q: Filters, c: CategoryFilter, d: Dimension, v: Choice)
    requires q.dateFrom.None? && q.dateTo.None? && !Active(q.ruleId) && !Active(q.dependencyScope)
    requires (d.DCategory? ==> c.exclude == []) && Offered(d, v)
    ensures UrlTotal(db, caller, reg, q, c, d, v) == ListTotal(db, caller, reg, RouteFilters(q), c, d, v)
  {
    OptionAgrees(db, caller, reg, q, c, d, v);
    forall f ensures PassesKept(reg, q, c, d)(f) {
      PlainPasses(reg, q, c, d, f);
    }
  }

  lemma PlainPasses(reg: Registry, q: Filters, c: CategoryFilter, d: Dimension, f: Finding)
    requires !Active(q.ruleId) && !Active(q.dependencyScope) && (d.DCategory? ==> c.exclude == [])
    ensures PassesKept(reg, q, c, d)(f)
  {
    assert Picks(q.ruleId, f.ruleId) && Picks(q.dependencyScope, f.scope);
    assert PassesDropped(q)(f);
  }

  /** A caller can rely on every count, on every database, when the URL carries neither filter, nor,
      for the category counts, an exclusion. */
  lemma PlainUrlsAreHonest<V>(facet: seq<FacetCount<V>>, wrap: V -> Choice, db: Db, caller: Caller, reg: Registry,
                              q: Filters, c: CategoryFilter, d: Dimension)
    requires q.dateFrom.None? && q.dateTo.None? && !Active(q.ruleId) && !Active(q.dependencyScope)
    requires (d.DCategory? ==> c.exclude == []) && forall o :: o in facet ==> Offered(d, wrap(o.value))
    requires Honest(facet, wrap, db, caller, reg, RouteFilters(q), c, d)
    ensures forall o :: o in facet ==> o.count == UrlTotal(db, caller, reg, q, c, d, wrap(o.value))
  {
    forall o | o in facet ensures o.count == UrlTotal(db, caller, reg, q, c, d, wrap(o.value)) {
      PlainAgrees(db, caller, reg, q, c, d, wrap(o.value));
    }
  }

  /** Under an exclusion alone a category's count is what the list returns for it exactly when the
      category is not excluded, or nothing lies under it. */
  lemma ExclusionAgrees(db: Db, caller: Caller, reg: Registry, q: Filters, c: CategoryFilter, v: string)
    ensures UrlTotal(db, caller, reg, q, c, DCategory, AsText(v))
            == ListTotal(db, caller, reg, q, c, DCategory, AsText(v))
            <==> v !in c.exclude || ListTotal(db, caller, reg, q, c, DCategory, AsText(v)) == 0
  {
    if caller.workspaces != Some({}) {
      var kept := Selecting(db, caller, reg, q, KeptCategory(c, DCategory, AsText(v)));
      if v in c.exclude {
        CountZero(db.findings, kept);
      } else {
        FilterCong(db.findings, kept, Selecting(db, caller, reg, q, ClickCategory(c, DCategory, AsText(v))));
      }
    }
  }

  /** A URL that only excludes a category, and one finding of that category: the count beside it is 1,
      the list asked for it returns nothing. */
  lemma ExcludedCategoryIsCounted(reg: Registry)
    ensures exists db, caller, c, v ::
              && ValidDb(db) && ListTotal(db, caller, reg, NO_FILTERS, c, DCategory, v) == 1
              && UrlTotal(db, caller, reg, NO_FILTERS, c, DCategory, v) == 0
  {
    var f := MitigatedOfRuleB();
    var tab := ToolCategory(reg, f.tool);
    var c := CategoryFilter(None, [tab]);
    LoneTotal(f, Admin(), reg, NO_FILTERS, ClickCategory(c, DCategory, AsText(tab)));
    LoneTotal(f, Admin(), reg, NO_FILTERS, KeptCategory(c, DCategory, AsText(tab)));
    assert UrlTotal(Lone(f), Admin(), reg, NO_FILTERS, c, DCategory, AsText(tab)) == 0;
  }

  function MitigatedOfRuleB(): Finding {
    Finding(1, 1, "t", "b", "", "", High, 0, "runtime", "main", Mitigated, None, None, false, 0, 0)
  }

  function OpenOfRuleA(): Filters {
    NO_FILTERS.(state := Some([Open]), ruleId := Some(["a"]))
  }

  function Admin(): Caller {
    Caller(None, 0, (a, b) => false)
  }

  lemma BothTotalsZero(reg: Registry)
    ensures |Selected(Lone(MitigatedOfRuleB()), Admin(), reg, OpenOfRuleA(), EVERY_TAB)| == 0
    ensures |Selected(Lone(MitigatedOfRuleB()), Admin(), reg, RouteFilters(OpenOfRuleA()), EVERY_TAB)| == 0
  {
    assert !StateSelected(OpenOfRuleA(), Mitigated);
    LoneTotal(MitigatedOfRuleB(), Admin(), reg, OpenOfRuleA(), EVERY_TAB);
    LoneTotal(MitigatedOfRuleB(), Admin(), reg, RouteFilters(OpenOfRuleA()), EVERY_TAB);
  }

  lemma MitigatedCounts(reg: Registry)
    ensures UrlTotal(Lone(MitigatedOfRuleB()), Admin(), reg, OpenOfRuleA(), EVERY_TAB, DState,
                     StateChoice(Mitigated)) == 0
    ensures ListTotal(Lone(MitigatedOfRuleB()), Admin(), reg, RouteFilters(OpenOfRuleA()), EVERY_TAB, DState,
                      StateChoice(Mitigated)) == 1
  {
    assert !Picks(OpenOfRuleA().ruleId, "b");
    LoneTotal(MitigatedOfRuleB(), Admin(), reg, Click(OpenOfRuleA(), DState, StateChoice(Mitigated)), EVERY_TAB);
    LoneTotal(MitigatedOfRuleB(), Admin(), reg, Click(RouteFilters(OpenOfRuleA()), DState, StateChoice(Mitigated)),
              EVERY_TAB);
  }

  /** Agreeing totals do not help: one Mitigated finding of rule b, asked for with
      state=Open&rule_id=a. Both totals are 0, the count beside Mitigated is 1, its list is empty. */
  lemma OptionCanDisagree(reg: Registry)
    ensures exists db, caller, q, v ::
              && ValidDb(db)
              && |Selected(db, caller, reg, q, EVERY_TAB)| == |Selected(db, caller, reg, RouteFilters(q), EVERY_TAB)|
              && ListTotal(db, caller, reg, RouteFilters(q), EVERY_TAB, DState, v) == 1
              && UrlTotal(db, caller, reg, q, EVERY_TAB, DState, v) == 0
  {
    LoneTotal(MitigatedOfRuleB(), Admin(), reg, OpenOfRuleA(), EVERY_TAB);
    BothTotalsZero(reg);
    MitigatedCounts(reg);
  }

  // ----- the category tabs -----

  /** The tabs' route takes neither rule_id, new_since_days nor the report's window, no category and
      no exclusion; nor workspace_id, so `caller` is the accessible scope, never narrowed. */
  function TabFilters(q: Filters): Filters {
    q.(ruleId := None, newSinceDays := None, dateFrom := None, dateTo := None)
  }

  function OnlyTab(tab: string): CategoryFilter {
    CategoryFilter(Some(tab), [])
  }

  const EVERY_TAB := CategoryFilter(None, [])

  /** GET /api/findings/facets/categories. Every registered category gets a tab, empty or not;
      its count is the list's total under that tab, and together the tabs lose nothing. */
  method ListCategoryFacets(db: Db, caller: Caller, reg: Registry, query: Filters)
    returns (tabs: seq<FacetCount<string>>)
    requires ValidDb(db) && Consistent(reg)
    ensures Values(tabs) == AllCategories(reg)
    ensures forall t :: t in tabs ==> t.count == |Selected(db, caller, reg, TabFilters(query), OnlyTab(t.value))|
    ensures TotalOf(tabs) == |Selected(db, caller, reg, TabFilters(query), EVERY_TAB)|
  {
    tabs := CategoryFacet(db, caller, reg, TabFilters(query), EVERY_TAB);
    TabsHonest(tabs, db, caller, reg, TabFilters(query));
  }

  lemma TabTotal(db: Db, caller: Caller, reg: Registry, q: Filters, tab: string)
    ensures ListTotal(db, caller, reg, q, EVERY_TAB, DCategory, AsText(tab))
            == |Selected(db, caller, reg, q, OnlyTab(tab))|
    ensures Scoped(db, caller, reg, q, EVERY_TAB, DCategory) == Selected(db, caller, reg, q, EVERY_TAB)
  {
  }

  lemma TabsHonest(tabs: seq<FacetCount<string>>, db: Db, caller: Caller, reg: Registry, q: Filters)
    requires Honest(tabs, AsText, db, caller, reg, q, EVERY_TAB, DCategory)
    ensures forall t :: t in tabs ==> t.count == |Selected(db, caller, reg, q, OnlyTab(t.value))|
    ensures Scoped(db, caller, reg, q, EVERY_TAB, DCategory) == Selected(db, caller, reg, q, EVERY_TAB)
  {
    forall t | t in tabs ensures t.count == |Selected(db, caller, reg, q, OnlyTab(t.value))| {
      TabTotal(db, caller, reg, q, t.value);
    }
    TabTotal(db, caller, reg, q, "");
  }

  predicate InWorkspace(db: Db, workspace: Option<int>, f: Finding) {
    var t := LookupTarget(db.targets, f.targetId);
    workspace.Some? ==> t.Some? && t.value.workspaceId == workspace.value
  }

  /** What the list asks of a finding under a tab and the tabs' route does not: rule_id,
      new_since_days, exclude_category and the workspace switcher. */
  function PassesTabless(db: Db, caller: Caller, reg: Registry, q: Filters, exclude: seq<string>,
                         workspace: Option<int>): Finding -> bool {
    (f: Finding) =>
      && Picks(q.ruleId, f.ruleId) && NewEnough(caller, q, f) && InWorkspace(db, workspace, f)
      && ToolCategory(reg, f.tool) !in exclude
  }

  lemma NarrowedTarget(db: Db, caller: Caller, q: Filters, workspace: Option<int>, f: Finding, t: Target)
    requires q.dateFrom.None? && q.dateTo.None? && Narrowed(caller, workspace).Ok?
    ensures MatchesTarget(db, Narrowed(caller, workspace).value, q, f, t)
            == (&& MatchesTarget(db, caller, TabFilters(q), f, t)
                && Picks(q.ruleId, f.ruleId) && NewEnough(caller, q, f)
                && (workspace.Some? ==> t.workspaceId == workspace.value))
  {
    var list := Narrowed(caller, workspace).value;
    assert list.now == caller.now && list.ilike == caller.ilike;
    assert InScope(list, t) == (InScope(caller, t) && (workspace.Some? ==> t.workspaceId == workspace.value));
    if q.search.Some? {
      assert SearchHits(list, q.search.value, f, t) == SearchHits(caller, q.search.value, f, t);
    }
  }

  lemma TabMeaning(db: Db, caller: Caller, reg: Registry, q: Filters, exclude: seq<string>, workspace: Option<int>,
                   tab: string, f: Finding)
    requires q.dateFrom.None? && q.dateTo.None? && Narrowed(caller, workspace).Ok?
    ensures Selecting(db, Narrowed(caller, workspace).value, reg, q, CategoryFilter(Some(tab), exclude))(f)
            == (Selecting(db, caller, reg, TabFilters(q), OnlyTab(tab))(f)
                && PassesTabless(db, caller, reg, q, exclude, workspace)(f))
  {
    var t := LookupTarget(db.targets, f.targetId);
    if t.Some? {
      NarrowedTarget(db, caller, q, workspace, f, t.value);
      assert InWorkspace(db, workspace, f) == (workspace.Some? ==> t.value.workspaceId == workspace.value);
      assert Matches(db, Narrowed(caller, workspace).value, q, f)
             == (&& Matches(db, caller, TabFilters(q), f) && Picks(q.ruleId, f.ruleId) && NewEnough(caller, q, f)
                 && InWorkspace(db, workspace, f));
    } else {
      assert !Matches(db, Narrowed(caller, workspace).value, q, f) && !Matches(db, caller, TabFilters(q), f);
    }
  }

  /** For one URL the tab, counted over everything the caller may see, agrees with the list,
      narrowed to the switcher's workspace, exactly when no finding under the tab fails what the
      tabs' route does not take. */
  lemma TabAgrees(db: Db, caller: Caller, reg: Registry, q: Filters, exclude: seq<string>, workspace: Option<int>,
                  tab: string)
    requires q.dateFrom.None? && q.dateTo.None? && Narrowed(caller, workspace).Ok?
    ensures |Selected(db, Narrowed(caller, workspace).value, reg, q, CategoryFilter(Some(tab), exclude))|
            == |Selected(db, caller, reg, TabFilters(q), OnlyTab(tab))|
            <==> forall f :: f in Selected(db, caller, reg, TabFilters(q), OnlyTab(tab))
                             ==> PassesTabless(db, caller, reg, q, exclude, workspace)(f)
  {
    if caller.workspaces != Some({}) {
      var list := Narrowed(caller, workspace).value;
      var passes := PassesTabless(db, caller, reg, q, exclude, workspace);
      forall f ensures Selecting(db, list, reg, q, CategoryFilter(Some(tab), exclude))(f)
                       == (Selecting(db, caller, reg, TabFilters(q), OnlyTab(tab))(f) && passes(f)) {
        TabMeaning(db, caller, reg, q, exclude, workspace, tab, f);
      }
      FilterNarrow(db.findings, Selecting(db, caller, reg, TabFilters(q), OnlyTab(tab)), passes,
                   Selecting(db, list, reg, q, CategoryFilter(Some(tab), exclude)));
      FilterFull(Selected(db, caller, reg, TabFilters(q), OnlyTab(tab)), passes);
      NarrowedNotEmpty(caller, workspace);
    }
  }

  lemma NarrowedNotEmpty(caller: Caller, workspace: Option<int>)
    requires caller.workspaces != Some({}) && Narrowed(caller, workspace).Ok?
    ensures Narrowed(caller, workspace).value.workspaces != Some({})
  {
    if workspace.Some? {
      assert workspace.value in {workspace.value};
    }
  }

  /** And it can disagree: one finding a week old, asked for with new_since_days=1. */
  lemma TabCanDisagree(reg: Registry)
    ensures exists db, caller, q, tab ::
              ValidDb(db) && |Selected(db, caller, reg, q, OnlyTab(tab))| == 0
              && |Selected(db, caller, reg, TabFilters(q), OnlyTab(tab))| == 1
  {
    var f := Finding(1, 1, "t", "r", "", "", High, 0, "runtime", "main", Open, None, None, false, 0, 0);
    var caller := Caller(None, 7 * DAY, (a, b) => false);
    var q := NO_FILTERS.(newSinceDays := Some(1));
    var tab := ToolCategory(reg, "t");
    LoneTotal(f, caller, reg, q, OnlyTab(tab));
    LoneTotal(f, caller, reg, TabFilters(q), OnlyTab(tab));
  }

  /** Also over exclude_category alone: one finding of the category excluded. */
  lemma TabIgnoresExclusion(reg: Registry)
    ensures exists db, caller, exclude, tab ::
              && ValidDb(db) && |Selected(db, caller, reg, NO_FILTERS, CategoryFilter(Some(tab), exclude))| == 0
              && |Selected(db, caller, reg, TabFilters(NO_FILTERS), OnlyTab(tab))| == 1
  {
    var f := MitigatedOfRuleB();
    var tab := ToolCategory(reg, f.tool);
    LoneTotal(f, Admin(), reg, NO_FILTERS, CategoryFilter(Some(tab), [tab]));
    LoneTotal(f, Admin(), reg, TabFilters(NO_FILTERS), OnlyTab(tab));
  }

  /** Also over workspace_id alone: a member of workspaces 1 and 2 looking at workspace 2, with one
      finding in workspace 1. */
  lemma TabIgnoresWorkspace(reg: Registry)
    ensures exists db, caller, workspace, tab ::
              && ValidDb(db) && Narrowed(caller, workspace).Ok?
              && |Selected(db, Narrowed(caller, workspace).value, reg, NO_FILTERS, OnlyTab(tab))| == 0
              && |Selected(db, caller, reg, TabFilters(NO_FILTERS), OnlyTab(tab))| == 1
  {
    var f := Finding(1, 1, "t", "r", "", "", High, 0, "runtime", "main", Open, None, None, false, 0, 0);
    var caller := Caller(Some({1, 2}), 0, (a, b) => false);
    var tab := ToolCategory(reg, "t");
    var list := Narrowed(caller, Some(2)).value;
    assert InScope(caller, REPO) && !InScope(list, REPO);
    LoneTotal(f, caller, reg, TabFilters(NO_FILTERS), OnlyTab(tab));
    LoneTotal(f, list, reg, NO_FILTERS, OnlyTab(tab));
    assert Narrowed(caller, Some(2)) == Ok(list);
  }
}
