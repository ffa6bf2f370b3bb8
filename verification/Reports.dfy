/** The compliance posture report (app/api/reports.py): sections accumulated target by
    target, which must agree with each other and with the Findings page. */
module Reports {
  import opened Prelude
  import opened Seqs
  import opened Ordering
  import opened ToolRegistry
  import opened FindingsModel
  import opened FindingsQuery

  // ----- the report's filters -----

  /** Dates are day numbers; `group`, `environment` and `owner` also narrow the targets. */
  datatype ReportFilters = ReportFilters(
    targetId: seq<int>, groupId: Option<int>, environment: Option<string>, owner: Option<string>,
    severity: seq<Severity>, state: seq<FindingState>, tool: seq<string>, category: Option<string>,
    dateFrom: Option<int>, dateTo: Option<int>)

  function WindowFrom(f: ReportFilters): Option<int> {
    if f.dateFrom.Some? then Some(f.dateFrom.value * DAY) else None
  }

  /** The last microsecond of the day the operator typed. */
  function WindowTo(f: ReportFilters): Option<int> {
    if f.dateTo.Some? then Some(f.dateTo.value * DAY + (DAY - 1)) else None
  }

  function AsOf(f: ReportFilters, now: int): int {
    if WindowTo(f).Some? && WindowTo(f).value < now then WindowTo(f).value else now
  }

  function OrNone<T>(s: seq<T>): Option<seq<T>> {
    if s == [] then None else Some(s)
  }

  function One(s: Option<string>): Option<seq<string>> {
    if s.Some? && s.value != "" then Some([s.value]) else None
  }

  /** The Findings-page query the report is built on. */
  function BaseFilters(f: ReportFilters): Filters {
    Filters(OrNone(f.targetId), f.groupId, None, OrNone(f.state), None, OrNone(f.severity), OrNone(f.tool), None,
      One(f.environment), One(f.owner), None, None, None, None, WindowFrom(f), WindowTo(f))
  }

  function BaseRows(db: Db, caller: Caller, reg: Registry, f: ReportFilters): seq<Finding> {
    Selected(db, caller, reg, BaseFilters(f), CategoryFilter(f.category, []))
  }

  /** A finding on its target's default branch. */
  function OnDefault(t: Target): Finding -> bool {
    (f: Finding) => f.targetId == t.id && f.branch == t.defaultBranch
  }

  function TargetRows(base: seq<Finding>, t: Target): seq<Finding> {
    Filter(base, OnDefault(t))
  }

  // ----- the targets in scope -----

  /** The route accepts neither as an empty text: no target records one. */
  predicate RouteAccepts(f: ReportFilters) {
    f.environment != Some("") && f.owner != Some("")
  }

  function Asked(db: Db, caller: Caller, f: ReportFilters): Target -> bool {
    (t: Target) =>
      && !t.deleted
      && (caller.workspaces.Some? && caller.workspaces.value != {} ==> t.workspaceId in caller.workspaces.value)
      && (f.groupId.Some? ==> Membership(t.id, f.groupId.value) in db.memberships)
      && (f.environment.Some? ==> t.environment == f.environment)
      && (f.owner.Some? ==> t.owner == f.owner)
  }

  function AskedAmong(db: Db, caller: Caller, f: ReportFilters, ids: seq<int>): Target -> bool {
    (t: Target) => Asked(db, caller, f)(t) && t.id in ids
  }

  predicate Accessible(db: Db, caller: Caller, id: int) {
    var t := LookupTarget(db.targets, id);
    t.Some? && InScope(caller, t.value)
  }

  datatype RepoGroup = RepoGroup(id: int, workspaceId: int)

  /** _resolve_group_label: a named group is stored, in a workspace the caller can see. */
  predicate GroupVisible(groups: seq<RepoGroup>, caller: Caller, f: ReportFilters) {
    f.groupId.Some? ==>
      exists g :: g in groups && g.id == f.groupId.value
                  && (caller.workspaces.Some? ==> g.workspaceId in caller.workspaces.value)
  }

  function NameKey(t: Target): Key {
    Key(0, 0, t.name, "", 0)
  }

  /** _resolve_targets: every target asked for, by name; 404 as soon as one named id is out of
      reach, never a silently shorter list. */
  function ResolveTargets(db: Db, caller: Caller, f: ReportFilters): Outcome<seq<Target>> {
    var ids := Dedup(f.targetId);
    if caller.workspaces == Some({}) && ids == [] then Ok([])
    else if ids == [] then Ok(SortBy(Filter(db.targets, Asked(db, caller, f)), NameKey, false))
    else if exists id :: id in ids && !Accessible(db, caller, id) then HttpError(404)
    else Ok(SortBy(Filter(db.targets, AskedAmong(db, caller, f, ids)), NameKey, false))
  }

  lemma ResolvedMember(db: Db, caller: Caller, f: ReportFilters, t: Target)
    requires ResolveTargets(db, caller, f).Ok? && t in db.targets && Asked(db, caller, f)(t)
    requires caller.workspaces != Some({}) && (f.targetId != [] ==> t.id in f.targetId)
    ensures t in ResolveTargets(db, caller, f).value
  {
    SortByMembers(Filter(db.targets, Asked(db, caller, f)), NameKey, false);
    SortByMembers(Filter(db.targets, AskedAmong(db, caller, f, Dedup(f.targetId))), NameKey, false);
  }

  /** Stored targets, none listed twice. */
  predicate DistinctTargets(ts: seq<Target>, stored: seq<Target>) {
    && (forall t :: t in ts ==> t in stored)
    && (forall i, j :: 0 <= i < j < |ts| ==> ts[i].id != ts[j].id)
  }

  lemma IdsDistinct(ts: seq<Target>, stored: seq<Target>)
    requires DistinctTargets(stored, stored) && Distinct(ts) && (forall t :: t in ts ==> t in stored)
    ensures DistinctTargets(ts, stored)
  {
    forall i, j | 0 <= i < j < |ts| ensures ts[i].id != ts[j].id {
      assert ts[i] in ts && ts[j] in ts && ts[i] != ts[j];
      var a :| 0 <= a < |stored| && stored[a] == ts[i];
      var b :| 0 <= b < |stored| && stored[b] == ts[j];
    }
  }

  lemma SortedIds(stored: seq<Target>, p: Target -> bool)
    requires DistinctTargets(stored, stored)
    ensures DistinctTargets(SortBy(Filter(stored, p), NameKey, false), stored)
  {
    assert Distinct(stored);
    FilterDistinct(stored, p);
    SortByMembers(Filter(stored, p), NameKey, false);
    IdsDistinct(SortBy(Filter(stored, p), NameKey, false), stored);
  }

  lemma ResolvedDistinct(db: Db, caller: Caller, f: ReportFilters)
    requires DistinctTargets(db.targets, db.targets) && ResolveTargets(db, caller, f).Ok?
    ensures DistinctTargets(ResolveTargets(db, caller, f).value, db.targets)
  {
    if Dedup(f.targetId) == [] {
      SortedIds(db.targets, Asked(db, caller, f));
    } else {
      SortedIds(db.targets, AskedAmong(db, caller, f, Dedup(f.targetId)));
    }
  }

  /** The narrowing to targets loses no finding the page would show: each one's target is in the
      report. */
  lemma ResolvedCovers(db: Db, caller: Caller, reg: Registry, f: ReportFilters, g: Finding)
    requires ValidDb(db) && RouteAccepts(f) && ResolveTargets(db, caller, f).Ok? && g in BaseRows(db, caller, reg, f)
    ensures var t := LookupTarget(db.targets, g.targetId);
            t.Some? && t.value in ResolveTargets(db, caller, f).value
  {
    var t := LookupTarget(db.targets, g.targetId).value;
    assert MatchesTarget(db, caller, BaseFilters(f), g, t);
    ResolvedMember(db, caller, f, t);
  }

  function OnOwnDefault(db: Db): Finding -> bool {
    (g: Finding) => var t := LookupTarget(db.targets, g.targetId); t.Some? && OnDefault(t.value)(g)
  }

  /** So the report is over exactly the page's findings on their targets' default branches. */
  lemma ReportIsPage(db: Db, caller: Caller, reg: Registry, f: ReportFilters)
    requires ValidDb(db) && RouteAccepts(f) && ResolveTargets(db, caller, f).Ok?
    ensures Filter(BaseRows(db, caller, reg, f), OnSomeDefault(ResolveTargets(db, caller, f).value))
            == Filter(BaseRows(db, caller, reg, f), OnOwnDefault(db))
            == Filter(db.findings, InReport(db, caller, reg, f))
  {
    var base, ts := BaseRows(db, caller, reg, f), ResolveTargets(db, caller, f).value;
    assert DistinctTargets(db.targets, db.targets);
    ResolvedDistinct(db, caller, f);
    forall g | g in base ensures OnSomeDefault(ts)(g) == OnOwnDefault(db)(g) {
      ResolvedCovers(db, caller, reg, f, g);
      OwnDefault(db, ts, g);
    }
    FilterCong(base, OnSomeDefault(ts), OnOwnDefault(db));
    PageCounts(db, caller, reg, f);
  }

  lemma OwnDefault(db: Db, ts: seq<Target>, g: Finding)
    requires ValidDb(db) && DistinctTargets(ts, db.targets)
    requires LookupTarget(db.targets, g.targetId).Some? && LookupTarget(db.targets, g.targetId).value in ts
    ensures OnSomeDefault(ts)(g) == OnOwnDefault(db)(g)
  {
    var own := LookupTarget(db.targets, g.targetId).value;
    forall t | t in ts && OnDefault(t)(g) ensures t == own {
      var a :| 0 <= a < |db.targets| && db.targets[a] == t;
      var b :| 0 <= b < |db.targets| && db.targets[b] == own;
    }
  }

  // ----- the form, read plainly -----

  /** What the form asks of a finding and its target: live and in scope, each list left empty asking for
      all, the dates whole days. */
  predicate AsksForIn(db: Db, caller: Caller, reg: Registry, f: ReportFilters, g: Finding, t: Target) {
    && !t.deleted && (caller.workspaces.Some? ==> t.workspaceId in caller.workspaces.value)
    && (f.targetId != [] ==> g.targetId in f.targetId)
    && (f.groupId.Some? ==> Membership(g.targetId, f.groupId.value) in db.memberships)
    && (f.environment.Some? && f.environment.value != "" ==> t.environment == f.environment)
    && (f.owner.Some? && f.owner.value != "" ==> t.owner == f.owner)
    && (f.severity != [] ==> g.severity in f.severity)
    && (f.state != [] ==> g.state in f.state)
    && (f.tool != [] ==> g.tool in f.tool)
    && (f.category.Some? ==> ToolCategory(reg, g.tool) == f.category.value)
    && (f.dateFrom.Some? ==> g.lastSeen >= f.dateFrom.value * 86_400_000_000)
    && (f.dateTo.Some? ==> g.firstSeen < (f.dateTo.value + 1) * 86_400_000_000)
  }

  lemma FormIsQuery(db: Db, caller: Caller, reg: Registry, f: ReportFilters, g: Finding, t: Target)
    requires t.id == g.targetId
    ensures AsksForIn(db, caller, reg, f, g, t)
            == AsksFor(db, caller, reg, BaseFilters(f), CategoryFilter(f.category, []), g, t)
  {
  }

  /** A stored finding is one of the page's exactly when its target, with it, is what the form asks for. */
  lemma BaseRowsMean(db: Db, caller: Caller, reg: Registry, f: ReportFilters, g: Finding)
    requires ValidDb(db)
    ensures g in BaseRows(db, caller, reg, f)
            <==> g in db.findings
                 && exists t :: t in db.targets && t.id == g.targetId && AsksForIn(db, caller, reg, f, g, t)
  {
    SelectedMeans(db, caller, reg, BaseFilters(f), CategoryFilter(f.category, []), g);
    forall t: Target | t.id == g.targetId
      ensures AsksForIn(db, caller, reg, f, g, t)
              == AsksFor(db, caller, reg, BaseFilters(f), CategoryFilter(f.category, []), g, t)
    {
      FormIsQuery(db, caller, reg, f, g, t);
    }
  }

  /** Asked for, and on the default branch of its target. */
  function InReport(db: Db, caller: Caller, reg: Registry, f: ReportFilters): Finding -> bool {
    (g: Finding) => exists t :: t in db.targets && t.id == g.targetId && g.branch == t.defaultBranch
                                && AsksForIn(db, caller, reg, f, g, t)
  }

  lemma InReportMeans(db: Db, caller: Caller, reg: Registry, f: ReportFilters, g: Finding)
    requires ValidDb(db) && g in db.findings
    ensures InReport(db, caller, reg, f)(g) == (g in BaseRows(db, caller, reg, f) && OnOwnDefault(db)(g))
  {
    BaseRowsMean(db, caller, reg, f, g);
    UniqueTarget(db, g);
    var own := LookupTarget(db.targets, g.targetId).value;
    if g in BaseRows(db, caller, reg, f) {
      var t :| t in db.targets && t.id == g.targetId && AsksForIn(db, caller, reg, f, g, t);
      assert t == own;
    }
    assert OnOwnDefault(db)(g) == OnDefault(own)(g);
    if InReport(db, caller, reg, f)(g) {
      var t :| t in db.targets && t.id == g.targetId && g.branch == t.defaultBranch
               && AsksForIn(db, caller, reg, f, g, t);
      assert t == own;
    }
  }

  /** The page's findings on their own default branches, counted over the stored findings. */
  lemma PageCounts(db: Db, caller: Caller, reg: Registry, f: ReportFilters)
    requires ValidDb(db)
    ensures Filter(BaseRows(db, caller, reg, f), OnOwnDefault(db)) == Filter(db.findings, InReport(db, caller, reg, f))
  {
    forall g | g in db.findings
      ensures InReport(db, caller, reg, f)(g) == (g in BaseRows(db, caller, reg, f) && OnOwnDefault(db)(g))
    {
      InReportMeans(db, caller, reg, f, g);
    }
    if caller.workspaces == Some({}) {
      CountZero(db.findings, InReport(db, caller, reg, f));
    } else {
      FilterNarrow(db.findings, Selecting(db, caller, reg, BaseFilters(f), CategoryFilter(f.category, [])),
                   OnOwnDefault(db), InReport(db, caller, reg, f));
    }
  }

  /** The targets of a report: refused when a target named is not live and in scope. */
  lemma ResolvedRefuses(db: Db, caller: Caller, f: ReportFilters)
    requires ValidDb(db)
    ensures ResolveTargets(db, caller, f)
            == HttpError(404)
            <==> exists id :: id in f.targetId && !exists t :: t in db.targets && t.id == id && Live(caller, t)
    ensures ResolveTargets(db, caller, f).HttpError? ==> ResolveTargets(db, caller, f).status == 404
  {
    forall id ensures Accessible(db, caller, id) <==> exists t :: t in db.targets && t.id == id && Live(caller, t) {
      AccessibleMeans(db, caller, id);
    }
    var ids := Dedup(f.targetId);
    assert caller.workspaces == Some({}) && ids != [] ==> !Accessible(db, caller, ids[0]);
  }

  /** A live target in scope that is named, grouped, placed and owned as asked. */
  predicate TargetAsked(db: Db, caller: Caller, f: ReportFilters, t: Target) {
    && Live(caller, t)
    && (f.targetId != [] ==> t.id in f.targetId)
    && (f.groupId.Some? ==> Membership(t.id, f.groupId.value) in db.memberships)
    && (f.environment.Some? ==> t.environment == f.environment)
    && (f.owner.Some? ==> t.owner == f.owner)
  }

  lemma AskedMeans(db: Db, caller: Caller, f: ReportFilters, t: Target)
    requires caller.workspaces != Some({})
    ensures TargetAsked(db, caller, f, t) == (Asked(db, caller, f)(t) && (f.targetId != [] ==> t.id in f.targetId))
  {
  }

  lemma SortedTargets(stored: seq<Target>, p: Target -> bool)
    ensures var ts := SortBy(Filter(stored, p), NameKey, false);
            && (forall t :: t in ts <==> t in stored && p(t))
            && (forall i, j :: 0 <= i < j < |ts| ==> ts[i].name == ts[j].name || StrLess(ts[i].name, ts[j].name))
  {
    SortByMembers(Filter(stored, p), NameKey, false);
    NamesAscend(Filter(stored, p));
  }

  /** Otherwise they are the stored targets asked for, in name order. */
  lemma ResolvedMean(db: Db, caller: Caller, f: ReportFilters)
    requires ValidDb(db) && ResolveTargets(db, caller, f).Ok?
    ensures var ts := ResolveTargets(db, caller, f).value;
            && (forall t :: t in ts <==> t in db.targets && TargetAsked(db, caller, f, t))
            && (forall i, j :: 0 <= i < j < |ts| ==> ts[i].name == ts[j].name || StrLess(ts[i].name, ts[j].name))
  {
    var ids := Dedup(f.targetId);
    if caller.workspaces == Some({}) {
      NoneAccessible(db, caller, ids);
    } else {
      SortedTargets(db.targets, Asked(db, caller, f));
      SortedTargets(db.targets, AskedAmong(db, caller, f, ids));
      forall t
        ensures TargetAsked(db, caller, f, t) == (Asked(db, caller, f)(t) && (f.targetId != [] ==> t.id in f.targetId))
      {
        AskedMeans(db, caller, f, t);
      }
      assert forall t :: AskedAmong(db, caller, f, ids)(t) == (Asked(db, caller, f)(t) && t.id in ids);
    }
  }

  lemma NoneAccessible(db: Db, caller: Caller, ids: seq<int>)
    requires caller.workspaces == Some({})
    ensures ids != [] ==> ids[0] in ids && !Accessible(db, caller, ids[0])
    ensures forall t :: !Live(caller, t)
  {
  }

  /** Not deleted, and in one of the caller's workspaces. */
  predicate Live(caller: Caller, t: Target) {
    !t.deleted && (caller.workspaces.Some? ==> t.workspaceId in caller.workspaces.value)
  }

  lemma AccessibleMeans(db: Db, caller: Caller, id: int)
    requires ValidDb(db)
    ensures Accessible(db, caller, id) <==> exists t :: t in db.targets && t.id == id && Live(caller, t)
  {
    if t :| t in db.targets && t.id == id && Live(caller, t) {
      OneTargetPerId(db, t, LookupTarget(db.targets, id).value);
    }
  }

  lemma NamesAscend(ts: seq<Target>)
    ensures var r := SortBy(ts, NameKey, false);
            forall i, j :: 0 <= i < j < |r| ==> r[i].name == r[j].name || StrLess(r[i].name, r[j].name)
  {
    var r := SortBy(ts, NameKey, false);
    SortBySorted(ts, NameKey, false);
    forall i, j | 0 <= i < j < |r| ensures r[i].name == r[j].name || StrLess(r[i].name, r[j].name) {
      assert !Precedes(NameKey, false, r[j], r[i]);
      StrLessTotal(r[i].name, r[j].name);
    }
  }

  // ----- breakdown -----

  datatype BreakdownRow = BreakdownRow(target: string, severity: Severity, state: FindingState, count: nat)

  function SeverityState(f: Finding): (Severity, FindingState) {
    (f.severity, f.state)
  }

  function BreakdownKey(r: BreakdownRow): (Severity, FindingState) {
    (r.severity, r.state)
  }

  function CountOf(r: BreakdownRow): nat { r.count }

  /** The (severity, state) pairs met, first occurrences first. */
  function SeverityStates(rows: seq<Finding>): seq<(Severity, FindingState)> {
    Dedup(Map(rows, SeverityState))
  }

  function BreakdownRowFor(rows: seq<Finding>, name: string): ((Severity, FindingState)) -> BreakdownRow {
    (k: (Severity, FindingState)) => BreakdownRow(name, k.0, k.1, Count(rows, KeyIs(SeverityState, k)))
  }

  /** GROUP BY severity, state over one target's rows. */
  function Breakdown(rows: seq<Finding>, name: string): seq<BreakdownRow> {
    Map(SeverityStates(rows), BreakdownRowFor(rows, name))
  }

  lemma BreakdownFacts(rows: seq<Finding>, name: string)
    ensures var b := Breakdown(rows, name);
      && Distinct(Map(b, BreakdownKey))
      && (forall r :: r in b ==> r.count == Count(rows, KeyIs(SeverityState, BreakdownKey(r))))
      && (forall f :: f in rows ==> SeverityState(f) in Map(b, BreakdownKey))
      && Sum(Map(b, CountOf)) == |rows|
  {
    var keys, b := SeverityStates(rows), Breakdown(rows, name);
    assert Map(b, BreakdownKey) == keys;
    forall f | f in rows ensures SeverityState(f) in keys {
      MappedMembership(rows, SeverityState, SeverityState(f));
    }
    assert Map(b, CountOf) == Buckets(rows, SeverityState, keys);
    PartitionSum(rows, SeverityState, keys);
  }

  // ----- open age -----

  datatype AgeBucket = Days0To7 | Days8To30 | Days31To90 | Days90Plus

  function BucketOfAge(age: nat): AgeBucket {
    if age <= 7 then Days0To7 else if age <= 30 then Days8To30 else if age <= 90 then Days31To90 else Days90Plus
  }

  /** max((as_of - first_seen).days, 0): whole days, floored. */
  function AgeDays(asOf: int): Finding -> nat {
    (f: Finding) => if asOf < f.firstSeen then 0 else (asOf - f.firstSeen) / DAY
  }

  /** `average` is exact; the source rounds it to one decimal. */
  datatype AgeRow = AgeRow(
    target: string, severity: Severity, openCount: nat, average: real, oldest: nat,
    bucket0: nat, bucket8: nat, bucket31: nat, bucket90: nat)

  function OpenOf(severity: Severity): Finding -> bool {
    (f: Finding) => f.state == Open && f.severity == severity
  }

  predicate AverageOf(average: real, ages: seq<nat>) {
    ages != [] && average == Sum(ages) as real / |ages| as real
  }

  predicate OldestOf(oldest: nat, ages: seq<nat>) {
    oldest in ages && forall a :: a in ages ==> a <= oldest
  }

  function AgesOf(rows: seq<Finding>, asOf: int, severity: Severity): seq<nat> {
    Map(Filter(rows, OpenOf(severity)), AgeDays(asOf))
  }

  lemma AgesSnoc(rows: seq<Finding>, i: nat, asOf: int, severity: Severity)
    requires i < |rows|
    ensures AgesOf(rows[..i + 1], asOf, severity)
            == if OpenOf(severity)(rows[i]) then AgesOf(rows[..i], asOf, severity) + [AgeDays(asOf)(rows[i])]
               else AgesOf(rows[..i], asOf, severity)
  {
    assert rows[..i + 1] == rows[..i] + [rows[i]];
    FilterAppend(rows[..i], [rows[i]], OpenOf(severity));
    MapSnoc(Filter(rows[..i], OpenOf(severity)), rows[i], AgeDays(asOf));
  }

  lemma AgesCount(rows: seq<Finding>, asOf: int, severity: Severity)
    ensures |AgesOf(rows, asOf, severity)| == Count(rows, KeyIs(SeverityState, (severity, Open)))
  {
    FilterCong(rows, OpenOf(severity), KeyIs(SeverityState, (severity, Open)));
  }

  /** An age row says what its own target's open findings of that severity say. */
  ghost predicate HonestAge(r: AgeRow, rows: seq<Finding>, asOf: int) {
    var ages := AgesOf(rows, asOf, r.severity);
    && r.openCount == |ages| == Count(rows, KeyIs(SeverityState, (r.severity, Open)))
    && r.openCount > 0
    && r.openCount == r.bucket0 + r.bucket8 + r.bucket31 + r.bucket90
    && r.bucket0 == Count(ages, KeyIs(BucketOfAge, Days0To7))
    && r.bucket8 == Count(ages, KeyIs(BucketOfAge, Days8To30))
    && r.bucket31 == Count(ages, KeyIs(BucketOfAge, Days31To90))
    && r.bucket90 == Count(ages, KeyIs(BucketOfAge, Days90Plus))
    && AverageOf(r.average, ages) && OldestOf(r.oldest, ages)
  }

  function SeverityText(s: Severity): string {
    match s
    case Critical => "Critical" case High => "High" case Medium => "Medium" case Low => "Low"
    case Informational => "Informational"
  }

  /** `sorted`, over the severities' texts. */
  ghost predicate TextOrder(severities: seq<Severity>) {
    forall i, j :: 0 <= i < j < |severities| ==> StrLess(SeverityText(severities[i]), SeverityText(severities[j]))
  }

  lemma {:induction false} FilterTextOrder(severities: seq<Severity>, p: Severity -> bool)
    requires TextOrder(severities)
    ensures TextOrder(Filter(severities, p))
  {
    if severities != [] {
      FilterTextOrder(severities[1..], p);
      forall s | s in Filter(severities[1..], p)
        ensures StrLess(SeverityText(severities[0]), SeverityText(s)) {
        var i :| 0 <= i < |severities[1..]| && severities[1..][i] == s;
        assert severities[i + 1] == s;
      }
    }
  }

  lemma AlphabeticalOrder()
    ensures TextOrder(ALPHABETICAL)
  {
    assert forall i :: 0 <= i < 5 ==>
        SeverityText(ALPHABETICAL[i])[0] == if i == 0 then 'C' else if i == 1 then 'H' else if i == 2 then 'I'
                                            else if i == 3 then 'L' else 'M';
  }

  /** Severity names in the order `sorted` puts them. */
  const ALPHABETICAL := [Critical, High, Informational, Low, Medium]

  method CountBuckets(ages: seq<nat>) returns (buckets: map<AgeBucket, nat>)
    ensures forall b :: (if b in buckets then buckets[b] else 0) == Count(ages, KeyIs(BucketOfAge, b))
    ensures |ages| == Count(ages, KeyIs(BucketOfAge, Days0To7)) + Count(ages, KeyIs(BucketOfAge, Days8To30))
                      + Count(ages, KeyIs(BucketOfAge, Days31To90)) + Count(ages, KeyIs(BucketOfAge, Days90Plus))
  {
    buckets := map[];
    for i := 0 to |ages|
      invariant forall b :: (if b in buckets then buckets[b] else 0) == Count(ages[..i], KeyIs(BucketOfAge, b))
    {
      var b := BucketOfAge(ages[i]);
      assert ages[..i + 1] == ages[..i] + [ages[i]];
      forall c
        ensures Count(ages[..i + 1], KeyIs(BucketOfAge, c))
                == Count(ages[..i], KeyIs(BucketOfAge, c)) + (if c == b then 1 else 0) {
        CountAppend(ages[..i], [ages[i]], KeyIs(BucketOfAge, c));
      }
      buckets := buckets[b := (if b in buckets then buckets[b] else 0) + 1];
    }
    assert ages[..|ages|] == ages;
    FourBuckets(ages);
  }

  lemma FourBuckets(ages: seq<nat>)
    ensures |ages| == Count(ages, KeyIs(BucketOfAge, Days0To7)) + Count(ages, KeyIs(BucketOfAge, Days8To30))
                      + Count(ages, KeyIs(BucketOfAge, Days31To90)) + Count(ages, KeyIs(BucketOfAge, Days90Plus))
  {
    var ks := [Days0To7, Days8To30, Days31To90, Days90Plus];
    var sizes := Buckets(ages, BucketOfAge, ks);
    forall a | a in ages ensures BucketOfAge(a) in ks {
      assert ks[0] == Days0To7 && ks[1] == Days8To30 && ks[2] == Days31To90 && ks[3] == Days90Plus;
    }
    PartitionSum(ages, BucketOfAge, ks);
    SumFour(sizes[0], sizes[1], sizes[2], sizes[3]);
    assert sizes == [sizes[0], sizes[1], sizes[2], sizes[3]];
  }

  lemma SumFour(a: nat, b: nat, c: nat, d: nat)
    ensures Sum([a, b, c, d]) == a + b + c + d
  {
    assert [a, b, c, d][1..] == [b, c, d];
    assert [b, c, d][1..] == [c, d];
    assert [c, d][1..] == [d];
    assert Sum([d]) == d;
    assert Sum([c, d]) == c + d;
  }

  method SumAges(ages: seq<nat>) returns (total: nat)
    ensures total == Sum(ages)
  {
    total := 0;
    for i := 0 to |ages|
      invariant total == Sum(ages[..i])
    {
      assert ages[..i + 1] == ages[..i] + [ages[i]];
      SumAppend(ages[..i], [ages[i]]);
      total := total + ages[i];
    }
    assert ages[..|ages|] == ages;
  }

  method MaxAge(ages: seq<nat>) returns (oldest: nat)
    requires ages != []
    ensures OldestOf(oldest, ages)
  {
    oldest := ages[0];
    for i := 0 to |ages|
      invariant oldest in ages && forall k :: 0 <= k < i ==> ages[k] <= oldest
    {
      if ages[i] > oldest {
        oldest := ages[i];
      }
    }
  }

  function AgesIn(ages: map<Severity, seq<nat>>, s: Severity): seq<nat> {
    if s in ages then ages[s] else []
  }

  ghost predicate AgesCollected(ages: map<Severity, seq<nat>>, rows: seq<Finding>, asOf: int) {
    forall s :: AgesIn(ages, s) == AgesOf(rows, asOf, s)
  }

  lemma AgesStep(ages: map<Severity, seq<nat>>, rows: seq<Finding>, i: nat, asOf: int)
    requires i < |rows| && AgesCollected(ages, rows[..i], asOf)
    ensures var s := rows[i].severity;
            AgesCollected(if rows[i].state == Open then ages[s := AgesIn(ages, s) + [AgeDays(asOf)(rows[i])]] else ages,
                          rows[..i + 1], asOf)
  {
    var s := rows[i].severity;
    var ages' := if rows[i].state == Open then ages[s := AgesIn(ages, s) + [AgeDays(asOf)(rows[i])]] else ages;
    forall t ensures AgesIn(ages', t) == AgesOf(rows[..i + 1], asOf, t) {
      AgesSnoc(rows, i, asOf, t);
      assert AgesIn(ages, t) == AgesOf(rows[..i], asOf, t);
    }
  }

  /** ages_by_severity: one list per severity that has an open finding. */
  method AgesBySeverity(rows: seq<Finding>, asOf: int) returns (ages: map<Severity, seq<nat>>)
    ensures AgesCollected(ages, rows, asOf)
    ensures forall s :: s in ages ==> ages[s] != []
  {
    ages := map[];
    for i := 0 to |rows|
      invariant AgesCollected(ages, rows[..i], asOf)
      invariant forall s :: s in ages ==> ages[s] != []
    {
      AgesStep(ages, rows, i, asOf);
      if rows[i].state == Open {
        var s := rows[i].severity;
        ages := ages[s := AgesIn(ages, s) + [AgeDays(asOf)(rows[i])]];
      }
    }
    assert rows[..|rows|] == rows;
  }

  method AgeRowOf(name: string, severity: Severity, ages: seq<nat>) returns (r: AgeRow)
    requires ages != []
    ensures r.target == name && r.severity == severity && r.openCount == |ages|
    ensures r.openCount == r.bucket0 + r.bucket8 + r.bucket31 + r.bucket90
    ensures r.bucket0 == Count(ages, KeyIs(BucketOfAge, Days0To7))
            && r.bucket8 == Count(ages, KeyIs(BucketOfAge, Days8To30))
    ensures r.bucket31 == Count(ages, KeyIs(BucketOfAge, Days31To90))
            && r.bucket90 == Count(ages, KeyIs(BucketOfAge, Days90Plus))
    ensures AverageOf(r.average, ages) && OldestOf(r.oldest, ages)
  {
    var buckets := CountBuckets(ages);
    var total := SumAges(ages);
    var oldest := MaxAge(ages);
    r := AgeRow(name, severity, |ages|, total as real / |ages| as real, oldest,
      if Days0To7 in buckets then buckets[Days0To7] else 0,
      if Days8To30 in buckets then buckets[Days8To30] else 0,
      if Days31To90 in buckets then buckets[Days31To90] else 0,
      if Days90Plus in buckets then buckets[Days90Plus] else 0);
  }

  function AgeSeverity(r: AgeRow): Severity { r.severity }

  function Listed(ages: map<Severity, seq<nat>>): Severity -> bool {
    s => s in ages
  }

  method HonestAgeRow(rows: seq<Finding>, name: string, asOf: int, s: Severity, ages: seq<nat>) returns (r: AgeRow)
    requires ages == AgesOf(rows, asOf, s) && ages != []
    ensures r.target == name && r.severity == s && HonestAge(r, rows, asOf)
  {
    r := AgeRowOf(name, s, ages);
    AgesCount(rows, asOf, s);
  }

  ghost predicate AgeRows(section: seq<AgeRow>, rows: seq<Finding>, name: string, asOf: int) {
    forall i :: 0 <= i < |section| ==> section[i].target == name && HonestAge(section[i], rows, asOf)
  }

  lemma AgeRowsSnoc(section: seq<AgeRow>, r: AgeRow, rows: seq<Finding>, name: string, asOf: int)
    requires AgeRows(section, rows, name, asOf) && r.target == name && HonestAge(r, rows, asOf)
    ensures AgeRows(section + [r], rows, name, asOf)
    ensures Map(section + [r], AgeSeverity) == Map(section, AgeSeverity) + [r.severity]
  {
    MapSnoc(section, r, AgeSeverity);
  }

  method NextAgeRow(rows: seq<Finding>, name: string, asOf: int, s: Severity, ages: seq<nat>, before: seq<AgeRow>)
    returns (section: seq<AgeRow>)
    requires ages == AgesOf(rows, asOf, s) && ages != [] && AgeRows(before, rows, name, asOf)
    ensures AgeRows(section, rows, name, asOf) && Map(section, AgeSeverity) == Map(before, AgeSeverity) + [s]
  {
    var r := HonestAgeRow(rows, name, asOf, s, ages);
    AgeRowsSnoc(before, r, rows, name, asOf);
    section := before + [r];
  }

  /** `for severity, ages in sorted(...)`: a row for each name that has ages. */
  method AgeSection(rows: seq<Finding>, name: string, asOf: int, names: seq<Severity>, ages: map<Severity, seq<nat>>)
    returns (section: seq<AgeRow>)
    requires forall s :: s in ages ==> ages[s] == AgesOf(rows, asOf, s) && ages[s] != []
    ensures AgeRows(section, rows, name, asOf)
    ensures Map(section, AgeSeverity) == Filter(names, Listed(ages))
  {
    section := [];
    for i := 0 to |names|
      invariant AgeRows(section, rows, name, asOf) && Map(section, AgeSeverity) == Filter(names[..i], Listed(ages))
    {
      assert names[..i + 1] == names[..i] + [names[i]];
      FilterSnoc(names[..i], names[i], Listed(ages));
      if names[i] in ages {
        section := NextAgeRow(rows, name, asOf, names[i], ages[names[i]], section);
      }
    }
    assert names[..|names|] == names;
  }

  /** The open-age section of one target: one honest row for each severity that has an
      open finding there. */
  method OpenAge(rows: seq<Finding>, name: string, asOf: int) returns (section: seq<AgeRow>)
    ensures forall i :: 0 <= i < |section| ==> section[i].target == name && HonestAge(section[i], rows, asOf)
    ensures Distinct(Map(section, AgeSeverity))
    ensures forall s :: s in Map(section, AgeSeverity) <==> Count(rows, KeyIs(SeverityState, (s, Open))) > 0
    ensures TextOrder(Map(section, AgeSeverity))
  {
    AlphabeticalOrder();
    var ages := AgesBySeverity(rows, asOf);
    assert forall s :: s in ages ==> ages[s] == AgesIn(ages, s);
    section := AgeSection(rows, name, asOf, ALPHABETICAL, ages);
    FilterTextOrder(ALPHABETICAL, Listed(ages));
    ListedSeverities(ages, rows, asOf);
  }

  lemma ListedSeverities(ages: map<Severity, seq<nat>>, rows: seq<Finding>, asOf: int)
    requires AgesCollected(ages, rows, asOf)
    requires forall s :: s in ages ==> ages[s] != []
    ensures Distinct(Filter(ALPHABETICAL, Listed(ages)))
    ensures forall s :: s in Filter(ALPHABETICAL, Listed(ages)) <==> Count(rows, KeyIs(SeverityState, (s, Open))) > 0
  {
    AlphabeticalDistinct();
    FilterDistinct(ALPHABETICAL, Listed(ages));
    forall s ensures s in Filter(ALPHABETICAL, Listed(ages)) <==> Count(rows, KeyIs(SeverityState, (s, Open))) > 0 {
      AlphabeticalListed(s);
      AgesCount(rows, asOf, s);
      assert s in ages <==> AgesIn(ages, s) != [];
    }
  }

  lemma AlphabeticalDistinct()
    ensures Distinct(ALPHABETICAL)
  {
  }

  lemma AlphabeticalListed(s: Severity)
    ensures s in ALPHABETICAL
  {
    assert ALPHABETICAL[0] == Critical && ALPHABETICAL[1] == High && ALPHABETICAL[2] == Informational
           && ALPHABETICAL[3] == Low && ALPHABETICAL[4] == Medium;
  }

  // ----- scan coverage -----

  datatype Scan = Scan(id: int, targetId: int, tool: string, branch: string, status: string,
                       startedAt: int, completedAt: Option<int>, findingsCount: int)

  /** A latest run, or the placeholder for a target with none as of the report's instant. */
  datatype CoverageRow =
    | Ran(target: string, scan: Scan, scanning: bool)
    | NotScanned(target: string, branch: string, asOf: Option<int>, scanning: bool)

  /** A window bounds the runs from above only: a run after it had not happened yet. */
  function Eligible(f: ReportFilters, asOf: int, t: Target): Scan -> bool {
    (s: Scan) => s.targetId == t.id && (WindowTo(f).Some? ==> s.startedAt <= asOf)
  }

  function StartedKey(s: Scan): Key {
    Key(s.startedAt, 0, "", "", 0)
  }

  predicate LatestOfTool(s: Scan, runs: seq<Scan>) {
    s in runs && forall r :: r in runs && r.tool == s.tool ==> r.startedAt <= s.startedAt
  }

  function RanTool(r: CoverageRow): string {
    if r.Ran? then r.scan.tool else ""
  }

  predicate IsLatestRow(r: CoverageRow, t: Target, runs: seq<Scan>) {
    r.Ran? && r.target == t.name && r.scanning == t.active && LatestOfTool(r.scan, runs)
  }

  /** Newest run first. */
  predicate NewestFirst(rows: seq<CoverageRow>) {
    forall i, j :: 0 <= i < j < |rows| && rows[i].Ran? && rows[j].Ran? ==>
      rows[i].scan.startedAt >= rows[j].scan.startedAt
  }

  /** Exactly one row per tool that has run, each a latest run; a placeholder if none has. */
  ghost predicate HonestCoverage(rows: seq<CoverageRow>, t: Target, runs: seq<Scan>, asOf: Option<int>) {
    if runs == [] then rows == [NotScanned(t.name, t.defaultBranch, asOf, t.active)]
    else && (forall i :: 0 <= i < |rows| ==> IsLatestRow(rows[i], t, runs))
         && Distinct(Map(rows, RanTool))
         && (forall s :: s in runs ==> s.tool in Map(rows, RanTool))
         && NewestFirst(rows)
  }

  lemma FirstIsLatest(ordered: seq<Scan>, i: nat)
    requires i < |ordered| && SortedBy(ordered, StartedKey, true)
    requires forall k :: 0 <= k < i ==> ordered[k].tool != ordered[i].tool
    ensures LatestOfTool(ordered[i], ordered)
  {
    forall r | r in ordered && r.tool == ordered[i].tool ensures r.startedAt <= ordered[i].startedAt {
      var k :| 0 <= k < |ordered| && ordered[k] == r;
      assert k >= i;
    }
  }

  predicate NoOlder(rows: seq<CoverageRow>, at: int) {
    forall k :: 0 <= k < |rows| && rows[k].Ran? ==> rows[k].scan.startedAt >= at
  }

  lemma NewestSnoc(rows: seq<CoverageRow>, r: CoverageRow)
    requires NewestFirst(rows) && r.Ran? && NoOlder(rows, r.scan.startedAt)
    ensures NewestFirst(rows + [r]) && NoOlder(rows + [r], r.scan.startedAt)
  {
  }

  lemma StillNoOlder(rows: seq<CoverageRow>, ordered: seq<Scan>, i: nat)
    requires SortedBy(ordered, StartedKey, true) && i < |ordered| && NoOlder(rows, ordered[i].startedAt)
    ensures i + 1 < |ordered| ==> NoOlder(rows, ordered[i + 1].startedAt)
  {
    assert i + 1 < |ordered| ==> !Precedes(StartedKey, true, ordered[i + 1], ordered[i]);
  }

  /** Where the loop stands after `i` runs. */
  ghost predicate Listing(rows: seq<CoverageRow>, seenTools: set<string>, t: Target, ordered: seq<Scan>, i: nat) {
    && i <= |ordered|
    && (forall k :: 0 <= k < |rows| ==> IsLatestRow(rows[k], t, ordered))
    && NewestFirst(rows) && (i < |ordered| ==> NoOlder(rows, ordered[i].startedAt))
    && Distinct(Map(rows, RanTool))
    && (forall tool :: tool in seenTools <==> tool in Map(rows, RanTool))
    && (forall tool :: tool in seenTools <==> exists k :: 0 <= k < i && ordered[k].tool == tool)
  }

  lemma ListingSkips(rows: seq<CoverageRow>, seenTools: set<string>, t: Target, ordered: seq<Scan>, i: nat)
    requires SortedBy(ordered, StartedKey, true) && i < |ordered| && Listing(rows, seenTools, t, ordered, i)
    requires ordered[i].tool in seenTools
    ensures Listing(rows, seenTools, t, ordered, i + 1)
  {
    StillNoOlder(rows, ordered, i);
  }

  lemma ListingAdds(rows: seq<CoverageRow>, seenTools: set<string>, t: Target, ordered: seq<Scan>, i: nat)
    requires SortedBy(ordered, StartedKey, true) && i < |ordered| && Listing(rows, seenTools, t, ordered, i)
    requires ordered[i].tool !in seenTools
    ensures Listing(rows + [Ran(t.name, ordered[i], t.active)], seenTools + {ordered[i].tool}, t, ordered, i + 1)
  {
    var r := Ran(t.name, ordered[i], t.active);
    FirstIsLatest(ordered, i);
    MapSnoc(rows, r, RanTool);
    NewestSnoc(rows, r);
    StillNoOlder(rows + [r], ordered, i);
  }

  /** `if s.tool in seen_tools: continue`, over runs ordered newest first. */
  method LatestRuns(t: Target, ordered: seq<Scan>) returns (rows: seq<CoverageRow>)
    requires SortedBy(ordered, StartedKey, true)
    ensures forall i :: 0 <= i < |rows| ==> IsLatestRow(rows[i], t, ordered)
    ensures Distinct(Map(rows, RanTool))
    ensures forall s :: s in ordered ==> s.tool in Map(rows, RanTool)
    ensures NewestFirst(rows)
  {
    rows := [];
    var seenTools := {};
    for i := 0 to |ordered|
      invariant Listing(rows, seenTools, t, ordered, i)
    {
      if ordered[i].tool !in seenTools {
        ListingAdds(rows, seenTools, t, ordered, i);
        seenTools := seenTools + {ordered[i].tool};
        rows := rows + [Ran(t.name, ordered[i], t.active)];
      } else {
        ListingSkips(rows, seenTools, t, ordered, i);
      }
    }
  }

  method Coverage(f: ReportFilters, t: Target, scans: seq<Scan>, asOf: int) returns (rows: seq<CoverageRow>)
    ensures HonestCoverage(rows, t, Filter(scans, Eligible(f, asOf, t)), if WindowTo(f).Some? then Some(asOf) else None)
  {
    var runs := Filter(scans, Eligible(f, asOf, t));
    var ordered := SortBy(runs, StartedKey, true);
    SortBySorted(runs, StartedKey, true);
    SortByMembers(runs, StartedKey, true);
    if ordered == [] {
      return [NotScanned(t.name, t.defaultBranch, if WindowTo(f).Some? then Some(asOf) else None, t.active)];
    }
    rows := LatestRuns(t, ordered);
  }

  /** The runs a report considers are those at or before its instant: always under a
      window, and without one exactly when no recorded run lies in the future. */
  lemma CoverageIsAsOf(f: ReportFilters, t: Target, scans: seq<Scan>, now: int)
    ensures Filter(scans, Eligible(f, AsOf(f, now), t))
            == Filter(scans, (s: Scan) => s.targetId == t.id && s.startedAt <= AsOf(f, now))
            <==> (WindowTo(f).Some? || forall s :: s in scans && s.targetId == t.id ==> s.startedAt <= now)
  {
    var a, b := Eligible(f, AsOf(f, now), t), (s: Scan) => s.targetId == t.id && s.startedAt <= AsOf(f, now);
    if WindowTo(f).Some? || forall s :: s in scans && s.targetId == t.id ==> s.startedAt <= now {
      FilterCong(scans, a, b);
    } else {
      var s :| s in scans && s.targetId == t.id && s.startedAt > now;
      assert s in Filter(scans, a) && s !in Filter(scans, b);
    }
  }

  /** Without a window a run started after the clock was read is covered too. */
  lemma CoverageCanRunAhead() returns (f: ReportFilters, t: Target, scans: seq<Scan>, now: int)
    ensures Filter(scans, Eligible(f, AsOf(f, now), t)) == scans && |scans| == 1
    ensures scans[0].startedAt > AsOf(f, now)
  {
    f := ReportFilters([], None, None, None, [], [], [], None, None, None);
    t := Target(1, 1, "repo", "main", None, None, false, true);
    scans := [Scan(1, 1, "trivy", "main", "running", 11, None, 0)];
    now := 10;
    FilterAll(scans, Eligible(f, AsOf(f, now), t));
  }

  // ----- the whole report -----

  /** What one iteration over the targets contributes. */
  datatype Part = Part(breakdown: seq<BreakdownRow>, openAge: seq<AgeRow>, coverage: seq<CoverageRow>)

  /** Both sections of one target count the same open findings. */
  ghost predicate SectionsAgree(p: Part) {
    && (forall i :: 0 <= i < |p.openAge| ==>
          exists r ::
            r in p.breakdown && BreakdownKey(r) == (p.openAge[i].severity, Open) && r.count == p.openAge[i].openCount)
    && (forall r :: r in p.breakdown && r.state == Open ==> r.severity in Map(p.openAge, AgeSeverity))
  }

  ghost predicate HonestPart(p: Part, rows: seq<Finding>, t: Target, runs: seq<Scan>, asOf: int, shown: Option<int>) {
    && p.breakdown == Breakdown(rows, t.name)
    && (forall i :: 0 <= i < |p.openAge| ==> p.openAge[i].target == t.name && HonestAge(p.openAge[i], rows, asOf))
    && Distinct(Map(p.openAge, AgeSeverity)) && TextOrder(Map(p.openAge, AgeSeverity))
    && SectionsAgree(p)
    && HonestCoverage(p.coverage, t, runs, shown)
  }

  lemma SectionsAgreeBecauseHonest(p: Part, rows: seq<Finding>, t: Target, asOf: int)
    requires p.breakdown == Breakdown(rows, t.name)
    requires forall i :: 0 <= i < |p.openAge| ==> HonestAge(p.openAge[i], rows, asOf)
    requires forall s :: s in Map(p.openAge, AgeSeverity) <==> Count(rows, KeyIs(SeverityState, (s, Open))) > 0
    ensures SectionsAgree(p)
  {
    BreakdownFacts(rows, t.name);
    forall i | 0 <= i < |p.openAge|
      ensures var a := p.openAge[i];
              exists r :: r in p.breakdown && BreakdownKey(r) == (a.severity, Open) && r.count == a.openCount
    {
      var k := (p.openAge[i].severity, Open);
      var f := Filter(rows, KeyIs(SeverityState, k))[0];
      assert f in Filter(rows, KeyIs(SeverityState, k));
      MappedMembership(p.breakdown, BreakdownKey, k);
    }
    forall r | r in p.breakdown && r.state == Open ensures r.severity in Map(p.openAge, AgeSeverity) {
      MappedMembership(p.breakdown, BreakdownKey, BreakdownKey(r));
      BreakdownRowNonEmpty(rows, t.name, r);
    }
  }

  lemma BreakdownRowNonEmpty(rows: seq<Finding>, name: string, r: BreakdownRow)
    requires r in Breakdown(rows, name)
    ensures r.count == Count(rows, KeyIs(SeverityState, BreakdownKey(r))) && r.count > 0
  {
    var keys := SeverityStates(rows);
    var i :| 0 <= i < |keys| && Breakdown(rows, name)[i] == r;
    MappedMembership(rows, SeverityState, keys[i]);
    var f :| f in rows && SeverityState(f) == keys[i];
    assert f in Filter(rows, KeyIs(SeverityState, keys[i]));
  }

  // ----- the sections, read plainly -----

  function Of(severity: Severity, state: FindingState): Finding -> bool {
    (g: Finding) => g.severity == severity && g.state == state
  }

  /** Exactly one row per severity and state met, with the number of findings of both. */
  ghost predicate BreakdownExact(b: seq<BreakdownRow>, rows: seq<Finding>, t: Target) {
    && (forall r :: r in b ==> r.target == t.name && r.count > 0 && r.count == Count(rows, Of(r.severity, r.state)))
    && (forall g :: g in rows ==> exists r :: r in b && r.severity == g.severity && r.state == g.state)
    && (forall i, j :: 0 <= i < j < |b| ==> b[i].severity != b[j].severity || b[i].state != b[j].state)
  }

  lemma BreakdownIsExact(rows: seq<Finding>, t: Target)
    ensures BreakdownExact(Breakdown(rows, t.name), rows, t)
  {
    var b := Breakdown(rows, t.name);
    BreakdownFacts(rows, t.name);
    forall r | r in b ensures r.target == t.name && r.count > 0 && r.count == Count(rows, Of(r.severity, r.state)) {
      BreakdownRowNonEmpty(rows, t.name, r);
      FilterCong(rows, KeyIs(SeverityState, BreakdownKey(r)), Of(r.severity, r.state));
    }
    forall g | g in rows ensures exists r :: r in b && r.severity == g.severity && r.state == g.state {
      MappedMembership(b, BreakdownKey, SeverityState(g));
    }
    forall i, j | 0 <= i < j < |b| ensures b[i].severity != b[j].severity || b[i].state != b[j].state {
      assert Map(b, BreakdownKey)[i] != Map(b, BreakdownKey)[j];
    }
  }

  /** Seen first at least `from` and less than `to` whole days before. */
  function Aged(asOf: int, from: nat, to: nat): Finding -> bool {
    (g: Finding) => (from == 0 || asOf - g.firstSeen >= from * 86_400_000_000)
                    && asOf - g.firstSeen < to * 86_400_000_000
  }

  function AgedFrom(asOf: int, from: nat): Finding -> bool {
    (g: Finding) => asOf - g.firstSeen >= from * 86_400_000_000
  }

  /** One severity's open findings: how many, in which of the four ranges of age, and the oldest. */
  ghost predicate AgeExact(r: AgeRow, rows: seq<Finding>, t: Target, asOf: int) {
    var open := Filter(rows, Of(r.severity, Open));
    && r.target == t.name && r.openCount == |open| > 0
    && r.bucket0 == Count(open, Aged(asOf, 0, 8)) && r.bucket8 == Count(open, Aged(asOf, 8, 31))
    && r.bucket31 == Count(open, Aged(asOf, 31, 91)) && r.bucket90 == Count(open, AgedFrom(asOf, 91))
    && r.average == Sum(Map(open, AgeDays(asOf))) as real / |open| as real
    && (forall g :: g in open ==> asOf - g.firstSeen < (r.oldest + 1) * 86_400_000_000)
    && (r.oldest == 0 || exists g :: g in open && asOf - g.firstSeen >= r.oldest * 86_400_000_000)
  }

  /** An age is the whole days passed, none for a finding not seen yet. */
  lemma AgeDaysMean(asOf: int, g: Finding)
    ensures var age := AgeDays(asOf)(g);
            && asOf - g.firstSeen < (age + 1) * 86_400_000_000
            && (age > 0 ==> asOf - g.firstSeen >= age * 86_400_000_000)
  {
  }

  lemma BucketIsRange(asOf: int, g: Finding)
    ensures (BucketOfAge(AgeDays(asOf)(g)) == Days0To7) == Aged(asOf, 0, 8)(g)
    ensures (BucketOfAge(AgeDays(asOf)(g)) == Days8To30) == Aged(asOf, 8, 31)(g)
    ensures (BucketOfAge(AgeDays(asOf)(g)) == Days31To90) == Aged(asOf, 31, 91)(g)
    ensures (BucketOfAge(AgeDays(asOf)(g)) == Days90Plus) == AgedFrom(asOf, 91)(g)
  {
    AgeDaysMean(asOf, g);
  }

  lemma BucketCount(open: seq<Finding>, asOf: int, b: AgeBucket, range: Finding -> bool)
    requires forall g :: g in open ==> (BucketOfAge(AgeDays(asOf)(g)) == b) == range(g)
    ensures Count(Map(open, AgeDays(asOf)), KeyIs(BucketOfAge, b)) == Count(open, range)
  {
    FilterMap(open, AgeDays(asOf), KeyIs(BucketOfAge, b), range);
  }

  lemma BucketCounts(open: seq<Finding>, asOf: int)
    ensures var ages := Map(open, AgeDays(asOf));
            && Count(ages, KeyIs(BucketOfAge, Days0To7)) == Count(open, Aged(asOf, 0, 8))
            && Count(ages, KeyIs(BucketOfAge, Days8To30)) == Count(open, Aged(asOf, 8, 31))
            && Count(ages, KeyIs(BucketOfAge, Days31To90)) == Count(open, Aged(asOf, 31, 91))
            && Count(ages, KeyIs(BucketOfAge, Days90Plus)) == Count(open, AgedFrom(asOf, 91))
  {
    forall g | g in open
      ensures (BucketOfAge(AgeDays(asOf)(g)) == Days0To7) == Aged(asOf, 0, 8)(g)
      ensures (BucketOfAge(AgeDays(asOf)(g)) == Days8To30) == Aged(asOf, 8, 31)(g)
      ensures (BucketOfAge(AgeDays(asOf)(g)) == Days31To90) == Aged(asOf, 31, 91)(g)
      ensures (BucketOfAge(AgeDays(asOf)(g)) == Days90Plus) == AgedFrom(asOf, 91)(g)
    {
      BucketIsRange(asOf, g);
    }
    BucketCount(open, asOf, Days0To7, Aged(asOf, 0, 8));
    BucketCount(open, asOf, Days8To30, Aged(asOf, 8, 31));
    BucketCount(open, asOf, Days31To90, Aged(asOf, 31, 91));
    BucketCount(open, asOf, Days90Plus, AgedFrom(asOf, 91));
  }

  lemma AgeIsExact(r: AgeRow, rows: seq<Finding>, t: Target, asOf: int)
    requires r.target == t.name && HonestAge(r, rows, asOf)
    ensures AgeExact(r, rows, t, asOf)
  {
    var open := Filter(rows, Of(r.severity, Open));
    FilterCong(rows, OpenOf(r.severity), Of(r.severity, Open));
    BucketCounts(open, asOf);
    forall g | g in open ensures asOf - g.firstSeen < (r.oldest + 1) * 86_400_000_000 {
      AgeDaysMean(asOf, g);
      MappedMembership(open, AgeDays(asOf), AgeDays(asOf)(g));
    }
    MappedMembership(open, AgeDays(asOf), r.oldest);
    var g :| g in open && AgeDays(asOf)(g) == r.oldest;
    AgeDaysMean(asOf, g);
  }

  /** A run of this target the report knows of: with an end date none after it, or after now. */
  predicate RunKnown(s: Scan, scans: seq<Scan>, t: Target, f: ReportFilters, now: int) {
    && s in scans && s.targetId == t.id
    && (f.dateTo.Some? ==> s.startedAt <= now && s.startedAt < (f.dateTo.value + 1) * 86_400_000_000)
  }

  /** A run no later known run of its tool follows, under the target's name and scanning switch. */
  ghost predicate LatestKnown(r: CoverageRow, scans: seq<Scan>, t: Target, f: ReportFilters, now: int) {
    && r.Ran? && r.target == t.name && r.scanning == t.active && RunKnown(r.scan, scans, t, f, now)
    && forall s :: RunKnown(s, scans, t, f, now) && s.tool == r.scan.tool ==> s.startedAt <= r.scan.startedAt
  }

  /** Nothing has run: on the default branch, as of now or the end of the window, whichever is first. */
  predicate Placeholder(r: CoverageRow, t: Target, f: ReportFilters, now: int) {
    && r.NotScanned? && r.target == t.name && r.branch == t.defaultBranch && r.scanning == t.active
    && r.asOf == if f.dateTo.None? then None
                 else if (f.dateTo.value + 1) * 86_400_000_000 <= now
                      then Some((f.dateTo.value + 1) * 86_400_000_000 - 1)
                 else Some(now)
  }

  /** A latest run of each tool known to have run, each once; one placeholder when none has. */
  ghost predicate CoverageExact(rows: seq<CoverageRow>, scans: seq<Scan>, t: Target, f: ReportFilters, now: int) {
    if forall s :: s in scans ==> !RunKnown(s, scans, t, f, now) then |rows| == 1 && Placeholder(rows[0], t, f, now)
    else && (forall i :: 0 <= i < |rows| ==> LatestKnown(rows[i], scans, t, f, now))
         && (forall s :: s in scans && RunKnown(s, scans, t, f, now) ==> s.tool in Map(rows, RanTool))
         && Distinct(Map(rows, RanTool)) && NewestFirst(rows)
  }

  lemma EligibleIsKnown(s: Scan, scans: seq<Scan>, t: Target, f: ReportFilters, now: int)
    ensures s in Filter(scans, Eligible(f, AsOf(f, now), t)) <==> RunKnown(s, scans, t, f, now)
  {
  }

  lemma LatestIsKnown(r: CoverageRow, runs: seq<Scan>, scans: seq<Scan>, t: Target, f: ReportFilters, now: int)
    requires IsLatestRow(r, t, runs) && forall s :: s in runs <==> RunKnown(s, scans, t, f, now)
    ensures LatestKnown(r, scans, t, f, now)
  {
  }

  lemma CoverageIsExact(rows: seq<CoverageRow>, scans: seq<Scan>, t: Target, f: ReportFilters, now: int)
    requires HonestCoverage(rows, t, Filter(scans, Eligible(f, AsOf(f, now), t)),
                            if WindowTo(f).Some? then Some(AsOf(f, now)) else None)
    ensures CoverageExact(rows, scans, t, f, now)
  {
    var runs := Filter(scans, Eligible(f, AsOf(f, now), t));
    forall s ensures s in runs <==> RunKnown(s, scans, t, f, now) {
      EligibleIsKnown(s, scans, t, f, now);
    }
    if runs == [] {
      assert forall s :: s in scans ==> !RunKnown(s, scans, t, f, now);
    } else {
      assert runs[0] in scans && RunKnown(runs[0], scans, t, f, now);
      forall i | 0 <= i < |rows| ensures LatestKnown(rows[i], scans, t, f, now) {
        LatestIsKnown(rows[i], runs, scans, t, f, now);
      }
    }
  }

  ghost predicate HonestFor(p: Part, f: ReportFilters, base: seq<Finding>, t: Target, scans: seq<Scan>, asOf: int) {
    HonestPart(p, TargetRows(base, t), t, Filter(scans, Eligible(f, asOf, t)), asOf,
               if WindowTo(f).Some? then Some(asOf) else None)
  }

  method TargetPart(f: ReportFilters, base: seq<Finding>, t: Target, scans: seq<Scan>, asOf: int) returns (p: Part)
    ensures HonestFor(p, f, base, t, scans, asOf)
  {
    var rows := TargetRows(base, t);
    var openAge := OpenAge(rows, t.name, asOf);
    var coverage := Coverage(f, t, scans, asOf);
    p := Part(Breakdown(rows, t.name), openAge, coverage);
    SectionsAgreeBecauseHonest(p, rows, t, asOf);
  }

  /** Totals grown by these keys' counts. */
  ghost predicate TotalsGrown(totals: map<(Severity, FindingState), nat>, before: map<(Severity, FindingState), nat>,
                              rows: seq<Finding>, keys: seq<(Severity, FindingState)>) {
    forall k :: Get(totals, k) == Get(before, k) + if k in keys then Count(rows, KeyIs(SeverityState, k)) else 0
  }

  lemma GrowTotals(totals: map<(Severity, FindingState), nat>, before: map<(Severity, FindingState), nat>,
                   rows: seq<Finding>, keys: seq<(Severity, FindingState)>, key: (Severity, FindingState))
    requires TotalsGrown(totals, before, rows, keys) && key !in keys
    ensures TotalsGrown(totals[key := Get(totals, key) + Count(rows, KeyIs(SeverityState, key))], before, rows,
                        keys + [key])
  {
  }

  lemma GrownByAll(totals: map<(Severity, FindingState), nat>, before: map<(Severity, FindingState), nat>,
                   rows: seq<Finding>)
    requires TotalsGrown(totals, before, rows, SeverityStates(rows))
    ensures forall k :: Get(totals, k) == Get(before, k) + Count(rows, KeyIs(SeverityState, k))
  {
    forall k ensures k !in SeverityStates(rows) ==> Count(rows, KeyIs(SeverityState, k)) == 0 {
      CountZero(rows, KeyIs(SeverityState, k));
      MappedMembership(rows, SeverityState, k);
    }
  }

  lemma BreakdownAt(rows: seq<Finding>, name: string, i: nat)
    requires i < |Breakdown(rows, name)|
    ensures var keys, r := SeverityStates(rows), Breakdown(rows, name)[i];
            && |keys| == |Breakdown(rows, name)|
            && BreakdownKey(r) == keys[i] && r.count == Count(rows, KeyIs(SeverityState, keys[i]))
            && keys[..i + 1] == keys[..i] + [keys[i]] && keys[i] !in keys[..i]
  {
  }

  /** totals_by_severity_state[key] = totals_by_severity_state.get(key, 0) + count. */
  method AddBreakdown(totals0: map<(Severity, FindingState), nat>, breakdown: seq<BreakdownRow>,
                      ghost rows: seq<Finding>, ghost name: string)
    returns (totals: map<(Severity, FindingState), nat>)
    requires breakdown == Breakdown(rows, name)
    ensures forall k :: Get(totals, k) == Get(totals0, k) + Count(rows, KeyIs(SeverityState, k))
  {
    totals := totals0;
    for i := 0 to |breakdown|
      invariant |SeverityStates(rows)| == |breakdown|
      invariant TotalsGrown(totals, totals0, rows, SeverityStates(rows)[..i])
    {
      var r := breakdown[i];
      BreakdownAt(rows, name, i);
      GrowTotals(totals, totals0, rows, SeverityStates(rows)[..i], BreakdownKey(r));
      totals := totals[BreakdownKey(r) := Get(totals, BreakdownKey(r)) + r.count];
    }
    assert SeverityStates(rows)[..|breakdown|] == SeverityStates(rows);
    GrownByAll(totals, totals0, rows);
  }

  /** The report's findings: each target's default-branch rows, target after target. */
  function ReportFindings(base: seq<Finding>, targets: seq<Target>): seq<Finding> {
    if targets == [] then []
    else ReportFindings(base, targets[..|targets| - 1]) + TargetRows(base, targets[|targets| - 1])
  }

  function OnSomeDefault(targets: seq<Target>): Finding -> bool {
    (f: Finding) => exists t :: t in targets && OnDefault(t)(f)
  }

  /** Counted over distinct targets, that is the filtered default-branch findings. */
  lemma {:induction false} ReportFindingsCount(base: seq<Finding>, targets: seq<Target>)
    requires forall i, j :: 0 <= i < j < |targets| ==> targets[i].id != targets[j].id
    ensures |ReportFindings(base, targets)| == Count(base, OnSomeDefault(targets))
    decreases |targets|
  {
    if targets == [] {
      CountZero(base, OnSomeDefault(targets));
    } else {
      var init, last := targets[..|targets| - 1], targets[|targets| - 1];
      ReportFindingsCount(base, init);
      assert targets == init + [last];
      forall f ensures OnSomeDefault(targets)(f) == (OnSomeDefault(init)(f) || OnDefault(last)(f)) {
        if OnSomeDefault(targets)(f) {
          var t :| t in targets && OnDefault(t)(f);
          assert t in init || t == last;
        }
        if OnSomeDefault(init)(f) {
          var t :| t in init && OnDefault(t)(f);
          assert t in targets;
        }
      }
      CountOr(base, OnSomeDefault(init), OnDefault(last), OnSomeDefault(targets));
    }
  }

  datatype Report = Report(
    severityState: seq<BreakdownRow>, totals: map<(Severity, FindingState), nat>,
    openAge: seq<AgeRow>, coverage: seq<CoverageRow>)

  function BreakdownOf(p: Part): seq<BreakdownRow> { p.breakdown }
  function OpenAgeOf(p: Part): seq<AgeRow> { p.openAge }
  function CoverageOf(p: Part): seq<CoverageRow> { p.coverage }

  /** Which sections were asked for. */
  datatype Sections = Sections(totals: bool, severityState: bool, openAge: bool, coverage: bool)

  /** build_posture_report: 404 or the sections asked for, each the concatenation of one honest part
      per target in scope, over the Findings-page query; the two finding sections agree, and the
      cross-target totals count exactly the report's findings. */
  method BuildPostureReport(db: Db, groups: seq<RepoGroup>, caller: Caller, reg: Registry, f: ReportFilters,
                            scans: seq<Scan>, now: int, wanted: Sections)
    returns (r: Outcome<Report>, ghost parts: seq<Part>, ghost whole: Report)
    requires ValidDb(db) && Consistent(reg)
    ensures r.Ok? <==> ResolveTargets(db, caller, f).Ok?
                       && (f.groupId.Some? ==>
                             exists g ::
                               && g in groups && g.id == f.groupId.value
                               && (caller.workspaces.Some? ==> g.workspaceId in caller.workspaces.value))
    ensures r.HttpError? ==> r.status == 404
    ensures r.Ok? ==>
              var targets, base := ResolveTargets(db, caller, f).value, BaseRows(db, caller, reg, f);
              && r.value.severityState == (if wanted.severityState then whole.severityState else [])
              && r.value.totals == (if wanted.totals then whole.totals else map[])
              && r.value.openAge == (if wanted.openAge then whole.openAge else [])
              && r.value.coverage == (if wanted.coverage then whole.coverage else [])
              && |parts| == |targets| && PartsHonest(parts, f, base, targets, scans, AsOf(f, now))
              && SectionsFlat(whole, parts) && TotalsExact(whole.totals, base, targets)
    ensures r.Ok? && RouteAccepts(f) ==> TotalsAre(whole, Count(db.findings, InReport(db, caller, reg, f)))
    ensures r.Ok? && RouteAccepts(f) ==> TotalsCountStored(whole.totals, db, caller, reg, f)
    ensures r.Ok? ==> PartsExact(parts, db, caller, reg, f, ResolveTargets(db, caller, f).value, scans, now)
  {
    parts, whole := [], Report([], map[], [], []);
    if !GroupVisible(groups, caller, f) {
      return HttpError(404), parts, whole;
    }
    var resolved := ResolveTargets(db, caller, f);
    if resolved.HttpError? {
      return HttpError(resolved.status), parts, whole;
    }
    var report;
    report, parts := BuildSections(db, caller, reg, f, resolved.value, scans, now);
    whole := report;
    r := Ok(Report(if wanted.severityState then report.severityState else [],
                   if wanted.totals then report.totals else map[],
                   if wanted.openAge then report.openAge else [], if wanted.coverage then report.coverage else []));
  }

  /** Past the checks: the query, then one round per target. */
  method BuildSections(db: Db, caller: Caller, reg: Registry, f: ReportFilters, targets: seq<Target>,
                       scans: seq<Scan>, now: int)
    returns (report: Report, ghost parts: seq<Part>)
    requires ValidDb(db) && Consistent(reg) && ResolveTargets(db, caller, f) == Ok(targets)
    ensures |parts| == |targets|
    ensures PartsHonest(parts, f, BaseRows(db, caller, reg, f), targets, scans, AsOf(f, now))
    ensures SectionsFlat(report, parts) && TotalsExact(report.totals, BaseRows(db, caller, reg, f), targets)
    ensures RouteAccepts(f) ==> TotalsAre(report, Count(db.findings, InReport(db, caller, reg, f)))
    ensures RouteAccepts(f) ==> TotalsCountStored(report.totals, db, caller, reg, f)
    ensures PartsExact(parts, db, caller, reg, f, targets, scans, now)
  {
    var query := SelectFindings(db, caller, reg, BaseFilters(f), CategoryFilter(f.category, []));
    var base := if query.Some? then query.value else [];
    report, parts := Accumulate(f, base, targets, scans, AsOf(f, now));
    ReportIsExact(db, caller, reg, f, report, parts, scans, now);
  }

  method Accumulate(f: ReportFilters, base: seq<Finding>, targets: seq<Target>, scans: seq<Scan>, asOf: int)
    returns (r: Report, ghost parts: seq<Part>)
    ensures |parts| == |targets| && PartsHonest(parts, f, base, targets, scans, asOf)
    ensures SectionsFlat(r, parts)
    ensures TotalsExact(r.totals, base, targets)
  {
    r, parts := Report([], map[], [], []), [];
    for i := 0 to |targets|
      invariant |parts| == i && Accumulated(r, parts, f, base, targets, scans, asOf)
    {
      var p;
      r, p := AddTarget(f, base, targets, i, scans, asOf, r, parts);
      parts := parts + [p];
    }
    assert targets[..|targets|] == targets;
  }

  ghost predicate Accumulated(r: Report, parts: seq<Part>, f: ReportFilters, base: seq<Finding>, targets: seq<Target>,
                              scans: seq<Scan>, asOf: int) {
    && |parts| <= |targets| && PartsHonest(parts, f, base, targets, scans, asOf)
    && SectionsFlat(r, parts) && TotalsExact(r.totals, base, targets[..|parts|])
  }

  /** The body of the outer loop: one target's sections appended, its counts added to the totals. */
  method AddTarget(f: ReportFilters, base: seq<Finding>, targets: seq<Target>, i: nat, scans: seq<Scan>, asOf: int,
                   before: Report, ghost parts: seq<Part>) returns (r: Report, p: Part)
    requires i == |parts| < |targets| && Accumulated(before, parts, f, base, targets, scans, asOf)
    ensures Accumulated(r, parts + [p], f, base, targets, scans, asOf)
  {
    p := TargetPart(f, base, targets[i], scans, asOf);
    var totals := AddBreakdown(before.totals, p.breakdown, TargetRows(base, targets[i]), targets[i].name);
    PartSnoc(parts, p);
    TotalsSnoc(before.totals, totals, base, targets, i);
    r := Report(before.severityState + p.breakdown, totals, before.openAge + p.openAge, before.coverage + p.coverage);
    HonestSnoc(parts, p, f, base, targets, scans, asOf);
  }

  lemma HonestSnoc(parts: seq<Part>, p: Part, f: ReportFilters, base: seq<Finding>, targets: seq<Target>,
                   scans: seq<Scan>, asOf: int)
    requires |parts| < |targets| && PartsHonest(parts, f, base, targets, scans, asOf)
    requires HonestFor(p, f, base, targets[|parts|], scans, asOf)
    ensures PartsHonest(parts + [p], f, base, targets, scans, asOf)
  {
  }

  ghost predicate PartsHonest(parts: seq<Part>, f: ReportFilters, base: seq<Finding>, targets: seq<Target>,
                              scans: seq<Scan>, asOf: int) {
    |parts| <= |targets| && forall i :: 0 <= i < |parts| ==> HonestFor(parts[i], f, base, targets[i], scans, asOf)
  }

  ghost predicate SectionsFlat(r: Report, parts: seq<Part>) {
    && r.severityState == Flatten(Map(parts, BreakdownOf))
    && r.openAge == Flatten(Map(parts, OpenAgeOf))
    && r.coverage == Flatten(Map(parts, CoverageOf))
  }

  ghost predicate TotalsExact(totals: map<(Severity, FindingState), nat>, base: seq<Finding>, targets: seq<Target>) {
    forall k :: Get(totals, k) == Count(ReportFindings(base, targets), KeyIs(SeverityState, k))
  }

  lemma TotalsSnoc(before: map<(Severity, FindingState), nat>, after: map<(Severity, FindingState), nat>,
                   base: seq<Finding>, targets: seq<Target>, i: nat)
    requires i < |targets| && TotalsExact(before, base, targets[..i])
    requires forall k :: Get(after, k) == Get(before, k) + Count(TargetRows(base, targets[i]), KeyIs(SeverityState, k))
    ensures TotalsExact(after, base, targets[..i + 1])
  {
    assert targets[..i + 1][..i] == targets[..i] && targets[..i + 1][i] == targets[i];
    forall k ensures Get(after, k) == Count(ReportFindings(base, targets[..i + 1]), KeyIs(SeverityState, k)) {
      CountAppend(ReportFindings(base, targets[..i]), TargetRows(base, targets[i]), KeyIs(SeverityState, k));
    }
  }

  lemma PartSnoc(parts: seq<Part>, p: Part)
    ensures Flatten(Map(parts + [p], BreakdownOf)) == Flatten(Map(parts, BreakdownOf)) + p.breakdown
    ensures Flatten(Map(parts + [p], OpenAgeOf)) == Flatten(Map(parts, OpenAgeOf)) + p.openAge
    ensures Flatten(Map(parts + [p], CoverageOf)) == Flatten(Map(parts, CoverageOf)) + p.coverage
  {
    MapSnoc(parts, p, BreakdownOf);
    MapSnoc(parts, p, OpenAgeOf);
    MapSnoc(parts, p, CoverageOf);
    FlattenSnoc(Map(parts, BreakdownOf), p.breakdown);
    FlattenSnoc(Map(parts, OpenAgeOf), p.openAge);
    FlattenSnoc(Map(parts, CoverageOf), p.coverage);
  }

  function TotalAt(totals: map<(Severity, FindingState), nat>): ((Severity, FindingState)) -> nat {
    (k: (Severity, FindingState)) => Get(totals, k)
  }

  /** Conservation across sections: the totals, the per-target rows and the filtered
      default-branch findings are one number. */
  lemma TotalsConserve(base: seq<Finding>, targets: seq<Target>, parts: seq<Part>,
                       totals: map<(Severity, FindingState), nat>, keys: seq<(Severity, FindingState)>)
    requires forall i, j :: 0 <= i < j < |targets| ==> targets[i].id != targets[j].id
    requires |parts| == |targets| && forall i :: 0 <= i < |targets| ==>
               parts[i].breakdown == Breakdown(TargetRows(base, targets[i]), targets[i].name)
    requires TotalsExact(totals, base, targets)
    requires Distinct(keys) && forall k :: k in totals ==> k in keys
    ensures Sum(Map(keys, TotalAt(totals))) == Count(base, OnSomeDefault(targets))
    ensures PrintedTotal(parts) == Count(base, OnSomeDefault(targets))
  {
    var rows := ReportFindings(base, targets);
    ReportFindingsCount(base, targets);
    forall f | f in rows ensures SeverityState(f) in keys {
      CountZero(rows, KeyIs(SeverityState, SeverityState(f)));
    }
    PartitionSum(rows, SeverityState, keys);
    assert Map(keys, TotalAt(totals)) == Buckets(rows, SeverityState, keys);
    BreakdownRowsSum(base, targets, parts);
  }

  /** Every count printed in the severity/state section, added up. */
  function PrintedTotal(parts: seq<Part>): nat {
    Sum(Map(Flatten(Map(parts, BreakdownOf)), CountOf))
  }

  lemma {:induction false} FlattenSum(lists: seq<seq<BreakdownRow>>, sizes: seq<nat>)
    requires |lists| == |sizes| && forall i :: 0 <= i < |lists| ==> Sum(Map(lists[i], CountOf)) == sizes[i]
    ensures Sum(Map(Flatten(lists), CountOf)) == Sum(sizes)
    decreases |lists|
  {
    if lists != [] {
      var n := |lists| - 1;
      FlattenSum(lists[..n], sizes[..n]);
      assert lists == lists[..n] + [lists[n]];
      FlattenSnoc(lists[..n], lists[n]);
      CountsAppend(Flatten(lists[..n]), lists[n]);
      assert sizes == sizes[..n] + [sizes[n]];
      SumAppend(sizes[..n], [sizes[n]]);
    }
  }

  function Sizes(base: seq<Finding>, targets: seq<Target>): seq<nat> {
    Map(targets, t => |TargetRows(base, t)|)
  }

  lemma {:induction false} ReportFindingsSize(base: seq<Finding>, targets: seq<Target>)
    ensures |ReportFindings(base, targets)| == Sum(Sizes(base, targets))
    decreases |targets|
  {
    if targets != [] {
      var n := |targets| - 1;
      ReportFindingsSize(base, targets[..n]);
      assert Sizes(base, targets) == Sizes(base, targets[..n]) + [|TargetRows(base, targets[n])|];
      SumAppend(Sizes(base, targets[..n]), [|TargetRows(base, targets[n])|]);
    }
  }

  lemma BreakdownRowsSum(base: seq<Finding>, targets: seq<Target>, parts: seq<Part>)
    requires |parts| == |targets| && forall i :: 0 <= i < |targets| ==>
               parts[i].breakdown == Breakdown(TargetRows(base, targets[i]), targets[i].name)
    ensures PrintedTotal(parts) == |ReportFindings(base, targets)|
  {
    forall i | 0 <= i < |parts| ensures Sum(Map(Map(parts, BreakdownOf)[i], CountOf)) == Sizes(base, targets)[i] {
      BreakdownFacts(TargetRows(base, targets[i]), targets[i].name);
    }
    FlattenSum(Map(parts, BreakdownOf), Sizes(base, targets));
    ReportFindingsSize(base, targets);
  }

  lemma CountsAppend(a: seq<BreakdownRow>, b: seq<BreakdownRow>)
    ensures Sum(Map(a + b, CountOf)) == Sum(Map(a, CountOf)) + Sum(Map(b, CountOf))
  {
    assert Map(a + b, CountOf) == Map(a, CountOf) + Map(b, CountOf);
    SumAppend(Map(a, CountOf), Map(b, CountOf));
  }

  /** Every count of the severity/state section, and every cross-target total, under whatever keys
      cover them, add up to `n`. */
  ghost predicate TotalsAre(r: Report, n: nat) {
    && Sum(Map(r.severityState, CountOf)) == n
    && forall keys :: Covers(keys, r.totals) ==> Sum(Map(keys, TotalAt(r.totals))) == n
  }

  ghost predicate Covers(keys: seq<(Severity, FindingState)>, totals: map<(Severity, FindingState), nat>) {
    Distinct(keys) && forall k :: k in totals ==> k in keys
  }

  lemma BreakdownsOf(parts: seq<Part>, f: ReportFilters, base: seq<Finding>, targets: seq<Target>, scans: seq<Scan>,
                     asOf: int)
    requires |parts| == |targets| && PartsHonest(parts, f, base, targets, scans, asOf)
    ensures forall i :: 0 <= i < |targets| ==>
              parts[i].breakdown == Breakdown(TargetRows(base, targets[i]), targets[i].name)
  {
  }

  /** What the report's two finding sections count is the page's findings on their targets' default
      branches: one number, from the targets' resolution to the printed rows. */
  lemma ReportCountsPage(db: Db, caller: Caller, reg: Registry, f: ReportFilters, whole: Report, parts: seq<Part>,
                         scans: seq<Scan>, asOf: int)
    requires ValidDb(db) && RouteAccepts(f) && ResolveTargets(db, caller, f).Ok?
    requires var targets, base := ResolveTargets(db, caller, f).value, BaseRows(db, caller, reg, f);
             && |parts| == |targets| && PartsHonest(parts, f, base, targets, scans, asOf)
             && SectionsFlat(whole, parts) && TotalsExact(whole.totals, base, targets)
    ensures TotalsAre(whole, Count(db.findings, InReport(db, caller, reg, f)))
  {
    var targets, base := ResolveTargets(db, caller, f).value, BaseRows(db, caller, reg, f);
    BreakdownsOf(parts, f, base, targets, scans, asOf);
    ReportIsPage(db, caller, reg, f);
    TargetsApart(db, caller, f);
    CountsAre(base, targets, parts, whole);
  }

  lemma ReportIsExact(db: Db, caller: Caller, reg: Registry, f: ReportFilters, whole: Report, parts: seq<Part>,
                      scans: seq<Scan>, now: int)
    requires ValidDb(db) && ResolveTargets(db, caller, f).Ok?
    requires var targets, base := ResolveTargets(db, caller, f).value, BaseRows(db, caller, reg, f);
             && |parts| == |targets| && PartsHonest(parts, f, base, targets, scans, AsOf(f, now))
             && SectionsFlat(whole, parts) && TotalsExact(whole.totals, base, targets)
    ensures RouteAccepts(f) ==> TotalsAre(whole, Count(db.findings, InReport(db, caller, reg, f)))
    ensures RouteAccepts(f) ==> TotalsCountStored(whole.totals, db, caller, reg, f)
    ensures PartsExact(parts, db, caller, reg, f, ResolveTargets(db, caller, f).value, scans, now)
  {
    if RouteAccepts(f) {
      ReportCountsPage(db, caller, reg, f, whole, parts, scans, AsOf(f, now));
      TotalsStored(whole.totals, db, caller, reg, f);
    }
    TargetsApart(db, caller, f);
    PartsAreExact(parts, db, caller, reg, f, ResolveTargets(db, caller, f).value, scans, now);
  }

  lemma TargetsApart(db: Db, caller: Caller, f: ReportFilters)
    requires ValidDb(db) && ResolveTargets(db, caller, f).Ok?
    ensures DistinctTargets(ResolveTargets(db, caller, f).value, db.targets)
  {
    assert DistinctTargets(db.targets, db.targets);
    ResolvedDistinct(db, caller, f);
  }

  lemma CountsAre(base: seq<Finding>, targets: seq<Target>, parts: seq<Part>, whole: Report)
    requires forall i, j :: 0 <= i < j < |targets| ==> targets[i].id != targets[j].id
    requires |parts| == |targets| && forall i :: 0 <= i < |targets| ==>
               parts[i].breakdown == Breakdown(TargetRows(base, targets[i]), targets[i].name)
    requires SectionsFlat(whole, parts) && TotalsExact(whole.totals, base, targets)
    ensures TotalsAre(whole, Count(base, OnSomeDefault(targets)))
  {
    forall keys | Covers(keys, whole.totals)
      ensures Sum(Map(keys, TotalAt(whole.totals))) == Count(base, OnSomeDefault(targets)) {
      TotalsConserve(base, targets, parts, whole.totals, keys);
    }
    ReportFindingsCount(base, targets);
    BreakdownRowsSum(base, targets, parts);
  }

  // ----- what the report says of the stored findings -----

  /** In the report and of this target. */
  function InReportOf(db: Db, caller: Caller, reg: Registry, f: ReportFilters, target: int): Finding -> bool {
    (g: Finding) => InReport(db, caller, reg, f)(g) && g.targetId == target
  }

  lemma TargetRowsMean(db: Db, caller: Caller, reg: Registry, f: ReportFilters, t: Target)
    requires ValidDb(db) && t in db.targets
    ensures TargetRows(BaseRows(db, caller, reg, f), t) == Filter(db.findings, InReportOf(db, caller, reg, f, t.id))
  {
    var base, ours := BaseRows(db, caller, reg, f), InReportOf(db, caller, reg, f, t.id);
    forall g | g in db.findings ensures ours(g) == (g in base && OnDefault(t)(g)) {
      InReportMeans(db, caller, reg, f, g);
      if g.targetId == t.id {
        UniqueTarget(db, g);
      }
    }
    if caller.workspaces == Some({}) {
      CountZero(db.findings, ours);
    } else {
      FilterNarrow(db.findings, Selecting(db, caller, reg, BaseFilters(f), CategoryFilter(f.category, [])),
                   OnDefault(t), ours);
    }
  }

  /** A target's three sections, said of its findings and its runs. */
  ghost predicate PartExact(p: Part, rows: seq<Finding>, t: Target, scans: seq<Scan>, f: ReportFilters, now: int) {
    && BreakdownExact(p.breakdown, rows, t)
    && (forall i :: 0 <= i < |p.openAge| ==> AgeExact(p.openAge[i], rows, t, AsOf(f, now)))
    && (forall g :: g in rows && g.state == Open ==> g.severity in Map(p.openAge, AgeSeverity))
    && Distinct(Map(p.openAge, AgeSeverity)) && TextOrder(Map(p.openAge, AgeSeverity))
    && CoverageExact(p.coverage, scans, t, f, now)
  }

  lemma OpenListed(p: Part, rows: seq<Finding>, t: Target, g: Finding)
    requires p.breakdown == Breakdown(rows, t.name) && SectionsAgree(p) && g in rows && g.state == Open
    ensures g.severity in Map(p.openAge, AgeSeverity)
  {
    BreakdownFacts(rows, t.name);
    MappedMembership(p.breakdown, BreakdownKey, SeverityState(g));
  }

  lemma HonestIsExact(p: Part, rows: seq<Finding>, t: Target, scans: seq<Scan>, f: ReportFilters, now: int)
    requires HonestPart(p, rows, t, Filter(scans, Eligible(f, AsOf(f, now), t)), AsOf(f, now),
                        if WindowTo(f).Some? then Some(AsOf(f, now)) else None)
    ensures PartExact(p, rows, t, scans, f, now)
  {
    BreakdownIsExact(rows, t);
    forall i | 0 <= i < |p.openAge| ensures AgeExact(p.openAge[i], rows, t, AsOf(f, now)) {
      AgeIsExact(p.openAge[i], rows, t, AsOf(f, now));
    }
    forall g | g in rows && g.state == Open ensures g.severity in Map(p.openAge, AgeSeverity) {
      OpenListed(p, rows, t, g);
    }
    CoverageIsExact(p.coverage, scans, t, f, now);
  }

  /** One exact part per target, over the stored findings. */
  ghost predicate PartsExact(parts: seq<Part>, db: Db, caller: Caller, reg: Registry, f: ReportFilters,
                             targets: seq<Target>, scans: seq<Scan>, now: int) {
    |parts| == |targets| && forall i :: 0 <= i < |parts| ==>
      PartExact(parts[i], Filter(db.findings, InReportOf(db, caller, reg, f, targets[i].id)), targets[i], scans, f, now)
  }

  lemma PartsAreExact(parts: seq<Part>, db: Db, caller: Caller, reg: Registry, f: ReportFilters, targets: seq<Target>,
                      scans: seq<Scan>, now: int)
    requires ValidDb(db) && |parts| == |targets| && forall t :: t in targets ==> t in db.targets
    requires PartsHonest(parts, f, BaseRows(db, caller, reg, f), targets, scans, AsOf(f, now))
    ensures PartsExact(parts, db, caller, reg, f, targets, scans, now)
  {
    forall i | 0 <= i < |parts|
      ensures PartExact(parts[i], Filter(db.findings, InReportOf(db, caller, reg, f, targets[i].id)), targets[i],
                        scans, f, now)
    {
      TargetRowsMean(db, caller, reg, f, targets[i]);
      HonestIsExact(parts[i], TargetRows(BaseRows(db, caller, reg, f), targets[i]), targets[i], scans, f, now);
    }
  }

  lemma {:induction false} ReportFindingsFilter(base: seq<Finding>, targets: seq<Target>, p: Finding -> bool)
    ensures Filter(ReportFindings(base, targets), p) == ReportFindings(Filter(base, p), targets)
    decreases |targets|
  {
    if targets != [] {
      var n := |targets| - 1;
      ReportFindingsFilter(base, targets[..n], p);
      FilterAppend(ReportFindings(base, targets[..n]), TargetRows(base, targets[n]), p);
      FiltersCommute(base, OnDefault(targets[n]), p);
    }
  }

  /** Each cross-target total is the number of stored findings asked for, of that severity and state, on
      their own default branches. */
  ghost predicate TotalsCountStored(totals: map<(Severity, FindingState), nat>, db: Db, caller: Caller, reg: Registry,
                                    f: ReportFilters) {
    forall severity, state ::
      Get(totals, (severity, state)) == Count(db.findings, Both(InReport(db, caller, reg, f), Of(severity, state)))
  }

  function Both(p: Finding -> bool, q: Finding -> bool): Finding -> bool {
    (g: Finding) => p(g) && q(g)
  }

  lemma CountOverAll(base: seq<Finding>, ts: seq<Target>, all: seq<Finding>, p: Finding -> bool, key: Finding -> bool,
                     both: Finding -> bool)
    requires forall i, j :: 0 <= i < j < |ts| ==> ts[i].id != ts[j].id
    requires Filter(base, OnSomeDefault(ts)) == Filter(all, p)
    requires forall g :: g in all ==> both(g) == (p(g) && key(g))
    ensures Count(ReportFindings(base, ts), key) == Count(all, both)
  {
    ReportFindingsFilter(base, ts, key);
    ReportFindingsCount(Filter(base, key), ts);
    FiltersCommute(base, key, OnSomeDefault(ts));
    FilterNarrow(all, p, key, both);
  }

  lemma BothMeans(p: Finding -> bool, severity: Severity, state: FindingState, g: Finding)
    ensures Both(p, Of(severity, state))(g) == (p(g) && KeyIs(SeverityState, (severity, state))(g))
  {
    assert KeyIs(SeverityState, (severity, state))(g) == (SeverityState(g) == (severity, state));
    assert Of(severity, state)(g) == (g.severity == severity && g.state == state);
  }

  lemma TotalsStored(totals: map<(Severity, FindingState), nat>, db: Db, caller: Caller, reg: Registry,
                     f: ReportFilters)
    requires ValidDb(db) && RouteAccepts(f) && ResolveTargets(db, caller, f).Ok?
    requires TotalsExact(totals, BaseRows(db, caller, reg, f), ResolveTargets(db, caller, f).value)
    ensures TotalsCountStored(totals, db, caller, reg, f)
  {
    var base, ts, p := BaseRows(db, caller, reg, f), ResolveTargets(db, caller, f).value, InReport(db, caller, reg, f);
    TargetsApart(db, caller, f);
    ReportIsPage(db, caller, reg, f);
    forall severity, state
      ensures Get(totals, (severity, state)) == Count(db.findings, Both(p, Of(severity, state)))
    {
      forall g ensures Both(p, Of(severity, state))(g) == (p(g) && KeyIs(SeverityState, (severity, state))(g)) {
        BothMeans(p, severity, state, g);
      }
      CountOverAll(base, ts, db.findings, p, KeyIs(SeverityState, (severity, state)), Both(p, Of(severity, state)));
    }
  }
}
