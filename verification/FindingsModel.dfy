/** The rows the findings API reads, SQL's three-valued logic and joins, and the
    plain-logic meaning of every filter. */
module FindingsModel {
  import opened Prelude
  import opened Seqs
  import opened ToolRegistry

  datatype Severity = Critical | High | Medium | Low | Informational
  datatype FindingState = Open | AcceptedRisk | FalsePositive | WontFix | Mitigated | Reopened
  datatype Fixability = Fixable | NoKnownFix | Unknown

  const SEVERITIES := [Critical, High, Medium, Low, Informational]
  const STATES := [Open, AcceptedRisk, FalsePositive, WontFix, Mitigated, Reopened]
  const BUCKETS := [Fixable, NoKnownFix, Unknown]

  function SeverityWeight(s: Severity): int {
    match s
    case Critical => 5 case High => 4 case Medium => 3 case Low => 2 case Informational => 1
  }

  /** Worse, by name. */
  predicate MoreSevere(a: Severity, b: Severity) {
    match a
    case Critical => !b.Critical?
    case High => b.Medium? || b.Low? || b.Informational?
    case Medium => b.Low? || b.Informational?
    case Low => b.Informational?
    case Informational => false
  }

  lemma WeightIsSeverity(a: Severity, b: Severity)
    ensures SeverityWeight(a) > SeverityWeight(b) <==> MoreSevere(a, b)
    ensures SeverityWeight(a) == SeverityWeight(b) <==> a == b
  {
  }

  predicate IsOpen(s: FindingState) {
    s == Open || s == Reopened
  }

  /** Times are microseconds; nullable columns are options. */
  datatype Finding = Finding(
    id: int, targetId: int, tool: string, ruleId: string, title: string, filePath: string,
    severity: Severity, score: int, scope: string, branch: string, state: FindingState,
    cveId: Option<string>, epss: Option<real>, kev: bool, firstSeen: int, lastSeen: int)

  datatype Target = Target(
    id: int, workspaceId: int, name: string, defaultBranch: string,
    environment: Option<string>, owner: Option<string>, deleted: bool, active: bool)

  datatype Membership = Membership(targetId: int, groupId: int)
  datatype Enrichment = Enrichment(cveId: string, osvFound: bool, fixedVersions: Option<string>)

  datatype Db = Db(
    findings: seq<Finding>, targets: seq<Target>,
    memberships: seq<Membership>, enrichment: seq<Enrichment>)

  function LookupTarget(targets: seq<Target>, id: int): (r: Option<Target>)
    ensures r.Some? ==> r.value in targets && r.value.id == id
    ensures r.None? <==> forall t :: t in targets ==> t.id != id
  {
    if targets == [] then None
    else if targets[0].id == id then Some(targets[0])
    else LookupTarget(targets[1..], id)
  }

  /** Primary keys, the foreign key from finding to target, and the unique
      (target, group) and cve_id constraints. */
  ghost predicate ValidDb(db: Db) {
    && (forall i, j :: 0 <= i < j < |db.findings| ==> db.findings[i].id != db.findings[j].id)
    && (forall i, j :: 0 <= i < j < |db.targets| ==> db.targets[i].id != db.targets[j].id)
    && (forall f :: f in db.findings ==> LookupTarget(db.targets, f.targetId).Some?)
    && Distinct(db.memberships)
    && (forall i, j :: 0 <= i < j < |db.enrichment| ==> db.enrichment[i].cveId != db.enrichment[j].cveId)
  }

  // ----- three-valued logic -----

  datatype Truth = TT | FF | UU

  function Is(b: bool): Truth {
    if b then TT else FF
  }

  function Not3(a: Truth): Truth {
    match a case TT => FF case FF => TT case UU => UU
  }

  function And3(a: Truth, b: Truth): Truth {
    if a == FF || b == FF then FF else if a == UU || b == UU then UU else TT
  }

  function Or3(a: Truth, b: Truth): Truth {
    if a == TT || b == TT then TT else if a == UU || b == UU then UU else FF
  }

  /** `column IN (values)`: NULL is in nothing when the list is empty, else unknown. */
  function In3<T(==)>(column: Option<T>, values: seq<T>): Truth {
    match column
    case None => if values == [] then FF else UU
    case Some(v) => Is(v in values)
  }

  /** IN is OR over equality, and OR is AND through NOT: SQL's three-valued readings of both. */
  lemma InIsOr<T>(column: Option<T>, v: T, rest: seq<T>)
    ensures In3(column, []) == FF
    ensures In3(column, [v] + rest) == Or3(if column.None? then UU else Is(column.value == v), In3(column, rest))
  {
  }

  lemma OrThroughAnd(a: Truth, b: Truth)
    ensures Or3(a, b) == Not3(And3(Not3(a), Not3(b)))
    ensures Not3(Not3(a)) == a
    ensures And3(a, b) == (if a == TT then b else if b == TT then a else if a == b then a else FF)
  {
  }

  function NotEq3<T(==)>(column: Option<T>, value: T): Truth {
    match column case None => UU case Some(v) => Is(v != value)
  }

  // ----- fixability -----

  /** SELECT cve_id FROM cveenrichment WHERE osv_found. */
  function KnownCves(enrichment: seq<Enrichment>): seq<string> {
    Map(Filter(enrichment, (e: Enrichment) => Is(e.osvFound) == TT), (e: Enrichment) => e.cveId)
  }

  /** ... AND fixed_versions IS NOT NULL AND fixed_versions != '[]'. */
  function FixableCves(enrichment: seq<Enrichment>): seq<string> {
    Map(Filter(enrichment, (e: Enrichment) =>
        And3(Is(e.osvFound), And3(Is(e.fixedVersions.Some?), NotEq3(e.fixedVersions, "[]"))) == TT),
      (e: Enrichment) => e.cveId)
  }

  function FixabilityCondition(bucket: Fixability, cveId: Option<string>, enrichment: seq<Enrichment>): Truth {
    var fixable, known := FixableCves(enrichment), KnownCves(enrichment);
    match bucket
    case Fixable => In3(cveId, fixable)
    case NoKnownFix => And3(In3(cveId, known), Not3(In3(cveId, fixable)))
    case Unknown => Or3(Is(cveId.None?), Not3(In3(cveId, known)))
  }

  predicate HasRow(enrichment: seq<Enrichment>, cveId: string) {
    exists e :: e in enrichment && e.cveId == cveId && e.osvFound
  }

  predicate HasFix(enrichment: seq<Enrichment>, cveId: string) {
    exists e :: e in enrichment && e.cveId == cveId && e.osvFound && e.fixedVersions.Some?
      && e.fixedVersions.value != "[]"
  }

  /** What each bucket means, said without SQL. */
  function Bucket(enrichment: seq<Enrichment>, cveId: Option<string>): Fixability {
    if cveId.None? || !HasRow(enrichment, cveId.value) then Unknown
    else if HasFix(enrichment, cveId.value) then Fixable
    else NoKnownFix
  }

  lemma MappedMembership<A, B>(s: seq<A>, f: A -> B, b: B)
    ensures b in Map(s, f) <==> exists a :: a in s && f(a) == b
  {
    if b in Map(s, f) {
      var i :| 0 <= i < |s| && Map(s, f)[i] == b;
      assert s[i] in s;
    }
    if a :| a in s && f(a) == b {
      var i :| 0 <= i < |s| && s[i] == a;
      assert Map(s, f)[i] == b;
    }
  }

  lemma CvesOf(enrichment: seq<Enrichment>, cveId: string)
    ensures cveId in KnownCves(enrichment) <==> HasRow(enrichment, cveId)
    ensures cveId in FixableCves(enrichment) <==> HasFix(enrichment, cveId)
  {
    var known := Filter(enrichment, (e: Enrichment) => Is(e.osvFound) == TT);
    var fixable := Filter(enrichment, (e: Enrichment) =>
        And3(Is(e.osvFound), And3(Is(e.fixedVersions.Some?), NotEq3(e.fixedVersions, "[]"))) == TT);
    MappedMembership(known, (e: Enrichment) => e.cveId, cveId);
    MappedMembership(fixable, (e: Enrichment) => e.cveId, cveId);
    if HasFix(enrichment, cveId) {
      var e :| e in enrichment && e.cveId == cveId && e.osvFound && e.fixedVersions.Some?
        && e.fixedVersions.value != "[]";
      assert e in fixable;
    }
    if HasRow(enrichment, cveId) {
      var e :| e in enrichment && e.cveId == cveId && e.osvFound;
      assert e in known;
    }
  }

  /** Under three-valued logic the buckets are disjoint and cover every row, a NULL
      cve_id included: exactly one condition is true, and it is the bucket's own. */
  lemma BucketsPartition(enrichment: seq<Enrichment>, cveId: Option<string>, bucket: Fixability)
    ensures FixabilityCondition(bucket, cveId, enrichment) == TT <==> Bucket(enrichment, cveId) == bucket
  {
    if cveId.Some? {
      CvesOf(enrichment, cveId.value);
    }
  }

  // ----- the verdict printed on a row -----

  function LookupEnrichment(enrichment: seq<Enrichment>, cveId: string): (r: Option<Enrichment>)
    ensures r.Some? ==> r.value in enrichment && r.value.cveId == cveId
    ensures r.None? <==> forall e :: e in enrichment ==> e.cveId != cveId
  {
    if enrichment == [] then None
    else if enrichment[0].cveId == cveId then Some(enrichment[0])
    else LookupEnrichment(enrichment[1..], cveId)
  }

  /** fixability_for_finding. `truthy` is json.loads followed by a truth test, None being
      a parse error. */
  function Verdict(enrichment: seq<Enrichment>, cveId: Option<string>, truthy: string -> Option<bool>): Fixability {
    if cveId.None? || cveId.value == "" then Unknown else
    var row := LookupEnrichment(enrichment, cveId.value);
    if row.None? || !row.value.osvFound then Unknown
    else if row.value.fixedVersions.None? || row.value.fixedVersions.value == "" then NoKnownFix
    else match truthy(row.value.fixedVersions.value)
      case None => Unknown
      case Some(versions) => if versions then Fixable else NoKnownFix
  }

  /** Stored fixed_versions text on which the SQL test and the JSON test agree. */
  predicate PlainVersions(text: Option<string>, truthy: string -> Option<bool>) {
    text.None? || text.value == "[]" || (text.value != "" && truthy(text.value) == Some(true))
  }

  /** The verdict shown on a row is the bucket the filter and the facet put it in exactly
      when the stored text is NULL, "[]" or a non-empty JSON value, and the empty cve_id
      has no enrichment row. */
  lemma VerdictAgreesExactly(enrichment: seq<Enrichment>, cveId: Option<string>, truthy: string -> Option<bool>)
    requires forall i, j :: 0 <= i < j < |enrichment| ==> enrichment[i].cveId != enrichment[j].cveId
    requires truthy("[]") == Some(false)
    ensures Verdict(enrichment, cveId, truthy) == Bucket(enrichment, cveId)
            <==> cveId.Some? ==>
                   if cveId.value == "" then !HasRow(enrichment, "")
                   else forall e :: e in enrichment && e.cveId == cveId.value && e.osvFound ==>
                     PlainVersions(e.fixedVersions, truthy)
  {
    if cveId.Some? {
      var row := LookupEnrichment(enrichment, cveId.value);
      forall e | e in enrichment && e.cveId == cveId.value ensures row == Some(e) {
        var i :| 0 <= i < |enrichment| && enrichment[i] == e;
        var j :| 0 <= j < |enrichment| && enrichment[j] == row.value;
      }
    }
  }

  // ----- the texts the enrichment writer stores -----

  /** The elements of a JSON array, each already encoded, comma-separated. */
  function Joined(elements: seq<string>): string {
    if elements == [] then "" else if |elements| == 1 then elements[0] else elements[0] + ", " + Joined(elements[1..])
  }

  /** json.dumps of a list. */
  function DumpsList(elements: seq<string>): string {
    "[" + Joined(elements) + "]"
  }

  /** `json.dumps(fixes) if fixes else None`, each fix an encoded object. */
  function StoredVersions(fixes: seq<string>): (r: Option<string>)
    ensures r.None? <==> fixes == []
    ensures r.Some? ==> r.value == DumpsList(fixes)
  {
    if fixes == [] then None else Some(DumpsList(fixes))
  }

  predicate EncodedObjects(fixes: seq<string>) {
    forall i :: 0 <= i < |fixes| ==> fixes[i] != ""
  }

  /** Written by the enrichment lookup, and only for a CVE a finding names. */
  ghost predicate WrittenRow(e: Enrichment) {
    e.cveId != "" && exists fixes :: EncodedObjects(fixes) && e.fixedVersions == StoredVersions(fixes)
  }

  /** json.loads undoes json.dumps, and a list is truthy when it is not empty. */
  ghost predicate ReadsLists(truthy: string -> Option<bool>) {
    forall fixes :: EncodedObjects(fixes) ==> truthy(DumpsList(fixes)) == Some(fixes != [])
  }

  lemma StoredIsPlain(fixes: seq<string>, truthy: string -> Option<bool>)
    requires EncodedObjects(fixes) && ReadsLists(truthy)
    ensures PlainVersions(StoredVersions(fixes), truthy)
  {
    if fixes != [] {
      assert |DumpsList(fixes)| >= 3;
    }
  }

  /** On every row the application writes, the verdict shown is the bucket the filter and the
      facet use. */
  lemma StoredVerdictAgrees(enrichment: seq<Enrichment>, cveId: Option<string>, truthy: string -> Option<bool>)
    requires forall i, j :: 0 <= i < j < |enrichment| ==> enrichment[i].cveId != enrichment[j].cveId
    requires ReadsLists(truthy) && forall e :: e in enrichment ==> WrittenRow(e)
    ensures Verdict(enrichment, cveId, truthy) == Bucket(enrichment, cveId)
  {
    assert truthy("[]") == Some(false) by {
      assert EncodedObjects([]) && DumpsList([]) == "[]";
    }
    forall e | e in enrichment ensures e.cveId != "" && PlainVersions(e.fixedVersions, truthy) {
      var fixes :| EncodedObjects(fixes) && e.fixedVersions == StoredVersions(fixes);
      StoredIsPlain(fixes, truthy);
    }
    VerdictAgreesExactly(enrichment, cveId, truthy);
  }

  /** And it says what was written: a fix is known exactly when the list was not empty. */
  lemma StoredVerdictMeans(enrichment: seq<Enrichment>, e: Enrichment, fixes: seq<string>,
                           truthy: string -> Option<bool>)
    requires forall i, j :: 0 <= i < j < |enrichment| ==> enrichment[i].cveId != enrichment[j].cveId
    requires ReadsLists(truthy) && EncodedObjects(fixes)
    requires e in enrichment && e.cveId != "" && e.osvFound && e.fixedVersions == StoredVersions(fixes)
    ensures Verdict(enrichment, Some(e.cveId), truthy) == if fixes == [] then NoKnownFix else Fixable
  {
    var row := LookupEnrichment(enrichment, e.cveId).value;
    var i :| 0 <= i < |enrichment| && enrichment[i] == e;
    var j :| 0 <= j < |enrichment| && enrichment[j] == row;
  }

  // ----- filters -----

  datatype Filters = Filters(
    targetId: Option<seq<int>>, groupId: Option<int>, branch: Option<string>,
    state: Option<seq<FindingState>>, resolved: Option<bool>, severity: Option<seq<Severity>>,
    tool: Option<seq<string>>, fixability: Option<seq<Fixability>>,
    environment: Option<seq<string>>, owner: Option<seq<string>>, search: Option<string>,
    ruleId: Option<seq<string>>, dependencyScope: Option<seq<string>>, newSinceDays: Option<int>,
    dateFrom: Option<int>, dateTo: Option<int>)

  /** Who asks: workspace scope (None is a global admin), the request's instant, and
      the engine's ILIKE, about which nothing is assumed. */
  datatype Caller = Caller(workspaces: Option<set<int>>, now: int, ilike: (string, string) -> bool)

  /** narrow_workspace_scope: the workspace switcher layered on the caller's scope, 403 for a
      workspace outside it. */
  function Narrowed(caller: Caller, workspace: Option<int>): Outcome<Caller> {
    if workspace.None? then Ok(caller)
    else if caller.workspaces.Some? && workspace.value !in caller.workspaces.value then HttpError(403)
    else Ok(caller.(workspaces := Some({workspace.value})))
  }

  lemma NarrowedMeans(caller: Caller, workspace: Option<int>)
    ensures Narrowed(caller, workspace)
            == (match workspace
                case None => Ok(caller)
                case Some(ws) => if caller.workspaces.None? || ws in caller.workspaces.value
                                 then Ok(Caller(Some({ws}), caller.now, caller.ilike)) else HttpError(403))
  {
  }

  const DAY := 86_400_000_000

  /** A multi-select is active when it is a non-empty list; None and [] both mean "no filter". */
  predicate Active<T>(selection: Option<seq<T>>) {
    selection.Some? && |selection.value| > 0
  }

  predicate Picks<T(==)>(selection: Option<seq<T>>, v: T) {
    Active(selection) ==> v in selection.value
  }

  predicate PicksColumn<T(==)>(selection: Option<seq<T>>, column: Option<T>) {
    Active(selection) ==> column.Some? && column.value in selection.value
  }

  function Cutoff(now: int, days: int): int {
    now - (if days < 1 then 1 else days) * DAY
  }

  predicate InScope(caller: Caller, t: Target) {
    !t.deleted && (caller.workspaces.Some? ==> t.workspaceId in caller.workspaces.value)
  }

  predicate SearchHits(caller: Caller, search: string, f: Finding, t: Target) {
    var like := "%" + search + "%";
    || caller.ilike(f.title, like)
    || caller.ilike(f.filePath, like)
    || caller.ilike(f.ruleId, like)
    || (f.cveId.Some? && caller.ilike(f.cveId.value, like))
    || caller.ilike(t.name, like)
  }

  predicate StateSelected(q: Filters, s: FindingState) {
    if Active(q.state) then s in q.state.value
    else q.resolved.Some? ==> (q.resolved.value <==> !IsOpen(s))
  }

  predicate InWindow(q: Filters, f: Finding) {
    && (q.dateFrom.Some? ==> f.lastSeen >= q.dateFrom.value)
    && (q.dateTo.Some? ==> f.firstSeen <= q.dateTo.value)
  }

  /** The meaning of a filter set for one finding and the target it belongs to. */
  predicate MatchesTarget(db: Db, caller: Caller, q: Filters, f: Finding, t: Target) {
    && InScope(caller, t)
    && (q.groupId.Some? ==> Membership(t.id, q.groupId.value) in db.memberships)
    && Picks(q.targetId, f.targetId)
    && (q.branch.Some? ==> f.branch == q.branch.value)
    && InWindow(q, f)
    && StateSelected(q, f.state)
    && Picks(q.severity, f.severity)
    && Picks(q.tool, f.tool)
    && Picks(q.ruleId, f.ruleId)
    && (q.newSinceDays.Some? ==> f.firstSeen >= Cutoff(caller.now, q.newSinceDays.value))
    && Picks(q.dependencyScope, f.scope)
    && PicksColumn(q.environment, t.environment)
    && PicksColumn(q.owner, t.owner)
    && Picks(q.fixability, Bucket(db.enrichment, f.cveId))
    && (q.search.Some? && q.search.value != "" ==> SearchHits(caller, q.search.value, f, t))
  }

  predicate Matches(db: Db, caller: Caller, q: Filters, f: Finding) {
    var t := LookupTarget(db.targets, f.targetId);
    t.Some? && MatchesTarget(db, caller, q, f, t.value)
  }

  function Matching(db: Db, caller: Caller, q: Filters): Finding -> bool {
    f => Matches(db, caller, q, f)
  }

  datatype CategoryFilter = CategoryFilter(category: Option<string>, exclude: seq<string>)

  predicate InCategory(reg: Registry, c: CategoryFilter, f: Finding) {
    && ToolCategory(reg, f.tool) !in c.exclude
    && (c.category.Some? ==> ToolCategory(reg, f.tool) == c.category.value)
  }

  function Selecting(db: Db, caller: Caller, reg: Registry, q: Filters, c: CategoryFilter): Finding -> bool {
    f => Matches(db, caller, q, f) && InCategory(reg, c, f)
  }

  /** The filtered set every view is a view of; empty for a caller in no workspace. */
  function Selected(db: Db, caller: Caller, reg: Registry, q: Filters, c: CategoryFilter): seq<Finding> {
    if caller.workspaces == Some({}) then []
    else Filter(db.findings, Selecting(db, caller, reg, q, c))
  }

  /** What the parameters of the list ask of a finding and its target, written out. */
  ghost predicate AsksFor(db: Db, caller: Caller, reg: Registry, q: Filters, c: CategoryFilter, f: Finding, t: Target) {
    && !t.deleted && (caller.workspaces.Some? ==> t.workspaceId in caller.workspaces.value)
    && (q.targetId.Some? && q.targetId.value != [] ==> f.targetId in q.targetId.value)
    && (q.groupId.Some? ==> Membership(f.targetId, q.groupId.value) in db.memberships)
    && (q.branch.Some? ==> f.branch == q.branch.value)
    && (if q.state.Some? && q.state.value != [] then f.state in q.state.value
        else && (q.resolved == Some(false) ==> f.state == Open || f.state == Reopened)
             && (q.resolved == Some(true) ==> f.state != Open && f.state != Reopened))
    && (q.severity.Some? && q.severity.value != [] ==> f.severity in q.severity.value)
    && (q.tool.Some? && q.tool.value != [] ==> f.tool in q.tool.value)
    && (q.ruleId.Some? && q.ruleId.value != [] ==> f.ruleId in q.ruleId.value)
    && (q.dependencyScope.Some? && q.dependencyScope.value != [] ==> f.scope in q.dependencyScope.value)
    && (q.fixability.Some? && q.fixability.value != [] ==> Bucket(db.enrichment, f.cveId) in q.fixability.value)
    && (q.environment.Some? && q.environment.value != [] ==>
          t.environment.Some? && t.environment.value in q.environment.value)
    && (q.owner.Some? && q.owner.value != [] ==> t.owner.Some? && t.owner.value in q.owner.value)
    && (q.search.Some? && q.search.value != "" ==> Hit(caller, "%" + q.search.value + "%", f, t))
    && (q.newSinceDays.Some? ==>
          f.firstSeen >= caller.now - (if q.newSinceDays.value < 1 then 1 else q.newSinceDays.value) * 86_400_000_000)
    && (q.dateFrom.Some? ==> f.lastSeen >= q.dateFrom.value)
    && (q.dateTo.Some? ==> f.firstSeen <= q.dateTo.value)
    && (c.category.Some? ==> ToolCategory(reg, f.tool) == c.category.value)
    && ToolCategory(reg, f.tool) !in c.exclude
  }

  predicate Hit(caller: Caller, pattern: string, f: Finding, t: Target) {
    || caller.ilike(f.title, pattern) || caller.ilike(f.filePath, pattern) || caller.ilike(f.ruleId, pattern)
    || (f.cveId.Some? && caller.ilike(f.cveId.value, pattern)) || caller.ilike(t.name, pattern)
  }

  lemma AsksIsMatches(db: Db, caller: Caller, reg: Registry, q: Filters, c: CategoryFilter, f: Finding, t: Target)
    requires t.id == f.targetId
    ensures AsksFor(db, caller, reg, q, c, f, t) == (MatchesTarget(db, caller, q, f, t) && InCategory(reg, c, f))
  {
    if q.newSinceDays.Some? {
      assert Cutoff(caller.now, q.newSinceDays.value)
             == caller.now - (if q.newSinceDays.value < 1 then 1 else q.newSinceDays.value) * 86_400_000_000;
    }
  }

  /** A stored finding is in the filtered set exactly when its target is live, in scope and, with it,
      what the parameters ask for. */
  lemma SelectedMeans(db: Db, caller: Caller, reg: Registry, q: Filters, c: CategoryFilter, f: Finding)
    requires ValidDb(db)
    ensures f in Selected(db, caller, reg, q, c)
            <==> f in db.findings
                 && exists t :: t in db.targets && t.id == f.targetId && AsksFor(db, caller, reg, q, c, f, t)
  {
    if f in db.findings {
      var own := LookupTarget(db.targets, f.targetId).value;
      AsksIsMatches(db, caller, reg, q, c, f, own);
      if t :| t in db.targets && t.id == f.targetId && AsksFor(db, caller, reg, q, c, f, t) {
        OneTargetPerId(db, t, own);
      }
    }
  }

  lemma OneTargetPerId(db: Db, a: Target, b: Target)
    requires ValidDb(db) && a in db.targets && b in db.targets && a.id == b.id
    ensures a == b
  {
    var i :| 0 <= i < |db.targets| && db.targets[i] == a;
    var j :| 0 <= j < |db.targets| && db.targets[j] == b;
  }

  lemma OneFindingPerId(db: Db)
    requires ValidDb(db)
    ensures Distinct(db.findings)
    ensures forall a, b :: a in db.findings && b in db.findings && a.id == b.id ==> a == b
  {
    forall a, b | a in db.findings && b in db.findings && a.id == b.id ensures a == b {
      var i :| 0 <= i < |db.findings| && db.findings[i] == a;
      var j :| 0 <= j < |db.findings| && db.findings[j] == b;
    }
  }

  lemma SelectedDistinct(db: Db, caller: Caller, reg: Registry, q: Filters, c: CategoryFilter)
    requires ValidDb(db)
    ensures var s := Selected(db, caller, reg, q, c);
            forall a, b :: a in s && b in s && a.id == b.id ==> a == b
    ensures Distinct(Selected(db, caller, reg, q, c))
  {
    OneFindingPerId(db);
    if caller.workspaces != Some({}) {
      FilterDistinct(db.findings, Selecting(db, caller, reg, q, c));
    }
  }
}
