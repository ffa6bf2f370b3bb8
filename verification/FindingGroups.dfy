/** GET /api/findings/groups: one row per decision instead of per detection. The grouped
    view must account for the same findings the flat list shows. */
module FindingGroups {
  import opened Prelude
  import opened Seqs
  import opened Ordering
  import opened ToolRegistry
  import opened FindingsModel
  import opened FindingsQuery

  const MAX_GROUPS := 2000
  const UNGROUPED_CATEGORIES := ["Secrets", "Malicious Package"]

  function UngroupedTools(reg: Registry): seq<string> {
    ToolsInCategory(reg, UNGROUPED_CATEGORIES[0]) + ToolsInCategory(reg, UNGROUPED_CATEGORIES[1])
  }

  function Collapsible(rows: seq<Finding>, reg: Registry): seq<Finding> {
    Filter(rows, (f: Finding) => f.tool !in UngroupedTools(reg))
  }

  function Singles(rows: seq<Finding>, reg: Registry): seq<Finding> {
    Filter(rows, (f: Finding) => f.tool in UngroupedTools(reg))
  }

  // ----- aggregates -----

  function MaxBy(s: seq<Finding>, f: Finding -> int): int {
    if s == [] then 0
    else if |s| == 1 then f(s[0])
    else
      var m := MaxBy(s[1..], f);
      if f(s[0]) > m then f(s[0]) else m
  }

  function MinBy(s: seq<Finding>, f: Finding -> int): int {
    if s == [] then 0
    else if |s| == 1 then f(s[0])
    else
      var m := MinBy(s[1..], f);
      if f(s[0]) < m then f(s[0]) else m
  }

  lemma {:induction false} MaxByAttained(s: seq<Finding>, f: Finding -> int) returns (x: Finding)
    requires s != []
    ensures x in s && f(x) == MaxBy(s, f)
    ensures forall y :: y in s ==> f(y) <= MaxBy(s, f)
  {
    x := s[0];
    if |s| > 1 {
      var y := MaxByAttained(s[1..], f);
      if f(x) <= f(y) {
        x := y;
      }
    }
  }

  lemma {:induction false} MinByAttained(s: seq<Finding>, f: Finding -> int) returns (x: Finding)
    requires s != []
    ensures x in s && f(x) == MinBy(s, f)
    ensures forall y :: y in s ==> f(y) >= MinBy(s, f)
  {
    x := s[0];
    if |s| > 1 {
      var y := MinByAttained(s[1..], f);
      if f(x) >= f(y) {
        x := y;
      }
    }
  }

  /** max(coalesce(epss_score, 0.0)). */
  function MaxEpss(s: seq<Finding>): real {
    if s == [] then 0.0
    else if |s| == 1 then Epss(s[0])
    else
      var m := MaxEpss(s[1..]);
      if Epss(s[0]) > m then Epss(s[0]) else m
  }

  lemma {:induction false} MaxEpssAttained(s: seq<Finding>) returns (x: Finding)
    requires s != []
    ensures x in s && Epss(x) == MaxEpss(s)
    ensures forall y :: y in s ==> Epss(y) <= MaxEpss(s)
  {
    x := s[0];
    if |s| > 1 {
      var y := MaxEpssAttained(s[1..]);
      if Epss(x) <= Epss(y) {
        x := y;
      }
    }
  }

  function Epss(f: Finding): real {
    if f.epss.Some? then f.epss.value else 0.0
  }

  datatype GroupRow = GroupRow(
    tool: string, ruleId: string, findingCount: nat, weight: int, maxScore: int, oldest: int, newest: int,
    newestLast: int, targetCount: nat, fileCount: nat, maxEpss: real, kevCount: nat)

  function Weight(f: Finding): int { SeverityWeight(f.severity) }
  function Score(f: Finding): int { f.score }
  function FirstSeen(f: Finding): int { f.firstSeen }
  function LastSeen(f: Finding): int { f.lastSeen }
  function GroupKey(f: Finding): (string, string) { (f.tool, f.ruleId) }
  function RowKey(g: GroupRow): (string, string) { (g.tool, g.ruleId) }

  /** The columns group_aggregate_columns selects for one group's members. */
  function Aggregate(k: (string, string), members: seq<Finding>): GroupRow {
    GroupRow(k.0, k.1, |members|, MaxBy(members, Weight), MaxBy(members, Score), MinBy(members, FirstSeen),
      MaxBy(members, FirstSeen), MaxBy(members, LastSeen),
      |set f | f in members :: f.targetId|, |set f | f in members :: f.filePath|,
      MaxEpss(members), Count(members, (f: Finding) => f.kev))
  }

  function Members(rows: seq<Finding>, k: (string, string)): seq<Finding> {
    Filter(rows, KeyIs(GroupKey, k))
  }

  /** GROUP BY tool, rule_id. */
  function GroupRows(rows: seq<Finding>): seq<GroupRow> {
    Map(Dedup(Map(rows, GroupKey)), k => Aggregate(k, Members(rows, k)))
  }

  /** ORDER BY max(priority_score) DESC, tool, rule_id. */
  function GroupOrderKey(g: GroupRow): Key {
    Key(-g.maxScore, 0, g.tool, g.ruleId, 0)
  }

  /** ORDER BY priority_score DESC, id. */
  function SingleOrderKey(f: Finding): Key {
    Key(-f.score, 0, "", "", f.id)
  }

  function Limit<T>(s: seq<T>): seq<T> {
    if |s| <= MAX_GROUPS then s else s[..MAX_GROUPS]
  }

  function TopGroups(rows: seq<Finding>, reg: Registry): seq<GroupRow> {
    Limit(SortBy(GroupRows(Collapsible(rows, reg)), GroupOrderKey, false))
  }

  function TopSingles(rows: seq<Finding>, reg: Registry): seq<Finding> {
    Limit(SortBy(Singles(rows, reg), SingleOrderKey, false))
  }

  // ----- stubs -----

  datatype Stub = Stub(
    tool: string, ruleId: string, grouped: bool, finding: Option<Finding>, severity: Severity,
    findingCount: nat, targetCount: nat, fileCount: nat, maxScore: int, oldest: int, newest: int, newestLast: int,
    maxEpss: Option<real>, kevCount: nat, representativeId: int)

  /** severity_for_weight: the inverse of the weight table. Its fallback names an enum
      member that does not exist, so reaching it would raise; None marks that. */
  function SeverityForWeight(weight: int): Option<Severity> {
    if weight == 5 then Some(Critical) else if weight == 4 then Some(High) else if weight == 3 then Some(Medium)
    else if weight == 2 then Some(Low) else if weight == 1 then Some(Informational) else None
  }

  function GroupStub(g: GroupRow): Stub {
    var severity := SeverityForWeight(g.weight);
    Stub(g.tool, g.ruleId, true, None, if severity.Some? then severity.value else Informational,
      g.findingCount, g.targetCount, g.fileCount, g.maxScore, g.oldest, g.newest, g.newestLast,
      Some(g.maxEpss), g.kevCount, 0)
  }

  function SingleStub(f: Finding): Stub {
    Stub(f.tool, f.ruleId, false, Some(f), f.severity, 1, 1, 1, f.score, f.firstSeen, f.firstSeen, f.lastSeen,
      f.epss, if f.kev then 1 else 0, f.id)
  }

  function AllStubs(rows: seq<Finding>, reg: Registry): seq<Stub> {
    Map(TopGroups(rows, reg), GroupStub) + Map(TopSingles(rows, reg), SingleStub)
  }

  datatype GroupSort = Exploitability | BySeverity | BlastRadius | Age | Recent

  function StubKey(sort: GroupSort): Stub -> Key {
    match sort
    case Exploitability => (g: Stub) => Key(g.maxScore, g.findingCount, g.tool, g.ruleId, g.representativeId)
    case BySeverity => (g: Stub) => Key(SeverityWeight(g.severity), g.maxScore, g.tool, g.ruleId, g.representativeId)
    case BlastRadius => (g: Stub) => Key(g.findingCount, g.maxScore, g.tool, g.ruleId, g.representativeId)
    case Age => (g: Stub) => Key(g.oldest, 0, g.tool, g.ruleId, g.representativeId)
    case Recent => (g: Stub) => Key(g.newest, 0, g.tool, g.ruleId, g.representativeId)
  }

  /** _sort_groups: descending in every mode but age. */
  function SortGroups(items: seq<Stub>, sort: GroupSort): seq<Stub> {
    SortBy(items, StubKey(sort), !sort.Age?)
  }

  predicate Covers(s: Stub, f: Finding) {
    if s.grouped then s.tool == f.tool && s.ruleId == f.ruleId else s.finding == Some(f)
  }

  function StubCounts(stubs: seq<Stub>): seq<nat> {
    Map(stubs, (s: Stub) => s.findingCount)
  }

  // ----- facts about GROUP BY -----

  lemma GroupRowAt(rows: seq<Finding>, i: nat)
    requires i < |GroupRows(rows)|
    ensures var k := Dedup(Map(rows, GroupKey))[i];
            && GroupRows(rows)[i] == Aggregate(k, Members(rows, k))
            && RowKey(GroupRows(rows)[i]) == k && Members(rows, k) != []
  {
    var k := Dedup(Map(rows, GroupKey))[i];
    MappedMembership(rows, GroupKey, k);
    var f :| f in rows && GroupKey(f) == k;
    assert f in Members(rows, k);
  }

  /** One row per distinct (tool, rule_id), aggregated over exactly its members. */
  lemma GroupRowsKeys(rows: seq<Finding>)
    ensures forall g :: g in GroupRows(rows) ==>
              g == Aggregate(RowKey(g), Members(rows, RowKey(g))) && Members(rows, RowKey(g)) != []
    ensures forall g, h :: g in GroupRows(rows) && h in GroupRows(rows) && RowKey(g) == RowKey(h) ==> g == h
    ensures Distinct(GroupRows(rows))
  {
    var groups := GroupRows(rows);
    forall i | 0 <= i < |groups| ensures RowKey(groups[i]) == Dedup(Map(rows, GroupKey))[i] {
      GroupRowAt(rows, i);
    }
    forall g | g in groups
      ensures g == Aggregate(RowKey(g), Members(rows, RowKey(g))) && Members(rows, RowKey(g)) != [] {
      var i :| 0 <= i < |groups| && groups[i] == g;
      GroupRowAt(rows, i);
    }
  }

  lemma GroupRowOf(rows: seq<Finding>, f: Finding)
    requires f in rows
    ensures Aggregate(GroupKey(f), Members(rows, GroupKey(f))) in GroupRows(rows)
  {
    MappedMembership(rows, GroupKey, GroupKey(f));
    var keys := Dedup(Map(rows, GroupKey));
    var i :| 0 <= i < |keys| && keys[i] == GroupKey(f);
    GroupRowAt(rows, i);
  }

  lemma EpssPermutation(a: seq<Finding>, b: seq<Finding>)
    requires a != [] && b != [] && forall x :: x in a <==> x in b
    ensures MaxEpss(a) == MaxEpss(b)
  {
    var x := MaxEpssAttained(a);
    var y := MaxEpssAttained(b);
    assert x in b && y in a;
  }

  /** Every aggregate depends on the members, not on the order they are met in. */
  lemma AggregatePermutation(k: (string, string), a: seq<Finding>, b: seq<Finding>)
    requires multiset(a) == multiset(b)
    ensures Aggregate(k, a) == Aggregate(k, b)
  {
    SamePermutationMembers(a, b);
    assert |multiset(a)| == |a| && |multiset(b)| == |b|;
    if a != [] {
      assert a[0] in b;
      MaxPermutation(a, b, Weight);
      MaxPermutation(a, b, Score);
      MaxPermutation(a, b, FirstSeen);
      MaxPermutation(a, b, LastSeen);
      MinPermutation(a, b, FirstSeen);
      EpssPermutation(a, b);
    } else {
      assert b == [];
    }
    assert (set f | f in a :: f.targetId) == (set f | f in b :: f.targetId);
    assert (set f | f in a :: f.filePath) == (set f | f in b :: f.filePath);
    FilterPermutation(a, b, (f: Finding) => f.kev);
  }

  lemma MaxPermutation(a: seq<Finding>, b: seq<Finding>, f: Finding -> int)
    requires a != [] && b != [] && forall x :: x in a <==> x in b
    ensures MaxBy(a, f) == MaxBy(b, f)
  {
    var x := MaxByAttained(a, f);
    var y := MaxByAttained(b, f);
    assert x in b && y in a;
  }

  lemma MinPermutation(a: seq<Finding>, b: seq<Finding>, f: Finding -> int)
    requires a != [] && b != [] && forall x :: x in a <==> x in b
    ensures MinBy(a, f) == MinBy(b, f)
  {
    var x := MinByAttained(a, f);
    var y := MinByAttained(b, f);
    assert x in b && y in a;
  }

  lemma GroupRowsPermutation(a: seq<Finding>, b: seq<Finding>)
    requires multiset(a) == multiset(b)
    ensures multiset(GroupRows(a)) == multiset(GroupRows(b))
  {
    forall g ensures g in GroupRows(a) <==> g in GroupRows(b) {
      if g in GroupRows(a) { GroupRowMoves(a, b, g); }
      if g in GroupRows(b) { GroupRowMoves(b, a, g); }
    }
    assert Distinct(GroupRows(a)) by { GroupRowsKeys(a); }
    assert Distinct(GroupRows(b)) by { GroupRowsKeys(b); }
    DistinctSameElements(GroupRows(a), GroupRows(b));
  }

  lemma GroupRowMoves(a: seq<Finding>, b: seq<Finding>, g: GroupRow)
    requires multiset(a) == multiset(b) && g in GroupRows(a)
    ensures g in GroupRows(b)
  {
    var i :| 0 <= i < |GroupRows(a)| && GroupRows(a)[i] == g;
    GroupRowAt(a, i);
    var k := RowKey(g);
    FilterPermutation(a, b, KeyIs(GroupKey, k));
    AggregatePermutation(k, Members(a, k), Members(b, k));
    var f := Members(a, k)[0];
    assert f in Members(b, k) by { SamePermutationMembers(Members(a, k), Members(b, k)); }
    GroupRowOf(b, f);
  }

  lemma TopGroupsPermutation(a: seq<Finding>, b: seq<Finding>, reg: Registry)
    requires multiset(a) == multiset(b)
    ensures TopGroups(a, reg) == TopGroups(b, reg)
  {
    FilterPermutation(a, b, (f: Finding) => f.tool !in UngroupedTools(reg));
    var ca, cb := Collapsible(a, reg), Collapsible(b, reg);
    GroupRowsPermutation(ca, cb);
    GroupRowsKeys(ca);
    forall g, h | g in GroupRows(ca) && h in GroupRows(ca) && GroupOrderKey(g) == GroupOrderKey(h) ensures g == h {
      assert RowKey(g) == RowKey(h);
    }
    SortByOrderIndependent(GroupRows(ca), GroupRows(cb), GroupOrderKey, false);
  }

  lemma TopSinglesPermutation(a: seq<Finding>, b: seq<Finding>, reg: Registry)
    requires multiset(a) == multiset(b)
    requires forall x, y :: x in a && y in a && x.id == y.id ==> x == y
    ensures TopSingles(a, reg) == TopSingles(b, reg)
  {
    FilterPermutation(a, b, (f: Finding) => f.tool in UngroupedTools(reg));
    var sa := Singles(a, reg);
    forall x, y | x in sa && y in sa && SingleOrderKey(x) == SingleOrderKey(y) ensures x == y {
      assert x.id == y.id;
    }
    SortByOrderIndependent(sa, Singles(b, reg), SingleOrderKey, false);
  }

  /** Neither which groups survive truncation nor any stub depends on the order the
      database returns rows in: two identical requests build the same stubs. */
  lemma StubsOrderIndependent(a: seq<Finding>, b: seq<Finding>, reg: Registry)
    requires multiset(a) == multiset(b)
    requires forall x, y :: x in a && y in a && x.id == y.id ==> x == y
    ensures AllStubs(a, reg) == AllStubs(b, reg)
  {
    TopGroupsPermutation(a, b, reg);
    TopSinglesPermutation(a, b, reg);
  }

  // ----- the grouped view accounts for the flat one -----

  function CountOf(g: GroupRow): nat { g.findingCount }

  lemma LimitSorted<T(!new)>(rows: seq<T>, key: T -> Key)
    requires Distinct(rows)
    ensures var top := Limit(SortBy(rows, key, false));
            && Distinct(top)
            && (forall x :: x in top ==> x in rows)
            && |top| == (if |rows| <= MAX_GROUPS then |rows| else MAX_GROUPS)
            && (|rows| <= MAX_GROUPS ==> forall x :: x in rows ==> x in top)
            && (|rows| > MAX_GROUPS ==> exists x :: x in rows && x !in top)
  {
    var sorted := SortBy(rows, key, false);
    SortByMembers(rows, key, false);
    LimitFacts(sorted);
    assert forall x :: x in Limit(sorted) ==> x in sorted;
    assert forall x :: x in sorted ==> x in rows;
  }

  lemma LimitFacts<T(!new)>(sorted: seq<T>)
    requires Distinct(sorted)
    ensures Distinct(Limit(sorted))
    ensures forall x :: x in Limit(sorted) ==> x in sorted
    ensures |sorted| > MAX_GROUPS ==> exists x :: x in sorted && x !in Limit(sorted)
  {
    if |sorted| > MAX_GROUPS {
      var x := sorted[MAX_GROUPS];
      assert x in sorted;
      forall i | 0 <= i < MAX_GROUPS ensures Limit(sorted)[i] != x {
        assert Limit(sorted)[i] == sorted[i];
      }
    }
  }

  lemma TopGroupsFacts(rows: seq<Finding>, reg: Registry)
    ensures var top, all := TopGroups(rows, reg), GroupRows(Collapsible(rows, reg));
            && (forall g :: g in top ==> g in all)
            && |top| == (if |all| <= MAX_GROUPS then |all| else MAX_GROUPS)
            && (|all| <= MAX_GROUPS ==> forall g :: g in all ==> g in top)
            && (|all| > MAX_GROUPS ==> exists g :: g in all && g !in top)
            && Distinct(top)
  {
    assert Distinct(GroupRows(Collapsible(rows, reg))) by { GroupRowsKeys(Collapsible(rows, reg)); }
    LimitSorted(GroupRows(Collapsible(rows, reg)), GroupOrderKey);
  }

  lemma TopGroupAt(rows: seq<Finding>, reg: Registry, i: nat)
    requires i < |TopGroups(rows, reg)|
    ensures var g, members := TopGroups(rows, reg)[i], Collapsible(rows, reg);
            && g in GroupRows(members) && g == Aggregate(RowKey(g), Members(members, RowKey(g)))
            && Members(members, RowKey(g)) != []
  {
    TopGroupsFacts(rows, reg);
    GroupRowsKeys(Collapsible(rows, reg));
    assert TopGroups(rows, reg)[i] in TopGroups(rows, reg);
  }

  lemma TopGroupKeysDistinct(rows: seq<Finding>, reg: Registry)
    ensures Distinct(Map(TopGroups(rows, reg), RowKey))
  {
    var top := TopGroups(rows, reg);
    TopGroupsFacts(rows, reg);
    forall i, j | 0 <= i < j < |top| ensures RowKey(top[i]) != RowKey(top[j]) {
      GroupRowsKeys(Collapsible(rows, reg));
      assert top[i] in top && top[j] in top;
    }
  }

  /** The counts on the emitted groups count exactly the findings those groups cover. */
  lemma TopGroupsSum(rows: seq<Finding>, reg: Registry)
    ensures Sum(Map(TopGroups(rows, reg), CountOf))
            == Count(Collapsible(rows, reg), HasKeyIn(GroupKey, EmittedKeys(rows, reg)))
  {
    TopGroupKeysDistinct(rows, reg);
    BucketSum(Collapsible(rows, reg), GroupKey, EmittedKeys(rows, reg));
    TopGroupCounts(rows, reg);
  }

  function EmittedKeys(rows: seq<Finding>, reg: Registry): seq<(string, string)> {
    Map(TopGroups(rows, reg), RowKey)
  }

  lemma TopGroupCounts(rows: seq<Finding>, reg: Registry)
    ensures Map(TopGroups(rows, reg), CountOf) == Buckets(Collapsible(rows, reg), GroupKey, EmittedKeys(rows, reg))
  {
    var top := TopGroups(rows, reg);
    forall i | 0 <= i < |top|
      ensures Map(top, CountOf)[i] == Buckets(Collapsible(rows, reg), GroupKey, EmittedKeys(rows, reg))[i] {
      TopGroupAt(rows, reg, i);
    }
  }

  /** They reach every collapsible finding exactly when no group was cut off. */
  lemma TopGroupsReach(rows: seq<Finding>, reg: Registry)
    ensures var members := Collapsible(rows, reg);
            (forall f :: f in members ==> HasKeyIn(GroupKey, EmittedKeys(rows, reg))(f))
              <==> |GroupRows(members)| <= MAX_GROUPS
  {
    var top, members := TopGroups(rows, reg), Collapsible(rows, reg);
    TopGroupsFacts(rows, reg);
    if |GroupRows(members)| <= MAX_GROUPS {
      forall f | f in members ensures HasKeyIn(GroupKey, EmittedKeys(rows, reg))(f) {
        GroupRowOf(members, f);
        MappedMembership(top, RowKey, GroupKey(f));
      }
    } else {
      var g :| g in GroupRows(members) && g !in top;
      DroppedGroup(rows, reg, g);
    }
  }

  lemma DroppedGroup(rows: seq<Finding>, reg: Registry, g: GroupRow)
    requires g in GroupRows(Collapsible(rows, reg)) && g !in TopGroups(rows, reg)
    ensures exists f :: f in Collapsible(rows, reg) && !HasKeyIn(GroupKey, EmittedKeys(rows, reg))(f)
  {
    var top, members := TopGroups(rows, reg), Collapsible(rows, reg);
    TopGroupsFacts(rows, reg);
    GroupRowsKeys(members);
    var f := Members(members, RowKey(g))[0];
    assert f in Members(members, RowKey(g));
    MappedMembership(top, RowKey, GroupKey(f));
  }

  lemma SplitRows(rows: seq<Finding>, reg: Registry)
    ensures |Collapsible(rows, reg)| + |Singles(rows, reg)| == |rows|
  {
    CountOr(rows, (f: Finding) => f.tool !in UngroupedTools(reg), (f: Finding) => f.tool in UngroupedTools(reg),
            f => true);
    FilterAll(rows, f => true);
  }

  lemma SumOnes(s: seq<nat>)
    requires forall i :: 0 <= i < |s| ==> s[i] == 1
    ensures Sum(s) == |s|
  {
    if s != [] {
      SumOnes(s[1..]);
    }
  }

  function TotalFindings(rows: seq<Finding>, reg: Registry): nat {
    Sum(StubCounts(AllStubs(rows, reg)))
  }

  lemma CountsOfStubs(groups: seq<GroupRow>, singles: seq<Finding>)
    ensures Sum(StubCounts(Map(groups, GroupStub) + Map(singles, SingleStub))) == Sum(Map(groups, CountOf)) + |singles|
  {
    var ones := StubCounts(Map(singles, SingleStub));
    assert StubCounts(Map(groups, GroupStub) + Map(singles, SingleStub)) == Map(groups, CountOf) + ones;
    SumAppend(Map(groups, CountOf), ones);
    SumOnes(ones);
  }

  lemma TotalSplits(rows: seq<Finding>, reg: Registry)
    ensures TotalFindings(rows, reg) == Sum(Map(TopGroups(rows, reg), CountOf)) + |TopSingles(rows, reg)|
  {
    CountsOfStubs(TopGroups(rows, reg), TopSingles(rows, reg));
  }

  lemma TopSinglesSize(rows: seq<Finding>, reg: Registry)
    ensures |TopSingles(rows, reg)| == if |Singles(rows, reg)| <= MAX_GROUPS then |Singles(rows, reg)| else MAX_GROUPS
  {
    SortByMembers(Singles(rows, reg), SingleOrderKey, false);
  }

  /** `total_findings` never exceeds the flat total, and equals it exactly when neither
      half overflows MAX_GROUPS. */
  lemma GroupsAccountForFlat(rows: seq<Finding>, reg: Registry)
    ensures TotalFindings(rows, reg) <= |rows|
    ensures TotalFindings(rows, reg) == |rows|
            <==> |GroupRows(Collapsible(rows, reg))| <= MAX_GROUPS && |Singles(rows, reg)| <= MAX_GROUPS
  {
    TotalSplits(rows, reg);
    TopGroupsSum(rows, reg);
    TopGroupsReach(rows, reg);
    FilterFull(Collapsible(rows, reg), HasKeyIn(GroupKey, EmittedKeys(rows, reg)));
    TopSinglesSize(rows, reg);
    SplitRows(rows, reg);
  }

  ghost predicate IdsIdentify(rows: seq<Finding>) {
    Distinct(rows) && forall x, y :: x in rows && y in rows && x.id == y.id ==> x == y
  }

  lemma SinglesFacts(rows: seq<Finding>, reg: Registry)
    requires IdsIdentify(rows)
    ensures var top, all := TopSingles(rows, reg), Singles(rows, reg);
            && Distinct(top)
            && (forall f :: f in top ==> f in all)
            && (|all| <= MAX_GROUPS ==> forall f :: f in all ==> f in top)
  {
    FilterDistinct(rows, (f: Finding) => f.tool in UngroupedTools(reg));
    LimitSorted(Singles(rows, reg), SingleOrderKey);
  }

  lemma GroupStubShape(rows: seq<Finding>, reg: Registry, i: nat)
    requires i < |TopGroups(rows, reg)|
    ensures GroupStub(TopGroups(rows, reg)[i]).tool !in UngroupedTools(reg)
  {
    var g := TopGroups(rows, reg)[i];
    TopGroupAt(rows, reg, i);
    var f := Members(Collapsible(rows, reg), RowKey(g))[0];
    assert f in Members(Collapsible(rows, reg), RowKey(g));
  }

  lemma SingleStubShape(rows: seq<Finding>, reg: Registry, i: nat)
    requires i < |TopSingles(rows, reg)|
    ensures SingleStub(TopSingles(rows, reg)[i]).tool in UngroupedTools(reg)
  {
    var f := TopSingles(rows, reg)[i];
    SortByMembers(Singles(rows, reg), SingleOrderKey, false);
    assert f in Singles(rows, reg);
  }

  /** A grouped stub never names an ungrouped tool, a single stub always does. */
  lemma StubShape(rows: seq<Finding>, reg: Registry, i: nat)
    requires i < |AllStubs(rows, reg)|
    ensures var s := AllStubs(rows, reg)[i];
            && s.grouped == (i < |TopGroups(rows, reg)|)
            && (s.grouped ==> && s == GroupStub(TopGroups(rows, reg)[i])
                              && s.tool !in UngroupedTools(reg) && s.representativeId == 0)
            && (!s.grouped ==> && s == SingleStub(TopSingles(rows, reg)[i - |TopGroups(rows, reg)|])
                               && s.tool in UngroupedTools(reg))
  {
    var n := |TopGroups(rows, reg)|;
    if i < n {
      GroupStubShape(rows, reg, i);
    } else {
      SingleStubShape(rows, reg, i - n);
    }
  }

  /** (tool, rule_id, representative_id) tells stubs apart, across both halves. */
  lemma StubIdentityUnique(rows: seq<Finding>, reg: Registry, i: nat, j: nat)
    requires IdsIdentify(rows) && i < j < |AllStubs(rows, reg)|
    ensures var s := AllStubs(rows, reg);
            (s[i].tool, s[i].ruleId, s[i].representativeId) != (s[j].tool, s[j].ruleId, s[j].representativeId)
  {
    StubShape(rows, reg, i);
    StubShape(rows, reg, j);
    var groups, singles := TopGroups(rows, reg), TopSingles(rows, reg);
    if j < |groups| {
      TopGroupKeysDistinct(rows, reg);
      assert Map(groups, RowKey)[i] != Map(groups, RowKey)[j];
    } else if i >= |groups| {
      SinglesFacts(rows, reg);
      var f, g := singles[i - |groups|], singles[j - |groups|];
      assert f in Singles(rows, reg) && g in Singles(rows, reg) && f != g;
    }
  }

  /** No finding is drawn twice, truncated or not. */
  lemma CoveredAtMostOnce(rows: seq<Finding>, reg: Registry, f: Finding, i: nat, j: nat)
    requires IdsIdentify(rows) && i < j < |AllStubs(rows, reg)|
    ensures !(Covers(AllStubs(rows, reg)[i], f) && Covers(AllStubs(rows, reg)[j], f))
  {
    StubShape(rows, reg, i);
    StubShape(rows, reg, j);
    StubIdentityUnique(rows, reg, i, j);
  }

  lemma SingleDrawn(rows: seq<Finding>, reg: Registry, f: Finding) returns (k: nat)
    requires IdsIdentify(rows) && f in rows && f.tool in UngroupedTools(reg) && |Singles(rows, reg)| <= MAX_GROUPS
    ensures k < |TopSingles(rows, reg)| && TopSingles(rows, reg)[k] == f
  {
    SinglesFacts(rows, reg);
    assert f in Singles(rows, reg);
    k :| 0 <= k < |TopSingles(rows, reg)| && TopSingles(rows, reg)[k] == f;
  }

  lemma GroupDrawn(rows: seq<Finding>, reg: Registry, f: Finding) returns (k: nat)
    requires f in rows && f.tool !in UngroupedTools(reg) && |GroupRows(Collapsible(rows, reg))| <= MAX_GROUPS
    ensures k < |TopGroups(rows, reg)|
    ensures TopGroups(rows, reg)[k] == Aggregate(GroupKey(f), Members(Collapsible(rows, reg), GroupKey(f)))
  {
    TopGroupsFacts(rows, reg);
    assert f in Collapsible(rows, reg);
    GroupRowOf(Collapsible(rows, reg), f);
    var groups := TopGroups(rows, reg);
    k :| 0 <= k < |groups| && groups[k] == Aggregate(GroupKey(f), Members(Collapsible(rows, reg), GroupKey(f)));
  }

  /** And when neither half overflows, every filtered finding is drawn. */
  lemma CoveredOnce(rows: seq<Finding>, reg: Registry, f: Finding) returns (i: nat)
    requires IdsIdentify(rows) && f in rows
    requires |GroupRows(Collapsible(rows, reg))| <= MAX_GROUPS && |Singles(rows, reg)| <= MAX_GROUPS
    ensures i < |AllStubs(rows, reg)| && Covers(AllStubs(rows, reg)[i], f)
  {
    if f.tool in UngroupedTools(reg) {
      i := CoveredSingle(rows, reg, f);
    } else {
      i := CoveredGroup(rows, reg, f);
    }
  }

  lemma CoveredSingle(rows: seq<Finding>, reg: Registry, f: Finding) returns (i: nat)
    requires IdsIdentify(rows) && f in rows && f.tool in UngroupedTools(reg) && |Singles(rows, reg)| <= MAX_GROUPS
    ensures i < |AllStubs(rows, reg)| && Covers(AllStubs(rows, reg)[i], f)
  {
    var k := SingleDrawn(rows, reg, f);
    i := |TopGroups(rows, reg)| + k;
    assert AllStubs(rows, reg)[i] == SingleStub(f);
  }

  lemma CoveredGroup(rows: seq<Finding>, reg: Registry, f: Finding) returns (i: nat)
    requires f in rows && f.tool !in UngroupedTools(reg) && |GroupRows(Collapsible(rows, reg))| <= MAX_GROUPS
    ensures i < |AllStubs(rows, reg)| && Covers(AllStubs(rows, reg)[i], f)
  {
    i := GroupDrawn(rows, reg, f);
    assert AllStubs(rows, reg)[i] == GroupStub(TopGroups(rows, reg)[i]);
  }

  /** No two rows share (tool, rule_id, representative_id). */
  predicate IdentitiesDiffer(stubs: seq<Stub>) {
    forall i, j :: 0 <= i < j < |stubs| ==>
      (stubs[i].tool, stubs[i].ruleId, stubs[i].representativeId)
      != (stubs[j].tool, stubs[j].ruleId, stubs[j].representativeId)
  }

  lemma AllStubsIdentitiesDiffer(rows: seq<Finding>, reg: Registry)
    requires IdsIdentify(rows)
    ensures IdentitiesDiffer(AllStubs(rows, reg))
  {
    forall i, j | 0 <= i < j < |AllStubs(rows, reg)|
      ensures (AllStubs(rows, reg)[i].tool, AllStubs(rows, reg)[i].ruleId, AllStubs(rows, reg)[i].representativeId)
              != (AllStubs(rows, reg)[j].tool, AllStubs(rows, reg)[j].ruleId, AllStubs(rows, reg)[j].representativeId)
    {
      StubIdentityUnique(rows, reg, i, j);
    }
  }

  lemma StubKeysInjective(stubs: seq<Stub>, sort: GroupSort)
    requires IdentitiesDiffer(stubs)
    ensures Distinct(stubs) && KeyInjective(stubs, StubKey(sort))
  {
    forall x, y | x in stubs && y in stubs && StubKey(sort)(x) == StubKey(sort)(y) ensures x == y {
      var i :| 0 <= i < |stubs| && stubs[i] == x;
      var j :| 0 <= j < |stubs| && stubs[j] == y;
      assert StubKey(sort)(x).s1 == x.tool && StubKey(sort)(x).s2 == x.ruleId
             && StubKey(sort)(x).n3 == x.representativeId;
      assert StubKey(sort)(y).s1 == y.tool && StubKey(sort)(y).s2 == y.ruleId
             && StubKey(sort)(y).n3 == y.representativeId;
    }
  }

  /** _sort_groups is independent of input order under all five modes, and reading its
      pages one after the other yields each stub exactly once. */
  lemma GroupPagesStable(stubs: seq<Stub>, arrived: seq<Stub>, sort: GroupSort, n: nat, size: int)
    requires IdentitiesDiffer(stubs) && multiset(arrived) == multiset(stubs) && size >= 1
    ensures OneView(stubs, arrived, StubKey(sort), !sort.Age?, n, size)
  {
    StubKeysInjective(stubs, sort);
    StablePages(stubs, arrived, StubKey(sort), !sort.Age?, n, size);
  }

  lemma WeightInverse(f: Finding)
    ensures SeverityForWeight(Weight(f)) == Some(f.severity)
  {
  }

  lemma HighestOf(g: GroupRow, members: seq<Finding>) returns (worst: Finding)
    requires members != [] && g == Aggregate(RowKey(g), members)
    ensures worst in members && forall f :: f in members ==> Weight(f) <= Weight(worst)
    ensures SeverityForWeight(g.weight) == Some(worst.severity) && GroupStub(g).severity == worst.severity
  {
    worst := MaxByAttained(members, Weight);
    WeightInverse(worst);
  }

  /** A group row shows the highest severity among its members, read back without ever
      reaching the weight table's broken fallback. */
  lemma GroupSeverityIsHighest(rows: seq<Finding>, reg: Registry, i: nat) returns (worst: Finding)
    requires i < |TopGroups(rows, reg)|
    ensures var g := TopGroups(rows, reg)[i];
            && worst in Members(Collapsible(rows, reg), RowKey(g))
            && SeverityForWeight(g.weight) == Some(worst.severity)
            && GroupStub(g).severity == worst.severity
            && forall f :: f in Members(Collapsible(rows, reg), RowKey(g)) ==> Weight(f) <= Weight(worst)
  {
    var g := TopGroups(rows, reg)[i];
    TopGroupAt(rows, reg, i);
    worst := HighestOf(g, Members(Collapsible(rows, reg), RowKey(g)));
  }

  // ----- what a row shows, column by column -----

  ghost predicate TopScore(v: int, mine: seq<Finding>) {
    (exists f :: f in mine && f.score == v) && forall f :: f in mine ==> f.score <= v
  }

  ghost predicate FirstFound(v: int, mine: seq<Finding>) {
    (exists f :: f in mine && f.firstSeen == v) && forall f :: f in mine ==> v <= f.firstSeen
  }

  ghost predicate LastFound(v: int, mine: seq<Finding>) {
    (exists f :: f in mine && f.firstSeen == v) && forall f :: f in mine ==> f.firstSeen <= v
  }

  ghost predicate LastDetected(v: int, mine: seq<Finding>) {
    (exists f :: f in mine && f.lastSeen == v) && forall f :: f in mine ==> f.lastSeen <= v
  }

  ghost predicate GreatestEpss(v: real, mine: seq<Finding>) {
    && (exists f :: f in mine && (if f.epss.Some? then f.epss.value else 0.0) == v)
    && forall f :: f in mine ==> (if f.epss.Some? then f.epss.value else 0.0) <= v
  }

  ghost predicate Highest(severity: Severity, mine: seq<Finding>) {
    (exists f :: f in mine && f.severity == severity) && forall f :: f in mine ==> !MoreSevere(f.severity, severity)
  }

  predicate Exploited(f: Finding) { f.kev }

  function SameRule(tool: string, ruleId: string): Finding -> bool {
    (f: Finding) => f.tool == tool && f.ruleId == ruleId
  }

  /** A secret or a malicious package is an incident of its own. */
  predicate NeverCollapsed(reg: Registry, tool: string) {
    ToolCategory(reg, tool) == "Secrets" || ToolCategory(reg, tool) == "Malicious Package"
  }

  function OneByOne(reg: Registry): Finding -> bool {
    (f: Finding) => NeverCollapsed(reg, f.tool)
  }

  /** A grouped row over the findings it stands for. */
  ghost predicate GroupColumns(s: Stub, mine: seq<Finding>) {
    && mine != [] && s.findingCount == |mine| && Highest(s.severity, mine)
    && TopScore(s.maxScore, mine) && FirstFound(s.oldest, mine) && LastFound(s.newest, mine)
    && LastDetected(s.newestLast, mine)
    && s.targetCount == |set f | f in mine :: f.targetId|
    && s.fileCount == |set f | f in mine :: f.filePath|
    && s.maxEpss.Some? && GreatestEpss(s.maxEpss.value, mine)
    && s.kevCount == |Filter(mine, Exploited)|
  }

  /** A row for one finding shows that finding. */
  predicate SingleColumns(s: Stub, f: Finding) {
    && s.finding == Some(f) && s.tool == f.tool && s.ruleId == f.ruleId && s.representativeId == f.id
    && s.severity == f.severity && s.maxScore == f.score && s.maxEpss == f.epss
    && s.oldest == f.firstSeen && s.newest == f.firstSeen && s.newestLast == f.lastSeen
    && s.findingCount == 1 && s.targetCount == 1 && s.fileCount == 1 && s.kevCount == (if f.kev then 1 else 0)
  }

  /** Secrets and malicious packages are never collapsed; everything else is, by tool and rule. */
  ghost predicate RowExact(rows: seq<Finding>, reg: Registry, s: Stub) {
    if NeverCollapsed(reg, s.tool)
    then !s.grouped && s.finding.Some? && s.finding.value in rows && SingleColumns(s, s.finding.value)
    else s.grouped && s.finding.None?
         && GroupColumns(s, Filter(rows, SameRule(s.tool, s.ruleId)))
  }

  lemma UngroupedMeans(reg: Registry, tool: string)
    requires Consistent(reg)
    ensures tool in UngroupedTools(reg) <==> NeverCollapsed(reg, tool)
  {
    CategoryInverse(reg, tool, "Secrets");
    CategoryInverse(reg, tool, "Malicious Package");
    assert "Secrets"[0] != "Other"[0] && "Malicious Package"[0] != "Other"[0];
  }

  lemma ExtremesBy(mine: seq<Finding>)
    requires mine != []
    ensures TopScore(MaxBy(mine, Score), mine) && FirstFound(MinBy(mine, FirstSeen), mine)
    ensures LastFound(MaxBy(mine, FirstSeen), mine) && LastDetected(MaxBy(mine, LastSeen), mine)
  {
    var a := MaxByAttained(mine, Score);
    var b := MinByAttained(mine, FirstSeen);
    var c := MaxByAttained(mine, FirstSeen);
    var d := MaxByAttained(mine, LastSeen);
    forall f | f in mine
      ensures f.score <= MaxBy(mine, Score) && MinBy(mine, FirstSeen) <= f.firstSeen <= MaxBy(mine, FirstSeen)
      ensures f.lastSeen <= MaxBy(mine, LastSeen) {
      assert Score(f) == f.score && FirstSeen(f) == f.firstSeen && LastSeen(f) == f.lastSeen;
    }
  }

  lemma EpssBy(mine: seq<Finding>)
    requires mine != []
    ensures GreatestEpss(MaxEpss(mine), mine)
  {
    var x := MaxEpssAttained(mine);
    assert forall f: Finding :: Epss(f) == if f.epss.Some? then f.epss.value else 0.0;
  }

  lemma HighestBy(g: GroupRow, mine: seq<Finding>)
    requires mine != [] && g == Aggregate(RowKey(g), mine)
    ensures Highest(GroupStub(g).severity, mine)
  {
    var worst := HighestOf(g, mine);
    forall f | f in mine ensures !MoreSevere(f.severity, worst.severity) {
      WeightIsSeverity(f.severity, worst.severity);
    }
  }

  lemma GroupColumnsExact(g: GroupRow, mine: seq<Finding>)
    requires mine != [] && g == Aggregate(RowKey(g), mine)
    ensures GroupColumns(GroupStub(g), mine)
  {
    HighestBy(g, mine);
    ExtremesBy(mine);
    FilterCong(mine, (f: Finding) => f.kev, Exploited);
    EpssBy(mine);
  }

  lemma MembersAre(rows: seq<Finding>, reg: Registry, k: (string, string))
    requires k.0 !in UngroupedTools(reg)
    ensures Members(Collapsible(rows, reg), k) == Filter(rows, SameRule(k.0, k.1))
  {
    FilterNarrow(rows, (f: Finding) => f.tool !in UngroupedTools(reg), KeyIs(GroupKey, k),
                 SameRule(k.0, k.1));
  }

  lemma GroupRowExact(rows: seq<Finding>, reg: Registry, i: nat)
    requires Consistent(reg) && i < |TopGroups(rows, reg)|
    ensures RowExact(rows, reg, GroupStub(TopGroups(rows, reg)[i]))
  {
    var g := TopGroups(rows, reg)[i];
    TopGroupAt(rows, reg, i);
    GroupStubShape(rows, reg, i);
    UngroupedMeans(reg, g.tool);
    MembersAre(rows, reg, RowKey(g));
    GroupColumnsExact(g, Members(Collapsible(rows, reg), RowKey(g)));
  }

  lemma SingleRowExact(rows: seq<Finding>, reg: Registry, i: nat)
    requires Consistent(reg) && i < |TopSingles(rows, reg)|
    ensures RowExact(rows, reg, SingleStub(TopSingles(rows, reg)[i]))
  {
    var f := TopSingles(rows, reg)[i];
    SortByMembers(Singles(rows, reg), SingleOrderKey, false);
    assert f in Singles(rows, reg);
    UngroupedMeans(reg, f.tool);
  }

  lemma StubAt(rows: seq<Finding>, reg: Registry, s: Stub) returns (i: nat)
    requires s in AllStubs(rows, reg)
    ensures var n := |TopGroups(rows, reg)|;
            if i < n then s == GroupStub(TopGroups(rows, reg)[i])
            else i - n < |TopSingles(rows, reg)| && s == SingleStub(TopSingles(rows, reg)[i - n])
  {
    i :| 0 <= i < |AllStubs(rows, reg)| && AllStubs(rows, reg)[i] == s;
  }

  ghost predicate AllExact(rows: seq<Finding>, reg: Registry, stubs: seq<Stub>) {
    forall i :: 0 <= i < |stubs| ==> RowExact(rows, reg, stubs[i])
  }

  lemma GroupsExact(rows: seq<Finding>, reg: Registry)
    requires Consistent(reg)
    ensures AllExact(rows, reg, Map(TopGroups(rows, reg), GroupStub))
  {
    forall i | 0 <= i < |TopGroups(rows, reg)| ensures RowExact(rows, reg, Map(TopGroups(rows, reg), GroupStub)[i]) {
      GroupRowExact(rows, reg, i);
    }
  }

  lemma SinglesExact(rows: seq<Finding>, reg: Registry)
    requires Consistent(reg)
    ensures AllExact(rows, reg, Map(TopSingles(rows, reg), SingleStub))
  {
    forall i | 0 <= i < |TopSingles(rows, reg)| ensures RowExact(rows, reg, Map(TopSingles(rows, reg), SingleStub)[i]) {
      SingleRowExact(rows, reg, i);
    }
  }

  lemma ExactTogether(rows: seq<Finding>, reg: Registry, a: seq<Stub>, b: seq<Stub>, s: Stub)
    requires AllExact(rows, reg, a) && AllExact(rows, reg, b) && s in a + b
    ensures RowExact(rows, reg, s)
  {
    var i :| 0 <= i < |a + b| && (a + b)[i] == s;
    assert if i < |a| then a[i] == s else b[i - |a|] == s;
  }

  /** Every row shows exactly what its findings say. */
  lemma EveryRowExact(rows: seq<Finding>, reg: Registry, s: Stub)
    requires Consistent(reg) && s in AllStubs(rows, reg)
    ensures RowExact(rows, reg, s)
  {
    GroupsExact(rows, reg);
    SinglesExact(rows, reg);
    ExactTogether(rows, reg, Map(TopGroups(rows, reg), GroupStub), Map(TopSingles(rows, reg), SingleStub), s);
  }

  // ----- the order of the rows -----

  /** The last word of every mode: tool, then rule, then representative. */
  predicate IdentityBefore(a: Stub, b: Stub) {
    || StrLess(a.tool, b.tool)
    || (a.tool == b.tool && (StrLess(a.ruleId, b.ruleId)
                             || (a.ruleId == b.ruleId && a.representativeId < b.representativeId)))
  }

  /** What each mode means: `a` is shown ahead of `b`. */
  predicate ShownBefore(sort: GroupSort, a: Stub, b: Stub) {
    match sort
    case Exploitability =>
      a.maxScore > b.maxScore || (a.maxScore == b.maxScore && (
        a.findingCount > b.findingCount || (a.findingCount == b.findingCount && IdentityBefore(b, a))))
    case BySeverity =>
      MoreSevere(a.severity, b.severity) || (a.severity == b.severity && (
        a.maxScore > b.maxScore || (a.maxScore == b.maxScore && IdentityBefore(b, a))))
    case BlastRadius =>
      a.findingCount > b.findingCount || (a.findingCount == b.findingCount && (
        a.maxScore > b.maxScore || (a.maxScore == b.maxScore && IdentityBefore(b, a))))
    case Age => a.oldest < b.oldest || (a.oldest == b.oldest && IdentityBefore(a, b))
    case Recent => a.newest > b.newest || (a.newest == b.newest && IdentityBefore(b, a))
  }

  lemma StubKeyMeans(sort: GroupSort, a: Stub, b: Stub)
    requires Precedes(StubKey(sort), !sort.Age?, a, b)
    ensures ShownBefore(sort, a, b)
  {
    WeightIsSeverity(a.severity, b.severity);
  }

  lemma StubPageOrder(rows: seq<Finding>, reg: Registry, sort: GroupSort, page: int, pageSize: int, i: nat, j: nat)
    requires IdsIdentify(rows) && i < j < |PageOfStubs(rows, reg, sort, page, pageSize)|
    ensures var shown := PageOfStubs(rows, reg, sort, page, pageSize); ShownBefore(sort, shown[i], shown[j])
  {
    var stubs := AllStubs(rows, reg);
    AllStubsIdentitiesDiffer(rows, reg);
    StubKeysInjective(stubs, sort);
    PageStrictly(stubs, StubKey(sort), !sort.Age?, ClampPage(page), ClampSize(pageSize, 500), i, j);
    var shown := PageOfStubs(rows, reg, sort, page, pageSize);
    StubKeyMeans(sort, shown[i], shown[j]);
  }

  // ----- what is cut off, and how many rows there are -----

  lemma LimitKeepsFirst<T(!new)>(rows: seq<T>, key: T -> Key, x: T, y: T)
    requires x in rows && x !in Limit(SortBy(rows, key, false)) && y in Limit(SortBy(rows, key, false))
    ensures !Precedes(key, false, x, y)
  {
    var sorted := SortBy(rows, key, false);
    SortByMembers(rows, key, false);
    SortBySorted(rows, key, false);
    assert x in sorted;
    var i :| 0 <= i < |sorted| && sorted[i] == x;
    var j :| 0 <= j < |Limit(sorted)| && Limit(sorted)[j] == y;
    assert forall k :: 0 <= k < |Limit(sorted)| ==> Limit(sorted)[k] == sorted[k];
    assert forall k :: 0 <= k < |Limit(sorted)| ==> Limit(sorted)[k] in Limit(sorted);
    assert i > j;
  }

  /** A finding cut off with its group scores no higher than any group kept. */
  lemma CutGroupScoresNoHigher(rows: seq<Finding>, reg: Registry, f: Finding, s: Stub)
    requires f in rows && f.tool !in UngroupedTools(reg) && s in Map(TopGroups(rows, reg), GroupStub)
    requires forall t :: t in AllStubs(rows, reg) ==> !Covers(t, f)
    ensures f.score <= s.maxScore
  {
    var members, top := Collapsible(rows, reg), TopGroups(rows, reg);
    var mine := Members(members, GroupKey(f));
    var g := Aggregate(GroupKey(f), mine);
    assert f in members && f in mine;
    GroupRowOf(members, f);
    var i :| 0 <= i < |top| && Map(top, GroupStub)[i] == s;
    if g in top {
      var j :| 0 <= j < |top| && top[j] == g;
      assert AllStubs(rows, reg)[j] == GroupStub(g);
      assert Covers(AllStubs(rows, reg)[j], f);
    } else {
      LimitKeepsFirst(GroupRows(members), GroupOrderKey, g, top[i]);
      var x := MaxByAttained(mine, Score);
    }
  }

  /** Nor does one cut off from the rows for single findings. */
  lemma CutSingleScoresNoHigher(rows: seq<Finding>, reg: Registry, f: Finding, s: Stub)
    requires f in rows && f.tool in UngroupedTools(reg) && s in Map(TopSingles(rows, reg), SingleStub)
    requires forall t :: t in AllStubs(rows, reg) ==> !Covers(t, f)
    ensures f.score <= s.maxScore
  {
    var top := TopSingles(rows, reg);
    assert f in Singles(rows, reg);
    var i :| 0 <= i < |top| && Map(top, SingleStub)[i] == s;
    if f in top {
      var j :| 0 <= j < |top| && top[j] == f;
      assert AllStubs(rows, reg)[|TopGroups(rows, reg)| + j] == SingleStub(f);
      assert Covers(AllStubs(rows, reg)[|TopGroups(rows, reg)| + j], f);
    } else {
      LimitKeepsFirst(Singles(rows, reg), SingleOrderKey, f, top[i]);
    }
  }

  /** What the 2000-row limit leaves out of either half scores no higher than anything it shows. */
  lemma TruncationKeepsHighest(rows: seq<Finding>, reg: Registry, f: Finding, s: Stub)
    requires Consistent(reg) && f in rows && s in AllStubs(rows, reg)
    requires s.grouped <==> !NeverCollapsed(reg, f.tool)
    requires forall t :: t in AllStubs(rows, reg) ==> !Covers(t, f)
    ensures f.score <= s.maxScore
  {
    UngroupedMeans(reg, f.tool);
    var i := StubAt(rows, reg, s);
    if i < |TopGroups(rows, reg)| {
      assert Map(TopGroups(rows, reg), GroupStub)[i] == s;
      CutGroupScoresNoHigher(rows, reg, f, s);
    } else {
      assert Map(TopSingles(rows, reg), SingleStub)[i - |TopGroups(rows, reg)|] == s;
      CutSingleScoresNoHigher(rows, reg, f, s);
    }
  }

  /** How many groups and how many single rows a filtered set calls for. */
  function GroupsCalledFor(rows: seq<Finding>, reg: Registry): nat {
    |set f | f in rows && !NeverCollapsed(reg, f.tool) :: (f.tool, f.ruleId)|
  }

  function SinglesCalledFor(rows: seq<Finding>, reg: Registry): nat {
    |Filter(rows, OneByOne(reg))|
  }

  lemma RowsCalledFor(rows: seq<Finding>, reg: Registry)
    requires Consistent(reg)
    ensures |GroupRows(Collapsible(rows, reg))| == GroupsCalledFor(rows, reg)
    ensures |Singles(rows, reg)| == SinglesCalledFor(rows, reg)
  {
    var keys := Dedup(Map(Collapsible(rows, reg), GroupKey));
    var called := set f | f in rows && !NeverCollapsed(reg, f.tool) ::
      (f.tool, f.ruleId);
    forall f: Finding ensures f.tool in UngroupedTools(reg)
                              <==> NeverCollapsed(reg, f.tool) {
      UngroupedMeans(reg, f.tool);
    }
    forall k ensures k in keys <==> k in called {
      MappedMembership(Collapsible(rows, reg), GroupKey, k);
    }
    DistinctSize(keys, called);
    FilterCong(rows, (f: Finding) => f.tool in UngroupedTools(reg),
               OneByOne(reg));
  }

  // ----- the endpoint -----

  datatype GroupItem = GroupItem(stub: Stub, category: string, representative: Finding)

  datatype GroupList = GroupList(items: seq<GroupItem>, total: nat, truncated: bool, totalFindings: nat)

  predicate Represents(rows: seq<Finding>, s: Stub, rep: Finding) {
    && rep in rows && Covers(s, rep)
    && rep.severity == s.severity
    && (forall f :: f in rows && Covers(s, f) && f.severity == rep.severity ==> rep.firstSeen <= f.firstSeen)
  }

  /** representative_finding: worst severity, then oldest; ties are the engine's choice. */
  method RepresentativeFinding(members: seq<Finding>) returns (rep: Option<Finding>)
    ensures rep.None? <==> members == []
    ensures rep.Some? ==> rep.value in members
    ensures rep.Some? ==> forall f :: f in members ==> Weight(f) <= Weight(rep.value)
    ensures rep.Some? ==> forall f :: f in members && Weight(f) == Weight(rep.value) ==>
              rep.value.firstSeen <= f.firstSeen
  {
    var key := (f: Finding) => Key(-Weight(f), f.firstSeen, "", "", 0);
    var ordered := SortBy(members, key, false);
    SortBySorted(members, key, false);
    SortByMembers(members, key, false);
    if ordered == [] {
      return None;
    }
    rep := Some(ordered[0]);
    forall f | f in members
      ensures Weight(f) <= Weight(ordered[0])
              && (Weight(f) == Weight(ordered[0]) ==> ordered[0].firstSeen <= f.firstSeen)
    {
      assert f in ordered;
      HeadIsLeast(ordered, key, false, f);
    }
  }

  lemma SameSeverityByWeight(a: Finding, b: Finding)
    requires Weight(a) == Weight(b)
    ensures a.severity == b.severity
  {
  }

  ghost predicate IsStub(rows: seq<Finding>, reg: Registry, s: Stub) {
    s in AllStubs(rows, reg)
  }

  ghost predicate AllAreStubs(rows: seq<Finding>, reg: Registry, stubs: seq<Stub>) {
    forall s :: s in stubs ==> IsStub(rows, reg, s)
  }

  /** The second pass for one stub: its representative, or nothing if none were found. */
  method Enrich(rows: seq<Finding>, reg: Registry, s: Stub) returns (item: Option<GroupItem>)
    requires IsStub(rows, reg, s)
    ensures item.Some? && item.value.stub == s && item.value.category == ToolCategory(reg, s.tool)
    ensures Represents(rows, s, item.value.representative)
  {
    ghost var i: int :| 0 <= i < |AllStubs(rows, reg)| && AllStubs(rows, reg)[i] == s;
    if s.finding.Some? {
      SingleRepresentsItself(rows, reg, i);
      return Some(GroupItem(s, ToolCategory(reg, s.tool), s.finding.value));
    }
    var rep := RepresentativeFinding(Members(Collapsible(rows, reg), (s.tool, s.ruleId)));
    if rep.Some? {
      GroupRepresented(rows, reg, i, rep.value);
      return Some(GroupItem(s, ToolCategory(reg, s.tool), rep.value));
    }
    StubShape(rows, reg, i);
    TopGroupAt(rows, reg, i);
    assert false;
    return None;
  }

  lemma SingleRepresentsItself(rows: seq<Finding>, reg: Registry, i: nat)
    requires i < |AllStubs(rows, reg)| && AllStubs(rows, reg)[i].finding.Some?
    ensures Represents(rows, AllStubs(rows, reg)[i], AllStubs(rows, reg)[i].finding.value)
  {
    StubShape(rows, reg, i);
    SortByMembers(Singles(rows, reg), SingleOrderKey, false);
    assert AllStubs(rows, reg)[i].finding.value in TopSingles(rows, reg);
    assert AllStubs(rows, reg)[i].finding.value in Singles(rows, reg);
  }

  lemma GroupRepresented(rows: seq<Finding>, reg: Registry, i: nat, rep: Finding)
    requires i < |AllStubs(rows, reg)| && AllStubs(rows, reg)[i].finding.None?
    requires var s := AllStubs(rows, reg)[i];
             var members := Members(Collapsible(rows, reg), (s.tool, s.ruleId));
             && rep in members
             && (forall f :: f in members ==> Weight(f) <= Weight(rep))
             && (forall f :: f in members && Weight(f) == Weight(rep) ==> rep.firstSeen <= f.firstSeen)
    ensures Represents(rows, AllStubs(rows, reg)[i], rep)
  {
    var s := AllStubs(rows, reg)[i];
    StubShape(rows, reg, i);
    assert s == GroupStub(TopGroups(rows, reg)[i]);
    var worst := GroupSeverityIsHighest(rows, reg, i);
    SameSeverityByWeight(worst, rep);
    forall f | f in rows && Covers(s, f) && f.severity == rep.severity ensures rep.firstSeen <= f.firstSeen {
      assert f in Collapsible(rows, reg);
      assert f in Members(Collapsible(rows, reg), (s.tool, s.ruleId));
    }
  }

  method AppendGroupStubs(groups: seq<GroupRow>) returns (stubs: seq<Stub>)
    ensures stubs == Map(groups, GroupStub)
  {
    stubs := [];
    for i := 0 to |groups|
      invariant |stubs| == i && forall k :: 0 <= k < i ==> stubs[k] == GroupStub(groups[k])
    {
      stubs := stubs + [GroupStub(groups[i])];
    }
  }

  method AppendSingleStubs(before: seq<Stub>, singles: seq<Finding>) returns (stubs: seq<Stub>)
    ensures stubs == before + Map(singles, SingleStub)
  {
    stubs := before;
    for i := 0 to |singles|
      invariant |stubs| == |before| + i && stubs[..|before|] == before
      invariant forall k :: 0 <= k < i ==> stubs[|before| + k] == SingleStub(singles[k])
    {
      stubs := stubs + [SingleStub(singles[i])];
    }
  }

  /** The first pass: a cheap stub per group, then one per ungrouped finding. */
  method BuildStubs(rows: seq<Finding>, reg: Registry) returns (stubs: seq<Stub>, truncated: bool)
    ensures stubs == AllStubs(rows, reg)
    ensures truncated == (|GroupRows(Collapsible(rows, reg))| >= MAX_GROUPS || |Singles(rows, reg)| >= MAX_GROUPS)
  {
    var groups, singles := TopGroups(rows, reg), TopSingles(rows, reg);
    stubs := AppendGroupStubs(groups);
    stubs := AppendSingleStubs(stubs, singles);
    truncated := |groups| >= MAX_GROUPS || |singles| >= MAX_GROUPS;
    TopGroupsSize(rows, reg);
    TopSinglesSize(rows, reg);
  }

  lemma TopGroupsSize(rows: seq<Finding>, reg: Registry)
    ensures var n := |GroupRows(Collapsible(rows, reg))|;
            |TopGroups(rows, reg)| == if n <= MAX_GROUPS then n else MAX_GROUPS
  {
    TopGroupsFacts(rows, reg);
  }

  function PageOfStubs(rows: seq<Finding>, reg: Registry, sort: GroupSort, page: int, pageSize: int): seq<Stub> {
    Page(SortGroups(AllStubs(rows, reg), sort), ClampPage(page), ClampSize(pageSize, 500))
  }

  function StubOf(x: GroupItem): Stub { x.stub }

  /** GET /api/findings/groups. The page shows exactly the sorted stubs at its place, each
      with a representative from the same filtered set; no row is silently dropped. Every row
      shows what its findings say, and the rows stand in the order asked for. */
  method ListFindingGroups(db: Db, caller: Caller, reg: Registry, q: Filters, c: CategoryFilter,
                           sort: GroupSort, page: int, pageSize: int) returns (r: GroupList)
    requires ValidDb(db) && Consistent(reg)
    ensures var rows := Selected(db, caller, reg, q, c);
      && r.total == |AllStubs(rows, reg)|
      && r.totalFindings == TotalFindings(rows, reg)
      && r.truncated == (GroupsCalledFor(rows, reg) >= 2000 || SinglesCalledFor(rows, reg) >= 2000)
      && Map(r.items, StubOf) == PageOfStubs(rows, reg, sort, page, pageSize)
      && (forall x :: x in r.items ==> Represents(rows, x.stub, x.representative))
    ensures forall x :: x in r.items ==>
              RowExact(Selected(db, caller, reg, q, c), reg, x.stub) && x.category == ToolCategory(reg, x.stub.tool)
    ensures forall i, j :: 0 <= i < j < |r.items| ==> ShownBefore(sort, r.items[i].stub, r.items[j].stub)
    ensures !r.truncated ==>
              var rows := Selected(db, caller, reg, q, c);
              r.totalFindings == |rows| && r.total == GroupsCalledFor(rows, reg) + SinglesCalledFor(rows, reg)
  {
    var query := SelectFindings(db, caller, reg, q, c);
    r := GroupPage(if query.Some? then query.value else [], reg, sort, page, pageSize);
    var rows := Selected(db, caller, reg, q, c);
    SelectedDistinct(db, caller, reg, q, c);
    RowsCalledFor(rows, reg);
    GroupsAccountForFlat(rows, reg);
    PageRowsExact(rows, reg, r.items, sort, page, pageSize);
    StubsInAll(rows, reg);
  }

  lemma StubsInAll(rows: seq<Finding>, reg: Registry)
    ensures |GroupRows(Collapsible(rows, reg))| < MAX_GROUPS && |Singles(rows, reg)| < MAX_GROUPS ==>
              |AllStubs(rows, reg)| == |GroupRows(Collapsible(rows, reg))| + |Singles(rows, reg)|
  {
    TopGroupsSize(rows, reg);
    TopSinglesSize(rows, reg);
  }

  lemma PageRowsExact(rows: seq<Finding>, reg: Registry, items: seq<GroupItem>, sort: GroupSort, page: int,
                      pageSize: int)
    requires IdsIdentify(rows) && Consistent(reg) && Map(items, StubOf) == PageOfStubs(rows, reg, sort, page, pageSize)
    ensures forall x :: x in items ==> RowExact(rows, reg, x.stub)
    ensures forall i, j :: 0 <= i < j < |items| ==> ShownBefore(sort, items[i].stub, items[j].stub)
  {
    var shown := PageOfStubs(rows, reg, sort, page, pageSize);
    PageStubsAreStubs(rows, reg, sort, page, pageSize);
    assert |items| == |Map(items, StubOf)| == |shown|;
    forall x | x in items ensures RowExact(rows, reg, x.stub) {
      var i :| 0 <= i < |items| && items[i] == x;
      assert Map(items, StubOf)[i] == x.stub == shown[i];
      assert shown[i] in shown && IsStub(rows, reg, x.stub);
      EveryRowExact(rows, reg, x.stub);
    }
    forall i, j | 0 <= i < j < |items| ensures ShownBefore(sort, items[i].stub, items[j].stub) {
      assert Map(items, StubOf)[i] == shown[i] && Map(items, StubOf)[j] == shown[j];
      StubPageOrder(rows, reg, sort, page, pageSize, i, j);
    }
  }

  lemma PageStubsAreStubs(rows: seq<Finding>, reg: Registry, sort: GroupSort, page: int, pageSize: int)
    ensures AllAreStubs(rows, reg, PageOfStubs(rows, reg, sort, page, pageSize))
  {
    SortByMembers(AllStubs(rows, reg), StubKey(sort), !sort.Age?);
    PageMembers(SortGroups(AllStubs(rows, reg), sort), ClampPage(page), ClampSize(pageSize, 500));
  }

  method GroupPage(rows: seq<Finding>, reg: Registry, sort: GroupSort, page: int, pageSize: int) returns (r: GroupList)
    ensures r.total == |AllStubs(rows, reg)|
    ensures r.totalFindings == TotalFindings(rows, reg)
    ensures r.truncated == (|GroupRows(Collapsible(rows, reg))| >= MAX_GROUPS || |Singles(rows, reg)| >= MAX_GROUPS)
    ensures Enriched(rows, reg, r.items, PageOfStubs(rows, reg, sort, page, pageSize))
  {
    var stubs, truncated := BuildStubs(rows, reg);
    var totalFindings := Sum(StubCounts(stubs));
    var pageStubs := Page(SortGroups(stubs, sort), ClampPage(page), ClampSize(pageSize, 500));
    PageStubsAreStubs(rows, reg, sort, page, pageSize);
    var items := EnrichPage(rows, reg, pageStubs);
    r := GroupList(items, |stubs|, truncated, totalFindings);
  }

  /** Page rows so far: each carries its stub and a representative of it. */
  ghost predicate Enriched(rows: seq<Finding>, reg: Registry, items: seq<GroupItem>, stubs: seq<Stub>) {
    && Map(items, StubOf) == stubs
    && (forall x :: x in items ==> Represents(rows, x.stub, x.representative))
    && (forall x :: x in items ==> x.category == ToolCategory(reg, x.stub.tool))
  }

  lemma EnrichedSnoc(rows: seq<Finding>, reg: Registry, items: seq<GroupItem>, stubs: seq<Stub>, item: GroupItem)
    requires Enriched(rows, reg, items, stubs) && Represents(rows, item.stub, item.representative)
    requires item.category == ToolCategory(reg, item.stub.tool)
    ensures Enriched(rows, reg, items + [item], stubs + [item.stub])
  {
  }

  /** The body of the loop: a stub without a member would be dropped here, and none is. */
  method EnrichNext(rows: seq<Finding>, reg: Registry, pageStubs: seq<Stub>, i: nat, before: seq<GroupItem>,
                    ghost done: seq<Stub>)
    returns (items: seq<GroupItem>)
    requires i < |pageStubs| && AllAreStubs(rows, reg, pageStubs) && Enriched(rows, reg, before, done)
    ensures Enriched(rows, reg, items, done + [pageStubs[i]])
  {
    items := before;
    var item := Enrich(rows, reg, pageStubs[i]);
    if item.Some? {
      EnrichedSnoc(rows, reg, before, done, item.value);
      items := items + [item.value];
    }
  }

  method EnrichPage(rows: seq<Finding>, reg: Registry, pageStubs: seq<Stub>) returns (items: seq<GroupItem>)
    requires AllAreStubs(rows, reg, pageStubs)
    ensures Enriched(rows, reg, items, pageStubs)
  {
    items := [];
    ghost var done: seq<Stub> := [];
    for i := 0 to |pageStubs|
      invariant done == pageStubs[..i] && Enriched(rows, reg, items, done)
    {
      items := EnrichNext(rows, reg, pageStubs, i, items, done);
      done := done + [pageStubs[i]];
    }
    assert pageStubs[..|pageStubs|] == pageStubs;
  }
}
