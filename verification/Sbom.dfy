/** Software inventory (app/api/sbom.py): the cross-target index of components, and the SPDX
    document of one target. */
module Sbom {
  import opened Prelude
  import opened Seqs
  import opened Ordering
  import opened Decimal

  datatype Target = Target(id: int, name: string, workspaceId: int, defaultBranch: string, deleted: bool)

  datatype Component = Component(id: nat, targetId: int, branch: string, name: string, version: string,
                                 packageType: string, purl: string)

  datatype Package = Package(name: string, version: string, purl: string)

  datatype Group = Group(package: Package, packageType: string, targetIds: seq<int>)

  datatype Summary = Summary(withSbom: nat, targets: nat, components: nat)

  function PackageOf(c: Component): Package {
    Package(c.name, c.version, c.purl)
  }

  function Visible(workspaces: Option<set<int>>): Target -> bool {
    (t: Target) => !t.deleted && (workspaces.None? || t.workspaceId in workspaces.value)
  }

  /** Only a target's default branch is its current inventory. */
  function CurrentOf(t: Target): Component -> bool {
    (c: Component) => c.targetId == t.id && c.branch == t.defaultBranch
  }

  // ----- the index, by definition -----

  /** One component found at one target. */
  datatype Use = Use(targetId: int, component: Component)

  function UseAt(id: int): Component -> Use {
    (c: Component) => Use(id, c)
  }

  function UsesAt(t: Target, components: seq<Component>): seq<Use> {
    Map(Filter(components, CurrentOf(t)), UseAt(t.id))
  }

  function Uses(targets: seq<Target>, components: seq<Component>): seq<Use> {
    if targets == [] then []
    else Uses(targets[..|targets| - 1], components) + UsesAt(targets[|targets| - 1], components)
  }

  function Packages(uses: seq<Use>): set<Package> {
    set u | u in uses :: PackageOf(u.component)
  }

  /** The targets that have the package. */
  function Carriers(uses: seq<Use>, k: Package): set<int> {
    set u | u in uses && PackageOf(u.component) == k :: u.targetId
  }

  /** The type a package is listed under: that of its first use. */
  function FirstType(uses: seq<Use>, k: Package): string {
    if uses == [] then ""
    else if PackageOf(uses[0].component) == k then uses[0].component.packageType
    else FirstType(uses[1..], k)
  }

  function Members(s: seq<int>): set<int> {
    set x | x in s
  }

  ghost predicate Describes(g: Group, k: Package, uses: seq<Use>) {
    && g.package == k && Distinct(g.targetIds) && Members(g.targetIds) == Carriers(uses, k)
    && g.packageType == FirstType(uses, k)
  }

  /** The dict while it is being filled: its keys in insertion order, one entry per package met. */
  ghost predicate Indexed(order: seq<Package>, groups: map<Package, Group>, uses: seq<Use>) {
    && Distinct(order) && (forall k :: k in order <==> k in groups) && groups.Keys == Packages(uses)
    && forall k :: k in groups ==> Describes(groups[k], k, uses)
  }

  lemma MemberOfUses(targets: seq<Target>, components: seq<Component>, u: Use)
    ensures u in Uses(targets, components) <==>
            exists t :: t in targets && t.id == u.targetId && u.component in components && CurrentOf(t)(u.component)
  {
    if targets != [] {
      var last := targets[|targets| - 1];
      MemberOfUses(targets[..|targets| - 1], components, u);
      assert targets == targets[..|targets| - 1] + [last];
      MemberOfUsesAt(last, components, u);
    }
  }

  lemma MemberOfUsesAt(t: Target, components: seq<Component>, u: Use)
    ensures u in UsesAt(t, components) <==> t.id == u.targetId && u.component in components && CurrentOf(t)(u.component)
  {
    var cs := Filter(components, CurrentOf(t));
    if u in UsesAt(t, components) {
      var i :| 0 <= i < |cs| && UsesAt(t, components)[i] == u;
      assert cs[i] in components;
    }
    if u.component in cs && t.id == u.targetId {
      var i :| 0 <= i < |cs| && cs[i] == u.component;
      assert UsesAt(t, components)[i] == u;
    }
  }

  // ----- one more use -----

  function Noted(groups: map<Package, Group>, u: Use): map<Package, Group> {
    var k := PackageOf(u.component);
    var g := if k in groups then groups[k] else Group(k, u.component.packageType, []);
    groups[k := if u.targetId in g.targetIds then g else g.(targetIds := g.targetIds + [u.targetId])]
  }

  lemma CarriersStep(uses: seq<Use>, u: Use, k: Package)
    ensures Carriers(uses + [u], k) == Carriers(uses, k) + (if PackageOf(u.component) == k then {u.targetId} else {})
  {
  }

  lemma {:induction false} FirstTypeStep(uses: seq<Use>, u: Use, k: Package)
    ensures k in Packages(uses) ==> FirstType(uses + [u], k) == FirstType(uses, k)
    ensures k !in Packages(uses) && PackageOf(u.component) == k ==> FirstType(uses + [u], k) == u.component.packageType
  {
    if uses != [] {
      assert (uses + [u])[1..] == uses[1..] + [u];
      assert forall w :: w in uses <==> w == uses[0] || w in uses[1..];
      FirstTypeStep(uses[1..], u, k);
    }
  }

  lemma MembersStep(s: seq<int>, x: int)
    ensures Members(s + [x]) == Members(s) + {x}
  {
  }

  lemma DescribesOther(g: Group, k: Package, uses: seq<Use>, u: Use)
    requires k in Packages(uses) && Describes(g, k, uses) && (PackageOf(u.component) != k || u.targetId in g.targetIds)
    ensures Describes(g, k, uses + [u])
  {
    CarriersStep(uses, u, k);
    FirstTypeStep(uses, u, k);
  }

  lemma DescribesMore(g: Group, k: Package, uses: seq<Use>, u: Use)
    requires k in Packages(uses) && Describes(g, k, uses) && PackageOf(u.component) == k && u.targetId !in g.targetIds
    ensures Describes(g.(targetIds := g.targetIds + [u.targetId]), k, uses + [u])
  {
    CarriersStep(uses, u, k);
    MembersStep(g.targetIds, u.targetId);
    FirstTypeStep(uses, u, k);
  }

  lemma DescribesFirst(k: Package, uses: seq<Use>, u: Use)
    requires PackageOf(u.component) == k && k !in Packages(uses)
    ensures Describes(Group(k, u.component.packageType, [u.targetId]), k, uses + [u])
  {
    CarriersStep(uses, u, k);
    assert Carriers(uses, k) == {};
    FirstTypeStep(uses, u, k);
  }

  lemma NotedEntry(order: seq<Package>, groups: map<Package, Group>, uses: seq<Use>, u: Use, k: Package)
    requires Indexed(order, groups, uses) && k in Noted(groups, u)
    ensures Describes(Noted(groups, u)[k], k, uses + [u])
  {
    if k !in groups {
      DescribesFirst(k, uses, u);
    } else if PackageOf(u.component) != k || u.targetId in groups[k].targetIds {
      DescribesOther(groups[k], k, uses, u);
    } else {
      DescribesMore(groups[k], k, uses, u);
    }
  }

  lemma NotedIndexed(order: seq<Package>, groups: map<Package, Group>, uses: seq<Use>, u: Use)
    requires Indexed(order, groups, uses)
    ensures var k := PackageOf(u.component);
            Indexed(if k in groups then order else order + [k], Noted(groups, u), uses + [u])
  {
    forall k | k in Noted(groups, u) ensures Describes(Noted(groups, u)[k], k, uses + [u]) {
      NotedEntry(order, groups, uses, u, k);
    }
    assert Packages(uses + [u]) == Packages(uses) + {PackageOf(u.component)};
  }

  // ----- the loops -----

  datatype Index = Index(order: seq<Package>, groups: map<Package, Group>)

  method NoteOne(id: int, c: Component, before: Index, ghost uses: seq<Use>) returns (after: Index)
    requires Indexed(before.order, before.groups, uses)
    ensures Indexed(after.order, after.groups, uses + [Use(id, c)])
  {
    NotedIndexed(before.order, before.groups, uses, Use(id, c));
    var k := PackageOf(c);
    after := Index(if k in before.groups then before.order else before.order + [k], Noted(before.groups, Use(id, c)));
  }

  /** The inner loop of `_aggregate_org_components`. */
  method NoteTarget(t: Target, found: seq<Component>, before: Index, ghost uses: seq<Use>) returns (after: Index)
    requires Indexed(before.order, before.groups, uses)
    ensures Indexed(after.order, after.groups, uses + Map(found, UseAt(t.id)))
  {
    after := before;
    ghost var all := Map(found, UseAt(t.id));
    ghost var done := uses;
    for i := 0 to |found|
      invariant done == uses + all[..i] && Indexed(after.order, after.groups, done)
    {
      after := NoteOne(t.id, found[i], after, done);
      done := done + [all[i]];
    }
    assert all[..|found|] == all;
  }

  function HasSbom(components: seq<Component>): Target -> bool {
    (t: Target) => Filter(components, CurrentOf(t)) != []
  }

  function IdsOf(ts: seq<Target>): set<int> {
    set t | t in ts :: t.id
  }

  lemma UsesStep(ts: seq<Target>, t: Target, components: seq<Component>)
    ensures Uses(ts + [t], components) == Uses(ts, components) + UsesAt(t, components)
  {
    assert (ts + [t])[..|ts|] == ts;
  }

  ghost predicate Noticed(index: Index, withSbom: set<int>, done: seq<Target>, components: seq<Component>) {
    Indexed(index.order, index.groups, Uses(done, components)) && withSbom == IdsOf(Filter(done, HasSbom(components)))
  }

  /** The body of the outer loop. */
  method NoteNext(t: Target, components: seq<Component>, before: Index, seen: set<int>, ghost done: seq<Target>)
    returns (after: Index, withSbom: set<int>)
    requires Noticed(before, seen, done, components)
    ensures Noticed(after, withSbom, done + [t], components)
  {
    var found := Filter(components, CurrentOf(t));
    UsesStep(done, t, components);
    WithOneMore(done, t, components);
    withSbom := if found != [] then seen + {t.id} else seen;
    after := NoteTarget(t, found, before, Uses(done, components));
  }

  method NoteAll(targets: seq<Target>, components: seq<Component>) returns (index: Index, withSbom: set<int>)
    ensures Noticed(index, withSbom, targets, components)
  {
    index, withSbom := Index([], map[]), {};
    ghost var done: seq<Target> := [];
    for i := 0 to |targets|
      invariant done == targets[..i] && Noticed(index, withSbom, done, components)
    {
      index, withSbom := NoteNext(targets[i], components, index, withSbom, done);
      done := done + [targets[i]];
    }
    assert targets[..|targets|] == targets;
  }

  lemma WithOneMore(ts: seq<Target>, t: Target, components: seq<Component>)
    ensures IdsOf(Filter(ts + [t], HasSbom(components))) ==
            IdsOf(Filter(ts, HasSbom(components))) + (if Filter(components, CurrentOf(t)) != [] then {t.id} else {})
  {
    FilterAppend(ts, [t], HasSbom(components));
    assert [t][1..] == [];
  }

  function Lookup(groups: map<Package, Group>): Package -> Group {
    (k: Package) => if k in groups then groups[k] else Group(k, "", [])
  }

  function ByName(g: Group): Key {
    Key(0, 0, g.package.name, g.package.version, 0)
  }

  ghost predicate RightGroup(g: Group, uses: seq<Use>) {
    Describes(g, g.package, uses)
  }

  /** What the page shows: every package once, its carriers exactly, ordered by name and version. */
  ghost predicate IsIndex(rows: seq<Group>, uses: seq<Use>) {
    && SortedBy(rows, ByName, false)
    && (forall i, j :: 0 <= i < j < |rows| ==> rows[i].package != rows[j].package)
    && (forall g :: g in rows ==> RightGroup(g, uses))
    && (forall k :: k in Packages(uses) ==> exists g :: g in rows && g.package == k)
  }

  /** GET /api/sbom/org, and the summary beside it. */
  method AggregateOrgComponents(targets: seq<Target>, components: seq<Component>, workspaces: Option<set<int>>)
    returns (rows: seq<Group>, summary: Summary)
    ensures IsIndex(rows, Uses(Filter(targets, Visible(workspaces)), components))
    ensures summary == Summary(|IdsOf(Filter(Filter(targets, Visible(workspaces)), HasSbom(components)))|,
                               Count(targets, Visible(workspaces)),
                               |Packages(Uses(Filter(targets, Visible(workspaces)), components))|)
    ensures forall i, j :: 0 <= i < j < |rows| ==>
              || StrLess(rows[i].package.name, rows[j].package.name)
              || (rows[i].package.name == rows[j].package.name
                  && !StrLess(rows[j].package.version, rows[i].package.version))
    ensures summary.targets == Count(targets, (t: Target) =>
              !t.deleted && (workspaces.Some? ==> t.workspaceId in workspaces.value))
  {
    var seen := Filter(targets, Visible(workspaces));
    var index, withSbom := NoteAll(seen, components);
    rows := SortBy(Map(index.order, Lookup(index.groups)), ByName, false);
    OrderedIndex(index.order, index.groups, Uses(seen, components));
    summary := Summary(|withSbom|, |seen|, |rows|);
    IndexOrder(rows, Uses(seen, components));
    FilterCong(targets, Visible(workspaces), (t: Target) =>
        !t.deleted && (workspaces.Some? ==> t.workspaceId in workspaces.value));
  }

  lemma IndexOrder(rows: seq<Group>, uses: seq<Use>)
    requires IsIndex(rows, uses)
    ensures forall i, j :: 0 <= i < j < |rows| ==>
              || StrLess(rows[i].package.name, rows[j].package.name)
              || (rows[i].package.name == rows[j].package.name
                  && !StrLess(rows[j].package.version, rows[i].package.version))
  {
    forall i, j | 0 <= i < j < |rows|
      ensures || StrLess(rows[i].package.name, rows[j].package.name)
              || (rows[i].package.name == rows[j].package.name
                  && !StrLess(rows[j].package.version, rows[i].package.version))
    {
      assert !Precedes(ByName, false, rows[j], rows[i]);
      StrLessTotal(rows[i].package.name, rows[j].package.name);
    }
  }

  /** On the default branch of a live target in scope. */
  predicate ShownAt(workspaces: Option<set<int>>, t: Target, c: Component) {
    && !t.deleted && (workspaces.Some? ==> t.workspaceId in workspaces.value)
    && c.targetId == t.id && c.branch == t.defaultBranch
  }

  lemma ShownMeans(workspaces: Option<set<int>>, t: Target, c: Component)
    ensures ShownAt(workspaces, t, c) == (Visible(workspaces)(t) && CurrentOf(t)(c))
  {
  }

  /** The counts beside it: the targets that show a component, and the packages shown. */
  lemma SummaryMeans(targets: seq<Target>, components: seq<Component>, workspaces: Option<set<int>>)
    ensures IdsOf(Filter(Filter(targets, Visible(workspaces)), HasSbom(components)))
            == set t, c | t in targets && c in components && ShownAt(workspaces, t, c) :: t.id
    ensures Packages(Uses(Filter(targets, Visible(workspaces)), components))
            == set t, c | t in targets && c in components && ShownAt(workspaces, t, c)
                        :: Package(c.name, c.version, c.purl)
  {
    forall t, c ensures ShownAt(workspaces, t, c) == (Visible(workspaces)(t) && CurrentOf(t)(c)) {
      ShownMeans(workspaces, t, c);
    }
    CarriersMean(Filter(targets, Visible(workspaces)), components);
    PackagesMean(Filter(targets, Visible(workspaces)), components);
  }

  lemma CarriersMean(seen: seq<Target>, components: seq<Component>)
    ensures IdsOf(Filter(seen, HasSbom(components)))
            == set t, c | t in seen && c in components && CurrentOf(t)(c) :: t.id
  {
    forall t, c | t in seen && c in components && CurrentOf(t)(c) ensures HasSbom(components)(t) {
      assert c in Filter(components, CurrentOf(t));
    }
    forall t | t in seen && HasSbom(components)(t) ensures exists c :: c in components && CurrentOf(t)(c) {
      assert Filter(components, CurrentOf(t))[0] in components;
    }
  }

  lemma PackagesMean(seen: seq<Target>, components: seq<Component>)
    ensures Packages(Uses(seen, components))
            == set t, c | t in seen && c in components && CurrentOf(t)(c) :: Package(c.name, c.version, c.purl)
  {
    var uses := Uses(seen, components);
    forall u | u in uses ensures exists t :: t in seen && u.component in components && CurrentOf(t)(u.component) {
      MemberOfUses(seen, components, u);
    }
    forall t, c | t in seen && c in components && CurrentOf(t)(c) ensures Use(t.id, c) in uses {
      MemberOfUses(seen, components, Use(t.id, c));
    }
    forall k | k in set t, c | t in seen && c in components && CurrentOf(t)(c) :: Package(c.name, c.version, c.purl)
      ensures k in Packages(uses)
    {
      var t, c :| t in seen && c in components && CurrentOf(t)(c) && Package(c.name, c.version, c.purl) == k;
      assert PackageOf(Use(t.id, c).component) == k;
    }
  }

  lemma EntriesIndex(order: seq<Package>, groups: map<Package, Group>, uses: seq<Use>)
    requires Indexed(order, groups, uses)
    ensures var entries := Map(order, Lookup(groups));
            && (forall i :: 0 <= i < |entries| ==> entries[i].package == order[i] && RightGroup(entries[i], uses))
            && |entries| == |Packages(uses)|
  {
    DistinctSize(order, Packages(uses));
    var entries := Map(order, Lookup(groups));
    forall i | 0 <= i < |entries| ensures entries[i].package == order[i] && RightGroup(entries[i], uses) {
      assert order[i] in groups;
    }
  }

  function PackageOfGroup(g: Group): Package {
    g.package
  }

  lemma PackagesApart(rows: seq<Group>, entries: seq<Group>, order: seq<Package>)
    requires multiset(rows) == multiset(entries) && Map(entries, PackageOfGroup) == order && Distinct(order)
    ensures forall i, j :: 0 <= i < j < |rows| ==> rows[i].package != rows[j].package
  {
    assert Distinct(entries) by {
      forall i, j | 0 <= i < j < |entries| ensures entries[i] != entries[j] {
        assert order[i] != order[j];
      }
    }
    PermutationDistinct(entries, rows);
    SamePermutationMembers(rows, entries);
    forall i, j | 0 <= i < j < |rows| ensures rows[i].package != rows[j].package {
      assert rows[i] in rows && rows[j] in rows;
      var a :| 0 <= a < |entries| && entries[a] == rows[i];
      var b :| 0 <= b < |entries| && entries[b] == rows[j];
      assert a != b;
      assert order[a] != order[b];
    }
  }

  lemma OrderedIndex(order: seq<Package>, groups: map<Package, Group>, uses: seq<Use>)
    requires Indexed(order, groups, uses)
    ensures IsIndex(SortBy(Map(order, Lookup(groups)), ByName, false), uses)
    ensures |SortBy(Map(order, Lookup(groups)), ByName, false)| == |Packages(uses)|
  {
    var entries := Map(order, Lookup(groups));
    var rows := SortBy(entries, ByName, false);
    EntriesIndex(order, groups, uses);
    SortBySorted(entries, ByName, false);
    SortByMembers(entries, ByName, false);
    PackagesApart(rows, entries, order);
    forall k | k in Packages(uses) ensures exists g :: g in rows && g.package == k {
      var i :| 0 <= i < |order| && order[i] == k;
      assert entries[i] in rows;
    }
  }

  /** The index read as a reader does: a package is listed, with a target beside it, exactly when
      that target is visible and has the package on its default branch. */
  lemma ListedExactly(rows: seq<Group>, targets: seq<Target>, components: seq<Component>, workspaces: Option<set<int>>,
                      k: Package, id: int)
    requires IsIndex(rows, Uses(Filter(targets, Visible(workspaces)), components))
    ensures (exists g :: g in rows && g.package == k && id in g.targetIds) <==>
            (exists t, c :: t in targets && !t.deleted && (workspaces.Some? ==> t.workspaceId in workspaces.value)
                            && t.id == id && c in components && c.targetId == id && c.branch == t.defaultBranch
                            && c.name == k.name && c.version == k.version && c.purl == k.purl)
  {
    var seen := Filter(targets, Visible(workspaces));
    var uses := Uses(seen, components);
    if g :| g in rows && g.package == k && id in g.targetIds {
      assert RightGroup(g, uses) && id in Carriers(uses, k);
      var u :| u in uses && PackageOf(u.component) == k && u.targetId == id;
      MemberOfUses(seen, components, u);
      var t :| t in seen && t.id == id && u.component in components && CurrentOf(t)(u.component);
      assert t in targets && u.component in components;
    }
    if t, c :| && t in targets && !t.deleted && (workspaces.Some? ==> t.workspaceId in workspaces.value)
               && t.id == id && c in components && c.targetId == id && c.branch == t.defaultBranch
               && c.name == k.name && c.version == k.version && c.purl == k.purl {
      assert Visible(workspaces)(t) && CurrentOf(t)(c) && PackageOf(c) == k;
      var u := Use(id, c);
      assert t in seen;
      MemberOfUses(seen, components, u);
      assert k in Packages(uses);
      var g :| g in rows && g.package == k;
      assert RightGroup(g, uses) && id in Carriers(uses, k);
    }
  }

  // ----- SPDX export -----

  predicate Allowed(c: char) {
    'A' <= c <= 'Z' || 'a' <= c <= 'z' || '0' <= c <= '9' || c == '.' || c == '-'
  }

  predicate AllAllowed(s: string) {
    forall k :: 0 <= k < |s| ==> Allowed(s[k])
  }

  /** `re.sub(r"[^A-Za-z0-9.-]", "-", s)`. */
  function Slug(s: string): (r: string)
    ensures |r| == |s| && AllAllowed(r)
  {
    seq(|s|, i requires 0 <= i < |s| => if Allowed(s[i]) then s[i] else '-')
  }

  /** Letters, digits, dot and dash stay; every other character becomes a dash. */
  lemma SlugMeans(s: string, k: nat)
    requires k < |s|
    ensures |Slug(s)| == |s|
    ensures Slug(s)[k] == if || 'A' <= s[k] <= 'Z' || 'a' <= s[k] <= 'z' || '0' <= s[k] <= '9'
                             || s[k] == '.' || s[k] == '-'
                          then s[k] else '-'
  {
  }

  function PackageId(c: Component): string {
    "SPDXRef-Package-" + Slug(c.name + "-" + c.version) + ("-" + Print(c.id))
  }

  datatype SpdxPackage = SpdxPackage(spdxId: string, name: string, version: string, purl: Option<string>)

  datatype Relationship = Relationship(element: string, related: string)

  datatype SpdxDocument = SpdxDocument(spdxId: string, packages: seq<SpdxPackage>, relationships: seq<Relationship>)

  const ROOT := "SPDXRef-DOCUMENT"

  function PackageEntry(c: Component): SpdxPackage {
    SpdxPackage(PackageId(c), c.name, c.version, if c.purl != "" then Some(c.purl) else None)
  }

  function DescribesEntry(p: SpdxPackage): Relationship {
    Relationship(ROOT, p.spdxId)
  }

  function BuildSpdxDocument(components: seq<Component>): SpdxDocument {
    var packages := Map(components, PackageEntry);
    SpdxDocument(ROOT, packages, Map(packages, DescribesEntry))
  }

  /** Text ending in `-` and digits shows its digits: nothing before the last dash can blur them. */
  lemma SuffixDigits(a: string, d: string, b: string, e: string)
    requires AllDigits(d) && AllDigits(e) && a + ("-" + d) == b + ("-" + e)
    ensures a == b && d == e
  {
    var s := a + ("-" + d);
    assert |a| + 1 + |d| == |s| == |b| + 1 + |e|;
    assert s[|a|] == '-' && s[|b|] == '-';
    assert forall i :: |a| < i < |s| ==> s[i] == d[i - |a| - 1];
    assert forall i :: |b| < i < |s| ==> s[i] == e[i - |b| - 1];
    assert |a| == |b|;
    assert s[..|a|] == a && s[..|b|] == b;
    assert s[|a| + 1..] == d && s[|b| + 1..] == e;
  }

  /** Two components share an SPDX identifier exactly when they share their id and their slug:
      colliding slugs alone never do it. */
  lemma PackageIdsEqual(c: Component, d: Component)
    ensures PackageId(c) == PackageId(d) <==>
            c.id == d.id && Slug(c.name + "-" + c.version) == Slug(d.name + "-" + d.version)
  {
    var prefix := "SPDXRef-Package-";
    var a, b := Slug(c.name + "-" + c.version), Slug(d.name + "-" + d.version);
    if PackageId(c) == PackageId(d) {
      SuffixDigits(prefix + a, Print(c.id), prefix + b, Print(d.id));
      PrintRoundTrip(c.id);
      PrintRoundTrip(d.id);
      assert (prefix + a)[|prefix|..] == a && (prefix + b)[|prefix|..] == b;
    }
  }

  lemma PackageIdAllowed(c: Component)
    ensures AllAllowed(PackageId(c)) && PackageId(c) != ROOT
    ensures forall k :: 0 <= k < |PackageId(c)| ==>
              var x := PackageId(c)[k];
              'A' <= x <= 'Z' || 'a' <= x <= 'z' || '0' <= x <= '9' || x == '.' || x == '-'
  {
    var prefix, slug := "SPDXRef-Package-", Slug(c.name + "-" + c.version);
    assert AllAllowed(prefix);
    assert AllAllowed("-" + Print(c.id));
    assert PackageId(c)[8] == 'P' && ROOT[8] == 'D';
  }

  /** Two names that a slug cannot tell apart. */
  lemma SlugsCollide()
    ensures Slug("a/b") == Slug("a@b")
  {
  }

  function Describing(id: string): Relationship -> bool {
    (r: Relationship) => r.element == ROOT && r.related == id
  }

  function ComponentId(c: Component): nat {
    c.id
  }

  lemma {:induction false} DescribedOnce(components: seq<Component>, c: Component)
    requires Distinct(Map(components, ComponentId)) && c in components
    ensures Count(BuildSpdxDocument(components).relationships, Describing(PackageId(c))) == 1
  {
    var entry := (x: Component) => DescribesEntry(PackageEntry(x));
    assert BuildSpdxDocument(components).relationships == Map(components, entry);
    forall x | x in components ensures Describing(PackageId(c))(entry(x)) == KeyIs(ComponentId, c.id)(x) {
      PackageIdsEqual(x, c);
      if x.id == c.id {
        KeyUnique(components, ComponentId, c);
        assert x in Filter(components, KeyIs(ComponentId, c.id));
      }
    }
    FilterMap(components, entry, Describing(PackageId(c)), KeyIs(ComponentId, c.id));
    KeyUnique(components, ComponentId, c);
  }

  /** Every exported document: one package per component, allowed characters only, identifiers
      pairwise distinct and never the document's own, each package described exactly once and
      nothing else described. */
  lemma SpdxWellFormed(components: seq<Component>)
    requires Distinct(Map(components, ComponentId))
    ensures var doc := BuildSpdxDocument(components);
            && |doc.packages| == |components|
            && (forall i :: 0 <= i < |doc.packages| ==>
                  AllAllowed(doc.packages[i].spdxId) && doc.packages[i].spdxId != doc.spdxId)
            && (forall i, j :: 0 <= i < j < |doc.packages| ==> doc.packages[i].spdxId != doc.packages[j].spdxId)
            && (forall i :: 0 <= i < |doc.packages| ==>
                  Count(doc.relationships, Describing(doc.packages[i].spdxId)) == 1)
            && |doc.relationships| == |doc.packages|
            && doc.spdxId == "SPDXRef-DOCUMENT"
            && (forall i :: 0 <= i < |components| ==>
                  var c, p := components[i], doc.packages[i];
                  && p.name == c.name && p.version == c.version
                  && p.purl == (if c.purl == "" then None else Some(c.purl))
                  && p.spdxId == "SPDXRef-Package-" + Slug(c.name + "-" + c.version) + ("-" + Print(c.id))
                  && doc.relationships[i] == Relationship("SPDXRef-DOCUMENT", p.spdxId))
  {
    var doc := BuildSpdxDocument(components);
    forall i | 0 <= i < |components|
      ensures AllAllowed(doc.packages[i].spdxId) && doc.packages[i].spdxId != doc.spdxId
      ensures Count(doc.relationships, Describing(doc.packages[i].spdxId)) == 1
    {
      PackageIdAllowed(components[i]);
      DescribedOnce(components, components[i]);
    }
    forall i, j | 0 <= i < j < |components| ensures doc.packages[i].spdxId != doc.packages[j].spdxId {
      PackageIdsEqual(components[i], components[j]);
      assert Map(components, ComponentId)[i] != Map(components, ComponentId)[j];
    }
  }
}
