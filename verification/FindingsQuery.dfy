/** The one query builder behind every findings view (app/api/findings.py), as the
    step-by-step narrowing the source performs, and the flat list built on it. */
module FindingsQuery {
  import opened Prelude
  import opened Seqs
  import opened Ordering
  import opened ToolRegistry
  import opened FindingsModel

  /** A result row: the finding, with its target's columns once Target is joined. */
  datatype Row = Row(finding: Finding, target: Option<Target>)

  function Environment(r: Row): Option<string> {
    if r.target.Some? then r.target.value.environment else None
  }

  function Owner(r: Row): Option<string> {
    if r.target.Some? then r.target.value.owner else None
  }

  function Where(rows: seq<Row>, condition: Row -> Truth): seq<Row> {
    Filter(rows, r => condition(r) == TT)
  }

  // ----- inner joins: one output row per matching pair -----

  function TargetPairs(r: Row, targets: seq<Target>): seq<Row> {
    if targets == [] then []
    else (if targets[0].id == r.finding.targetId then [r.(target := Some(targets[0]))] else [])
         + TargetPairs(r, targets[1..])
  }

  function JoinTarget(rows: seq<Row>, targets: seq<Target>): seq<Row> {
    if rows == [] then [] else TargetPairs(rows[0], targets) + JoinTarget(rows[1..], targets)
  }

  /** One copy of `r` per membership row of its target in `group`. */
  function GroupPairs(r: Row, memberships: seq<Membership>, group: int): seq<Row> {
    Map(Filter(memberships, (m: Membership) => m.targetId == r.finding.targetId && m.groupId == group),
        (m: Membership) => r)
  }

  function JoinGroup(rows: seq<Row>, memberships: seq<Membership>, group: int): seq<Row> {
    if rows == [] then [] else GroupPairs(rows[0], memberships, group) + JoinGroup(rows[1..], memberships, group)
  }

  // ----- rows as a filtered copy of the findings table -----

  function MakeRow(db: Db, joined: bool, f: Finding): Row {
    Row(f, if joined then LookupTarget(db.targets, f.targetId) else None)
  }

  function Keep(fs: seq<Finding>, kept: set<Finding>): (r: seq<Finding>)
    ensures forall f :: f in r ==> f in fs && f in kept
  {
    if fs == [] then [] else (if fs[0] in kept then [fs[0]] else []) + Keep(fs[1..], kept)
  }

  ghost predicate RowsOf(rows: seq<Row>, db: Db, joined: bool, fs: seq<Finding>) {
    |rows| == |fs| && forall i :: 0 <= i < |rows| ==> rows[i] == MakeRow(db, joined, fs[i])
  }

  lemma RowsCons(r: Row, rows: seq<Row>, db: Db, joined: bool, f: Finding, fs: seq<Finding>)
    requires r == MakeRow(db, joined, f) && RowsOf(rows, db, joined, fs)
    ensures RowsOf([r] + rows, db, joined, [f] + fs)
  {
  }

  lemma RowsTail(rows: seq<Row>, db: Db, joined: bool, fs: seq<Finding>)
    requires RowsOf(rows, db, joined, fs) && fs != []
    ensures rows != [] && rows[0] == MakeRow(db, joined, fs[0]) && RowsOf(rows[1..], db, joined, fs[1..])
  {
  }

  /** `rows` are the findings in `kept`, in table order and once each, with their
      target's columns exactly when Target is joined. */
  ghost predicate Holds(rows: seq<Row>, db: Db, joined: bool, kept: set<Finding>) {
    RowsOf(rows, db, joined, Keep(db.findings, kept))
  }

  lemma {:induction false} KeepSubset(fs: seq<Finding>, kept: set<Finding>, fewer: set<Finding>, q: Finding -> bool)
    requires forall f :: f in fs ==> (f in fewer <==> f in kept && q(f))
    ensures Filter(Keep(fs, kept), q) == Keep(fs, fewer)
  {
    if fs != [] {
      KeepSubset(fs[1..], kept, fewer, q);
      FilterAppend(if fs[0] in kept then [fs[0]] else [], Keep(fs[1..], kept), q);
      assert fs[0] in fs;
    }
  }

  lemma {:induction false} KeepIsFilter(fs: seq<Finding>, kept: set<Finding>, p: Finding -> bool)
    requires forall f :: f in fs ==> (f in kept <==> p(f))
    ensures Keep(fs, kept) == Filter(fs, p)
  {
    if fs != [] {
      KeepIsFilter(fs[1..], kept, p);
      assert fs[0] in fs;
    }
  }

  /** WHERE narrows the kept set to the findings whose row makes the condition true. */
  lemma WhereStep(rows: seq<Row>, db: Db, joined: bool, kept: set<Finding>, condition: Row -> Truth,
                  fewer: set<Finding>)
    requires Holds(rows, db, joined, kept)
    requires forall f :: f in db.findings ==> (f in fewer <==> f in kept && condition(MakeRow(db, joined, f)) == TT)
    ensures Holds(Where(rows, condition), db, joined, fewer)
  {
    var make := (f: Finding) => MakeRow(db, joined, f);
    var passes := (f: Finding) => condition(make(f)) == TT;
    var fs := Keep(db.findings, kept);
    assert rows == Map(fs, make);
    FilterMap(fs, make, r => condition(r) == TT, passes);
    KeepSubset(db.findings, kept, fewer, passes);
  }

  lemma {:induction false} TargetPairsUnique(r: Row, targets: seq<Target>)
    requires forall i, j :: 0 <= i < j < |targets| ==> targets[i].id != targets[j].id
    ensures var t := LookupTarget(targets, r.finding.targetId);
            TargetPairs(r, targets) == if t.Some? then [r.(target := t)] else []
  {
    if targets != [] {
      TargetPairsUnique(r, targets[1..]);
      if targets[0].id == r.finding.targetId {
        assert forall t :: t in targets[1..] ==> t.id != targets[0].id;
      }
    }
  }

  lemma JoinTargetHead(r: Row, f: Finding, db: Db, joined: bool)
    requires ValidDb(db) && f in db.findings && r == MakeRow(db, joined, f)
    ensures TargetPairs(r, db.targets) == [MakeRow(db, true, f)]
  {
    TargetPairsUnique(r, db.targets);
  }

  /** Each row of the query meets exactly its own target. */
  ghost predicate JoinsOnce(db: Db, joined: bool, fs: seq<Finding>) {
    forall f :: f in fs ==> TargetPairs(MakeRow(db, joined, f), db.targets) == [MakeRow(db, true, f)]
  }

  lemma EachJoinsOnce(db: Db, joined: bool, fs: seq<Finding>)
    requires ValidDb(db) && forall f :: f in fs ==> f in db.findings
    ensures JoinsOnce(db, joined, fs)
  {
    forall f | f in fs ensures TargetPairs(MakeRow(db, joined, f), db.targets) == [MakeRow(db, true, f)] {
      JoinTargetHead(MakeRow(db, joined, f), f, db, joined);
    }
  }

  lemma {:induction false} JoinTargetRows(rows: seq<Row>, fs: seq<Finding>, db: Db, joined: bool)
    requires JoinsOnce(db, joined, fs)
    requires RowsOf(rows, db, joined, fs)
    ensures RowsOf(JoinTarget(rows, db.targets), db, true, fs)
  {
    if fs != [] {
      RowsTail(rows, db, joined, fs);
      assert fs[0] in fs && forall f :: f in fs[1..] ==> f in fs;
      JoinTargetRows(rows[1..], fs[1..], db, joined);
      RowsCons(MakeRow(db, true, fs[0]), JoinTarget(rows[1..], db.targets), db, true, fs[0], fs[1..]);
      assert fs == [fs[0]] + fs[1..];
    }
  }

  /** Joining by primary key over a foreign key neither drops nor duplicates a row. */
  lemma JoinTargetStep(rows: seq<Row>, db: Db, joined: bool, kept: set<Finding>)
    requires ValidDb(db) && Holds(rows, db, joined, kept)
    ensures Holds(JoinTarget(rows, db.targets), db, true, kept)
  {
    var fs := Keep(db.findings, kept);
    EachJoinsOnce(db, joined, fs);
    JoinTargetRows(rows, fs, db, joined);
  }

  lemma {:induction false} DistinctFilterEq<T>(s: seq<T>, x: T, p: T -> bool)
    requires Distinct(s)
    requires forall y :: y in s ==> (p(y) <==> y == x)
    ensures Filter(s, p) == if x in s then [x] else []
  {
    if s != [] {
      DistinctFilterEq(s[1..], x, p);
      assert s[0] !in s[1..];
    }
  }

  function InGroup(db: Db, group: int): Finding -> bool {
    (f: Finding) => Membership(f.targetId, group) in db.memberships
  }

  lemma JoinGroupHead(r: Row, db: Db, group: int)
    requires Distinct(db.memberships)
    ensures GroupPairs(r, db.memberships, group) == if InGroup(db, group)(r.finding) then [r] else []
  {
    DistinctFilterEq(db.memberships, Membership(r.finding.targetId, group),
      (m: Membership) => m.targetId == r.finding.targetId && m.groupId == group);
  }

  lemma {:induction false} JoinGroupRows(rows: seq<Row>, fs: seq<Finding>, db: Db, joined: bool, group: int)
    requires Distinct(db.memberships) && RowsOf(rows, db, joined, fs)
    ensures RowsOf(JoinGroup(rows, db.memberships, group), db, joined, Filter(fs, InGroup(db, group)))
  {
    if fs != [] {
      var r, rest := rows[0], JoinGroup(rows[1..], db.memberships, group);
      RowsTail(rows, db, joined, fs);
      JoinGroupHead(r, db, group);
      JoinGroupRows(rows[1..], fs[1..], db, joined, group);
      if InGroup(db, group)(fs[0]) {
        RowsCons(r, rest, db, joined, fs[0], Filter(fs[1..], InGroup(db, group)));
      } else {
        assert [] + rest == rest;
      }
    }
  }

  /** The unique (target, group) constraint makes the group join a plain filter. */
  lemma JoinGroupStep(rows: seq<Row>, db: Db, joined: bool, kept: set<Finding>, group: int, fewer: set<Finding>)
    requires ValidDb(db) && Holds(rows, db, joined, kept)
    requires forall f :: f in db.findings ==>
               (f in fewer <==> f in kept && Membership(f.targetId, group) in db.memberships)
    ensures Holds(JoinGroup(rows, db.memberships, group), db, joined, fewer)
  {
    JoinGroupRows(rows, Keep(db.findings, kept), db, joined, group);
    KeepSubset(db.findings, kept, fewer, InGroup(db, group));
  }

  function FindingsOf(rows: seq<Row>): seq<Finding> {
    Map(rows, (r: Row) => r.finding)
  }

  function OrAll(conditions: seq<Truth>): Truth {
    if conditions == [] then FF else Or3(conditions[0], OrAll(conditions[1..]))
  }

  /** The OR of the picked buckets' conditions, in the source's fixed order. */
  function FixabilityAny(picked: seq<Fixability>, cveId: Option<string>, enrichment: seq<Enrichment>): Truth {
    OrAll(Map(Filter(BUCKETS, b => b in picked), b => FixabilityCondition(b, cveId, enrichment)))
  }

  lemma FixabilityAnyMeaning(picked: seq<Fixability>, cveId: Option<string>, enrichment: seq<Enrichment>)
    requires picked != []
    ensures FixabilityAny(picked, cveId, enrichment) == TT <==> Bucket(enrichment, cveId) in picked
  {
    var kept := Filter(BUCKETS, b => b in picked);
    var conditions := Map(kept, b => FixabilityCondition(b, cveId, enrichment));
    OrAllMeaning(conditions);
    var mine := Bucket(enrichment, cveId);
    BucketsPartition(enrichment, cveId, mine);
    if mine in picked {
      assert mine == BUCKETS[0] || mine == BUCKETS[1] || mine == BUCKETS[2];
      var i :| 0 <= i < |kept| && kept[i] == mine;
      assert conditions[i] == TT;
    }
    if i :| 0 <= i < |conditions| && conditions[i] == TT {
      BucketsPartition(enrichment, cveId, kept[i]);
      assert kept[i] in kept;
    }
  }

  lemma {:induction false} OrAllMeaning(conditions: seq<Truth>)
    ensures OrAll(conditions) == TT <==> exists i :: 0 <= i < |conditions| && conditions[i] == TT
  {
    if conditions != [] {
      OrAllMeaning(conditions[1..]);
      if i :| 0 <= i < |conditions[1..]| && conditions[1..][i] == TT {
        assert conditions[i + 1] == TT;
      }
      if i :| 0 <= i < |conditions| && conditions[i] == TT {
        assert i == 0 || conditions[1..][i - 1] == TT;
      }
    }
  }

  /** The five-way ILIKE disjunction; a NULL cve_id makes its disjunct unknown. */
  function SearchCondition(caller: Caller, search: string, r: Row): Truth {
    var like := "%" + search + "%";
    Or3(Is(caller.ilike(r.finding.title, like)),
    Or3(Is(caller.ilike(r.finding.filePath, like)),
    Or3(Is(caller.ilike(r.finding.ruleId, like)),
    Or3(if r.finding.cveId.Some? then Is(caller.ilike(r.finding.cveId.value, like)) else UU,
        if r.target.Some? then Is(caller.ilike(r.target.value.name, like)) else UU))))
  }

  /** The part of the meaning that needs no Target join. */
  predicate OwnColumns(db: Db, caller: Caller, q: Filters, f: Finding) {
    && (q.groupId.Some? ==> Membership(f.targetId, q.groupId.value) in db.memberships)
    && Picks(q.targetId, f.targetId)
    && (q.branch.Some? ==> f.branch == q.branch.value)
    && InWindow(q, f)
    && StateSelected(q, f.state)
    && Picks(q.severity, f.severity)
    && Picks(q.tool, f.tool)
    && Picks(q.ruleId, f.ruleId)
    && (q.newSinceDays.Some? ==> f.firstSeen >= Cutoff(caller.now, q.newSinceDays.value))
    && Picks(q.dependencyScope, f.scope)
  }

  predicate Visible(db: Db, caller: Caller, f: Finding) {
    var t := LookupTarget(db.targets, f.targetId);
    t.Some? && InScope(caller, t.value)
  }

  predicate OwnedBy(db: Db, q: Filters, f: Finding) {
    var t := LookupTarget(db.targets, f.targetId);
    t.Some? && PicksColumn(q.environment, t.value.environment) && PicksColumn(q.owner, t.value.owner)
  }

  lemma UniqueTarget(db: Db, f: Finding)
    requires ValidDb(db) && f in db.findings
    ensures forall t :: t in db.targets && t.id == f.targetId ==> LookupTarget(db.targets, f.targetId) == Some(t)
  {
    forall t | t in db.targets && t.id == f.targetId ensures LookupTarget(db.targets, f.targetId) == Some(t) {
      var u := LookupTarget(db.targets, f.targetId).value;
      var i :| 0 <= i < |db.targets| && db.targets[i] == t;
      var j :| 0 <= j < |db.targets| && db.targets[j] == u;
    }
  }

  /** Deleted targets out, then the caller's workspaces. */
  method ScopedRows(db: Db, caller: Caller) returns (rows: seq<Row>, joined: bool, ghost kept: set<Finding>)
    requires ValidDb(db)
    ensures joined <==> caller.workspaces.Some?
    ensures forall f :: f in kept <==> f in db.findings && Visible(db, caller, f)
    ensures Holds(rows, db, joined, kept)
  {
    rows, joined := Map(db.findings, f => MakeRow(db, false, f)), false;
    kept := set f | f in db.findings;
    KeepIsFilter(db.findings, kept, f => true);
    FilterAll(db.findings, f => true);
    var deleted := DeletedIds(db.targets);
    rows, kept := Narrow(rows, db, joined, kept, true, (f: Finding) => f.targetId !in deleted);
    forall f | f in db.findings
      ensures f.targetId in deleted <==> LookupTarget(db.targets, f.targetId).value.deleted
    {
      DeletedIdsMeaning(db, f);
    }
    if caller.workspaces.Some? {
      JoinTargetStep(rows, db, joined, kept);
      rows, joined := JoinTarget(rows, db.targets), true;
      var workspaces := caller.workspaces.value;
      rows, kept := NarrowJoined(rows, db, kept, true,
                                 (r: Row) => Is(r.target.Some? && r.target.value.workspaceId in workspaces));
    }
  }

  /** SELECT id FROM target WHERE deleted_at IS NOT NULL. */
  function DeletedIds(targets: seq<Target>): seq<int> {
    Map(Filter(targets, (t: Target) => t.deleted), (t: Target) => t.id)
  }

  lemma DeletedIdsMeaning(db: Db, f: Finding)
    requires ValidDb(db) && f in db.findings
    ensures f.targetId in DeletedIds(db.targets) <==> LookupTarget(db.targets, f.targetId).value.deleted
  {
    MappedMembership(Filter(db.targets, (t: Target) => t.deleted), (t: Target) => t.id, f.targetId);
    UniqueTarget(db, f);
  }

  /** `if active: query = query.where(...)` for a condition on non-null columns. */
  method Narrow(rows: seq<Row>, db: Db, joined: bool, ghost kept: set<Finding>, active: bool,
                condition: Finding -> bool)
    returns (narrowed: seq<Row>, ghost fewer: set<Finding>)
    requires Holds(rows, db, joined, kept)
    ensures forall f :: f in fewer <==> f in kept && (active ==> condition(f))
    ensures Holds(narrowed, db, joined, fewer)
  {
    fewer := set f | f in kept && (active ==> condition(f));
    if active {
      var c := (r: Row) => Is(condition(r.finding));
      WhereStep(rows, db, joined, kept, c, fewer);
      narrowed := Where(rows, c);
    } else {
      narrowed := rows;
      assert fewer == kept;
    }
  }

  /** The same for a condition that reads the joined target, NULLs included. */
  method NarrowJoined(rows: seq<Row>, db: Db, ghost kept: set<Finding>, active: bool, condition: Row -> Truth)
    returns (narrowed: seq<Row>, ghost fewer: set<Finding>)
    requires Holds(rows, db, true, kept)
    ensures forall f :: f in fewer <==> f in kept && (active ==> condition(MakeRow(db, true, f)) == TT)
    ensures Holds(narrowed, db, true, fewer)
  {
    fewer := set f | f in kept && (active ==> condition(MakeRow(db, true, f)) == TT);
    if active {
      WhereStep(rows, db, true, kept, condition, fewer);
      narrowed := Where(rows, condition);
    } else {
      narrowed := rows;
      assert fewer == kept;
    }
  }

  /** The filters on Finding's own columns, in source order. */
  method WhereOwnColumns(rows0: seq<Row>, db: Db, caller: Caller, q: Filters, joined: bool, ghost kept0: set<Finding>)
    returns (rows: seq<Row>, ghost kept: set<Finding>)
    requires ValidDb(db) && Holds(rows0, db, joined, kept0)
    ensures forall f :: f in kept <==> f in kept0 && OwnColumns(db, caller, q, f)
    ensures Holds(rows, db, joined, kept)
  {
    rows, kept := WherePlaceAndTime(rows0, db, q, joined, kept0);
    rows, kept := Narrow(rows, db, joined, kept, Active(q.severity), (f: Finding) => Picks(q.severity, f.severity));
    rows, kept := Narrow(rows, db, joined, kept, Active(q.tool), (f: Finding) => Picks(q.tool, f.tool));
    rows, kept := Narrow(rows, db, joined, kept, Active(q.ruleId), (f: Finding) => Picks(q.ruleId, f.ruleId));
    rows, kept := Narrow(rows, db, joined, kept, q.newSinceDays.Some?, (f: Finding) => NewEnough(caller, q, f));
    rows, kept := Narrow(rows, db, joined, kept, Active(q.dependencyScope),
                         (f: Finding) => Picks(q.dependencyScope, f.scope));
  }

  predicate NewEnough(caller: Caller, q: Filters, f: Finding) {
    q.newSinceDays.Some? ==> f.firstSeen >= Cutoff(caller.now, q.newSinceDays.value)
  }

  predicate PlaceAndTime(db: Db, q: Filters, f: Finding) {
    && (q.groupId.Some? ==> Membership(f.targetId, q.groupId.value) in db.memberships)
    && Picks(q.targetId, f.targetId)
    && (q.branch.Some? ==> f.branch == q.branch.value)
    && InWindow(q, f)
    && StateSelected(q, f.state)
  }

  method WhereGroup(rows0: seq<Row>, db: Db, q: Filters, joined: bool, ghost kept0: set<Finding>)
    returns (rows: seq<Row>, ghost kept: set<Finding>)
    requires ValidDb(db) && Holds(rows0, db, joined, kept0)
    ensures forall f :: f in kept <==> f in kept0 && (q.groupId.Some? ==> InGroup(db, q.groupId.value)(f))
    ensures Holds(rows, db, joined, kept)
  {
    rows, kept := rows0, kept0;
    if q.groupId.Some? {
      kept := set f | f in kept0 && Membership(f.targetId, q.groupId.value) in db.memberships;
      JoinGroupStep(rows0, db, joined, kept0, q.groupId.value, kept);
      rows := JoinGroup(rows0, db.memberships, q.groupId.value);
    }
  }

  method WherePlaceAndTime(rows0: seq<Row>, db: Db, q: Filters, joined: bool, ghost kept0: set<Finding>)
    returns (rows: seq<Row>, ghost kept: set<Finding>)
    requires ValidDb(db) && Holds(rows0, db, joined, kept0)
    ensures forall f :: f in kept <==> f in kept0 && PlaceAndTime(db, q, f)
    ensures Holds(rows, db, joined, kept)
  {
    rows, kept := WhereGroup(rows0, db, q, joined, kept0);
    rows, kept := Narrow(rows, db, joined, kept, Active(q.targetId), (f: Finding) => Picks(q.targetId, f.targetId));
    rows, kept := Narrow(rows, db, joined, kept, q.branch.Some?, (f: Finding) => q.branch == Some(f.branch));
    rows, kept := Narrow(rows, db, joined, kept, q.dateFrom.Some?,
                         (f: Finding) => q.dateFrom.Some? ==> f.lastSeen >= q.dateFrom.value);
    rows, kept := Narrow(rows, db, joined, kept, q.dateTo.Some?,
                         (f: Finding) => q.dateTo.Some? ==> f.firstSeen <= q.dateTo.value);
    if Active(q.state) {
      rows, kept := Narrow(rows, db, joined, kept, true, (f: Finding) => Picks(q.state, f.state));
    } else {
      rows, kept := Narrow(rows, db, joined, kept, q.resolved.Some?,
                           (f: Finding) => q.resolved == Some(!IsOpen(f.state)));
    }
  }

  /** Environment and owner, joining Target first unless the scope already did. */
  method WhereOwner(rows0: seq<Row>, db: Db, q: Filters, joined0: bool, ghost kept0: set<Finding>)
    returns (rows: seq<Row>, joined: bool, ghost kept: set<Finding>)
    requires ValidDb(db) && kept0 <= (set f | f in db.findings) && Holds(rows0, db, joined0, kept0)
    ensures joined <==> joined0 || Active(q.environment) || Active(q.owner)
    ensures forall f :: f in kept <==> f in kept0 && OwnedBy(db, q, f)
    ensures Holds(rows, db, joined, kept)
  {
    rows, joined, kept := rows0, joined0, kept0;
    if Active(q.environment) || Active(q.owner) {
      if !joined {
        JoinTargetStep(rows, db, joined, kept);
        rows, joined := JoinTarget(rows, db.targets), true;
      }
      rows, kept := NarrowJoined(rows, db, kept, Active(q.environment),
                                 (r: Row) => PickedColumn(q.environment, Environment(r)));
      rows, kept := NarrowJoined(rows, db, kept, Active(q.owner), (r: Row) => PickedColumn(q.owner, Owner(r)));
    }
  }

  function PickedColumn(selection: Option<seq<string>>, column: Option<string>): Truth {
    if Active(selection) then In3(column, selection.value) else TT
  }

  method WhereFixability(rows0: seq<Row>, db: Db, q: Filters, joined: bool, ghost kept0: set<Finding>)
    returns (rows: seq<Row>, ghost kept: set<Finding>)
    requires Holds(rows0, db, joined, kept0)
    ensures forall f :: f in kept <==> f in kept0 && Picks(q.fixability, Bucket(db.enrichment, f.cveId))
    ensures Holds(rows, db, joined, kept)
  {
    rows, kept := rows0, kept0;
    if Active(q.fixability) {
      var picked := q.fixability.value;
      var c := (f: Finding) => FixabilityAny(picked, f.cveId, db.enrichment) == TT;
      forall f: Finding ensures c(f) <==> Bucket(db.enrichment, f.cveId) in picked {
        FixabilityAnyMeaning(picked, f.cveId, db.enrichment);
      }
      rows, kept := Narrow(rows, db, joined, kept, true, c);
    }
  }

  predicate Found(db: Db, caller: Caller, q: Filters, f: Finding) {
    var t := LookupTarget(db.targets, f.targetId);
    q.search.Some? && q.search.value != "" ==> t.Some? && SearchHits(caller, q.search.value, f, t.value)
  }

  method WhereSearch(rows0: seq<Row>, db: Db, caller: Caller, q: Filters, joined0: bool, ghost kept0: set<Finding>)
    returns (rows: seq<Row>, joined: bool, ghost kept: set<Finding>)
    requires ValidDb(db) && kept0 <= (set f | f in db.findings) && Holds(rows0, db, joined0, kept0)
    ensures joined0 ==> joined
    ensures forall f :: f in kept <==> f in kept0 && Found(db, caller, q, f)
    ensures Holds(rows, db, joined, kept)
  {
    rows, joined, kept := rows0, joined0, kept0;
    if q.search.Some? && q.search.value != "" {
      if !joined {
        JoinTargetStep(rows, db, joined, kept);
        rows, joined := JoinTarget(rows, db.targets), true;
      }
      var search := q.search.value;
      forall f | f in kept0
        ensures SearchCondition(caller, search, MakeRow(db, true, f)) == TT <==> Found(db, caller, q, f) {
        SearchConditionMeaning(db, caller, search, f);
      }
      rows, kept := NarrowJoined(rows, db, kept, true, (r: Row) => SearchCondition(caller, search, r));
    }
  }

  lemma SearchConditionMeaning(db: Db, caller: Caller, search: string, f: Finding)
    requires LookupTarget(db.targets, f.targetId).Some?
    ensures SearchCondition(caller, search, MakeRow(db, true, f)) == TT
            <==> SearchHits(caller, search, f, LookupTarget(db.targets, f.targetId).value)
  {
  }

  /** The builder every findings view shares. Whatever mix of filters is active, and
      whether or not Target was joined on the way, the rows are the findings the
      filter set means, once each; a caller in no workspace gets no query at all. */
  method FilteredFindingsQuery(db: Db, caller: Caller, q: Filters) returns (query: Option<seq<Row>>, targetJoined: bool)
    requires ValidDb(db)
    ensures query.None? <==> caller.workspaces == Some({})
    ensures query.Some? ==> FindingsOf(query.value) == Filter(db.findings, Matching(db, caller, q))
  {
    if caller.workspaces == Some({}) {
      return None, false;
    }
    var rows, joined;
    ghost var kept;
    rows, joined, kept := ScopedRows(db, caller);
    rows, kept := WhereOwnColumns(rows, db, caller, q, joined, kept);
    rows, joined, kept := WhereOwner(rows, db, q, joined, kept);
    rows, kept := WhereFixability(rows, db, q, joined, kept);
    rows, joined, kept := WhereSearch(rows, db, caller, q, joined, kept);
    KeepIsFilter(db.findings, kept, Matching(db, caller, q));
    assert FindingsOf(rows) == Keep(db.findings, kept);
    return Some(rows), joined;
  }

  // ----- category -----

  /** The reverse lookup: "Other" is NOT IN every known tool. */
  predicate ToolIn(reg: Registry, category: string, tool: string) {
    if category == UNKNOWN_TOOL_CATEGORY then tool !in AllKnownTools(reg) else tool in ToolsInCategory(reg, category)
  }

  function InCategories(reg: Registry, c: CategoryFilter): Finding -> bool {
    f => InCategory(reg, c, f)
  }

  /** One `.where(Finding.tool ...)` on the reverse lookup: keep a category, or drop it. */
  method WhereCategory(query: seq<Finding>, narrowed: seq<Finding>, reg: Registry, category: string, keep: bool,
                       ghost before: Finding -> bool, ghost after: Finding -> bool) returns (fewer: seq<Finding>)
    requires Consistent(reg) && narrowed == Filter(query, before)
    requires forall f :: after(f) <==> before(f) && (ToolCategory(reg, f.tool) == category) == keep
    ensures fewer == Filter(query, after)
  {
    var wanted := (f: Finding) => ToolIn(reg, category, f.tool) == keep;
    forall f: Finding ensures wanted(f) <==> (ToolCategory(reg, f.tool) == category) == keep {
      CategoryInverse(reg, f.tool, category);
    }
    FilterNarrow(query, before, wanted, after);
    fewer := Filter(narrowed, wanted);
  }

  function NotExcluded(reg: Registry, exclude: seq<string>): Finding -> bool {
    InCategories(reg, CategoryFilter(None, exclude))
  }

  /** Category is applied by tool name; it selects what the forward lookup says. */
  method ApplyCategory(query: seq<Finding>, reg: Registry, c: CategoryFilter) returns (narrowed: seq<Finding>)
    requires Consistent(reg)
    ensures narrowed == Filter(query, InCategories(reg, c))
  {
    narrowed := ExcludeCategories(query, reg, c.exclude);
    if c.category.Some? {
      narrowed := WhereCategory(query, narrowed, reg, c.category.value, true, NotExcluded(reg, c.exclude),
                                InCategories(reg, c));
    } else {
      assert c == CategoryFilter(None, c.exclude);
    }
  }

  method ExcludeCategories(query: seq<Finding>, reg: Registry, exclude: seq<string>) returns (narrowed: seq<Finding>)
    requires Consistent(reg)
    ensures narrowed == Filter(query, NotExcluded(reg, exclude))
  {
    narrowed := query;
    FilterAll(query, NotExcluded(reg, exclude[..0]));
    for i := 0 to |exclude|
      invariant narrowed == Filter(query, NotExcluded(reg, exclude[..i]))
    {
      narrowed := WhereCategory(query, narrowed, reg, exclude[i], false,
                                NotExcluded(reg, exclude[..i]), NotExcluded(reg, exclude[..i + 1]));
    }
    assert exclude[..|exclude|] == exclude;
  }

  /** Builder and category together: the filtered set itself. */
  method SelectFindings(db: Db, caller: Caller, reg: Registry, q: Filters, c: CategoryFilter)
    returns (query: Option<seq<Finding>>)
    requires ValidDb(db) && Consistent(reg)
    ensures query.None? <==> caller.workspaces == Some({})
    ensures query.Some? ==> query.value == Selected(db, caller, reg, q, c)
    ensures query.None? ==> Selected(db, caller, reg, q, c) == []
  {
    var rows, _ := FilteredFindingsQuery(db, caller, q);
    if rows.None? {
      return None;
    }
    var narrowed := ApplyCategory(FindingsOf(rows.value), reg, c);
    FilterNarrow(db.findings, Matching(db, caller, q), InCategories(reg, c), Selecting(db, caller, reg, q, c));
    return Some(narrowed);
  }

  // ----- the flat list -----

  datatype FlatSort = Exploitability | BySeverity | Age | Recent

  /** ORDER BY for each mode, as an ascending or descending key. Every key ends in the id. */
  function FlatKey(sort: FlatSort): Finding -> Key {
    match sort
    case Exploitability => (f: Finding) => Key(f.score, 0, "", "", f.id)
    case BySeverity => (f: Finding) => Key(SeverityWeight(f.severity), f.score, "", "", f.id)
    case Age => (f: Finding) => Key(f.firstSeen, 0, "", "", f.id)
    case Recent => (f: Finding) => Key(f.firstSeen, 0, "", "", f.id)
  }

  function FlatOrder(rows: seq<Finding>, sort: FlatSort): seq<Finding> {
    SortBy(rows, FlatKey(sort), !sort.Age?)
  }

  /** What each mode means: `a` is listed ahead of `b`. */
  predicate ListedBefore(sort: FlatSort, a: Finding, b: Finding) {
    match sort
    case Exploitability => a.score > b.score || (a.score == b.score && a.id > b.id)
    case BySeverity =>
      || MoreSevere(a.severity, b.severity)
      || (a.severity == b.severity && (a.score > b.score || (a.score == b.score && a.id > b.id)))
    case Age => a.firstSeen < b.firstSeen || (a.firstSeen == b.firstSeen && a.id < b.id)
    case Recent => a.firstSeen > b.firstSeen || (a.firstSeen == b.firstSeen && a.id > b.id)
  }

  lemma FlatKeyMeans(sort: FlatSort, a: Finding, b: Finding)
    requires Precedes(FlatKey(sort), !sort.Age?, a, b)
    ensures ListedBefore(sort, a, b)
  {
    WeightIsSeverity(a.severity, b.severity);
  }

  lemma FlatPageOrder(db: Db, caller: Caller, reg: Registry, q: Filters, c: CategoryFilter, sort: FlatSort,
                      page: int, size: int, i: nat, j: nat)
    requires ValidDb(db) && page >= 1 && size >= 1
    requires i < j < |Page(FlatOrder(Selected(db, caller, reg, q, c), sort), page, size)|
    ensures var items := Page(FlatOrder(Selected(db, caller, reg, q, c), sort), page, size);
            ListedBefore(sort, items[i], items[j])
  {
    var rows := Selected(db, caller, reg, q, c);
    SelectedDistinct(db, caller, reg, q, c);
    FlatKeyInjective(rows, sort);
    PageStrictly(rows, FlatKey(sort), !sort.Age?, page, size, i, j);
    FlatKeyMeans(sort, Page(FlatOrder(rows, sort), page, size)[i], Page(FlatOrder(rows, sort), page, size)[j]);
  }

  datatype FindingList = FindingList(items: seq<Finding>, total: nat)

  /** GET /api/findings: the count of the filtered set and one page of it in order. */
  method ListFindings(db: Db, caller: Caller, reg: Registry, q: Filters, c: CategoryFilter,
                      sort: FlatSort, page: int, pageSize: int) returns (r: FindingList)
    requires ValidDb(db) && Consistent(reg)
    ensures r.total == |Selected(db, caller, reg, q, c)|
    ensures r.items == Page(FlatOrder(Selected(db, caller, reg, q, c), sort), ClampPage(page), ClampSize(pageSize, 500))
    ensures forall i, j :: 0 <= i < j < |r.items| ==> ListedBefore(sort, r.items[i], r.items[j])
  {
    forall i, j | 0 <= i < j < |Page(FlatOrder(Selected(db, caller, reg, q, c), sort), ClampPage(page),
                                     ClampSize(pageSize, 500))|
      ensures var items := Page(FlatOrder(Selected(db, caller, reg, q, c), sort), ClampPage(page),
                                ClampSize(pageSize, 500));
              ListedBefore(sort, items[i], items[j]) {
      FlatPageOrder(db, caller, reg, q, c, sort, ClampPage(page), ClampSize(pageSize, 500), i, j);
    }
    var query := SelectFindings(db, caller, reg, q, c);
    if query.None? {
      EmptyPage(sort, ClampPage(page), ClampSize(pageSize, 500));
      return FindingList([], 0);
    }
    r := ListPage(query.value, sort, page, pageSize);
  }

  lemma EmptyPage(sort: FlatSort, page: int, size: int)
    requires page >= 1 && size >= 1
    ensures Page(FlatOrder([], sort), page, size) == []
  {
    assert 0 <= (page - 1) * size;
  }

  method ListPage(rows: seq<Finding>, sort: FlatSort, page: int, pageSize: int) returns (r: FindingList)
    ensures r.total == |rows|
    ensures r.items == Page(FlatOrder(rows, sort), ClampPage(page), ClampSize(pageSize, 500))
  {
    var ordered := FlatOrder(rows, sort);
    r := FindingList(Page(ordered, ClampPage(page), ClampSize(pageSize, 500)), |rows|);
  }

  /** The flat list's pages lose and repeat nothing: rows told apart by id have one
      arrangement under every sort mode, whatever order the engine returns them in. */
  lemma FlatOrderStable(a: seq<Finding>, b: seq<Finding>, sort: FlatSort, n: nat, size: int)
    requires multiset(a) == multiset(b) && Distinct(a) && size >= 1
    requires forall x, y :: x in a && y in a && x.id == y.id ==> x == y
    ensures OneView(a, b, FlatKey(sort), !sort.Age?, n, size)
  {
    FlatKeyInjective(a, sort);
    StablePages(a, b, FlatKey(sort), !sort.Age?, n, size);
  }

  /** So two requests against the same table, stored in any two orders, page alike. */
  lemma FlatPagesStable(db: Db, findings: seq<Finding>, caller: Caller, reg: Registry, q: Filters, c: CategoryFilter,
                        sort: FlatSort, page: int, size: int)
    requires ValidDb(db) && multiset(findings) == multiset(db.findings) && page >= 1 && size >= 1
    ensures Page(FlatOrder(Selected(db.(findings := findings), caller, reg, q, c), sort), page, size)
            == Page(FlatOrder(Selected(db, caller, reg, q, c), sort), page, size)
  {
    var a, b := Selected(db, caller, reg, q, c), Selected(db.(findings := findings), caller, reg, q, c);
    assert multiset(a) == multiset(b) by { SelectedPermutation(db, findings, caller, reg, q, c); }
    assert Distinct(a) && forall x, y :: x in a && y in a && x.id == y.id ==> x == y by {
      SelectedDistinct(db, caller, reg, q, c);
    }
    FlatOrderStable(a, b, sort, 0, size);
  }

  /** Which findings are selected does not depend on how the table is stored. */
  lemma SelectedPermutation(db: Db, findings: seq<Finding>, caller: Caller, reg: Registry, q: Filters,
                            c: CategoryFilter)
    requires multiset(findings) == multiset(db.findings)
    ensures multiset(Selected(db.(findings := findings), caller, reg, q, c))
            == multiset(Selected(db, caller, reg, q, c))
  {
    if caller.workspaces != Some({}) {
      FilterCong(findings, Selecting(db.(findings := findings), caller, reg, q, c), Selecting(db, caller, reg, q, c));
      FilterPermutation(db.findings, findings, Selecting(db, caller, reg, q, c));
    }
  }

  lemma FlatKeyInjective(rows: seq<Finding>, sort: FlatSort)
    requires forall a, b :: a in rows && b in rows && a.id == b.id ==> a == b
    ensures KeyInjective(rows, FlatKey(sort))
  {
    forall a, b | a in rows && b in rows && FlatKey(sort)(a) == FlatKey(sort)(b) ensures a == b {
      assert FlatKey(sort)(a).n3 == a.id && FlatKey(sort)(b).n3 == b.id;
    }
  }
}
