/** The PR Guardrail ignore workflow (app/api/pr_guardrail.py): decisions on PR findings
    that push state changes into the main findings table. */
module PrGuardrail {
  import opened Prelude
  import opened Seqs
  import opened FindingsModel

  datatype IgnoreStatus = NotRequested | Requested | Approved | Rejected | Revoked

  datatype PrFinding = PrFinding(
    prScanId: int, tool: string, ruleId: string, filePath: string, lineStart: Option<int>,
    status: IgnoreStatus, requestedBy: string, requestedReason: string,
    reviewedBy: string, reviewedAt: Option<int>, rejectReason: Option<string>)

  datatype PrScan = PrScan(targetId: int, prNumber: int)
  datatype Repo = Repo(workspaceId: int, defaultBranch: string)

  datatype MainFinding = MainFinding(
    id: int, targetId: int, branch: string, tool: string, ruleId: string, filePath: string,
    lineStart: Option<int>, state: FindingState)

  datatype StateLog = StateLog(findingId: int, fromState: FindingState, toState: FindingState, prNumber: int,
                               actor: string)

  /** Who acts: `workspaces` is None for a global admin; `reviews` holds for the global roles admin
      and security engineer. */
  datatype Reviewer = Reviewer(email: string, workspaces: Option<set<int>>, reviews: bool)

  datatype State = State(
    prFindings: map<int, PrFinding>, prScans: map<int, PrScan>, targets: map<int, Repo>,
    findings: seq<MainFinding>, logs: seq<StateLog>)

  /** A PR finding's scan and target, when both rows exist. */
  function Resolve(s: State, p: PrFinding): Option<(PrScan, Repo)> {
    if p.prScanId in s.prScans && s.prScans[p.prScanId].targetId in s.targets
    then Some((s.prScans[p.prScanId], s.targets[s.prScans[p.prScanId].targetId])) else None
  }

  /** _get_pr_finding_scoped: 404 unless the finding, its scan and its target exist and
      the target's workspace is one the caller belongs to. */
  predicate Reachable(s: State, who: Reviewer, id: int) {
    && id in s.prFindings
    && Resolve(s, s.prFindings[id]).Some?
    && (who.workspaces.Some? ==> Resolve(s, s.prFindings[id]).value.1.workspaceId in who.workspaces.value)
  }

  /** The same finding on the target's default branch, NULL lines matching NULL lines. */
  predicate SameFinding(targetId: int, branch: string, p: PrFinding, f: MainFinding) {
    && f.targetId == targetId && f.branch == branch
    && f.tool == p.tool && f.ruleId == p.ruleId && f.filePath == p.filePath && f.lineStart == p.lineStart
  }

  // ----- what a synchronisation does -----

  function Selects(targetId: int, branch: string, p: PrFinding, reopening: bool): MainFinding -> bool {
    f => SameFinding(targetId, branch, p, f) && if reopening then f.state == AcceptedRisk else IsOpen(f.state)
  }

  function Destination(reopening: bool): FindingState {
    if reopening then Reopened else AcceptedRisk
  }

  function Retriage(selected: MainFinding -> bool, reopening: bool): MainFinding -> MainFinding {
    f => if selected(f) then f.(state := Destination(reopening)) else f
  }

  function LogOf(reopening: bool, pr: int, actor: string): MainFinding -> StateLog {
    (f: MainFinding) => StateLog(f.id, f.state, Destination(reopening), pr, actor)
  }

  function SyncLogs(findings: seq<MainFinding>, selected: MainFinding -> bool, reopening: bool, pr: int,
                    actor: string): seq<StateLog> {
    Map(Filter(findings, selected), LogOf(reopening, pr, actor))
  }

  // ----- the requests -----

  datatype Op =
    | RequestIgnore(id: int, who: Reviewer, reason: string)
    | ApproveIgnore(id: int, who: Reviewer, now: int)
    | RejectIgnore(id: int, who: Reviewer, reason: string, now: int)
    | RevokeIgnore(id: int, who: Reviewer, now: int)

  /** The HTTP outcome; any error leaves the tables alone. */
  function Answer(s: State, op: Op): Outcome<()> {
    if !op.RequestIgnore? && !op.who.reviews then HttpError(403)
    else if !Reachable(s, op.who, op.id) then HttpError(404)
    else match op
      case RequestIgnore(_, _, reason) => if reason == "" then HttpError(400) else Ok(())
      case ApproveIgnore(_, _, _) => Ok(())
      case RejectIgnore(_, _, reason, _) => if reason == "" then HttpError(400) else Ok(())
      case RevokeIgnore(id, _, _) => if s.prFindings[id].status != Approved then HttpError(400) else Ok(())
  }

  function Submitted(p: PrFinding, requester: string, reason: string): PrFinding {
    p.(status := Requested, requestedBy := requester, requestedReason := reason,
       reviewedBy := "", reviewedAt := None, rejectReason := None)
  }

  function Reviewed(p: PrFinding, status: IgnoreStatus, who: Reviewer, now: int): PrFinding {
    p.(status := status, reviewedBy := who.email, reviewedAt := Some(now))
  }

  function Step(s: State, op: Op): State {
    if Answer(s, op).HttpError? then s
    else
      var p := s.prFindings[op.id];
      match op
      case RequestIgnore(id, who, reason) => s.(prFindings := s.prFindings[id := Submitted(p, who.email, reason)])
      case RejectIgnore(id, who, reason, now) =>
        s.(prFindings := s.prFindings[id := Reviewed(p, Rejected, who, now).(rejectReason := Some(reason))])
      case ApproveIgnore(id, who, now) => Decide(s, id, Approved, who, now, false)
      case RevokeIgnore(id, who, now) => Decide(s, id, Revoked, who, now, true)
  }

  function Decide(s: State, id: int, status: IgnoreStatus, who: Reviewer, now: int, reopening: bool): State
    requires Reachable(s, who, id)
  {
    var p := s.prFindings[id];
    var (scan, repo) := Resolve(s, p).value;
    var selected := Selects(scan.targetId, repo.defaultBranch, p, reopening);
    s.(prFindings := s.prFindings[id := Reviewed(p, status, who, now)],
       findings := Map(s.findings, Retriage(selected, reopening)),
       logs := s.logs + SyncLogs(s.findings, selected, reopening, scan.prNumber, who.email))
  }

  function Run(s: State, ops: seq<Op>): State
    decreases |ops|
  {
    if ops == [] then s else Run(Step(s, ops[0]), ops[1..])
  }

  // ----- the tables, updated in place -----

  class Store {
    var prFindings: map<int, PrFinding>
    var prScans: map<int, PrScan>
    var targets: map<int, Repo>
    var findings: seq<MainFinding>
    var logs: seq<StateLog>

    function Snapshot(): State
      reads this
    {
      State(prFindings, prScans, targets, findings, logs)
    }

    constructor (s: State)
      ensures Snapshot() == s
    {
      prFindings, prScans, targets, findings, logs := s.prFindings, s.prScans, s.targets, s.findings, s.logs;
    }

    /** apply_triage: one state change, one log row. */
    method ApplyTriage(i: nat, to: FindingState, pr: int, actor: string)
      requires i < |findings|
      modifies this`findings, this`logs
      ensures findings == old(findings)[i := old(findings)[i].(state := to)]
      ensures logs == old(logs) + [StateLog(old(findings)[i].id, old(findings)[i].state, to, pr, actor)]
    {
      logs := logs + [StateLog(findings[i].id, findings[i].state, to, pr, actor)];
      findings := findings[i := findings[i].(state := to)];
    }

    /** Both sync functions: query the matches, then triage each of them. */
    method Sync(targetId: int, branch: string, p: PrFinding, reopening: bool, pr: int, actor: string)
      modifies this`findings, this`logs
      ensures var selected := Selects(targetId, branch, p, reopening);
        && findings == Map(old(findings), Retriage(selected, reopening))
        && logs == old(logs) + SyncLogs(old(findings), selected, reopening, pr, actor)
    {
      var before := findings;
      var selected := Selects(targetId, branch, p, reopening);
      ghost var logs0 := logs;
      for i := 0 to |before|
        invariant |findings| == |before|
        invariant forall k :: 0 <= k < i ==> findings[k] == Retriage(selected, reopening)(before[k])
        invariant forall k :: i <= k < |before| ==> findings[k] == before[k]
        invariant logs == logs0 + SyncLogs(before[..i], selected, reopening, pr, actor)
      {
        SyncLogsStep(logs0, before, i, selected, reopening, pr, actor);
        if selected(before[i]) {
          ApplyTriage(i, Destination(reopening), pr, actor);
        }
      }
      assert before[..|before|] == before;
    }

    /** submit_ignore_request: a fresh request forgets the previous verdict. */
    method SubmitIgnoreRequest(id: int, requester: string, reason: string)
      requires id in prFindings
      modifies this`prFindings
      ensures prFindings == old(prFindings)[id := Submitted(old(prFindings)[id], requester, reason)]
    {
      prFindings := prFindings[id := prFindings[id].(status := Requested, requestedBy := requester,
                                                     requestedReason := reason)];
      prFindings := prFindings[id := prFindings[id].(reviewedBy := "", reviewedAt := None, rejectReason := None)];
    }

    method RequestIgnore(id: int, who: Reviewer, reason: string) returns (r: Outcome<()>)
      modifies this
      ensures r == Answer(old(Snapshot()), Op.RequestIgnore(id, who, reason))
      ensures Snapshot() == Step(old(Snapshot()), Op.RequestIgnore(id, who, reason))
    {
      if !Reachable(Snapshot(), who, id) {
        return HttpError(404);
      }
      if reason == "" {
        return HttpError(400);
      }
      SubmitIgnoreRequest(id, who.email, reason);
      return Ok(());
    }

    method ApproveIgnore(id: int, who: Reviewer, now: int) returns (r: Outcome<()>)
      modifies this
      ensures r == Answer(old(Snapshot()), Op.ApproveIgnore(id, who, now))
      ensures Snapshot() == Step(old(Snapshot()), Op.ApproveIgnore(id, who, now))
    {
      if !who.reviews {
        return HttpError(403);
      }
      if !Reachable(Snapshot(), who, id) {
        return HttpError(404);
      }
      var (scan, repo) := Resolve(Snapshot(), prFindings[id]).value;
      var p := prFindings[id].(status := Approved, reviewedBy := who.email, reviewedAt := Some(now));
      prFindings := prFindings[id := p];
      SelectsIgnoresReview(scan.targetId, repo.defaultBranch, old(prFindings)[id], p, false);
      Sync(scan.targetId, repo.defaultBranch, p, false, scan.prNumber, who.email);
      return Ok(());
    }

    /** A rejection needs a stated reason and never touches the main table. */
    method RejectIgnore(id: int, who: Reviewer, reason: string, now: int) returns (r: Outcome<()>)
      modifies this
      ensures r == Answer(old(Snapshot()), Op.RejectIgnore(id, who, reason, now))
      ensures Snapshot() == Step(old(Snapshot()), Op.RejectIgnore(id, who, reason, now))
      ensures findings == old(findings) && logs == old(logs)
    {
      if !who.reviews {
        return HttpError(403);
      }
      if !Reachable(Snapshot(), who, id) {
        return HttpError(404);
      }
      if reason == "" {
        return HttpError(400);
      }
      var p := prFindings[id];
      prFindings := prFindings[id := p.(status := Rejected, reviewedBy := who.email, reviewedAt := Some(now),
                                        rejectReason := Some(reason))];
      return Ok(());
    }

    method RevokeIgnore(id: int, who: Reviewer, now: int) returns (r: Outcome<()>)
      modifies this
      ensures r == Answer(old(Snapshot()), Op.RevokeIgnore(id, who, now))
      ensures Snapshot() == Step(old(Snapshot()), Op.RevokeIgnore(id, who, now))
    {
      if !who.reviews {
        return HttpError(403);
      }
      if !Reachable(Snapshot(), who, id) {
        return HttpError(404);
      }
      if prFindings[id].status != Approved {
        return HttpError(400);
      }
      var (scan, repo) := Resolve(Snapshot(), prFindings[id]).value;
      var p := prFindings[id].(status := Revoked, reviewedBy := who.email, reviewedAt := Some(now));
      prFindings := prFindings[id := p];
      SelectsIgnoresReview(scan.targetId, repo.defaultBranch, old(prFindings)[id], p, true);
      Sync(scan.targetId, repo.defaultBranch, p, true, scan.prNumber, who.email);
      return Ok(());
    }
  }

  lemma SyncLogsStep(logs: seq<StateLog>, before: seq<MainFinding>, i: nat, selected: MainFinding -> bool,
                     reopening: bool, pr: int, actor: string)
    requires i < |before|
    ensures logs + SyncLogs(before[..i + 1], selected, reopening, pr, actor)
            == if selected(before[i])
               then logs + SyncLogs(before[..i], selected, reopening, pr, actor)
                 + [LogOf(reopening, pr, actor)(before[i])]
               else logs + SyncLogs(before[..i], selected, reopening, pr, actor)
  {
    assert before[..i + 1] == before[..i] + [before[i]];
    FilterAppend(before[..i], [before[i]], selected);
    assert [before[i]][1..] == [];
    if selected(before[i]) {
      MapSnoc(Filter(before[..i], selected), before[i], LogOf(reopening, pr, actor));
      Reassociate(logs, SyncLogs(before[..i], selected, reopening, pr, actor),
                  [LogOf(reopening, pr, actor)(before[i])]);
    }
  }

  /** Matching reads the finding's location, never its review. */
  lemma SelectsIgnoresReview(targetId: int, branch: string, p: PrFinding, q: PrFinding, reopening: bool)
    requires (p.tool, p.ruleId, p.filePath, p.lineStart) == (q.tool, q.ruleId, q.filePath, q.lineStart)
    ensures forall s :: Map(s, Retriage(Selects(targetId, branch, p, reopening), reopening))
                        == Map(s, Retriage(Selects(targetId, branch, q, reopening), reopening))
    ensures forall s, pr, actor :: SyncLogs(s, Selects(targetId, branch, p, reopening), reopening, pr, actor)
                                   == SyncLogs(s, Selects(targetId, branch, q, reopening), reopening, pr, actor)
  {
    forall s
      ensures Filter(s, Selects(targetId, branch, p, reopening)) == Filter(s, Selects(targetId, branch, q, reopening)) {
      FilterCong(s, Selects(targetId, branch, p, reopening), Selects(targetId, branch, q, reopening));
    }
    forall s ensures Map(s, Retriage(Selects(targetId, branch, p, reopening), reopening))
                     == Map(s, Retriage(Selects(targetId, branch, q, reopening), reopening)) {
    }
  }

  // ----- what every run keeps -----

  /** The main-table rows a PR finding's decision can reach. */
  predicate Touches(s: State, p: PrFinding, f: MainFinding) {
    var r := Resolve(s, p);
    r.Some? && SameFinding(r.value.0.targetId, r.value.1.defaultBranch, p, f)
  }

  predicate Edge(from: FindingState, to: FindingState) {
    from == to || (IsOpen(from) && to == AcceptedRisk) || (from == AcceptedRisk && to == Reopened)
  }

  /** One request: rows keep everything but their state, which moves only along the two
      edges, and only where the decided PR finding matches. */
  lemma StepEdges(s: State, op: Op, i: nat)
    requires i < |s.findings|
    ensures |Step(s, op).findings| == |s.findings|
    ensures var f, g := s.findings[i], Step(s, op).findings[i];
            && g == f.(state := g.state)
            && Edge(f.state, g.state)
            && (f != g ==> Reachable(s, op.who, op.id) && Touches(s, s.prFindings[op.id], f))
  {
  }

  /** What a whole run can do to one row's state. */
  predicate Reach(from: FindingState, to: FindingState) {
    from == to || ((IsOpen(from) || from == AcceptedRisk) && (to == AcceptedRisk || to == Reopened))
  }

  lemma StepKeepsKeys(s: State, op: Op)
    ensures Step(s, op).prScans == s.prScans && Step(s, op).targets == s.targets
    ensures Step(s, op).prFindings.Keys == s.prFindings.Keys
    ensures forall id :: id in s.prFindings ==> forall f ::
              Touches(Step(s, op), Step(s, op).prFindings[id], f) == Touches(s, s.prFindings[id], f)
  {
  }

  /** Over every run: no row appears or disappears, states reach only Accepted Risk or
      Reopened and only from an open or accepted one (so Mitigated, False Positive and
      Won't Fix are frozen and Open never comes back), and a row that no PR finding
      matches is never changed at all. */
  lemma {:induction false} RunEdges(s: State, ops: seq<Op>, i: nat)
    requires i < |s.findings|
    ensures |Run(s, ops).findings| == |s.findings|
    ensures var f, g := s.findings[i], Run(s, ops).findings[i];
            && g == f.(state := g.state)
            && Reach(f.state, g.state)
            && ((forall id :: id in s.prFindings ==> !Touches(s, s.prFindings[id], f)) ==> g == f)
    decreases |ops|
  {
    if ops != [] {
      StepEdges(s, ops[0], i);
      StepKeepsKeys(s, ops[0]);
      RunEdges(Step(s, ops[0]), ops[1..], i);
    }
  }

  /** Right after an approval no matching finding is open; right after a revocation none
      is Accepted Risk. */
  lemma DecisionTakesEffect(s: State, op: Op, f: MainFinding)
    requires Answer(s, op).Ok? && f in Step(s, op).findings && Touches(s, s.prFindings[op.id], f)
    ensures op.ApproveIgnore? ==> !IsOpen(f.state)
    ensures op.RevokeIgnore? ==> f.state != AcceptedRisk
  {
  }

  // ----- the audit trail -----

  /** The rows one request adds to the log. */
  function NewLogs(s: State, op: Op): seq<StateLog> {
    if Answer(s, op).HttpError? || !(op.ApproveIgnore? || op.RevokeIgnore?) then []
    else
      var p := s.prFindings[op.id];
      var (scan, repo) := Resolve(s, p).value;
      var reopening := op.RevokeIgnore?;
      SyncLogs(s.findings, Selects(scan.targetId, repo.defaultBranch, p, reopening), reopening, scan.prNumber,
               op.who.email)
  }

  /** The rows a run adds, in order. */
  function Added(s: State, ops: seq<Op>): seq<StateLog>
    decreases |ops|
  {
    if ops == [] then [] else NewLogs(s, ops[0]) + Added(Step(s, ops[0]), ops[1..])
  }

  function IsFor(id: int): StateLog -> bool {
    (l: StateLog) => l.findingId == id
  }

  ghost predicate UniqueIds(findings: seq<MainFinding>) {
    forall i, j :: 0 <= i < j < |findings| ==> findings[i].id != findings[j].id
  }

  /** A history that leads from one state to another: each row starts where the one
      before it ended, and each is a real move along an allowed edge. */
  predicate Chain(from: FindingState, history: seq<StateLog>, to: FindingState)
    decreases |history|
  {
    if history == [] then from == to
    else history[0].fromState == from && history[0].toState != from && Edge(from, history[0].toState)
         && Chain(history[0].toState, history[1..], to)
  }

  lemma {:induction false} ChainAppend(a: FindingState, h1: seq<StateLog>, b: FindingState, h2: seq<StateLog>,
                                       c: FindingState)
    requires Chain(a, h1, b) && Chain(b, h2, c)
    ensures Chain(a, h1 + h2, c)
    decreases |h1|
  {
    if h1 == [] {
      assert h1 + h2 == h2;
    } else {
      assert (h1 + h2)[1..] == h1[1..] + h2;
      ChainAppend(h1[0].toState, h1[1..], b, h2, c);
    }
  }

  lemma {:induction false} OnlyRow(findings: seq<MainFinding>, i: nat, p: MainFinding -> bool)
    requires i < |findings| && UniqueIds(findings)
    requires forall f :: p(f) ==> f.id == findings[i].id
    ensures Filter(findings, p) == if p(findings[i]) then [findings[i]] else []
  {
    if i == 0 {
      CountZero(findings[1..], p);
    } else {
      assert findings[0].id != findings[i].id;
      OnlyRow(findings[1..], i - 1, p);
    }
  }

  lemma SyncLogsOfRow(findings: seq<MainFinding>, selected: MainFinding -> bool, reopening: bool, pr: int,
                      actor: string, i: nat)
    requires i < |findings| && UniqueIds(findings)
    ensures Filter(SyncLogs(findings, selected, reopening, pr, actor), IsFor(findings[i].id))
            == if selected(findings[i]) then [LogOf(reopening, pr, actor)(findings[i])] else []
  {
    var id := findings[i].id;
    FilterMap(Filter(findings, selected), LogOf(reopening, pr, actor), IsFor(id), HasId(id));
    FilterNarrow(findings, selected, HasId(id), SelectedWithId(selected, id));
    OnlyRow(findings, i, SelectedWithId(selected, id));
  }

  function HasId(id: int): MainFinding -> bool {
    (f: MainFinding) => f.id == id
  }

  function SelectedWithId(selected: MainFinding -> bool, id: int): MainFinding -> bool {
    (f: MainFinding) => selected(f) && f.id == id
  }

  lemma StepAppendsLogs(s: State, op: Op)
    ensures Step(s, op).logs == s.logs + NewLogs(s, op)
  {
  }

  /** One request logs a row exactly for the findings it moved, with their true states. */
  lemma StepLogs(s: State, op: Op, i: nat)
    requires i < |s.findings| && UniqueIds(s.findings)
    ensures |Step(s, op).findings| == |s.findings|
    ensures Chain(s.findings[i].state, Filter(NewLogs(s, op), IsFor(s.findings[i].id)), Step(s, op).findings[i].state)
  {
    StepEdges(s, op, i);
    if Answer(s, op).Ok? && (op.ApproveIgnore? || op.RevokeIgnore?) {
      var p := s.prFindings[op.id];
      var (scan, repo) := Resolve(s, p).value;
      var reopening := op.RevokeIgnore?;
      var selected := Selects(scan.targetId, repo.defaultBranch, p, reopening);
      SyncLogsOfRow(s.findings, selected, reopening, scan.prNumber, op.who.email, i);
      assert Step(s, op).findings == Map(s.findings, Retriage(selected, reopening));
    }
  }

  lemma StepKeepsIds(s: State, op: Op)
    requires UniqueIds(s.findings)
    ensures UniqueIds(Step(s, op).findings)
  {
    forall i | 0 <= i < |s.findings| ensures Step(s, op).findings[i].id == s.findings[i].id {
      StepEdges(s, op, i);
    }
    if s.findings != [] { StepEdges(s, op, 0); }
  }

  lemma {:induction false} RunAppendsLogs(s: State, ops: seq<Op>)
    ensures Run(s, ops).logs == s.logs + Added(s, ops)
    decreases |ops|
  {
    if ops != [] {
      StepAppendsLogs(s, ops[0]);
      RunAppendsLogs(Step(s, ops[0]), ops[1..]);
      Reassociate(s.logs, NewLogs(s, ops[0]), Added(Step(s, ops[0]), ops[1..]));
    }
  }

  lemma Reassociate(a: seq<StateLog>, b: seq<StateLog>, c: seq<StateLog>)
    ensures (a + b) + c == a + (b + c)
  {
  }

  /** The log tells the whole story: over every run it is only appended to, and replaying a
      finding's own rows from its first state reproduces its last. */
  lemma {:induction false} LogReplays(s: State, ops: seq<Op>, i: nat)
    requires i < |s.findings| && UniqueIds(s.findings)
    ensures |Run(s, ops).findings| == |s.findings|
    ensures Chain(s.findings[i].state, Filter(Added(s, ops), IsFor(s.findings[i].id)), Run(s, ops).findings[i].state)
    decreases |ops|
  {
    if ops != [] {
      var t, id := Step(s, ops[0]), s.findings[i].id;
      StepLogs(s, ops[0], i);
      assert t.findings[i].id == id by { StepEdges(s, ops[0], i); }
      StepKeepsIds(s, ops[0]);
      LogReplays(t, ops[1..], i);
      FilterAppend(NewLogs(s, ops[0]), Added(t, ops[1..]), IsFor(id));
      assert Run(s, ops) == Run(t, ops[1..]);
      ChainAppend(s.findings[i].state, Filter(NewLogs(s, ops[0]), IsFor(id)), t.findings[i].state,
                  Filter(Added(t, ops[1..]), IsFor(id)), Run(s, ops).findings[i].state);
    }
  }

  // ----- one request, field by field -----

  /** Who is turned away, and why; nothing changes then. */
  lemma AnswerMeans(s: State, op: Op)
    ensures var p, scans := s.prFindings, s.prScans;
            var known := && op.id in p && p[op.id].prScanId in scans && scans[p[op.id].prScanId].targetId in s.targets
                         && (op.who.workspaces.Some? ==>
                               s.targets[scans[p[op.id].prScanId].targetId].workspaceId in op.who.workspaces.value);
            Answer(s, op)
            == if (op.ApproveIgnore? || op.RejectIgnore? || op.RevokeIgnore?) && !op.who.reviews then HttpError(403)
               else if !known then HttpError(404)
               else if (op.RequestIgnore? || op.RejectIgnore?) && op.reason == "" then HttpError(400)
               else if op.RevokeIgnore? && s.prFindings[op.id].status != Approved then HttpError(400)
               else Ok(())
    ensures Answer(s, op).HttpError? ==> Step(s, op) == s
  {
  }

  /** What an accepted request writes on the PR finding it names; every other one stays as it was. */
  lemma RequestRecorded(s: State, op: Op)
    requires Answer(s, op).Ok?
    ensures Step(s, op).prFindings.Keys == s.prFindings.Keys && op.id in s.prFindings
    ensures forall id :: id in s.prFindings && id != op.id ==> Step(s, op).prFindings[id] == s.prFindings[id]
    ensures var p, q := s.prFindings[op.id], Step(s, op).prFindings[op.id];
            && (q.prScanId, q.tool, q.ruleId, q.filePath, q.lineStart)
               == (p.prScanId, p.tool, p.ruleId, p.filePath, p.lineStart)
            && (op.RequestIgnore? ==>
                  q.status == Requested && q.requestedBy == op.who.email && q.requestedReason == op.reason
                  && q.reviewedBy == "" && q.reviewedAt == None && q.rejectReason == None)
            && (!op.RequestIgnore? ==>
                  q.requestedBy == p.requestedBy && q.requestedReason == p.requestedReason
                  && q.reviewedBy == op.who.email && q.reviewedAt == Some(op.now))
            && (op.ApproveIgnore? ==> q.status == Approved && q.rejectReason == p.rejectReason)
            && (op.RejectIgnore? ==> q.status == Rejected && q.rejectReason == Some(op.reason))
            && (op.RevokeIgnore? ==> q.status == Revoked && q.rejectReason == p.rejectReason)
  {
  }

  /** What an accepted request does to each main finding: an approval takes the Open and Reopened
      rows at the PR finding's place on the default branch to Accepted Risk, a revocation the
      Accepted Risk ones to Reopened, and nothing else moves. */
  lemma MovesByDecision(s: State, op: Op, i: nat)
    requires Answer(s, op).Ok? && i < |s.findings|
    ensures |Step(s, op).findings| == |s.findings|
    ensures op.id in s.prFindings && s.prFindings[op.id].prScanId in s.prScans
            && s.prScans[s.prFindings[op.id].prScanId].targetId in s.targets
    ensures var f, p := s.findings[i], s.prFindings[op.id];
            var there := f.targetId == s.prScans[p.prScanId].targetId
              && f.branch == s.targets[s.prScans[p.prScanId].targetId].defaultBranch
              && f.tool == p.tool && f.ruleId == p.ruleId && f.filePath == p.filePath && f.lineStart == p.lineStart;
            Step(s, op).findings[i]
            == if op.ApproveIgnore? && there && (f.state == Open || f.state == Reopened) then f.(state := AcceptedRisk)
               else if op.RevokeIgnore? && there && f.state == AcceptedRisk then f.(state := Reopened)
               else f
  {
  }

  lemma SyncIsLogged(before: seq<MainFinding>, selected: MainFinding -> bool, reopening: bool, pr: int, actor: string,
                     l: StateLog)
    requires forall f :: selected(f) ==> f.state != Destination(reopening)
    ensures var after := Map(before, Retriage(selected, reopening));
            l in SyncLogs(before, selected, reopening, pr, actor)
            <==> exists i :: 0 <= i < |before| && before[i] != after[i]
                   && l == StateLog(before[i].id, before[i].state, after[i].state, pr, actor)
  {
    var after := Map(before, Retriage(selected, reopening));
    MappedMembership(Filter(before, selected), LogOf(reopening, pr, actor), l);
    if l in SyncLogs(before, selected, reopening, pr, actor) {
      var f :| f in Filter(before, selected) && LogOf(reopening, pr, actor)(f) == l;
      var i :| 0 <= i < |before| && before[i] == f;
      assert after[i] == f.(state := Destination(reopening));
    }
    if i :| 0 <= i < |before| && before[i] != after[i]
            && l == StateLog(before[i].id, before[i].state, after[i].state, pr, actor) {
      assert selected(before[i]) && LogOf(reopening, pr, actor)(before[i]) == l;
    }
  }

  /** And what it appends to the trail: one row per finding it moves, with the true states, the pull
      request and who decided. */
  lemma MovesAreLogged(s: State, op: Op, l: StateLog)
    requires Answer(s, op).Ok?
    ensures op.id in s.prFindings && s.prFindings[op.id].prScanId in s.prScans
    ensures |Step(s, op).findings| == |s.findings|
    ensures s.logs <= Step(s, op).logs
    ensures var after, pr := Step(s, op).findings, s.prScans[s.prFindings[op.id].prScanId].prNumber;
            l in Step(s, op).logs[|s.logs|..]
            <==> exists i :: 0 <= i < |s.findings| && s.findings[i] != after[i]
                   && l == StateLog(s.findings[i].id, s.findings[i].state, after[i].state, pr, op.who.email)
  {
    StepAppendsLogs(s, op);
    assert Step(s, op).logs[|s.logs|..] == NewLogs(s, op);
    if op.ApproveIgnore? || op.RevokeIgnore? {
      var p := s.prFindings[op.id];
      var (scan, repo) := Resolve(s, p).value;
      var reopening := op.RevokeIgnore?;
      var selected := Selects(scan.targetId, repo.defaultBranch, p, reopening);
      assert Step(s, op).findings == Map(s.findings, Retriage(selected, reopening));
      SyncIsLogged(s.findings, selected, reopening, scan.prNumber, op.who.email, l);
    }
  }

  /** Mitigated, False Positive and Won't Fix rows stay as they are over every run. */
  lemma {:induction false} ClosedIsFrozen(s: State, ops: seq<Op>, i: nat)
    requires i < |s.findings|
    requires s.findings[i].state == Mitigated || s.findings[i].state == FalsePositive || s.findings[i].state == WontFix
    ensures |Run(s, ops).findings| == |s.findings| && Run(s, ops).findings[i] == s.findings[i]
    decreases |ops|
  {
    if ops != [] {
      if Answer(s, ops[0]).Ok? {
        MovesByDecision(s, ops[0], i);
      }
      ClosedIsFrozen(Step(s, ops[0]), ops[1..], i);
    }
  }

  /** So does a row at no PR finding's place: each of them is of another target, or the row differs
      from it in the branch, tool, rule, path or line. */
  lemma ElsewhereIsFrozen(s: State, ops: seq<Op>, i: nat)
    requires i < |s.findings|
    requires var f := s.findings[i];
             forall id :: id in s.prFindings ==>
               var p := s.prFindings[id];
               && p.prScanId in s.prScans && s.prScans[p.prScanId].targetId in s.targets ==>
               || f.targetId != s.prScans[p.prScanId].targetId
               || f.branch != s.targets[s.prScans[p.prScanId].targetId].defaultBranch
               || f.tool != p.tool || f.ruleId != p.ruleId || f.filePath != p.filePath || f.lineStart != p.lineStart
    ensures |Run(s, ops).findings| == |s.findings| && Run(s, ops).findings[i] == s.findings[i]
  {
    RunEdges(s, ops, i);
  }

  /** Right after an approval no row of that target, default branch, tool, rule, path and line is
      Open or Reopened; right after a revocation none is Accepted Risk. */
  lemma NothingLeftBehind(s: State, op: Op, g: MainFinding)
    requires Answer(s, op).Ok? && g in Step(s, op).findings
    ensures op.id in s.prFindings && s.prFindings[op.id].prScanId in s.prScans
            && s.prScans[s.prFindings[op.id].prScanId].targetId in s.targets
    ensures var p := s.prFindings[op.id];
            && g.targetId == s.prScans[p.prScanId].targetId
            && g.branch == s.targets[s.prScans[p.prScanId].targetId].defaultBranch
            && g.tool == p.tool && g.ruleId == p.ruleId && g.filePath == p.filePath && g.lineStart == p.lineStart
            ==> (op.ApproveIgnore? ==> g.state != Open && g.state != Reopened)
                && (op.RevokeIgnore? ==> g.state != AcceptedRisk)
  {
  }

  // ----- "approved, therefore not open": when it survives -----

  /** No open main finding is matched by an approved PR finding. */
  predicate Covered(s: State) {
    forall id :: id in s.prFindings && s.prFindings[id].status == Approved ==>
      forall f :: f in s.findings && Touches(s, s.prFindings[id], f) ==> !IsOpen(f.state)
  }

  /** Another approval stands on a row the revocation is about to reopen. */
  predicate SharedApproval(s: State, id: int)
    requires id in s.prFindings
  {
    exists other :: other in s.prFindings && other != id && s.prFindings[other].status == Approved
      && exists f :: f in s.findings && f.state == AcceptedRisk
           && Touches(s, s.prFindings[id], f) && Touches(s, s.prFindings[other], f)
  }

  lemma AfterIn(s: State, op: Op, g: MainFinding) returns (f: MainFinding)
    requires g in Step(s, op).findings
    ensures f in s.findings && g == f.(state := g.state) && Edge(f.state, g.state)
    ensures f != g ==> Reachable(s, op.who, op.id) && Touches(s, s.prFindings[op.id], f)
  {
    if s.findings != [] { StepEdges(s, op, 0); }
    var i :| 0 <= i < |Step(s, op).findings| && Step(s, op).findings[i] == g;
    assert |Step(s, op).findings| == |s.findings| by { if |s.findings| > 0 { StepEdges(s, op, 0); } }
    StepEdges(s, op, i);
    f := s.findings[i];
  }

  lemma TouchesKept(s: State, op: Op, id: int, f: MainFinding, g: MainFinding)
    requires id in s.prFindings && g == f.(state := g.state)
    ensures id in Step(s, op).prFindings
    ensures Touches(Step(s, op), Step(s, op).prFindings[id], g) == Touches(s, s.prFindings[id], f)
  {
    StepKeepsKeys(s, op);
  }

  /** Requests, approvals and rejections keep it. */
  lemma CoveredKept(s: State, op: Op)
    requires Covered(s) && (op.RevokeIgnore? ==> Answer(s, op).HttpError?)
    ensures Covered(Step(s, op))
  {
    var t := Step(s, op);
    StepKeepsKeys(s, op);
    forall id, g | id in t.prFindings && t.prFindings[id].status == Approved && g in t.findings
      && Touches(t, t.prFindings[id], g)
      ensures !IsOpen(g.state)
    {
      var f := AfterIn(s, op, g);
      TouchesKept(s, op, id, f, g);
      if op.ApproveIgnore? && Answer(s, op).Ok? && id == op.id {
        DecisionTakesEffect(s, op, g);
      } else {
        assert s.prFindings[id].status == Approved;
      }
    }
  }

  /** A revocation keeps it exactly when no other approval shares a row it reopens. */
  lemma RevocationKeepsCovered(s: State, op: Op)
    requires Covered(s) && op.RevokeIgnore? && Answer(s, op).Ok?
    ensures Covered(Step(s, op)) <==> !SharedApproval(s, op.id)
  {
    if SharedApproval(s, op.id) {
      var other :| other in s.prFindings && other != op.id && s.prFindings[other].status == Approved
        && exists f :: f in s.findings && f.state == AcceptedRisk
             && Touches(s, s.prFindings[op.id], f) && Touches(s, s.prFindings[other], f);
      var f :| f in s.findings && f.state == AcceptedRisk && Touches(s, s.prFindings[op.id], f)
        && Touches(s, s.prFindings[other], f);
      RevocationUncovers(s, op, other, f);
    } else {
      RevocationHarmless(s, op);
    }
  }

  lemma RevocationReopens(s: State, op: Op, f: MainFinding)
    requires op.RevokeIgnore? && Answer(s, op).Ok?
    requires f in s.findings && f.state == AcceptedRisk && Touches(s, s.prFindings[op.id], f)
    ensures f.(state := Reopened) in Step(s, op).findings
  {
    var i :| 0 <= i < |s.findings| && s.findings[i] == f;
    assert Step(s, op).findings[i] == f.(state := Reopened);
  }

  lemma RevocationUncovers(s: State, op: Op, other: int, f: MainFinding)
    requires op.RevokeIgnore? && Answer(s, op).Ok?
    requires other in s.prFindings && other != op.id && s.prFindings[other].status == Approved
    requires f in s.findings && f.state == AcceptedRisk
    requires Touches(s, s.prFindings[op.id], f) && Touches(s, s.prFindings[other], f)
    ensures !Covered(Step(s, op))
  {
    RevocationReopens(s, op, f);
    TouchesKept(s, op, other, f, f.(state := Reopened));
    assert Step(s, op).prFindings[other] == s.prFindings[other];
  }

  lemma RevocationHarmless(s: State, op: Op)
    requires Covered(s) && op.RevokeIgnore? && Answer(s, op).Ok? && !SharedApproval(s, op.id)
    ensures Covered(Step(s, op))
  {
    var t := Step(s, op);
    StepKeepsKeys(s, op);
    forall id, g | id in t.prFindings && t.prFindings[id].status == Approved && g in t.findings
      && Touches(t, t.prFindings[id], g)
      ensures !IsOpen(g.state)
    {
      var f := AfterIn(s, op, g);
      TouchesKept(s, op, id, f, g);
      assert id != op.id && s.prFindings[id].status == Approved;
    }
  }

  /** "Approved implies not open" is therefore no invariant: two approved PR findings at one
      place, one of them revoked. */
  lemma ApprovedCanBeOpen() returns (s: State, op: Op)
    ensures Covered(s) && Answer(s, op).Ok? && !Covered(Step(s, op))
  {
    var p := PrFinding(1, "t", "r", "a.py", None, Approved, "", "", "", None, None);
    var f := MainFinding(1, 1, "main", "t", "r", "a.py", None, AcceptedRisk);
    s := State(map[1 := p, 2 := p], map[1 := PrScan(1, 7)], map[1 := Repo(1, "main")], [f], []);
    op := Op.RevokeIgnore(1, Reviewer("sec", None, true), 0);
    assert f in s.findings && Touches(s, s.prFindings[1], f) && Touches(s, s.prFindings[2], f);
    assert SharedApproval(s, 1);
    RevocationKeepsCovered(s, op);
  }
}
