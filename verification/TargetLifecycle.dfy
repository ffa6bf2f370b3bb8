/** Target lifecycle (app/api/targets.py, app/core/target_lifecycle.py): deactivate, reactivate
    and soft-delete, with an audit row for every real transition. */
module TargetLifecycle {
  import opened Prelude
  import opened Seqs

  datatype Target = Target(workspaceId: int, deactivatedAt: Option<int>, deletedAt: Option<int>)

  datatype EventType = Deactivated | Reactivated | Deleted

  datatype Row = Row(event: EventType, targetId: int, actor: string)

  datatype Db = Db(targets: map<int, Target>, audit: seq<Row>)

  /** `ranks` gives the caller's role in each workspace they belong to; None for a global admin. */
  datatype User = User(email: string, ranks: Option<map<int, nat>>)

  /** WORKSPACE_ROLE_RANK; a viewer ranks 1. */
  const DEVELOPER := 2
  const SECURITY_ENGINEER := 3

  datatype Action =
    | Create(id: int, workspaceId: int)
    | Deactivate(id: int, user: User, now: int)
    | Reactivate(id: int, user: User)
    | Delete(id: int, user: User, now: int)

  predicate IsDeleted(t: Target) {
    t.deletedAt.Some?
  }

  predicate IsActive(t: Target) {
    t.deactivatedAt.None?
  }

  /** require_workspace_role, ahead of the handler: admins pass, an unknown target is 404, too low a
      role or none at all 403. A soft-deleted target still resolves here. */
  function RoleCheck(db: Db, id: int, user: User, least: nat): Outcome<()> {
    if user.ranks.None? then Ok(())
    else if id !in db.targets then HttpError(404)
    else
      var ws := db.targets[id].workspaceId;
      if ws in user.ranks.value && user.ranks.value[ws] >= least then Ok(()) else HttpError(403)
  }

  /** `_get_target_scoped`: missing, soft-deleted and out of scope all look the same. */
  predicate Reachable(db: Db, id: int, user: User) {
    id in db.targets && !IsDeleted(db.targets[id])
    && (user.ranks.None? || db.targets[id].workspaceId in user.ranks.value)
  }

  // ----- the transitions of core/target_lifecycle.py: the new row, or None when nothing changes -----

  function DeactivateRow(t: Target, now: int): Option<Target> {
    if t.deactivatedAt.Some? then None else Some(t.(deactivatedAt := Some(now)))
  }

  function ReactivateRow(t: Target): Option<Target> {
    if t.deactivatedAt.None? then None else Some(t.(deactivatedAt := None))
  }

  function DeleteRow(t: Target, now: int): Option<Target> {
    if t.deletedAt.Some? then None else Some(t.(deletedAt := Some(now)))
  }

  function Record(db: Db, id: int, changed: Option<Target>, event: EventType, user: User): Db {
    match changed
    case None => db
    case Some(t) => Db(db.targets[id := t], db.audit + [Row(event, id, user.email)])
  }

  function LeastRole(a: Action): nat {
    if a.Delete? then SECURITY_ENGINEER else DEVELOPER
  }

  /** The HTTP answer; any error changes nothing. */
  function Answer(db: Db, a: Action): Outcome<()>
    requires !a.Create?
  {
    match RoleCheck(db, a.id, a.user, LeastRole(a))
    case HttpError(status) => HttpError(status)
    case Ok(_) => if Reachable(db, a.id, a.user) then Ok(()) else HttpError(404)
  }

  predicate Accepted(db: Db, a: Action) {
    a.Create? || Answer(db, a).Ok?
  }

  function Step(db: Db, a: Action): Db {
    if !Accepted(db, a) then db else
      match a
      case Create(id, ws) => if id in db.targets then db else db.(targets := db.targets[id := Target(ws, None, None)])
      case Deactivate(id, user, now) => Record(db, id, DeactivateRow(db.targets[id], now), Deactivated, user)
      case Reactivate(id, user) => Record(db, id, ReactivateRow(db.targets[id]), Reactivated, user)
      case Delete(id, user, now) => Record(db, id, DeleteRow(db.targets[id], now), Deleted, user)
  }

  function Run(db: Db, actions: seq<Action>): Db
    decreases |actions|
  {
    if actions == [] then db else Run(Step(db, actions[0]), actions[1..])
  }

  // ----- the handlers -----

  datatype Finding = Finding(id: int, targetId: int)

  datatype DeleteReply = DeleteReply(deletedAt: Option<int>, retained: nat)

  function FindingOf(id: int): Finding -> bool {
    (f: Finding) => f.targetId == id
  }

  class Store {
    var targets: map<int, Target>
    var audit: seq<Row>
    var findings: seq<Finding>

    function View(): Db
      reads this
    {
      Db(targets, audit)
    }

    method DeactivateTarget(id: int, user: User, now: int) returns (r: Outcome<Target>)
      modifies this`targets, this`audit
      ensures View() == Step(old(View()), Deactivate(id, user, now))
      ensures r.Ok? <==> old(Answer(View(), Deactivate(id, user, now))).Ok?
      ensures r.HttpError? ==>
                View() == old(View()) && r.status == old(Answer(View(), Deactivate(id, user, now))).status
      ensures r.Ok? ==> id in targets && r.value == targets[id]
      ensures r.Ok? ==> !IsActive(r.value) && !IsDeleted(r.value)
    {
      var role := RoleCheck(View(), id, user, DEVELOPER);
      if role.HttpError? {
        return HttpError(role.status);
      }
      if !Reachable(View(), id, user) {
        return HttpError(404);
      }
      var target := targets[id];
      var changed := DeactivateRow(target, now);
      if changed.Some? {
        target := changed.value;
        targets := targets[id := target];
        audit := audit + [Row(Deactivated, id, user.email)];
      }
      r := Ok(target);
    }

    method ReactivateTarget(id: int, user: User) returns (r: Outcome<Target>)
      modifies this`targets, this`audit
      ensures View() == Step(old(View()), Reactivate(id, user))
      ensures r.Ok? <==> old(Answer(View(), Reactivate(id, user))).Ok?
      ensures r.HttpError? ==> View() == old(View()) && r.status == old(Answer(View(), Reactivate(id, user))).status
      ensures r.Ok? ==> id in targets && r.value == targets[id]
      ensures r.Ok? ==> IsActive(r.value) && !IsDeleted(r.value)
    {
      var role := RoleCheck(View(), id, user, DEVELOPER);
      if role.HttpError? {
        return HttpError(role.status);
      }
      if !Reachable(View(), id, user) {
        return HttpError(404);
      }
      var target := targets[id];
      var changed := ReactivateRow(target);
      if changed.Some? {
        target := changed.value;
        targets := targets[id := target];
        audit := audit + [Row(Reactivated, id, user.email)];
      }
      r := Ok(target);
    }

    /** Soft delete. The frame leaves `findings` alone; the reply counts what is kept. */
    method DeleteTarget(id: int, user: User, now: int) returns (r: Outcome<DeleteReply>)
      modifies this`targets, this`audit
      ensures View() == Step(old(View()), Delete(id, user, now))
      ensures r.Ok? <==> old(Answer(View(), Delete(id, user, now))).Ok?
      ensures r.HttpError? ==> View() == old(View()) && r.status == old(Answer(View(), Delete(id, user, now))).status
      ensures r.Ok? ==> id in targets && r.value == DeleteReply(Some(now), Count(findings, FindingOf(id)))
      ensures r.Ok? ==> r.value.retained == Count(findings, (f: Finding) => f.targetId == id)
      ensures r.Ok? ==> targets[id].deactivatedAt == old(targets[id].deactivatedAt)
    {
      FilterCong(findings, FindingOf(id), (f: Finding) => f.targetId == id);
      var role := RoleCheck(View(), id, user, SECURITY_ENGINEER);
      if role.HttpError? {
        return HttpError(role.status);
      }
      if !Reachable(View(), id, user) {
        return HttpError(404);
      }
      var target := targets[id];
      var retained := Count(findings, FindingOf(id));
      var changed := DeleteRow(target, now);
      if changed.Some? {
        target := changed.value;
        targets := targets[id := target];
        audit := audit + [Row(Deleted, id, user.email)];
      }
      r := Ok(DeleteReply(target.deletedAt, retained));
    }
  }

  // ----- replaying the audit trail -----

  datatype Life = Life(deactivated: bool, deleted: bool)

  function Current(t: Target): Life {
    Life(t.deactivatedAt.Some?, t.deletedAt.Some?)
  }

  /** What one row does to a target; None when it could not have happened. */
  function Replay1(life: Life, event: EventType): Option<Life> {
    if life.deleted then None else
      match event
      case Deactivated => if life.deactivated then None else Some(Life(true, false))
      case Reactivated => if life.deactivated then Some(Life(false, false)) else None
      case Deleted => Some(Life(life.deactivated, true))
  }

  /** The history a trail of rows tells, from a newly created target. */
  function Replay(rows: seq<Row>): Option<Life> {
    if rows == [] then Some(Life(false, false)) else
      match Replay(rows[..|rows| - 1])
      case None => None
      case Some(life) => Replay1(life, rows[|rows| - 1].event)
  }

  function About(id: int): Row -> bool {
    (r: Row) => r.targetId == id
  }

  function TrailOf(db: Db, id: int): seq<Row> {
    Filter(db.audit, About(id))
  }

  ghost predicate Replays(db: Db) {
    && (forall id :: id in db.targets ==> Replay(TrailOf(db, id)) == Some(Current(db.targets[id])))
    && (forall r :: r in db.audit ==> r.targetId in db.targets)
  }

  lemma ReplaySnoc(rows: seq<Row>, row: Row)
    ensures Replay(rows + [row]) == match Replay(rows) case None => None case Some(life) => Replay1(life, row.event)
  {
    assert (rows + [row])[..|rows|] == rows;
  }

  lemma RecordReplays(db: Db, id: int, changed: Option<Target>, event: EventType, user: User)
    requires Replays(db) && id in db.targets
    requires changed.Some? ==> Replay1(Current(db.targets[id]), event) == Some(Current(changed.value))
    ensures Replays(Record(db, id, changed, event, user))
  {
    if changed.Some? {
      var row := Row(event, id, user.email);
      var after := Record(db, id, changed, event, user);
      forall k | k in after.targets ensures Replay(TrailOf(after, k)) == Some(Current(after.targets[k])) {
        FilterSnoc(db.audit, row, About(k));
        ReplaySnoc(TrailOf(db, k), row);
      }
    }
  }

  lemma CreateReplays(db: Db, id: int, ws: int)
    requires Replays(db) && id !in db.targets
    ensures Replays(db.(targets := db.targets[id := Target(ws, None, None)]))
  {
    CountZero(db.audit, About(id));
    assert TrailOf(db, id) == [];
  }

  lemma StepReplays(db: Db, a: Action)
    requires Replays(db)
    ensures Replays(Step(db, a))
  {
    if Accepted(db, a) {
      match a
      case Create(id, ws) =>
        if id !in db.targets { CreateReplays(db, id, ws); }
      case Deactivate(id, user, now) => RecordReplays(db, id, DeactivateRow(db.targets[id], now), Deactivated, user);
      case Reactivate(id, user) => RecordReplays(db, id, ReactivateRow(db.targets[id]), Reactivated, user);
      case Delete(id, user, now) => RecordReplays(db, id, DeleteRow(db.targets[id], now), Deleted, user);
    }
  }

  /** After any run, the audit trail of every target, replayed from a new target, tells its
      present state. */
  lemma {:induction false} RunReplays(db: Db, actions: seq<Action>)
    requires Replays(db)
    ensures Replays(Run(db, actions))
    decreases |actions|
  {
    if actions != [] {
      StepReplays(db, actions[0]);
      RunReplays(Step(db, actions[0]), actions[1..]);
    }
  }

  // ----- the shape of a trail -----

  /** Deactivations and reactivations take turns, deactivation first; a deletion ends the trail. */
  ghost predicate TakesTurns(rows: seq<Row>) {
    && (forall i :: 0 <= i < |rows| && rows[i].event == Deleted ==> i == |rows| - 1)
    && (forall i :: 0 <= i < |rows| && rows[i].event == Deactivated ==> i % 2 == 0)
    && (forall i :: 0 <= i < |rows| && rows[i].event == Reactivated ==> i % 2 == 1)
  }

  lemma {:induction false} TurnsState(rows: seq<Row>)
    requires TakesTurns(rows)
    ensures Replay(rows).Some?
    ensures rows != [] && rows[|rows| - 1].event == Deleted ==>
            Replay(rows).value == Life((|rows| - 1) % 2 == 1, true)
    ensures rows == [] || rows[|rows| - 1].event != Deleted ==> Replay(rows).value == Life(|rows| % 2 == 1, false)
  {
    if rows != [] {
      var before := rows[..|rows| - 1];
      assert forall i :: 0 <= i < |before| ==> before[i] == rows[i];
      assert TakesTurns(before);
      TurnsState(before);
    }
  }

  /** A trail replays exactly when it takes turns: the two readings of the log coincide. */
  lemma {:induction false} ReplayIffTurns(rows: seq<Row>)
    ensures Replay(rows).Some? <==> TakesTurns(rows)
  {
    if TakesTurns(rows) {
      TurnsState(rows);
    } else if rows != [] {
      var before := rows[..|rows| - 1];
      assert forall i :: 0 <= i < |before| ==> before[i] == rows[i];
      ReplayIffTurns(before);
      if Replay(rows).Some? {
        TurnsState(before);
      }
    }
  }

  /** What a run leaves of one target's trail: turns taken, at most one deletion, and last; the
      same facts the row shows. */
  lemma RunTrail(db: Db, actions: seq<Action>, id: int)
    requires Replays(db) && id in Run(db, actions).targets
    ensures var after := Run(db, actions); var rows := TrailOf(after, id);
            && TakesTurns(rows)
            && (IsDeleted(after.targets[id]) <==> rows != [] && rows[|rows| - 1].event == Deleted)
            && (!IsDeleted(after.targets[id]) ==> (IsActive(after.targets[id]) <==> |rows| % 2 == 0))
  {
    RunReplays(db, actions);
    ReplayIffTurns(TrailOf(Run(db, actions), id));
    TurnsState(TrailOf(Run(db, actions), id));
  }

  // ----- one call -----

  /** Who is turned away: an unknown or deleted target answers 404, and a caller who is no global admin
      needs the developer role in the target's workspace (to delete, security engineer) or gets 403,
      that check first. */
  lemma AnswerMeans(db: Db, a: Action)
    requires !a.Create?
    ensures var known, ranks := a.id in db.targets, a.user.ranks;
            Answer(db, a)
            == if !known then HttpError(404)
               else if ranks.Some? && !(&& db.targets[a.id].workspaceId in ranks.value
                                        && ranks.value[db.targets[a.id].workspaceId] >= if a.Delete? then 3 else 2)
                    then HttpError(403)
               else if db.targets[a.id].deletedAt.Some? then HttpError(404)
               else Ok(())
    ensures Answer(db, a).HttpError? ==> Step(db, a) == db
  {
  }

  /** What an accepted call writes: one timestamp on its own row, one entry in the trail, and neither
      when the target already is what was asked. */
  lemma StepMeans(db: Db, a: Action)
    requires !a.Create? && Answer(db, a).Ok?
    ensures a.id in db.targets
    ensures var t, actor := db.targets[a.id], a.user.email;
            && Step(db, a).targets
               == db.targets[a.id := if a.Deactivate? && t.deactivatedAt.None? then t.(deactivatedAt := Some(a.now))
                                     else if a.Reactivate? then t.(deactivatedAt := None)
                                     else if a.Delete? then t.(deletedAt := Some(a.now)) else t]
            && Step(db, a).audit
               == db.audit + if a.Deactivate? && t.deactivatedAt.None? then [Row(Deactivated, a.id, actor)]
                             else if a.Reactivate? && t.deactivatedAt.Some? then [Row(Reactivated, a.id, actor)]
                             else if a.Delete? then [Row(Deleted, a.id, actor)] else []
  {
    var t := db.targets[a.id];
    assert db.targets[a.id := t] == db.targets;
  }

  /** One row per real transition: the trail grows exactly when the target's state changes. */
  lemma RowPerTransition(db: Db, a: Action)
    requires !a.Create?
    ensures |Step(db, a).audit| == |db.audit| + (if Step(db, a).targets == db.targets then 0 else 1)
    ensures Step(db, a).targets == db.targets <==>
            Answer(db, a).HttpError? || (a.Deactivate? && !IsActive(db.targets[a.id]))
            || (a.Reactivate? && IsActive(db.targets[a.id]))
  {
    if Answer(db, a).Ok? {
      var next := Step(db, a).targets;
      assert next[a.id] == db.targets[a.id] ==> next == db.targets;
    }
  }

  /** A repeated call does nothing the second time. */
  lemma Idempotent(db: Db, a: Action)
    requires !a.Create?
    ensures Step(Step(db, a), a) == Step(db, a)
  {
  }

  /** A deleted target is out of every user's reach for good: nothing in any run brings it back
      or touches its row or its trail. */
  lemma {:induction false} DeletedForGood(db: Db, actions: seq<Action>, id: int)
    requires id in db.targets && IsDeleted(db.targets[id])
    ensures id in Run(db, actions).targets && Run(db, actions).targets[id] == db.targets[id]
    ensures TrailOf(Run(db, actions), id) == TrailOf(db, id)
    decreases |actions|
  {
    if actions != [] {
      var next := Step(db, actions[0]);
      assert TrailOf(next, id) == TrailOf(db, id) by {
        if next.audit != db.audit {
          var row := next.audit[|db.audit|];
          assert next.audit == db.audit + [row] && row.targetId != id;
          FilterSnoc(db.audit, row, About(id));
        }
      }
      DeletedForGood(next, actions[1..], id);
    }
  }
}
