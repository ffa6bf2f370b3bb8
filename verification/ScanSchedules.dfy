/** Scan schedules (app/api/scan_schedules.py over app/core/scan_schedules.py): tri-state
    overrides that inherit field by field, and the rules for when a due clock may move. */
module ScanSchedules {
  import opened Prelude

  datatype ScanType = FullScan | ApiScan

  /** The row a schedule lives in: a workspace's default or one target's override. */
  datatype Key = Default(ws: int, scan: ScanType) | Override(ws: int, target: int, scan: ScanType)

  /** NULL means inherit for `enabled` and `interval`, "never" for `lastRun`, "due" for `nextRun`. */
  datatype Row = Row(enabled: Option<bool>, interval: Option<int>, lastRun: Option<int>, nextRun: Option<int>,
                     updatedAt: int)

  type Rows = map<Key, Row>

  const HOUR := 3_600_000_000
  const MIN_INTERVAL := 1
  const MAX_INTERVAL := 8760

  // ----- inheritance -----

  datatype Effective = Effective(enabled: bool, interval: int)

  function Shipped(t: ScanType): Effective {
    Effective(t.FullScan?, 24)
  }

  function Overlay(base: Effective, row: Option<Row>): Effective {
    if row.None? then base
    else Effective(if row.value.enabled.Some? then row.value.enabled.value else base.enabled,
                   if row.value.interval.Some? then row.value.interval.value else base.interval)
  }

  function RowAt(rows: Rows, k: Key): Option<Row> {
    if k in rows then Some(rows[k]) else None
  }

  /** What a row under this key would inherit. */
  function Base(rows: Rows, k: Key): Effective {
    match k
    case Default(_, t) => Shipped(t)
    case Override(ws, _, t) => Overlay(Shipped(t), RowAt(rows, Default(ws, t)))
  }

  /** effective_for_row: shipped default, then workspace row, then the row itself. */
  function EffectiveOf(rows: Rows, k: Key): Effective {
    Overlay(Base(rows, k), RowAt(rows, k))
  }

  // ----- the clock -----

  /** next_run_after with its forward-only jitter given by the caller, of any size. */
  function NextRunAfter(interval: int, now: int, jitter: nat): int {
    now + interval * HOUR + jitter
  }

  predicate Past(row: Row, now: int) {
    row.nextRun.None? || row.nextRun.value <= now
  }

  /** due_schedules: past its time and effectively enabled. */
  predicate Due(rows: Rows, k: Key, now: int) {
    k in rows && EffectiveOf(rows, k).enabled && Past(rows[k], now)
  }

  // ----- PUT -----

  /** A request field: absent, explicitly null (inherit), or a value. */
  datatype Field<T> = Omitted | Null | Given(value: T)

  datatype Put = Put(key: Key, enabled: Field<bool>, interval: Field<int>, now: int, jitter: nat)

  function Patch<T>(stored: Option<T>, field: Field<T>): Option<T> {
    match field case Omitted => stored case Null => None case Given(v) => Some(v)
  }

  predicate Rejected(p: Put) {
    p.interval.Given? && !(MIN_INTERVAL <= p.interval.value <= MAX_INTERVAL)
  }

  function Patched(rows: Rows, p: Put): Row {
    var row := if p.key in rows then rows[p.key] else Row(None, None, None, None, p.now);
    row.(enabled := Patch(row.enabled, p.enabled), interval := Patch(row.interval, p.interval), updatedAt := p.now)
  }

  /** The three reasons to reset the clock: a new row, a changed effective interval, a
      resume at or past the due time. */
  predicate Resets(rows: Rows, p: Put) {
    var before, after := EffectiveOf(rows, p.key), EffectiveOf(rows[p.key := Patched(rows, p)], p.key);
    || p.key !in rows
    || before.interval != after.interval
    || (after.enabled && !before.enabled && Past(rows[p.key], p.now))
  }

  function AfterPut(rows: Rows, p: Put): Rows {
    if Rejected(p) then rows
    else
      var patched := rows[p.key := Patched(rows, p)];
      if Resets(rows, p)
      then
        var due := NextRunAfter(EffectiveOf(patched, p.key).interval, p.now, p.jitter);
        patched[p.key := patched[p.key].(nextRun := Some(due))]
      else patched
  }

  /** One dispatcher pass at one row: its own instant, and the due time and effective interval it
      loaded earlier, which another pass may have overtaken. */
  datatype Attempt = Attempt(now: int, jitter: nat, seenNext: Option<int>, interval: int)

  predicate ValidAttempt(a: Attempt) {
    MIN_INTERVAL <= a.interval <= MAX_INTERVAL
  }

  /** compute_next_run_at: anchored to the due time loaded unless that answer is past too. */
  function ComputeNextRun(a: Attempt): int {
    if a.seenNext.Some? && a.seenNext.value + a.interval * HOUR > a.now
    then a.seenNext.value + a.interval * HOUR
    else NextRunAfter(a.interval, a.now, a.jitter)
  }

  ghost predicate ValidIntervals(rows: Rows) {
    forall k :: k in rows && rows[k].interval.Some? ==> MIN_INTERVAL <= rows[k].interval.value <= MAX_INTERVAL
  }

  /** The stored rows, written in place. */
  class Schedules {
    var rows: Rows

    constructor ()
      ensures rows == map[]
    {
      rows := map[];
    }

    /** _apply: patch, commit, then decide whether the clock is reset. */
    method Apply(p: Put) returns (r: Outcome<Row>)
      modifies this
      ensures rows == AfterPut(old(rows), p)
      ensures Rejected(p) ==> r == HttpError(422)
      ensures !Rejected(p) ==> p.key in rows && r == Ok(rows[p.key])
    {
      var isNew := p.key !in rows;
      var row := if isNew then Row(None, None, None, None, p.now) else rows[p.key];
      var before := if isNew then None else Some(EffectiveOf(rows, p.key));
      if !p.enabled.Omitted? {
        row := row.(enabled := if p.enabled.Null? then None else Some(p.enabled.value));
      }
      if !p.interval.Omitted? {
        if p.interval.Given? && (p.interval.value < MIN_INTERVAL || p.interval.value > MAX_INTERVAL) {
          return HttpError(422);
        }
        row := row.(interval := if p.interval.Null? then None else Some(p.interval.value));
      }
      row := row.(updatedAt := p.now);
      rows := rows[p.key := row];
      var after := EffectiveOf(rows, p.key);
      var intervalChanged := before.Some? && before.value.interval != after.interval;
      var resumedWhileOverdue := before.Some? && after.enabled && !before.value.enabled
                                 && (row.nextRun.None? || row.nextRun.value <= p.now);
      if isNew || intervalChanged || resumedWhileOverdue {
        row := row.(nextRun := Some(NextRunAfter(after.interval, p.now, p.jitter)));
        rows := rows[p.key := row];
      }
      return Ok(row);
    }

    /** DELETE on a target's schedule: the row goes, inheritance comes back. `ws` is the target's
        workspace, None when there is no such target; `allowed` is the role check there. */
    method Reset(ws: Option<int>, allowed: bool, target: int, scan: ScanType) returns (r: Outcome<()>)
      modifies this
      ensures r == if ws.None? then HttpError(404) else if !allowed then HttpError(403) else Ok(())
      ensures r.HttpError? ==> rows == old(rows)
      ensures r.Ok? ==>
                && rows == old(rows) - {Override(ws.value, target, scan)}
                && EffectiveOf(rows, Override(ws.value, target, scan))
                  == EffectiveOf(old(rows), Default(ws.value, scan))
    {
      if ws.None? {
        return HttpError(404);
      }
      if !allowed {
        return HttpError(403);
      }
      rows := rows - {Override(ws.value, target, scan)};
      r := Ok(());
    }

    /** A conditional UPDATE: the row is won only while its stored due time has passed, and takes
        the due time computed from what the pass had loaded. */
    method ClaimDue(k: Key, a: Attempt) returns (won: bool)
      requires k in rows
      modifies this
      ensures won == Past(old(rows)[k], a.now)
      ensures rows == if won then Claimed(old(rows), k, a) else old(rows)
    {
      var next := ComputeNextRun(a);
      won := rows[k].nextRun.None? || rows[k].nextRun.value <= a.now;
      if won {
        rows := rows[k := rows[k].(lastRun := Some(a.now), nextRun := Some(next), updatedAt := a.now)];
      }
    }
  }

  function Claimed(rows: Rows, k: Key, a: Attempt): Rows
    requires k in rows
  {
    rows[k := rows[k].(lastRun := Some(a.now), nextRun := Some(ComputeNextRun(a)), updatedAt := a.now)]
  }

  // ----- one PUT -----

  lemma EffectivePositive(rows: Rows, k: Key)
    requires ValidIntervals(rows)
    ensures MIN_INTERVAL <= EffectiveOf(rows, k).interval <= MAX_INTERVAL
  {
  }

  lemma PutKeepsValid(rows: Rows, p: Put)
    requires ValidIntervals(rows)
    ensures ValidIntervals(AfterPut(rows, p))
  {
  }

  /** A clock that was just reset lies strictly ahead. */
  lemma ResetLiesAhead(rows: Rows, p: Put)
    requires ValidIntervals(rows) && !Rejected(p) && Resets(rows, p)
    ensures var next := AfterPut(rows, p)[p.key].nextRun; next.Some? && next.value > p.now
  {
    EffectivePositive(rows[p.key := Patched(rows, p)], p.key);
  }

  lemma NoResetKeepsClock(rows: Rows, p: Put)
    requires Rejected(p) || !Resets(rows, p)
    requires p.key in rows
    ensures p.key in AfterPut(rows, p) && AfterPut(rows, p)[p.key].nextRun == rows[p.key].nextRun
  {
  }

  lemma ClockWritesDoNotAffectInheritance(rows: Rows, k: Key, row: Row, next: Option<int>)
    ensures EffectiveOf(rows[k := row.(nextRun := next)], k) == EffectiveOf(rows[k := row], k)
  {
  }

  /** A PUT never makes the schedule it addresses newly due, and turning one on always
      leaves its next run ahead. */
  lemma PutNeverNewlyDue(rows: Rows, p: Put)
    requires ValidIntervals(rows)
    ensures Due(AfterPut(rows, p), p.key, p.now) ==> Due(rows, p.key, p.now)
    ensures !Rejected(p) && EffectiveOf(AfterPut(rows, p), p.key).enabled
            && !(p.key in rows && EffectiveOf(rows, p.key).enabled)
            ==> !Past(AfterPut(rows, p)[p.key], p.now)
  {
    if !Rejected(p) {
      var patched := rows[p.key := Patched(rows, p)];
      if Resets(rows, p) {
        ResetLiesAhead(rows, p);
      } else {
        NoResetKeepsClock(rows, p);
        assert AfterPut(rows, p) == patched;
      }
    }
  }

  /** A PUT on one row leaves every other row, and its clock, alone. */
  lemma PutTouchesOneRow(rows: Rows, p: Put, k: Key)
    requires k != p.key
    ensures RowAt(AfterPut(rows, p), k) == RowAt(rows, k)
  {
  }

  // ----- one PUT, field by field -----

  /** A field's value: the row's own, else for an override the workspace's, else the shipped one (full
      scans on, API scans off, every 24 hours). */
  lemma EffectiveMeans(rows: Rows, k: Key)
    ensures var own, dflt := k in rows, k.Override? && Default(k.ws, k.scan) in rows;
            && EffectiveOf(rows, k).enabled
               == (if own && rows[k].enabled.Some? then rows[k].enabled.value
                   else if dflt && rows[Default(k.ws, k.scan)].enabled.Some?
                        then rows[Default(k.ws, k.scan)].enabled.value
                   else k.scan == FullScan)
            && EffectiveOf(rows, k).interval
               == (if own && rows[k].interval.Some? then rows[k].interval.value
                   else if dflt && rows[Default(k.ws, k.scan)].interval.Some?
                        then rows[Default(k.ws, k.scan)].interval.value
                   else 24)
  {
  }

  /** The only request refused gives an interval outside 1 to 8760 hours, and it changes nothing. */
  lemma RejectedMeans(rows: Rows, p: Put)
    ensures Rejected(p) <==> p.interval.Given? && (p.interval.value < 1 || p.interval.value > 8760)
    ensures Rejected(p) ==> AfterPut(rows, p) == rows
  {
  }

  /** A value given is the schedule's value afterwards; a null gives the field back to the workspace,
      or on a workspace row to the shipped default; a field left out stays as it was stored. */
  lemma EnabledIsPatched(rows: Rows, p: Put)
    requires !Rejected(p)
    ensures var after := AfterPut(rows, p);
            && p.key in after
            && (p.enabled.Given? ==> EffectiveOf(after, p.key).enabled == p.enabled.value
                                     && after[p.key].enabled == Some(p.enabled.value))
            && (p.enabled.Null? && p.key.Override? ==>
                  EffectiveOf(after, p.key).enabled == EffectiveOf(rows, Default(p.key.ws, p.key.scan)).enabled)
            && (p.enabled.Null? && p.key.Default? ==> EffectiveOf(after, p.key).enabled == (p.key.scan == FullScan))
            && (p.enabled.Null? ==> after[p.key].enabled == None)
            && (p.enabled.Omitted? ==> after[p.key].enabled == if p.key in rows then rows[p.key].enabled else None)
  {
    if p.key.Override? {
      PutTouchesOneRow(rows, p, Default(p.key.ws, p.key.scan));
    }
  }

  lemma IntervalIsPatched(rows: Rows, p: Put)
    requires !Rejected(p)
    ensures var after := AfterPut(rows, p);
            && p.key in after
            && (p.interval.Given? ==> EffectiveOf(after, p.key).interval == p.interval.value
                                      && after[p.key].interval == Some(p.interval.value))
            && (p.interval.Null? && p.key.Override? ==>
                  EffectiveOf(after, p.key).interval == EffectiveOf(rows, Default(p.key.ws, p.key.scan)).interval)
            && (p.interval.Null? && p.key.Default? ==> EffectiveOf(after, p.key).interval == 24)
            && (p.interval.Null? ==> after[p.key].interval == None)
            && (p.interval.Omitted? ==> after[p.key].interval == if p.key in rows then rows[p.key].interval else None)
  {
    if p.key.Override? {
      PutTouchesOneRow(rows, p, Default(p.key.ws, p.key.scan));
    }
  }

  /** The clock: a new row, a changed effective interval or a resume at or past the due time starts it
      one effective interval and the jitter from now, and nothing else moves it. */
  lemma ClockIsReset(rows: Rows, p: Put)
    requires !Rejected(p)
    ensures p.key in AfterPut(rows, p)
    ensures var row, after := AfterPut(rows, p)[p.key], EffectiveOf(AfterPut(rows, p), p.key);
            && row.updatedAt == p.now && row.lastRun == (if p.key in rows then rows[p.key].lastRun else None)
            && row.nextRun
               == (if || p.key !in rows
                      || EffectiveOf(rows, p.key).interval != after.interval
                      || (&& after.enabled && !EffectiveOf(rows, p.key).enabled
                          && (rows[p.key].nextRun.None? || rows[p.key].nextRun.value <= p.now))
                   then Some(p.now + after.interval * 3_600_000_000 + p.jitter) else rows[p.key].nextRun)
            && (RowAt(rows, p.key).None? || row.nextRun != rows[p.key].nextRun ==>
                  row.nextRun.Some? && row.nextRun.value - p.now >= after.interval * 3_600_000_000)
  {
    var row := Patched(rows, p);
    ClockWritesDoNotAffectInheritance(
      rows, p.key, row, Some(NextRunAfter(EffectiveOf(rows[p.key := row], p.key).interval, p.now, p.jitter)));
  }

  /** What the dispatcher finds due, and what a won claim commits: the due time it had loaded moved on by
      the interval, unless that is past too and the clock restarts from its own instant. */
  lemma DispatchMeans(rows: Rows, k: Key, a: Attempt)
    requires k in rows
    ensures var past := rows[k].nextRun.None? || rows[k].nextRun.value <= a.now;
            && Due(rows, k, a.now) == (EffectiveOf(rows, k).enabled && past)
            && AfterAttempt(rows, k, a)
               == if !past then rows
                  else rows[k := Row(rows[k].enabled, rows[k].interval, Some(a.now), Some(
                    if a.seenNext.Some? && a.seenNext.value + a.interval * 3_600_000_000 > a.now
                    then a.seenNext.value + a.interval * 3_600_000_000
                    else a.now + a.interval * 3_600_000_000 + a.jitter), a.now)]
  {
  }

  // ----- runs of PUTs -----

  function AfterPuts(rows: Rows, ps: seq<Put>): Rows
    decreases |ps|
  {
    if ps == [] then rows else AfterPuts(AfterPut(rows, ps[0]), ps[1..])
  }

  /** No accepted PUT of the run changes `k`'s effective interval, and none resumes it at or
      past its due time. PUTs on other rows are unrestricted. */
  ghost predicate Quiet(rows: Rows, ps: seq<Put>, k: Key)
    decreases |ps|
  {
    ps == []
    || (var p := ps[0];
        && (p.key == k && !Rejected(p) ==>
              var before, after := EffectiveOf(rows, k), EffectiveOf(AfterPut(rows, p), k);
              && before.interval == after.interval
              && !(after.enabled && !before.enabled && k in rows && Past(rows[k], p.now)))
        && Quiet(AfterPut(rows, p), ps[1..], k))
  }

  /** However often a panel is re-saved or a schedule paused and resumed in time, the next
      run does not move. */
  lemma {:induction false} QuietRunsKeepClock(rows: Rows, ps: seq<Put>, k: Key)
    requires k in rows && Quiet(rows, ps, k)
    ensures k in AfterPuts(rows, ps) && AfterPuts(rows, ps)[k].nextRun == rows[k].nextRun
    decreases |ps|
  {
    if ps != [] {
      var p := ps[0];
      if p.key == k {
        if !Rejected(p) {
          assert !Resets(rows, p) by {
            var row := Patched(rows, p);
            ClockWritesDoNotAffectInheritance(
              rows, k, row, Some(NextRunAfter(EffectiveOf(rows[k := row], k).interval, p.now, p.jitter)));
          }
        }
        NoResetKeepsClock(rows, p);
      } else {
        PutTouchesOneRow(rows, p, k);
      }
      QuietRunsKeepClock(AfterPut(rows, p), ps[1..], k);
    }
  }

  // ----- runs of everything that writes the table -----

  datatype Write = Saved(put: Put) | Dropped(ws: int, target: int, scan: ScanType) | Dispatched(key: Key,
                         attempt: Attempt)

  function AfterWrite(rows: Rows, w: Write): Rows {
    match w
    case Saved(p) => AfterPut(rows, p)
    case Dropped(ws, target, scan) => rows - {Override(ws, target, scan)}
    case Dispatched(k, a) => if k in rows then AfterAttempt(rows, k, a) else rows
  }

  function AfterWrites(rows: Rows, ws: seq<Write>): Rows
    decreases |ws|
  {
    if ws == [] then rows else AfterWrites(AfterWrite(rows, ws[0]), ws[1..])
  }

  lemma {:induction false} WritesKeepValid(rows: Rows, ws: seq<Write>)
    requires ValidIntervals(rows)
    ensures ValidIntervals(AfterWrites(rows, ws))
    decreases |ws|
  {
    if ws != [] {
      if ws[0].Saved? {
        PutKeepsValid(rows, ws[0].put);
      }
      WritesKeepValid(AfterWrite(rows, ws[0]), ws[1..]);
    }
  }

  /** At every point of every run of PUTs, resets and dispatcher claims from an empty table, both
      guarantees of one PUT hold. */
  lemma NoRunMakesNewlyDue(ws: seq<Write>, p: Put)
    ensures var rows := AfterWrites(map[], ws);
            Due(AfterPut(rows, p), p.key, p.now) ==> Due(rows, p.key, p.now)
    ensures var rows := AfterWrites(map[], ws);
            !Rejected(p) && EffectiveOf(AfterPut(rows, p), p.key).enabled
              && !(p.key in rows && EffectiveOf(rows, p.key).enabled)
            ==> !Past(AfterPut(rows, p)[p.key], p.now)
  {
    WritesKeepValid(map[], ws);
    PutNeverNewlyDue(AfterWrites(map[], ws), p);
  }

  // ----- rows that only inherit -----

  /** A workspace PUT does make an overriding row newly due exactly when that row inherits
      `enabled`, the workspace goes from off to on, and the row's own time has passed. */
  lemma WorkspacePutWakesTarget(rows: Rows, p: Put, target: int)
    requires p.key.Default?
    ensures var k := Override(p.key.ws, target, p.key.scan);
      (!Due(rows, k, p.now) && Due(AfterPut(rows, p), k, p.now))
      <==> (k in rows && rows[k].enabled.None? && Past(rows[k], p.now)
            && !EffectiveOf(rows, p.key).enabled && EffectiveOf(AfterPut(rows, p), p.key).enabled)
  {
    var k := Override(p.key.ws, target, p.key.scan);
    PutTouchesOneRow(rows, p, k);
  }

  /** So "a PUT never makes a schedule newly due" is a fact about the addressed row only. */
  lemma WakingHappens() returns (rows: Rows, p: Put, k: Key)
    ensures ValidIntervals(rows) && p.key != k && !Due(rows, k, p.now) && Due(AfterPut(rows, p), k, p.now)
  {
    k := Override(1, 7, ApiScan);
    rows := map[k := Row(None, Some(6), None, Some(0), 0)];
    p := Put(Default(1, ApiScan), Given(true), Omitted, 10, 0);
    WorkspacePutWakesTarget(rows, p, 7);
  }

  // ----- what the panels show -----

  datatype Resolved = Resolved(effective: Effective, governing: Option<Key>, nextRun: Option<int>)

  /** resolve_scan_schedule: walked from the shipped default up, once per field. */
  function ResolveTarget(rows: Rows, ws: int, target: int, scan: ScanType): Resolved {
    var own, dflt := RowAt(rows, Override(ws, target, scan)), RowAt(rows, Default(ws, scan));
    var e := Overlay(Overlay(Shipped(scan), dflt), own);
    var governing := if own.Some? then Some(Override(ws, target, scan))
                     else if dflt.Some? then Some(Default(ws, scan))
                     else None;
    Resolved(e, governing, if governing.Some? && e.enabled then rows[governing.value].nextRun else None)
  }

  /** _resolve_for_workspace: no target row to overlay at this scope. */
  function ResolveWorkspace(rows: Rows, ws: int, scan: ScanType): Resolved {
    var row := RowAt(rows, Default(ws, scan));
    var e := Effective(
      if row.Some? && row.value.enabled.Some? then row.value.enabled.value else Shipped(scan).enabled,
      if row.Some? && row.value.interval.Some? then row.value.interval.value else Shipped(scan).interval);
    Resolved(e, if row.Some? then Some(Default(ws, scan)) else None,
             if row.Some? && e.enabled then row.value.nextRun else None)
  }

  /** What a panel shows is what the dispatcher acts on: each view equals the effective
      values of the row that governs it, and a target without its own row sees exactly
      the workspace's. */
  lemma PanelsMatchDispatcher(rows: Rows, ws: int, target: int, scan: ScanType)
    ensures ResolveWorkspace(rows, ws, scan).effective == EffectiveOf(rows, Default(ws, scan))
    ensures var r := ResolveTarget(rows, ws, target, scan);
      && r.governing == (if Override(ws, target, scan) in rows then Some(Override(ws, target, scan))
                         else if Default(ws, scan) in rows then Some(Default(ws, scan)) else None)
      && r.nextRun == (if r.governing.Some? && r.effective.enabled then rows[r.governing.value].nextRun else None)
      && (r.governing.Some? ==> r.governing.value in rows && r.effective == EffectiveOf(rows, r.governing.value))
      && (r.governing.None? ==> r.effective == Shipped(scan))
      && (Override(ws, target, scan) !in rows ==> r == ResolveWorkspace(rows, ws, scan))
      && forall now :: (r.governing.Some? && Due(rows, r.governing.value, now)
                        <==> r.governing.Some? && r.effective.enabled && Past(rows[r.governing.value], now))
  {
  }

  // ----- the dispatcher's lock -----

  function AfterAttempt(rows: Rows, k: Key, a: Attempt): Rows
    requires k in rows
  {
    if Past(rows[k], a.now) then Claimed(rows, k, a) else rows
  }

  /** Passes reaching one row in this order: how many of them win it. */
  function Wins(rows: Rows, k: Key, attempts: seq<Attempt>): nat
    requires k in rows
    decreases |attempts|
  {
    if attempts == [] then 0
    else (if Past(rows[k], attempts[0].now) then 1 else 0) + Wins(AfterAttempt(rows, k, attempts[0]), k, attempts[1..])
  }

  /** The committed due time is strictly after the winner's instant, on every branch. */
  lemma CommittedLiesAhead(a: Attempt)
    requires ValidAttempt(a)
    ensures ComputeNextRun(a) > a.now
  {
  }

  /** After a win a later pass loses exactly when its own instant lies before the committed due time. */
  lemma LaterPassLoses(rows: Rows, k: Key, winner: Attempt, later: Attempt)
    requires k in rows && Past(rows[k], winner.now)
    ensures !Past(AfterAttempt(rows, k, winner)[k], later.now) <==> later.now < ComputeNextRun(winner)
  {
  }

  lemma {:induction false} NoneWin(rows: Rows, k: Key, attempts: seq<Attempt>)
    requires k in rows
    ensures Wins(rows, k, attempts) == 0 <==> forall i :: 0 <= i < |attempts| ==> !Past(rows[k], attempts[i].now)
    decreases |attempts|
  {
    if attempts != [] {
      if !Past(rows[k], attempts[0].now) {
        NoneWin(rows, k, attempts[1..]);
        assert forall i :: 0 < i < |attempts| ==> attempts[i] == attempts[1..][i - 1];
      }
    }
  }

  /** However many passes reach a row, each with its own instant and its own stale reading: if the
      first to find it due is number `w`, exactly one wins if and only if every pass after it runs
      before the due time it committed. */
  lemma {:induction false} ExactlyOneClaimWins(rows: Rows, k: Key, attempts: seq<Attempt>, w: nat)
    requires k in rows && w < |attempts| && Past(rows[k], attempts[w].now)
    requires forall i :: 0 <= i < w ==> !Past(rows[k], attempts[i].now)
    ensures Wins(rows, k, attempts) >= 1
    ensures Wins(rows, k, attempts) == 1
            <==> forall i :: w < i < |attempts| ==> attempts[i].now < ComputeNextRun(attempts[w])
    decreases w
  {
    var rest := attempts[1..];
    assert forall i :: 0 < i < |attempts| ==> attempts[i] == rest[i - 1];
    if w == 0 {
      var after := AfterAttempt(rows, k, attempts[0]);
      NoneWin(after, k, rest);
      forall i | 0 < i < |attempts|
        ensures !Past(after[k], rest[i - 1].now) <==> attempts[i].now < ComputeNextRun(attempts[0])
      {
        LaterPassLoses(rows, k, attempts[0], attempts[i]);
      }
    } else {
      ExactlyOneClaimWins(rows, k, rest, w - 1);
    }
  }

  /** The race the lock is for: passes sharing one instant. Exactly one dispatches a due row. */
  lemma OneInstantOneWin(rows: Rows, k: Key, attempts: seq<Attempt>, now: int)
    requires k in rows && attempts != [] && Past(rows[k], now)
    requires forall i :: 0 <= i < |attempts| ==> attempts[i].now == now && ValidAttempt(attempts[i])
    ensures Wins(rows, k, attempts) == 1
  {
    CommittedLiesAhead(attempts[0]);
    ExactlyOneClaimWins(rows, k, attempts, 0);
  }

  /** Instants a microsecond apart can both win: the first just before the anchored due time it
      commits, the second on it. */
  lemma TwoInstantsBothWin() returns (rows: Rows, k: Key, attempts: seq<Attempt>)
    ensures k in rows && |attempts| == 2 && attempts[1].now == attempts[0].now + 1
    ensures ValidAttempt(attempts[0]) && ValidAttempt(attempts[1]) && Wins(rows, k, attempts) == 2
  {
    k := Default(1, FullScan);
    rows := map[k := Row(Some(true), Some(1), None, Some(0), 0)];
    var first, second := Attempt(HOUR - 1, 0, Some(0), 1), Attempt(HOUR, 0, Some(0), 1);
    attempts := [first, second];
    var after := AfterAttempt(rows, k, first);
    assert ComputeNextRun(first) == HOUR && Past(after[k], HOUR);
    assert attempts[1..] == [second] && [second][1..] == [];
    assert Wins(after, k, [second]) == 1 + Wins(AfterAttempt(after, k, second), k, []);
  }
}
