/** Browser sessions (app/api/auth.py, app/core/security.py): signed tokens carrying a version
    that login, logout and a password change move on. */
module Auth {
  import opened Prelude

  /** Seconds since the epoch, as `time.time()` reports them. */
  type Time = t: real | t >= 0.0

  const SESSION_TTL_SECONDS := 60 * 60 * 24

  datatype Token = Token(uid: int, tv: nat, exp: int)

  datatype Cookie = NoCookie | Forged | Signed(token: Token)

  /** The stored versions, and every token handed out so far, oldest first. */
  datatype State = State(versions: map<int, nat>, issued: seq<Token>)

  /** `verified` is the outcome of the opaque password check. */
  datatype Action =
    | Login(uid: Option<int>, verified: bool, now: Time)
    | Logout(cookie: Cookie, now: Time)
    | ChangePassword(cookie: Cookie, verified: bool, newLength: nat, now: Time)
    | DeleteUser(id: int)

  function NewToken(uid: int, tv: nat, now: Time): Token {
    Token(uid, tv, now.Floor + SESSION_TTL_SECONDS)
  }

  /** Only a token this server signed passes the signature check. */
  predicate Decodes(s: State, c: Cookie, now: Time) {
    c.Signed? && c.token in s.issued && now <= c.token.exp as real
  }

  /** `current_user`: the user a cookie stands for, or 401. */
  function CurrentUser(s: State, c: Cookie, now: Time): Outcome<int> {
    if !Decodes(s, c, now) then HttpError(401)
    else if c.token.uid !in s.versions then HttpError(401)
    else if c.token.tv != s.versions[c.token.uid] then HttpError(401)
    else Ok(c.token.uid)
  }

  predicate Accepted(s: State, t: Token, now: Time) {
    CurrentUser(s, Signed(t), now) == Ok(t.uid)
  }

  function Bump(s: State, uid: int): State
    requires uid in s.versions
  {
    s.(versions := s.versions[uid := s.versions[uid] + 1])
  }

  function Issue(s: State, uid: int, now: Time): State
    requires uid in s.versions
  {
    var b := Bump(s, uid);
    b.(issued := b.issued + [NewToken(uid, b.versions[uid], now)])
  }

  /** The user an action moves to a new version, if any. */
  function Bumped(s: State, a: Action): Option<int> {
    match a
    case Login(uid, verified, _) => if uid.Some? && uid.value in s.versions && verified then uid else None
    case Logout(c, now) =>
      (match CurrentUser(s, c, now) case Ok(uid) => Some(uid) case HttpError(_) => None)
    case ChangePassword(c, verified, newLength, now) =>
      (match CurrentUser(s, c, now)
       case Ok(uid) => if verified && newLength >= 8 then Some(uid) else None
       case HttpError(_) => None)
    case DeleteUser(_) => None
  }

  lemma BumpedExists(s: State, a: Action)
    ensures Bumped(s, a).Some? ==> Bumped(s, a).value in s.versions
  {
  }

  function Step(s: State, a: Action): State {
    BumpedExists(s, a);
    match Bumped(s, a)
    case Some(uid) => if a.Logout? then Bump(s, uid) else Issue(s, uid, a.now)
    case None => if a.DeleteUser? then s.(versions := s.versions - {a.id}) else s
  }

  /** A cookie is accepted when this server signed its token, the token has not expired, and its version is
      the one stored for its user. */
  lemma CurrentUserMeans(s: State, c: Cookie, now: Time)
    ensures CurrentUser(s, c, now)
            == if && c.Signed? && c.token in s.issued && now <= c.token.exp as real
                  && c.token.uid in s.versions && c.token.tv == s.versions[c.token.uid]
               then Ok(c.token.uid) else HttpError(401)
  {
  }

  /** What each request leaves: a login or a password change (eight characters at least) moves the
      version on by one and hands out a token of that version for 24 hours, a logout only moves it
      on, and a refused request does neither. */
  lemma StepMeans(s: State, a: Action)
    ensures var user := if a.Logout? || a.ChangePassword? then CurrentUser(s, a.cookie, a.now) else HttpError(401);
            match a
            case Login(uid, verified, now) =>
              if uid.Some? && uid.value in s.versions && verified then
                var v := s.versions[uid.value] + 1;
                Step(s, a) == State(s.versions[uid.value := v], s.issued + [Token(uid.value, v, now.Floor + 86_400)])
              else Step(s, a) == s
            case Logout(_, _) =>
              if user.Ok? then user.value in s.versions
                               && Step(s, a)
                                  == State(s.versions[user.value := s.versions[user.value] + 1], s.issued)
              else Step(s, a) == s
            case ChangePassword(_, verified, newLength, now) =>
              if user.Ok? && verified && newLength >= 8 then
                && user.value in s.versions
                && var v := s.versions[user.value] + 1;
                   Step(s, a)
                   == State(s.versions[user.value := v], s.issued + [Token(user.value, v, now.Floor + 86_400)])
              else Step(s, a) == s
            case DeleteUser(id) => Step(s, a) == State(s.versions - {id}, s.issued)
  {
  }

  function Run(s: State, actions: seq<Action>): State
    decreases |actions|
  {
    if actions == [] then s else Run(Step(s, actions[0]), actions[1..])
  }

  // ----- the handlers -----

  class Sessions {
    var tokenVersions: map<int, nat>
    ghost var issued: seq<Token>

    ghost function View(): State
      reads this
    {
      State(tokenVersions, issued)
    }

    /** Reads only what a request carries and the stored version: `genuine` is the outcome of the
        opaque signature check. */
    method RequireUser(cookie: Cookie, genuine: bool, now: Time) returns (r: Outcome<int>)
      requires genuine <==> cookie.Signed? && cookie.token in issued
      ensures r == CurrentUser(View(), cookie, now)
    {
      if cookie.NoCookie? { return HttpError(401); }
      if !genuine || cookie.token.exp as real < now { return HttpError(401); }
      if cookie.token.uid !in tokenVersions { return HttpError(401); }
      if cookie.token.tv != tokenVersions[cookie.token.uid] { return HttpError(401); }
      return Ok(cookie.token.uid);
    }

    method Login(uid: Option<int>, verified: bool, now: Time) returns (r: Outcome<Token>)
      modifies this
      ensures View() == Step(old(View()), Action.Login(uid, verified, now))
      ensures r.Ok? <==> Bumped(old(View()), Action.Login(uid, verified, now)).Some?
      ensures r.Ok? <==> uid.Some? && uid.value in old(tokenVersions) && verified
      ensures r.HttpError? ==> r.status == 401 && View() == old(View())
      ensures r.Ok? ==> Accepted(View(), r.value, now) && issued == old(issued) + [r.value]
    {
      if uid.None? || uid.value !in tokenVersions || !verified {
        return HttpError(401);
      }
      tokenVersions := tokenVersions[uid.value := tokenVersions[uid.value] + 1];
      var token := NewToken(uid.value, tokenVersions[uid.value], now);
      issued := issued + [token];
      r := Ok(token);
    }

    method Logout(cookie: Cookie, genuine: bool, now: Time) returns (r: Outcome<()>)
      requires genuine <==> cookie.Signed? && cookie.token in issued
      modifies this
      ensures View() == Step(old(View()), Action.Logout(cookie, now))
      ensures r.Ok? <==> CurrentUser(old(View()), cookie, now).Ok?
      ensures r.HttpError? ==> r.status == 401 && View() == old(View())
    {
      var user := RequireUser(cookie, genuine, now);
      if user.HttpError? { return HttpError(user.status); }
      tokenVersions := tokenVersions[user.value := tokenVersions[user.value] + 1];
      r := Ok(());
    }

    method ChangePassword(cookie: Cookie, genuine: bool, verified: bool, newLength: nat, now: Time)
      returns (r: Outcome<Token>)
      requires genuine <==> cookie.Signed? && cookie.token in issued
      modifies this
      ensures View() == Step(old(View()), Action.ChangePassword(cookie, verified, newLength, now))
      ensures r.Ok? <==> old(CurrentUser(View(), cookie, now)).Ok? && verified && newLength >= 8
      ensures r.Ok? ==> Accepted(View(), r.value, now) && issued == old(issued) + [r.value]
      ensures r.HttpError? ==> View() == old(View())
      ensures r.HttpError? ==> r.status == (if old(CurrentUser(View(), cookie, now)).HttpError? then 401 else 400)
    {
      var user := RequireUser(cookie, genuine, now);
      if user.HttpError? { return HttpError(user.status); }
      if !verified { return HttpError(400); }
      if newLength < 8 { return HttpError(400); }
      tokenVersions := tokenVersions[user.value := tokenVersions[user.value] + 1];
      var token := NewToken(user.value, tokenVersions[user.value], now);
      issued := issued + [token];
      r := Ok(token);
    }
  }

  // ----- runs -----

  /** Tokens of one user carry rising versions, none above the stored one. */
  ghost predicate Ordered(s: State) {
    && (forall i, j :: 0 <= i < j < |s.issued| && s.issued[i].uid == s.issued[j].uid ==>
          s.issued[i].tv < s.issued[j].tv)
    && (forall i :: 0 <= i < |s.issued| && s.issued[i].uid in s.versions ==>
          s.issued[i].tv <= s.versions[s.issued[i].uid])
  }

  lemma StepOrdered(s: State, a: Action)
    requires Ordered(s)
    ensures Ordered(Step(s, a))
  {
    BumpedExists(s, a);
  }

  lemma {:induction false} RunOrdered(s: State, actions: seq<Action>)
    requires Ordered(s)
    ensures Ordered(Run(s, actions))
    decreases |actions|
  {
    if actions != [] {
      StepOrdered(s, actions[0]);
      RunOrdered(Step(s, actions[0]), actions[1..]);
    }
  }

  /** After any run, an accepted token is the last one issued to its user, so a user has at most
      one. */
  lemma OneSession(versions: map<int, nat>, actions: seq<Action>, i: nat, j: nat, now: Time, later: Time)
    requires var s := Run(State(versions, []), actions);
             && i < |s.issued| && j < |s.issued| && s.issued[i].uid == s.issued[j].uid
             && Accepted(s, s.issued[i], now)
    ensures j <= i
    ensures var s := Run(State(versions, []), actions); Accepted(s, s.issued[j], later) ==> i == j
  {
    RunOrdered(State(versions, []), actions);
  }

  /** No token of `uid` is live, whatever the time. */
  ghost predicate SignedOut(s: State, uid: int) {
    forall t :: t in s.issued && t.uid == uid && uid in s.versions ==> t.tv < s.versions[uid]
  }

  predicate LogsIn(s: State, a: Action, uid: int) {
    a.Login? && Bumped(s, a) == Some(uid)
  }

  /** No step of the run is a successful login of `uid`. */
  predicate NoLogin(s: State, actions: seq<Action>, uid: int)
    decreases |actions|
  {
    actions == [] || (!LogsIn(s, actions[0], uid) && NoLogin(Step(s, actions[0]), actions[1..], uid))
  }

  lemma StepStaysOut(s: State, a: Action, uid: int)
    requires SignedOut(s, uid) && !LogsIn(s, a, uid)
    ensures SignedOut(Step(s, a), uid)
  {
    assert Bumped(s, a) == Some(uid) ==> a.Login?;
  }

  lemma {:induction false} RunStaysOut(s: State, actions: seq<Action>, uid: int)
    requires SignedOut(s, uid) && NoLogin(s, actions, uid)
    ensures SignedOut(Run(s, actions), uid)
    decreases |actions|
  {
    if actions != [] {
      StepStaysOut(s, actions[0], uid);
      RunStaysOut(Step(s, actions[0]), actions[1..], uid);
    }
  }

  /** From a logout on, no token of that user is accepted until the user logs in again: not the
      one used, not one on another device, and a password change cannot mint one. */
  lemma LogoutHolds(s: State, c: Cookie, now: Time, actions: seq<Action>, t: Token, later: Time)
    requires Ordered(s) && CurrentUser(s, c, now).Ok?
    requires var uid := CurrentUser(s, c, now).value;
             t.uid == uid && NoLogin(Step(s, Logout(c, now)), actions, uid)
    ensures !Accepted(Run(Step(s, Logout(c, now)), actions), t, later)
  {
    var uid := CurrentUser(s, c, now).value;
    var out := Step(s, Logout(c, now));
    assert SignedOut(out, uid);
    RunStaysOut(out, actions, uid);
  }

  /** Whether some step of the run moves `uid` to a new version or removes the account. */
  predicate Revokes(s: State, actions: seq<Action>, uid: int)
    decreases |actions|
  {
    actions != [] &&
    (Bumped(s, actions[0]) == Some(uid) || actions[0] == DeleteUser(uid)
     || Revokes(Step(s, actions[0]), actions[1..], uid))
  }

  lemma StepKeepsIssued(s: State, a: Action)
    ensures s.issued <= Step(s, a).issued
  {
    BumpedExists(s, a);
  }

  lemma {:induction false} VersionGone(s: State, actions: seq<Action>, uid: int, v: nat)
    requires uid !in s.versions || v < s.versions[uid]
    ensures uid !in Run(s, actions).versions || v < Run(s, actions).versions[uid]
    decreases |actions|
  {
    if actions != [] {
      BumpedExists(s, actions[0]);
      VersionGone(Step(s, actions[0]), actions[1..], uid, v);
    }
  }

  /** A session lasts exactly until it expires or the user's version moves on: an accepted token
      is still accepted after a run if and only if it has not expired and no step revoked it. */
  lemma {:induction false} SessionLifetime(s: State, t: Token, now: Time, actions: seq<Action>, later: Time)
    requires Accepted(s, t, now)
    ensures Accepted(Run(s, actions), t, later) <==> later <= t.exp as real && !Revokes(s, actions, t.uid)
    decreases |actions|
  {
    if actions != [] {
      var a := actions[0];
      var next := Step(s, a);
      StepKeepsIssued(s, a);
      BumpedExists(s, a);
      if Bumped(s, a) == Some(t.uid) || a == DeleteUser(t.uid) {
        VersionGone(next, actions[1..], t.uid, t.tv);
      } else {
        assert t in next.issued;
        SessionLifetime(next, t, now, actions[1..], later);
      }
    }
  }
}
