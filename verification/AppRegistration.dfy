/** GitHub App registration (app/api/github_app.py): state tokens handed out for the manifest
    flow, callbacks that trade one for an App row, installs that link to an App, and removal.
    Steps of different requests interleave; a callback is two steps, because another may commit
    while it waits for GitHub. */
module AppRegistration {
  import opened Prelude
  import opened Seqs

  /** `workspaceId` None is the platform default. */
  datatype Config = Config(id: int, setupToken: Option<string>, workspaceId: Option<int>)

  datatype Installation = Installation(number: int, workspaceId: int, configId: Option<int>)

  /** `pending` is the module dict; `inFlight` holds the callbacks waiting for GitHub's answer.
      `issued` and `born` only remember: every token handed out, every row a callback committed. */
  datatype State = State(
    pending: map<string, Option<int>>, inFlight: map<string, Option<int>>,
    configs: seq<Config>, installations: seq<Installation>,
    issued: map<string, Option<int>>, born: seq<Config>)

  datatype Action =
    | Manifest(token: string, workspace: Option<int>, allowed: bool)
    | CallbackBegin(state: Option<string>)
    | CallbackFail(token: string)
    | CallbackCommit(token: string, id: int)
    | Setup(number: int, cfg: Option<string>, workspaces: set<int>, firstWorkspace: int)
    | DeleteConfig(id: int, allowed: bool)
    | Restart

  // ----- what the database enforces -----

  function IdOf(c: Config): int {
    c.id
  }

  function ScopeOf(c: Config): Option<int> {
    c.workspaceId
  }

  function Ids(configs: seq<Config>): seq<int> {
    Map(configs, IdOf)
  }

  function Scopes(configs: seq<Config>): seq<Option<int>> {
    Map(configs, ScopeOf)
  }

  predicate ScopeFree(configs: seq<Config>, scope: Option<int>) {
    forall c :: c in configs ==> c.workspaceId != scope
  }

  predicate TokenFree(configs: seq<Config>, token: string) {
    forall c :: c in configs ==> c.setupToken != Some(token)
  }

  // ----- steps -----

  function Without<V>(m: map<string, V>, k: string): map<string, V> {
    m - {k}
  }

  /** The INSERT of `callback`: refused by the partial unique indexes when the scope is taken,
      and by the unique token column. */
  function Commit(s: State, token: string, id: int): State {
    if token !in s.inFlight then s
    else
      var c := Config(id, Some(token), s.inFlight[token]);
      var done := s.(inFlight := Without(s.inFlight, token));
      if ScopeFree(s.configs, c.workspaceId) && TokenFree(s.configs, token)
      then done.(configs := s.configs + [c], born := s.born + [c])
      else done
  }

  function WithToken(cfg: string): Config -> bool {
    (c: Config) => c.setupToken == Some(cfg)
  }

  /** Which App an install belongs to: the one whose token came back, else the only one. */
  function ConfigFor(configs: seq<Config>, cfg: Option<string>): Option<Config> {
    var named := if cfg.Some? && cfg.value != "" then Filter(configs, WithToken(cfg.value)) else [];
    if named != [] then Some(named[0]) else if |configs| == 1 then Some(configs[0]) else None
  }

  /** First row with this number, if any: its index. */
  function Find(rows: seq<Installation>, number: int): (r: nat)
    ensures r <= |rows|
    ensures r < |rows| ==> rows[r].number == number
    ensures forall i :: 0 <= i < r ==> rows[i].number != number
  {
    if rows == [] then 0
    else if rows[0].number == number then 0
    else 1 + Find(rows[1..], number)
  }

  function Link(rows: seq<Installation>, number: int, config: Config, workspaces: set<int>,
                firstWorkspace: int): seq<Installation> {
    var i := Find(rows, number);
    if i == |rows| then
      var ws := if config.workspaceId.Some? && config.workspaceId.value in workspaces then config.workspaceId.value
        else firstWorkspace;
      rows + [Installation(number, ws, Some(config.id))]
    else if rows[i].configId.None? then rows[i := rows[i].(configId := Some(config.id))]
    else rows
  }

  /** The App whose token came back, else the only App there is, else none. */
  lemma ConfigForMeans(configs: seq<Config>, cfg: Option<string>)
    ensures var r := ConfigFor(configs, cfg);
            if cfg.Some? && cfg.value != "" && exists c :: c in configs && c.setupToken == cfg
            then r.Some? && r.value in configs && r.value.setupToken == cfg
            else if |configs| == 1 then r == Some(configs[0])
            else r == None
  {
  }

  /** A number not seen before is added, in the App's workspace when the installer belongs to it; the row
      of a number already known only has a missing link filled in. */
  lemma LinkMeans(rows: seq<Installation>, number: int, config: Config, workspaces: set<int>, firstWorkspace: int)
    ensures var after := Link(rows, number, config, workspaces, firstWorkspace);
            && ((forall i :: i in rows ==> i.number != number) ==>
                  exists ws :: after == rows + [Installation(number, ws, Some(config.id))]
                    && ws == if config.workspaceId.Some? && config.workspaceId.value in workspaces
                             then config.workspaceId.value else firstWorkspace)
            && (forall k :: 0 <= k < |rows| && rows[k].number == number
                            && (forall j :: 0 <= j < k ==> rows[j].number != number) ==>
                  after == if rows[k].configId.Some? then rows
                           else rows[k := Installation(number, rows[k].workspaceId, Some(config.id))])
  {
    var i := Find(rows, number);
    if i < |rows| {
      assert rows[i] in rows;
    } else {
      assert Link(rows, number, config, workspaces, firstWorkspace)
             == rows + [Installation(number, if config.workspaceId.Some? && config.workspaceId.value in workspaces
                                             then config.workspaceId.value else firstWorkspace, Some(config.id))];
    }
  }

  function OtherThan(id: int): Config -> bool {
    (c: Config) => c.id != id
  }

  function NotLinkedTo(id: int): Installation -> bool {
    (i: Installation) => i.configId != Some(id)
  }

  function Step(s: State, a: Action): State {
    match a
    case Manifest(token, workspace, allowed) =>
      if !allowed then s else s.(pending := s.pending[token := workspace], issued := s.issued[token := workspace])
    case CallbackBegin(state) =>
      if state.None? || state.value == "" || state.value !in s.pending then s
      else s.(pending := Without(s.pending, state.value), inFlight := s.inFlight[state.value := s.pending[state.value]])
    case CallbackFail(token) => s.(inFlight := Without(s.inFlight, token))
    case CallbackCommit(token, id) => Commit(s, token, id)
    case Setup(number, cfg, workspaces, firstWorkspace) =>
      (match ConfigFor(s.configs, cfg)
       case None => s
       case Some(c) => s.(installations := Link(s.installations, number, c, workspaces, firstWorkspace)))
    case DeleteConfig(id, allowed) =>
      if !allowed || id !in Ids(s.configs) then s
      else s.(configs := Filter(s.configs, OtherThan(id)), installations := Filter(s.installations, NotLinkedTo(id)))
    case Restart => s.(pending := map[], inFlight := map[])
  }

  /** Random tokens never repeat, and a new row never takes an id in use. */
  predicate Fresh(s: State, a: Action) {
    && (a.Manifest? ==> a.token !in s.issued && TokenFree(s.configs, a.token))
    && (a.CallbackCommit? ==> a.id !in Ids(s.configs))
  }

  predicate FreshRun(s: State, actions: seq<Action>)
    decreases |actions|
  {
    actions == [] || (Fresh(s, actions[0]) && FreshRun(Step(s, actions[0]), actions[1..]))
  }

  function Run(s: State, actions: seq<Action>): State
    decreases |actions|
  {
    if actions == [] then s else Run(Step(s, actions[0]), actions[1..])
  }

  // ----- the invariant, one part per table -----

  /** A token is in one place at a time, under the scope it was issued for, and gone once used. */
  ghost predicate TokensTracked(s: State) {
    && (forall t :: t in s.pending ==> t !in s.inFlight && t in s.issued && s.issued[t] == s.pending[t])
    && (forall t :: t in s.inFlight ==> t in s.issued && s.issued[t] == s.inFlight[t])
    && (forall c :: c in s.born ==> c.setupToken.Some? && c.setupToken.value in s.issued
                                    && s.issued[c.setupToken.value] == c.workspaceId
                                    && c.setupToken.value !in s.pending && c.setupToken.value !in s.inFlight)
  }

  /** Each token gave birth to one row at most. */
  ghost predicate OneBirth(s: State) {
    forall i, j :: 0 <= i < j < |s.born| ==> s.born[i].setupToken != s.born[j].setupToken
  }

  ghost predicate OnePerScope(s: State) {
    Distinct(Ids(s.configs)) && Distinct(Scopes(s.configs))
  }

  ghost predicate LinksHold(s: State) {
    forall i :: i in s.installations && i.configId.Some? ==> i.configId.value in Ids(s.configs)
  }

  ghost predicate Consistent(s: State) {
    TokensTracked(s) && OneBirth(s) && OnePerScope(s) && LinksHold(s)
  }

  // ----- commits -----

  lemma IdsAppend(configs: seq<Config>, c: Config)
    ensures Ids(configs + [c]) == Ids(configs) + [c.id]
    ensures Scopes(configs + [c]) == Scopes(configs) + [c.workspaceId]
  {
  }

  lemma InIds(configs: seq<Config>, id: int)
    ensures id in Ids(configs) <==> exists c :: c in configs && c.id == id
  {
    if id in Ids(configs) {
      var i :| 0 <= i < |configs| && Ids(configs)[i] == id;
      assert configs[i] in configs;
    }
    if c :| c in configs && c.id == id {
      var i :| 0 <= i < |configs| && configs[i] == c;
      assert Ids(configs)[i] == id;
    }
  }

  lemma InScopes(configs: seq<Config>, scope: Option<int>)
    ensures scope in Scopes(configs) <==> !ScopeFree(configs, scope)
  {
    if scope in Scopes(configs) {
      var i :| 0 <= i < |configs| && Scopes(configs)[i] == scope;
      assert configs[i] in configs;
    }
    if !ScopeFree(configs, scope) {
      var c :| c in configs && c.workspaceId == scope;
      var i :| 0 <= i < |configs| && configs[i] == c;
      assert Scopes(configs)[i] == scope;
    }
  }

  lemma CommitOnePerScope(s: State, token: string, id: int)
    requires OnePerScope(s) && id !in Ids(s.configs)
    ensures OnePerScope(Commit(s, token, id))
  {
    if token in s.inFlight {
      IdsAppend(s.configs, Config(id, Some(token), s.inFlight[token]));
      InScopes(s.configs, s.inFlight[token]);
    }
  }

  lemma CommitLinks(s: State, token: string, id: int)
    requires LinksHold(s)
    ensures LinksHold(Commit(s, token, id))
  {
    if token in s.inFlight {
      IdsAppend(s.configs, Config(id, Some(token), s.inFlight[token]));
    }
  }

  lemma CommitTokens(s: State, token: string, id: int)
    requires TokensTracked(s) && OneBirth(s)
    ensures TokensTracked(Commit(s, token, id)) && OneBirth(Commit(s, token, id))
  {
  }

  // ----- removal and installs -----

  lemma DeleteLinks(s: State, id: int)
    requires LinksHold(s)
    ensures LinksHold(Step(s, DeleteConfig(id, true)))
  {
    var after := Step(s, DeleteConfig(id, true));
    if id in Ids(s.configs) {
      forall i | i in after.installations && i.configId.Some? ensures i.configId.value in Ids(after.configs) {
        InIds(s.configs, i.configId.value);
        InIds(after.configs, i.configId.value);
      }
    }
  }

  lemma SetupLinks(s: State, a: Action)
    requires a.Setup? && LinksHold(s)
    ensures LinksHold(Step(s, a))
  {
    var c := ConfigFor(s.configs, a.cfg);
    if c.Some? {
      InIds(s.configs, c.value.id);
      var after := Link(s.installations, a.number, c.value, a.workspaces, a.firstWorkspace);
      forall i | i in after && i.configId.Some? ensures i.configId.value in Ids(s.configs) {
        if i !in s.installations {
          assert i.configId == Some(c.value.id);
        }
      }
    }
  }

  // ----- every step, every run -----

  lemma TokenStep(s: State, a: Action)
    requires Consistent(s) && Fresh(s, a) && (a.Manifest? || a.CallbackBegin? || a.CallbackFail? || a.Restart?)
    ensures Consistent(Step(s, a))
  {
  }

  lemma CommitStep(s: State, token: string, id: int)
    requires Consistent(s) && id !in Ids(s.configs)
    ensures Consistent(Commit(s, token, id))
  {
    CommitTokens(s, token, id);
    CommitOnePerScope(s, token, id);
    CommitLinks(s, token, id);
  }

  lemma RowStep(s: State, a: Action)
    requires Consistent(s) && (a.Setup? || a.DeleteConfig?)
    ensures Consistent(Step(s, a))
  {
    if a.Setup? {
      SetupLinks(s, a);
    } else {
      FilterKeys(s.configs, IdOf, OtherThan(a.id));
      FilterKeys(s.configs, ScopeOf, OtherThan(a.id));
      DeleteLinks(s, a.id);
    }
  }

  lemma StepConsistent(s: State, a: Action)
    requires Consistent(s) && Fresh(s, a)
    ensures Consistent(Step(s, a))
  {
    match a
    case CallbackCommit(token, id) => CommitStep(s, token, id);
    case Setup(_, _, _, _) => RowStep(s, a);
    case DeleteConfig(_, _) => RowStep(s, a);
    case _ => TokenStep(s, a);
  }

  /** Any database obeying its own constraints, before the process hands out its first token. */
  predicate Start(s: State) {
    && s.pending == map[] && s.inFlight == map[] && s.issued == map[] && s.born == []
    && Distinct(Ids(s.configs)) && Distinct(Scopes(s.configs))
    && forall i :: i in s.installations && i.configId.Some? ==> i.configId.value in Ids(s.configs)
  }

  lemma {:induction false} RunConsistent(s: State, actions: seq<Action>)
    requires Consistent(s) && FreshRun(s, actions)
    ensures Consistent(Run(s, actions))
    decreases |actions|
  {
    if actions != [] {
      StepConsistent(s, actions[0]);
      RunConsistent(Step(s, actions[0]), actions[1..]);
    }
  }

  /** Over every interleaving: a token creates one App at most, under the scope it was issued
      for; a workspace, and the platform, has one App at most; every link names a stored App. */
  lemma RunRegisters(s: State, actions: seq<Action>)
    requires Start(s) && FreshRun(s, actions)
    ensures var t := Run(s, actions);
            && (forall i, j :: 0 <= i < j < |t.born| ==> t.born[i].setupToken != t.born[j].setupToken)
            && (forall c :: c in t.born ==> c.setupToken.Some? && c.setupToken.value in t.issued
                                            && t.issued[c.setupToken.value] == c.workspaceId)
            && (forall i, j :: 0 <= i < j < |t.configs| ==> t.configs[i].workspaceId != t.configs[j].workspaceId)
            && (forall i :: i in t.installations && i.configId.Some? ==>
                            exists c :: c in t.configs && c.id == i.configId.value)
  {
    RunConsistent(s, actions);
    var t := Run(s, actions);
    forall i, j | 0 <= i < j < |t.configs| ensures t.configs[i].workspaceId != t.configs[j].workspaceId {
      assert Scopes(t.configs)[i] != Scopes(t.configs)[j];
    }
    forall i | i in t.installations && i.configId.Some? ensures exists c :: c in t.configs && c.id == i.configId.value {
      InIds(t.configs, i.configId.value);
    }
  }

  /** Every App now stored was there at the start or came from a callback. */
  lemma {:induction false} RunProvenance(s: State, actions: seq<Action>, c: Config)
    requires c in Run(s, actions).configs
    ensures c in s.configs || c in Run(s, actions).born
    decreases |actions|
  {
    if actions != [] {
      var next := Step(s, actions[0]);
      RunProvenance(next, actions[1..], c);
      BornStays(next, actions[1..]);
      if c in next.configs && c !in s.configs {
        assert c in next.born;
        var i :| 0 <= i < |next.born| && next.born[i] == c;
        assert Run(next, actions[1..]).born[i] == c;
      }
    }
  }

  lemma {:induction false} BornStays(s: State, actions: seq<Action>)
    ensures s.born <= Run(s, actions).born
    decreases |actions|
  {
    if actions != [] {
      BornStays(Step(s, actions[0]), actions[1..]);
    }
  }

  // ----- the race, and what a token is worth afterwards -----

  /** Two callbacks for one scope, both past GitHub: whichever commits first wins, the other is
      turned away, and nothing else differs between the two orders. */
  lemma RaceHasOneWinner(s: State, t1: string, t2: string, id1: int, id2: int)
    requires Consistent(s) && t1 in s.inFlight && t2 in s.inFlight && t1 != t2 && s.inFlight[t1] == s.inFlight[t2]
    requires TokenFree(s.configs, t1) && TokenFree(s.configs, t2)
    ensures var scope := s.inFlight[t1]; var after := Commit(Commit(s, t1, id1), t2, id2);
            && after.configs == (if ScopeFree(s.configs, scope) then s.configs + [Config(id1, Some(t1), scope)]
                                   else s.configs)
            && after.inFlight == Without(Without(s.inFlight, t1), t2) && after.installations == s.installations
  {
    var first := Commit(s, t1, id1);
    if ScopeFree(s.configs, s.inFlight[t1]) {
      assert first.configs[|s.configs|].workspaceId == s.inFlight[t2];
      assert first.configs[|s.configs|] in first.configs;
    }
  }

  /** While an App holds a scope no callback can register another; removing it frees the scope. */
  lemma RemovalFreesScope(s: State, c: Config, token: string, id: int)
    requires Consistent(s) && c in s.configs && token in s.inFlight && s.inFlight[token] == c.workspaceId
    requires TokenFree(s.configs, token)
    ensures Commit(s, token, id).configs == s.configs
    ensures var gone := Step(s, DeleteConfig(c.id, true));
            Commit(gone, token, id).configs == Filter(s.configs, OtherThan(c.id))
              + [Config(id, Some(token), c.workspaceId)]
  {
    InIds(s.configs, c.id);
    var gone := Step(s, DeleteConfig(c.id, true));
    forall d | d in gone.configs ensures d.workspaceId != c.workspaceId {
      var i :| 0 <= i < |s.configs| && s.configs[i] == c;
      var j :| 0 <= j < |s.configs| && s.configs[j] == d;
      assert i != j;
      assert Scopes(s.configs)[i] != Scopes(s.configs)[j] by {
        if j < i {
          assert Scopes(s.configs)[j] != Scopes(s.configs)[i];
        }
      }
    }
  }

  /** A token not waiting in the dict is spent: no run that does not issue it again lets a
      callback begin with it. */
  lemma {:induction false} SpentStaysSpent(s: State, actions: seq<Action>, token: string)
    requires token !in s.pending && token !in s.inFlight && token in s.issued && FreshRun(s, actions)
    ensures token !in Run(s, actions).pending && token !in Run(s, actions).inFlight
    decreases |actions|
  {
    if actions != [] {
      SpentStaysSpent(Step(s, actions[0]), actions[1..], token);
    }
  }

  // ----- the handlers -----

  datatype CallbackReply = BadState | Registered(config: Config) | AlreadyRegistered(platform: bool)

  class Registry {
    var pendingStates: map<string, Option<int>>
    var waiting: map<string, Option<int>>
    var configs: seq<Config>
    var installations: seq<Installation>
    ghost var issued: map<string, Option<int>>
    ghost var born: seq<Config>

    ghost function View(): State
      reads this
    {
      State(pendingStates, waiting, configs, installations, issued, born)
    }

    method ManifestData(token: string, workspace: Option<int>, allowed: bool) returns (r: Outcome<string>)
      requires Fresh(View(), Manifest(token, workspace, allowed))
      requires Consistent(View())
      modifies this
      ensures View() == Step(old(View()), Manifest(token, workspace, allowed)) && Consistent(View())
      ensures r == if allowed then Ok(token) else HttpError(403)
      ensures pendingStates == if allowed then old(pendingStates)[token := workspace] else old(pendingStates)
      ensures waiting == old(waiting) && configs == old(configs) && installations == old(installations)
    {
      StepConsistent(View(), Manifest(token, workspace, allowed));
      if !allowed { return HttpError(403); }
      pendingStates := pendingStates[token := workspace];
      issued := issued[token := workspace];
      r := Ok(token);
    }

    /** Up to the point where GitHub is asked to convert the code. */
    method BeginCallback(state: Option<string>) returns (r: Outcome<Option<int>>)
      requires Consistent(View())
      modifies this
      ensures View() == Step(old(View()), CallbackBegin(state)) && Consistent(View())
      ensures r.Ok? <==> state.Some? && state.value != "" && state.value in old(pendingStates)
      ensures r.Ok? ==> state.value in issued && r.value == issued[state.value] && state.value !in pendingStates
      ensures r.Ok? ==> && r.value == old(pendingStates)[state.value]
                        && pendingStates == old(pendingStates) - {state.value}
                        && waiting == old(waiting)[state.value := r.value]
      ensures r.HttpError? ==> r.status == 400 && pendingStates == old(pendingStates) && waiting == old(waiting)
      ensures configs == old(configs) && installations == old(installations)
    {
      StepConsistent(View(), CallbackBegin(state));
      if state.None? || state.value == "" || state.value !in pendingStates { return HttpError(400); }
      var workspace := pendingStates[state.value];
      pendingStates := Without(pendingStates, state.value);
      waiting := waiting[state.value := workspace];
      r := Ok(workspace);
    }

    /** From GitHub's answer on: insert, or tell the operator the scope is taken. */
    method FinishCallback(token: string, id: int) returns (r: CallbackReply)
      requires Consistent(View()) && token in waiting && id !in Ids(configs)
      modifies this
      ensures View() == Step(old(View()), CallbackCommit(token, id)) && Consistent(View())
      ensures r.Registered? <==> |born| == |old(born)| + 1
      ensures r.Registered? <==> forall c :: c in old(configs) ==>
                c.workspaceId != old(waiting[token]) && c.setupToken != Some(token)
      ensures r.Registered? ==> && r.config == Config(id, Some(token), old(waiting[token]))
                                && configs == old(configs) + [r.config]
      ensures waiting == old(waiting) - {token} && installations == old(installations)
      ensures !r.Registered? ==> configs == old(configs) && r == AlreadyRegistered(old(waiting[token]).None?)
    {
      StepConsistent(View(), CallbackCommit(token, id));
      var config := Config(id, Some(token), waiting[token]);
      waiting := Without(waiting, token);
      if ScopeFree(configs, config.workspaceId) && TokenFree(configs, token) {
        configs := configs + [config];
        born := born + [config];
        r := Registered(config);
      } else {
        r := AlreadyRegistered(config.workspaceId.None?);
      }
    }

    method SetupCallback(number: int, cfg: Option<string>, workspaces: set<int>, firstWorkspace: int)
      returns (found: bool)
      requires Consistent(View())
      modifies this`installations
      ensures View() == Step(old(View()), Setup(number, cfg, workspaces, firstWorkspace)) && Consistent(View())
      ensures found <==> ConfigFor(configs, cfg).Some?
      ensures !found ==> installations == old(installations)
      ensures found ==> installations
                        == Link(old(installations), number, ConfigFor(configs, cfg).value, workspaces, firstWorkspace)
    {
      StepConsistent(View(), Setup(number, cfg, workspaces, firstWorkspace));
      var config := ConfigFor(configs, cfg);
      if config.None? { return false; }
      var i := Find(installations, number);
      if i == |installations| {
        var ws := firstWorkspace;
        if config.value.workspaceId.Some? && config.value.workspaceId.value in workspaces {
          ws := config.value.workspaceId.value;
        }
        installations := installations + [Installation(number, ws, Some(config.value.id))];
      } else if installations[i].configId.None? {
        installations := installations[i := installations[i].(configId := Some(config.value.id))];
      }
      found := true;
    }

    method DeleteAppConfig(id: int, allowed: bool) returns (r: Outcome<()>)
      requires Consistent(View())
      modifies this`configs, this`installations
      ensures View() == Step(old(View()), DeleteConfig(id, allowed)) && Consistent(View())
      ensures r == if id !in old(Ids(configs)) then HttpError(404) else if !allowed then HttpError(403) else Ok(())
      ensures r.Ok? ==> forall c :: c in configs <==> c in old(configs) && c.id != id
      ensures r.Ok? ==> forall i :: i in installations <==> i in old(installations) && i.configId != Some(id)
      ensures r.HttpError? ==> configs == old(configs) && installations == old(installations)
    {
      StepConsistent(View(), DeleteConfig(id, allowed));
      if id !in Ids(configs) { return HttpError(404); }
      if !allowed { return HttpError(403); }
      installations := Filter(installations, NotLinkedTo(id));
      configs := Filter(configs, OtherThan(id));
      r := Ok(());
    }
  }
}
