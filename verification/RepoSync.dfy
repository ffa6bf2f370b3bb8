/** Importing repositories (app/api/github_app.py `_sync_repos`, app/core/github_app.py
    `resolve_config_for_installation`): every repository of every installation becomes a target,
    unless a live target has its URL. */
module RepoSync {
  import opened Prelude
  import opened Seqs
  import opened AppRegistration

  datatype Repo = Repo(cloneUrl: string, name: string, defaultBranch: Option<string>, isPrivate: Option<bool>)

  datatype Target = Target(workspaceId: int, name: string, repoUrl: string, defaultBranch: string,
                           environment: string, criticality: int, deleted: bool)

  /** What GitHub lists for an installation of an App; None when it answers with an error. */
  type Listing = (Config, int) -> Option<seq<Repo>>

  // ----- which App an installation belongs to -----

  function WithId(id: int): Config -> bool {
    (c: Config) => c.id == id
  }

  function WithScope(scope: Option<int>): Config -> bool {
    (c: Config) => c.workspaceId == scope
  }

  function ResolveConfig(configs: seq<Config>, i: Installation): Option<Config> {
    if i.configId.Some? then
      var linked := Filter(configs, WithId(i.configId.value));
      if linked == [] then None else Some(linked[0])
    else
      var own := Filter(configs, WithScope(Some(i.workspaceId)));
      if |own| == 1 then Some(own[0])
      else if own != [] then None
      else
        var platform := Filter(configs, WithScope(None));
        if |platform| == 1 then Some(platform[0])
        else if |configs| == 1 then Some(configs[0]) else None
  }

  lemma ScopeUnique(configs: seq<Config>, c: Config)
    requires Distinct(Scopes(configs)) && c in configs
    ensures Filter(configs, WithScope(c.workspaceId)) == [c]
  {
    KeyUnique(configs, ScopeOf, c);
    FilterCong(configs, KeyIs(ScopeOf, c.workspaceId), WithScope(c.workspaceId));
  }

  /** With one App per scope, an unlinked installation gets its own workspace's App if there is
      one, else the platform's, else the only App there is: never a guess among several. */
  lemma ResolveOrder(configs: seq<Config>, i: Installation, c: Config)
    requires Distinct(Scopes(configs)) && i.configId.None?
    ensures ResolveConfig(configs, i) == Some(c) <==>
            (&& c in configs
             && (c.workspaceId == Some(i.workspaceId)
                 || (ScopeFree(configs, Some(i.workspaceId)) && (c.workspaceId == None || configs == [c]))))
  {
    forall d | d in configs ensures Filter(configs, WithScope(d.workspaceId)) == [d] {
      ScopeUnique(configs, d);
    }
    CountZero(configs, WithScope(Some(i.workspaceId)));
    CountZero(configs, WithScope(None));
    if |configs| == 1 {
      assert configs == [configs[0]];
    }
  }

  /** A linked installation gets the App it names, or none. */
  lemma ResolveLinked(configs: seq<Config>, i: Installation, c: Config)
    requires Distinct(Ids(configs)) && i.configId.Some?
    ensures ResolveConfig(configs, i) == Some(c) <==> c in configs && c.id == i.configId.value
  {
    if c in configs && c.id == i.configId.value {
      KeyUnique(configs, IdOf, c);
      FilterCong(configs, KeyIs(IdOf, c.id), WithId(c.id));
    }
  }

  // ----- candidates, and which of them are new -----

  function NewTarget(i: Installation): Repo -> Target {
    (r: Repo) =>
      Target(i.workspaceId, r.name, r.cloneUrl, if r.defaultBranch.Some? then r.defaultBranch.value else "main",
             if r.isPrivate == Some(true) then "Internal" else "Prod", 2, false)
  }

  /** The rows one installation offers. */
  function Offered(configs: seq<Config>, github: Listing, i: Installation): Option<seq<Target>> {
    match ResolveConfig(configs, i)
    case None => Some([])
    case Some(c) => match github(c, i.number) case None => None case Some(repos) => Some(Map(repos, NewTarget(i)))
  }

  function Then(offer: seq<Target>, rest: Option<seq<Target>>): Option<seq<Target>> {
    match rest case None => None case Some(more) => Some(offer + more)
  }

  /** Everything a sync is offered, in order; None as soon as GitHub fails once. */
  function Candidates(configs: seq<Config>, github: Listing, installations: seq<Installation>): Option<seq<Target>> {
    if installations == [] then Some([]) else
      match Offered(configs, github, installations[0])
      case None => None
      case Some(offer) => Then(offer, Candidates(configs, github, installations[1..]))
  }

  function Url(t: Target): string {
    t.repoUrl
  }

  predicate Live(t: Target) {
    !t.deleted
  }

  function Urls(ts: seq<Target>): set<string> {
    set t | t in ts :: t.repoUrl
  }

  function LiveUrls(ts: seq<Target>): set<string> {
    Urls(Filter(ts, Live))
  }

  /** The candidates to add: first offer of each URL not known yet. */
  function Unseen(cs: seq<Target>, known: set<string>): seq<Target> {
    if cs == [] then []
    else if cs[0].repoUrl in known then Unseen(cs[1..], known)
    else [cs[0]] + Unseen(cs[1..], known + {cs[0].repoUrl})
  }

  lemma UrlsCons(cs: seq<Target>)
    requires cs != []
    ensures Urls(cs) == {cs[0].repoUrl} + Urls(cs[1..])
  {
    assert forall t :: t in cs <==> t == cs[0] || t in cs[1..];
  }

  lemma UrlsAppend(a: seq<Target>, b: seq<Target>)
    ensures Urls(a + b) == Urls(a) + Urls(b)
  {
  }

  lemma {:induction false} UnseenSnoc(cs: seq<Target>, known: set<string>, c: Target)
    ensures Unseen(cs + [c], known) == Unseen(cs, known) + (if c.repoUrl in known + Urls(cs) then [] else [c])
  {
    if cs == [] {
      assert [c][1..] == [];
    } else {
      assert (cs + [c])[1..] == cs[1..] + [c];
      UrlsCons(cs);
      var next := if cs[0].repoUrl in known then known else known + {cs[0].repoUrl};
      UnseenSnoc(cs[1..], next, c);
      assert next + Urls(cs[1..]) == known + Urls(cs);
    }
  }

  /** The new rows cover exactly the unknown URLs, one row each. */
  lemma {:induction false} UnseenUrls(cs: seq<Target>, known: set<string>)
    ensures Urls(Unseen(cs, known)) == Urls(cs) - known
  {
    if cs != [] {
      UrlsCons(cs);
      var u := cs[0].repoUrl;
      if u in known {
        UnseenUrls(cs[1..], known);
      } else {
        UnseenUrls(cs[1..], known + {u});
        UrlsAppend([cs[0]], Unseen(cs[1..], known + {u}));
        UrlsCons([cs[0]]);
      }
    }
  }

  lemma UrlIn(ts: seq<Target>, u: string)
    ensures u in Map(ts, Url) <==> u in Urls(ts)
  {
    if u in Map(ts, Url) {
      var i :| 0 <= i < |ts| && Map(ts, Url)[i] == u;
      assert ts[i] in ts;
    }
    if u in Urls(ts) {
      var t :| t in ts && t.repoUrl == u;
      var i :| 0 <= i < |ts| && ts[i] == t;
      assert Map(ts, Url)[i] == u;
    }
  }

  lemma {:induction false} UnseenDistinct(cs: seq<Target>, known: set<string>)
    ensures Distinct(Map(Unseen(cs, known), Url))
  {
    if cs != [] {
      var u := cs[0].repoUrl;
      if u in known {
        UnseenDistinct(cs[1..], known);
      } else {
        var rest := Unseen(cs[1..], known + {u});
        UnseenDistinct(cs[1..], known + {u});
        UnseenUrls(cs[1..], known + {u});
        UrlIn(rest, u);
        assert Map([cs[0]] + rest, Url) == [u] + Map(rest, Url);
      }
    }
  }

  /** Each new row is the first offer of its URL. */
  lemma {:induction false} UnseenIsFirstOffer(cs: seq<Target>, known: set<string>, t: Target)
    requires t in Unseen(cs, known)
    ensures exists k :: 0 <= k < |cs| && cs[k] == t && t.repoUrl !in Urls(cs[..k])
  {
    if cs[0].repoUrl in known || t != cs[0] {
      var next := if cs[0].repoUrl in known then known else known + {cs[0].repoUrl};
      UnseenIsFirstOffer(cs[1..], next, t);
      var k :| 0 <= k < |cs[1..]| && cs[1..][k] == t && t.repoUrl !in Urls(cs[1..][..k]);
      UnseenUrls(cs[1..], next);
      assert t.repoUrl != cs[0].repoUrl;
      assert cs[..k + 1][1..] == cs[1..][..k];
      UrlsCons(cs[..k + 1]);
      assert cs[k + 1] == t;
    } else {
      assert cs[0] == t && cs[..0] == [];
    }
  }

  lemma {:induction false} NothingUnseen(cs: seq<Target>, known: set<string>)
    requires Urls(cs) <= known
    ensures Unseen(cs, known) == []
  {
    if cs != [] {
      UrlsCons(cs);
      NothingUnseen(cs[1..], known);
    }
  }

  // ----- the sync -----

  function Numbered(only: Option<int>): Installation -> bool {
    (i: Installation) => only.None? || i.number == only.value
  }

  /** The table after a sync that was offered `offers`. */
  function SyncedRows(rows: seq<Target>, offers: seq<Target>): seq<Target> {
    rows + Unseen(offers, LiveUrls(rows))
  }

  datatype Progress = Progress(created: seq<Target>, existing: set<string>)

  ghost predicate Caught(p: Progress, done: seq<Target>, known: set<string>) {
    p.created == Unseen(done, known) && p.existing == known + Urls(done)
  }

  lemma CaughtOneMore(p: Progress, done: seq<Target>, known: set<string>, c: Target)
    requires Caught(p, done, known)
    ensures c.repoUrl in p.existing ==> Caught(p, done + [c], known)
    ensures c.repoUrl !in p.existing ==> Caught(Progress(p.created + [c], p.existing + {c.repoUrl}), done + [c], known)
  {
    UnseenSnoc(done, known, c);
    UrlsAppend(done, [c]);
    UrlsCons([c]);
  }

  lemma WalkConcat(done: seq<Target>, offer: seq<Target>, rest: Option<seq<Target>>)
    ensures Then(done, Then(offer, rest)) == Then(done + offer, rest)
  {
    if rest.Some? {
      assert done + (offer + rest.value) == (done + offer) + rest.value;
    }
  }

  lemma WalkNothing(rest: Option<seq<Target>>)
    ensures Then([], rest) == rest
  {
    if rest.Some? {
      assert [] + rest.value == rest.value;
    }
  }

  lemma PrefixStep(done: seq<Target>, offers: seq<Target>, k: nat)
    requires k < |offers|
    ensures done + offers[..k + 1] == done + offers[..k] + [offers[k]]
  {
  }

  class Targets {
    var rows: seq<Target>

    method AddOne(target: Target, before: Progress, ghost done: seq<Target>, ghost known: set<string>)
      returns (p: Progress)
      requires Caught(before, done, known)
      ensures Caught(p, done + [target], known)
    {
      CaughtOneMore(before, done, known, target);
      p := if target.repoUrl in before.existing then before
           else Progress(before.created + [target], before.existing + {target.repoUrl});
    }

    /** The inner loop: one installation's repositories. */
    method AddNew(i: Installation, repos: seq<Repo>, before: Progress, ghost done: seq<Target>,
                  ghost known: set<string>)
      returns (p: Progress)
      requires Caught(before, done, known)
      ensures Caught(p, done + Map(repos, NewTarget(i)), known)
    {
      p := before;
      ghost var seen, offers := done, Map(repos, NewTarget(i));
      for k := 0 to |repos|
        invariant seen == done + offers[..k] && Caught(p, seen, known)
      {
        var target := NewTarget(i)(repos[k]);
        p := AddOne(target, p, seen, known);
        seen := seen + [target];
        PrefixStep(done, offers, k);
      }
      assert offers[..|repos|] == offers;
    }

    /** The outer loop: every installation whose App can be resolved. */
    method Walk(configs: seq<Config>, github: Listing, chosen: seq<Installation>, known: set<string>)
      returns (p: Option<Progress>)
      ensures var offers := Candidates(configs, github, chosen);
              if offers.None? then p.None? else p.Some? && Caught(p.value, offers.value, known)
    {
      var now := Progress([], known);
      ghost var done: seq<Target> := [];
      assert chosen[0..] == chosen;
      WalkNothing(Candidates(configs, github, chosen));
      for k := 0 to |chosen|
        invariant Caught(now, done, known)
        invariant Candidates(configs, github, chosen) == Then(done, Candidates(configs, github, chosen[k..]))
      {
        assert chosen[k..][1..] == chosen[k + 1..];
        var config := ResolveConfig(configs, chosen[k]);
        ghost var offer: seq<Target> := [];
        if config.Some? {
          var repos := github(config.value, chosen[k].number);
          if repos.None? {
            return None;
          }
          now := AddNew(chosen[k], repos.value, now, done, known);
          offer := Map(repos.value, NewTarget(chosen[k]));
        }
        WalkConcat(done, offer, Candidates(configs, github, chosen[k + 1..]));
        assert offer == [] ==> done + offer == done;
        done := done + offer;
      }
      assert done + [] == done;
      p := Some(now);
    }

    /** `_sync_repos`: all or nothing, since one commit ends it. `queued` are the targets whose
        first scan is queued afterwards. */
    method SyncRepos(configs: seq<Config>, installations: seq<Installation>, github: Listing, only: Option<int>)
      returns (created: Outcome<nat>, queued: seq<Target>)
      modifies this
      ensures var offers := Candidates(configs, github, Filter(installations, Numbered(only)));
              if offers.None? then created.HttpError? && rows == old(rows) && queued == []
              else && rows == SyncedRows(old(rows), offers.value)
                   && queued == rows[|old(rows)|..] && created == Ok(|queued|)
    {
      var p := Walk(configs, github, Filter(installations, Numbered(only)), LiveUrls(rows));
      if p.None? {
        return HttpError(500), [];
      }
      queued := p.value.created;
      rows := rows + queued;
      created := Ok(|queued|);
    }
  }

  // ----- what a sync leaves behind -----

  lemma {:induction false} UnseenLive(cs: seq<Target>, known: set<string>)
    requires forall c :: c in cs ==> Live(c)
    ensures forall c :: c in Unseen(cs, known) ==> Live(c)
  {
    if cs != [] {
      UnseenLive(cs[1..], if cs[0].repoUrl in known then known else known + {cs[0].repoUrl});
    }
  }

  lemma {:induction false} OffersLive(configs: seq<Config>, github: Listing, installations: seq<Installation>)
    requires Candidates(configs, github, installations).Some?
    ensures forall c :: c in Candidates(configs, github, installations).value ==> Live(c)
  {
    if installations != [] {
      OffersLive(configs, github, installations[1..]);
    }
  }

  lemma LiveAfter(rows: seq<Target>, offers: seq<Target>)
    requires forall c :: c in offers ==> Live(c)
    ensures Filter(SyncedRows(rows, offers), Live) == Filter(rows, Live) + Unseen(offers, LiveUrls(rows))
  {
    var added := Unseen(offers, LiveUrls(rows));
    FilterAppend(rows, added, Live);
    UnseenLive(offers, LiveUrls(rows));
    FilterAll(added, Live);
  }

  /** The number created is the number of distinct new URLs. */
  lemma SyncCounts(rows: seq<Target>, offers: seq<Target>)
    ensures |SyncedRows(rows, offers)| - |rows| == |Urls(offers) - LiveUrls(rows)|
  {
    UnseenUrls(offers, LiveUrls(rows));
    UnseenDistinct(offers, LiveUrls(rows));
    var added := Unseen(offers, LiveUrls(rows));
    forall u ensures u in Map(added, Url) <==> u in Urls(added) {
      UrlIn(added, u);
    }
    DistinctSize(Map(added, Url), Urls(added));
  }

  lemma SyncUnion(rows: seq<Target>, offers: seq<Target>)
    requires forall c :: c in offers ==> Live(c)
    ensures LiveUrls(SyncedRows(rows, offers)) == LiveUrls(rows) + Urls(offers)
  {
    LiveAfter(rows, offers);
    UnseenUrls(offers, LiveUrls(rows));
    UrlsAppend(Filter(rows, Live), Unseen(offers, LiveUrls(rows)));
  }

  lemma SyncKeepsDistinct(rows: seq<Target>, offers: seq<Target>)
    requires forall c :: c in offers ==> Live(c)
    requires Distinct(Map(Filter(rows, Live), Url))
    ensures Distinct(Map(Filter(SyncedRows(rows, offers), Live), Url))
  {
    LiveAfter(rows, offers);
    UnseenUrls(offers, LiveUrls(rows));
    UnseenDistinct(offers, LiveUrls(rows));
    DistinctUrls(Filter(rows, Live), Unseen(offers, LiveUrls(rows)));
  }

  /** An idempotent merge: the live URLs become the union, distinctness is kept, the number
      created is the number of distinct new URLs, and a second run creates nothing. */
  lemma SyncMerges(rows: seq<Target>, offers: seq<Target>)
    requires forall c :: c in offers ==> Live(c)
    ensures var after := SyncedRows(rows, offers);
            && LiveUrls(after) == LiveUrls(rows) + Urls(offers)
            && |after| - |rows| == |Urls(offers) - LiveUrls(rows)|
            && (Distinct(Map(Filter(rows, Live), Url)) ==> Distinct(Map(Filter(after, Live), Url)))
            && SyncedRows(after, offers) == after
  {
    SyncUnion(rows, offers);
    SyncCounts(rows, offers);
    NothingUnseen(offers, LiveUrls(SyncedRows(rows, offers)));
    if Distinct(Map(Filter(rows, Live), Url)) {
      SyncKeepsDistinct(rows, offers);
    }
  }

  // ----- offers are what resolvable installations list -----

  /** An installation whose App can be resolved, and whose listing holds the URL. */
  predicate Lists(configs: seq<Config>, github: Listing, i: Installation, url: string) {
    var c := ResolveConfig(configs, i);
    c.Some? && github(c.value, i.number).Some? && HoldsUrl(github(c.value, i.number).value, url)
  }

  predicate HoldsUrl(repos: seq<Repo>, url: string) {
    exists r :: r in repos && r.cloneUrl == url
  }

  lemma OfferedUrls(i: Installation, repos: seq<Repo>, url: string)
    ensures url in Urls(Map(repos, NewTarget(i))) <==> HoldsUrl(repos, url)
  {
    var offers := Map(repos, NewTarget(i));
    if url in Urls(offers) {
      var t :| t in offers && t.repoUrl == url;
      var k :| 0 <= k < |repos| && offers[k] == t;
      assert repos[k] in repos;
    }
    if HoldsUrl(repos, url) {
      var r :| r in repos && r.cloneUrl == url;
      var k :| 0 <= k < |repos| && repos[k] == r;
      assert offers[k] in offers;
    }
  }

  lemma {:induction false} CandidateUrls(configs: seq<Config>, github: Listing, installations: seq<Installation>,
                                         url: string)
    requires Candidates(configs, github, installations).Some?
    ensures url in Urls(Candidates(configs, github, installations).value)
            <==> exists i :: i in installations && Lists(configs, github, i, url)
  {
    if installations != [] {
      var first, rest := installations[0], installations[1..];
      var offer, more := Offered(configs, github, first).value, Candidates(configs, github, rest).value;
      CandidateUrls(configs, github, rest, url);
      UrlsAppend(offer, more);
      var c := ResolveConfig(configs, first);
      if c.Some? {
        OfferedUrls(first, github(c.value, first.number).value, url);
      }
      assert url in Urls(offer) <==> Lists(configs, github, first, url);
      assert forall i :: i in installations <==> i == first || i in rest;
    }
  }

  predicate ListsRepo(configs: seq<Config>, github: Listing, i: Installation, r: Repo) {
    var c := ResolveConfig(configs, i);
    c.Some? && github(c.value, i.number).Some? && r in github(c.value, i.number).value
  }

  /** A row on offer is one a resolvable installation lists, in its workspace, under its name and URL: on
      `main` unless GitHub names a branch, internal when private, of criticality 2, live. */
  ghost predicate RowFor(configs: seq<Config>, github: Listing, i: Installation, t: Target) {
    exists r :: ListsRepo(configs, github, i, r) && t.workspaceId == i.workspaceId && t.name == r.name
                && t.repoUrl == r.cloneUrl && t.defaultBranch
                  == (if r.defaultBranch.None? then "main" else r.defaultBranch.value)
                && t.environment == (if r.isPrivate == Some(true) then "Internal" else "Prod")
                && t.criticality == 2 && !t.deleted
  }

  lemma OfferedRow(configs: seq<Config>, github: Listing, i: Installation, t: Target)
    requires Offered(configs, github, i).Some?
    ensures t in Offered(configs, github, i).value <==> RowFor(configs, github, i, t)
  {
    var c := ResolveConfig(configs, i);
    if c.Some? {
      var repos := github(c.value, i.number).value;
      if t in Map(repos, NewTarget(i)) {
        var k :| 0 <= k < |repos| && Map(repos, NewTarget(i))[k] == t;
        assert ListsRepo(configs, github, i, repos[k]);
      }
      if RowFor(configs, github, i, t) {
        var r :| ListsRepo(configs, github, i, r) && t == NewTarget(i)(r);
        var k :| 0 <= k < |repos| && repos[k] == r;
        assert Map(repos, NewTarget(i))[k] == t;
      }
    }
  }

  lemma {:induction false} OffersMean(configs: seq<Config>, github: Listing, installations: seq<Installation>,
                                      t: Target)
    requires Candidates(configs, github, installations).Some?
    ensures t in Candidates(configs, github, installations).value
            <==> exists i :: i in installations && RowFor(configs, github, i, t)
  {
    if installations != [] {
      var first, rest := installations[0], installations[1..];
      OfferedRow(configs, github, first, t);
      OffersMean(configs, github, rest, t);
      assert forall i :: i in installations <==> i == first || i in rest;
    }
  }

  /** Every row a sync adds is such a row of an installation in range, at a URL no live target had. */
  lemma AddedRows(rows: seq<Target>, configs: seq<Config>, installations: seq<Installation>, github: Listing,
                  only: Option<int>, t: Target)
    requires Candidates(configs, github, Filter(installations, Numbered(only))).Some?
    requires var offers := Candidates(configs, github, Filter(installations, Numbered(only))).value;
             t in SyncedRows(rows, offers)[|rows|..]
    ensures exists i :: i in installations && (only.None? || i.number == only.value) && RowFor(configs, github, i, t)
    ensures forall other :: other in rows && !other.deleted ==> other.repoUrl != t.repoUrl
  {
    var chosen := Filter(installations, Numbered(only));
    var offers := Candidates(configs, github, chosen).value;
    assert SyncedRows(rows, offers)[|rows|..] == Unseen(offers, LiveUrls(rows));
    UnseenIsFirstOffer(offers, LiveUrls(rows), t);
    UnseenUrls(offers, LiveUrls(rows));
    assert t.repoUrl in Urls(Unseen(offers, LiveUrls(rows)));
    OffersMean(configs, github, chosen, t);
    forall other | other in rows && !other.deleted ensures other.repoUrl != t.repoUrl {
      assert other in Filter(rows, Live) && other.repoUrl in LiveUrls(rows);
    }
  }

  /** What `SyncRepos` leaves, said of GitHub: a URL is live afterwards exactly when it was before or
      an installation in range lists it; live URLs stay distinct; and an immediate second run,
      offered the same, creates nothing. */
  lemma SyncOutcome(rows: seq<Target>, configs: seq<Config>, installations: seq<Installation>, github: Listing,
                    only: Option<int>, url: string)
    requires Candidates(configs, github, Filter(installations, Numbered(only))).Some?
    ensures var offers := Candidates(configs, github, Filter(installations, Numbered(only))).value;
            var after := SyncedRows(rows, offers);
            && (url in LiveUrls(after) <==>
                (|| url in LiveUrls(rows)
                 || exists i :: i in installations && (only.None? || i.number == only.value)
                                && Lists(configs, github, i, url)))
            && |after| - |rows| == |Urls(offers) - LiveUrls(rows)|
            && (Distinct(Map(Filter(rows, Live), Url)) ==> Distinct(Map(Filter(after, Live), Url)))
            && SyncedRows(after, offers) == after
  {
    var chosen := Filter(installations, Numbered(only));
    var offers := Candidates(configs, github, chosen).value;
    OffersLive(configs, github, chosen);
    SyncMerges(rows, offers);
    CandidateUrls(configs, github, chosen, url);
    assert forall i :: i in chosen <==> i in installations && Numbered(only)(i);
  }

  lemma DistinctUrls(a: seq<Target>, b: seq<Target>)
    requires Distinct(Map(a, Url)) && Distinct(Map(b, Url)) && Urls(a) !! Urls(b)
    ensures Distinct(Map(a + b, Url))
  {
    var urls := Map(a + b, Url);
    forall i, j | 0 <= i < j < |urls| ensures urls[i] != urls[j] {
      if j < |a| {
        assert Map(a, Url)[i] != Map(a, Url)[j];
      } else if i < |a| {
        assert a[i].repoUrl in Urls(a) && b[j - |a|].repoUrl in Urls(b);
      } else {
        assert Map(b, Url)[i - |a|] != Map(b, Url)[j - |a|];
      }
    }
  }

  function LiveAt(url: string): Target -> bool {
    (t: Target) => Live(t) && t.repoUrl == url
  }

  lemma {:induction false} OnceIfDistinct(ts: seq<Target>, url: string)
    requires Distinct(Map(ts, Url)) && forall t :: t in ts ==> Live(t)
    ensures Count(ts, LiveAt(url)) == if url in Urls(ts) then 1 else 0
  {
    if ts != [] {
      UrlsCons(ts);
      assert Map(ts, Url)[1..] == Map(ts[1..], Url);
      OnceIfDistinct(ts[1..], url);
      forall t | t in ts[1..] ensures t.repoUrl != ts[0].repoUrl {
        var i :| 0 <= i < |ts[1..]| && ts[1..][i] == t;
        assert Map(ts, Url)[0] != Map(ts, Url)[i + 1];
      }
    }
  }

  /** A soft-deleted repository comes back once, beside its old row: every offered URL without a
      live target has exactly one afterwards, and the old rows are untouched. */
  lemma OfferedReturnsOnce(rows: seq<Target>, offers: seq<Target>, url: string)
    requires forall c :: c in offers ==> Live(c)
    requires url in Urls(offers) && url !in LiveUrls(rows)
    ensures Count(SyncedRows(rows, offers), LiveAt(url)) == 1
    ensures SyncedRows(rows, offers)[..|rows|] == rows
  {
    var added := Unseen(offers, LiveUrls(rows));
    UnseenUrls(offers, LiveUrls(rows));
    UnseenDistinct(offers, LiveUrls(rows));
    UnseenLive(offers, LiveUrls(rows));
    CountAppend(rows, added, LiveAt(url));
    OnceIfDistinct(added, url);
    assert Count(rows, LiveAt(url)) == 0 by {
      forall t | t in rows ensures !LiveAt(url)(t) {
        assert Live(t) ==> t in Filter(rows, Live);
      }
      CountZero(rows, LiveAt(url));
    }
  }
}
