/** The issue_comment webhook (app/api/webhooks.py): reading an ignore command back out of
    a comment and requesting exactly the findings that belong to this pull request. */
module Webhooks {
  import opened Prelude
  import opened Seqs
  import opened Decimal
  import opened IgnoreCommand
  import PrGuardrail

  // ----- str.split(","), str.strip() -----

  function Split(s: string): (r: seq<string>)
    ensures r != []
  {
    if s == "" then [""]
    else if s[0] == ',' then [""] + Split(s[1..])
    else var r := Split(s[1..]); [[s[0]] + r[0]] + r[1..]
  }

  function LeftStrip(s: string): string {
    if s != "" && IsSpace(s[0]) then LeftStrip(s[1..]) else s
  }

  function RightStrip(s: string): string {
    if s != "" && IsSpace(s[|s| - 1]) then RightStrip(s[..|s| - 1]) else s
  }

  function Strip(s: string): string {
    RightStrip(LeftStrip(s))
  }

  lemma {:induction false} SplitPiece(x: string, rest: string)
    requires forall k :: 0 <= k < |x| ==> x[k] != ','
    ensures Split(x) == [x]
    ensures Split(x + ("," + rest)) == [x] + Split(rest)
  {
    if x == "" {
      assert x + ("," + rest) == "," + rest;
      assert ("," + rest)[1..] == rest;
    } else {
      SplitPiece(x[1..], rest);
      assert (x + ("," + rest))[1..] == x[1..] + ("," + rest);
      assert x == [x[0]] + x[1..];
    }
  }

  lemma {:induction false} StripSpaces(a: string, d: string, b: string)
    requires All(Space, a) && All(Space, b)
    requires d != "" && !IsSpace(d[0]) && !IsSpace(d[|d| - 1])
    ensures Strip(a + d + b) == d
    decreases |a| + |b|
  {
    if a != "" {
      assert (a + d + b)[1..] == a[1..] + d + b;
      StripSpaces(a[1..], d, b);
    } else if b != "" {
      assert (a + d + b)[..|a + d + b| - 1] == a + d + b[..|b| - 1];
      assert LeftStrip(a + d + b) == a + d + b;
      assert LeftStrip(a + d + b[..|b| - 1]) == a + d + b[..|b| - 1];
      StripSpaces(a, d, b[..|b| - 1]);
    } else {
      assert a + d + b == d;
    }
  }

  function ReadId(piece: string): int {
    ToInt(Strip(piece))
  }

  function ReadIds(ids: string): seq<int> {
    Map(Split(ids), ReadId)
  }

  lemma ItemPiece(lead: string, d: string, trail: string)
    requires All(Space, lead) && All(Space, trail) && d != "" && All(Digit, d)
    ensures ReadId(lead + d + trail) == ToInt(d)
    ensures forall k :: 0 <= k < |lead + d + trail| ==> (lead + d + trail)[k] != ','
  {
    assert In(Digit, d[0]) && In(Digit, d[|d| - 1]);
    StripSpaces(lead, d, trail);
    forall k | 0 <= k < |lead + d + trail| ensures (lead + d + trail)[k] != ',' {
      if k < |lead| {
        assert In(Space, lead[k]);
      } else if k < |lead + d| {
        assert In(Digit, d[k - |lead|]);
      } else {
        assert In(Space, trail[k - |lead + d|]);
      }
    }
  }

  lemma IdsTextUnfolds(items: seq<string>, seps: seq<Sep>)
    requires |items| == |seps| + 1 && |items| > 1
    ensures IdsText(items, seps) == items[0] + seps[0].before + ("," + (seps[0].after + IdsText(items[1..], seps[1..])))
  {
    assert items[1..][1..] == items[2..];
    assert items[1..][0] == items[1];
  }

  lemma ReadPiece(piece: string, tail: string)
    requires forall k :: 0 <= k < |piece| ==> piece[k] != ','
    ensures ReadIds(piece) == [ReadId(piece)]
    ensures ReadIds(piece + ("," + tail)) == [ReadId(piece)] + ReadIds(tail)
  {
    SplitPiece(piece, tail);
    assert Map([piece] + Split(tail), ReadId) == [ReadId(piece)] + Map(Split(tail), ReadId);
  }

  lemma ValidTail(items: seq<string>, seps: seq<Sep>)
    requires ValidItems(items, seps) && |items| > 1
    ensures ValidItems(items[1..], seps[1..]) && All(Space, seps[0].before) && All(Space, seps[0].after)
  {
    assert seps[0] in seps;
    assert forall x :: x in items[1..] ==> x in items;
    assert forall x :: x in seps[1..] ==> x in seps;
  }

  lemma ReadLast(lead: string, d: string)
    requires All(Space, lead) && d != "" && All(Digit, d)
    ensures ReadIds(lead + d) == [ToInt(d)]
  {
    ItemPiece(lead, d, "");
    assert lead + d + "" == lead + d;
    ReadPiece(lead + d, "");
  }

  lemma ReadFirst(lead: string, d: string, trail: string, tail: string)
    requires All(Space, lead) && All(Space, trail) && d != "" && All(Digit, d)
    ensures ReadIds(lead + (d + trail + ("," + tail))) == [ToInt(d)] + ReadIds(tail)
  {
    ItemPiece(lead, d, trail);
    ReadPiece(lead + d + trail, tail);
    assert lead + (d + trail + ("," + tail)) == lead + d + trail + ("," + tail);
  }

  lemma MapHead(items: seq<string>)
    requires items != []
    ensures Map(items, ToInt) == [ToInt(items[0])] + Map(items[1..], ToInt)
  {
  }

  /** Splitting at the commas and stripping gives the numbers back, whatever the spacing. */
  lemma {:induction false} ListReadsBack(lead: string, items: seq<string>, seps: seq<Sep>)
    requires All(Space, lead) && ValidItems(items, seps)
    ensures ReadIds(lead + IdsText(items, seps)) == Map(items, ToInt)
    decreases |items|
  {
    assert items[0] in items;
    MapHead(items);
    if |items| == 1 {
      assert IdsText(items, seps) == items[0];
      ReadLast(lead, items[0]);
    } else {
      ValidTail(items, seps);
      IdsTextUnfolds(items, seps);
      ReadFirst(lead, items[0], seps[0].before, seps[0].after + IdsText(items[1..], seps[1..]));
      ListReadsBack(seps[0].after, items[1..], seps[1..]);
    }
  }

  datatype Request = Request(ids: seq<int>, reason: string)

  /** What the handler reads out of a comment body. */
  function ParseComment(body: string): Option<Request> {
    match FindCommand(body)
    case None => None
    case Some(c) => Some(Request(ReadIds(c.ids), Strip(c.reason)))
  }

  /** Round trip for every way of writing a command whose reason starts with no comma. */
  lemma CommandRoundTrip(pre: string, w: Words, items: seq<string>, seps: seq<Sep>, gap: string, reason: string,
                         post: string)
    requires ValidWords(w) && ValidItems(items, seps)
    requires NoEarlierMatch(Comment(pre, w, items, seps, gap, reason, post), |pre|)
    requires gap != "" && All(Space, gap) && ReasonText(reason) && !IsSpace(reason[|reason| - 1])
    requires post == "" || post[0] == '\n'
    ensures ParseComment(Comment(pre, w, items, seps, gap, reason, post)) == Some(Request(Map(items, ToInt), reason))
  {
    SearchFindsCommand(pre, w, items, seps, gap, reason, post);
    ReadBack(items, seps, reason);
  }

  lemma ReadBack(items: seq<string>, seps: seq<Sep>, reason: string)
    requires ValidItems(items, seps) && reason != "" && Stripped(reason)
    ensures ReadIds(IdsText(items, seps)) == Map(items, ToInt) && Strip(reason) == reason
  {
    ListReadsBack("", items, seps);
    assert "" + IdsText(items, seps) == IdsText(items, seps);
    StripSpaces("", reason, "");
    assert "" + reason + "" == reason;
  }

  function Commas(n: nat): seq<Sep> {
    seq(n, i => Sep("", ""))
  }

  const WORDS := Words("@toleman", " ", "ignore", " ", "finding=")

  /** `@toleman ignore finding=1,2,3 reason`. */
  function PrintCommand(ids: seq<nat>, reason: string): string
    requires ids != []
  {
    WordsText(WORDS) + (IdsText(Map(ids, Print), Commas(|ids| - 1)) + (" " + reason))
  }

  /** Printing any non-empty id list and any one-line reason, then parsing, returns both. */
  lemma PrintParse(ids: seq<nat>, reason: string)
    requires ids != [] && ReasonText(reason) && !IsSpace(reason[|reason| - 1])
    ensures ParseComment(PrintCommand(ids, reason)) == Some(Request(ids, reason))
  {
    var items, seps := Map(ids, Print), Commas(|ids| - 1);
    assert ValidItems(items, seps);
    CommandRoundTrip("", WORDS, items, seps, " ", reason, "");
    PrintedComment(ids, reason);
    PrintedIds(ids);
  }

  // ----- when exactly the reason survives -----

  lemma {:induction false} RightStripShorter(s: string)
    ensures |RightStrip(s)| <= |s|
    ensures RightStrip(s) != "" ==> !IsSpace(RightStrip(s)[|RightStrip(s)| - 1]) && RightStrip(s)[0] == s[0]
  {
    if s != "" && IsSpace(s[|s| - 1]) {
      RightStripShorter(s[..|s| - 1]);
    }
  }

  lemma {:induction false} LeftStripShorter(s: string)
    ensures |LeftStrip(s)| <= |s|
    ensures LeftStrip(s) != "" ==> !IsSpace(LeftStrip(s)[0])
  {
    if s != "" && IsSpace(s[0]) {
      LeftStripShorter(s[1..]);
    }
  }

  lemma StripStrips(s: string)
    ensures |Strip(s)| <= |s|
    ensures Strip(s) != "" ==> !IsSpace(Strip(s)[0]) && !IsSpace(Strip(s)[|Strip(s)| - 1])
  {
    LeftStripShorter(s);
    RightStripShorter(LeftStrip(s));
  }

  predicate Stripped(reason: string)
    requires reason != ""
  {
    !IsSpace(reason[0]) && !IsSpace(reason[|reason| - 1])
  }

  lemma UnstrippedIsLost(body: string, ids: seq<int>, reason: string)
    requires reason != "" && !Stripped(reason)
    ensures ParseComment(body) != Some(Request(ids, reason))
  {
    var c := FindCommand(body);
    if c.Some? {
      StripStrips(c.value.reason);
    }
  }

  /** More ids than were written is not what was written. */
  lemma MoreIdsAreOthers(body: string, items: seq<string>, seps: seq<Sep>, more: seq<string>, between: seq<Sep>,
                         reason: string)
    requires |items| == |seps| + 1 && more != [] && ValidItems(items + more, seps + between)
    requires FindCommand(body).Some? && FindCommand(body).value.ids == IdsText(items + more, seps + between)
    ensures ParseComment(body) != Some(Request(Map(items, ToInt), reason))
  {
    ListReadsBack("", items + more, seps + between);
    assert "" + IdsText(items + more, seps + between) == IdsText(items + more, seps + between);
    assert |Map(items + more, ToInt)| > |Map(items, ToInt)|;
  }

  /** A command comes back as it was written exactly when its reason has no outer whitespace and does
      not, with the lines that follow, read on as list: it is not a comma, spaces, digits and any
      further ids of that shape, followed by whitespace and more text. */
  lemma CommandComesBack(pre: string, w: Words, items: seq<string>, seps: seq<Sep>, gap: string, reason: string,
                         post: string)
    requires ValidWords(w) && ValidItems(items, seps) && gap != "" && All(Space, gap)
    requires NoEarlierMatch(Comment(pre, w, items, seps, gap, reason, post), |pre|)
    requires reason != "" && OneLine(reason) && (post == "" || post[0] == '\n')
    ensures ParseComment(Comment(pre, w, items, seps, gap, reason, post)) == Some(Request(Map(items, ToInt), reason))
            <==> Stripped(reason) && !ReadsOn(reason + post)
  {
    var body := Comment(pre, w, items, seps, gap, reason, post);
    if !Stripped(reason) {
      UnstrippedIsLost(body, Map(items, ToInt), reason);
    } else if ReadsOn(reason + post) {
      var more, between := ReasonCut(pre, w, items, seps, gap, reason, post);
      MoreIdsAreOthers(body, items, seps, more, between, reason);
    } else {
      ReasonKept(pre, w, items, seps, gap, reason, post);
      ReadBack(items, seps, reason);
    }
  }

  /** So for any non-empty id list and any one-line reason, printing then parsing returns both if
      and only if the reason passes that test, which can be made before posting. */
  lemma PrintParseExactly(ids: seq<nat>, reason: string)
    requires ids != [] && reason != "" && OneLine(reason)
    ensures ParseComment(PrintCommand(ids, reason)) == Some(Request(ids, reason))
            <==> Stripped(reason) && !ReadsOn(reason)
  {
    var items, seps := Map(ids, Print), Commas(|ids| - 1);
    assert ValidItems(items, seps);
    CommandComesBack("", WORDS, items, seps, " ", reason, "");
    assert reason + "" == reason;
    PrintedComment(ids, reason);
    PrintedIds(ids);
  }

  lemma PrintedComment(ids: seq<nat>, reason: string)
    requires ids != []
    ensures PrintCommand(ids, reason) == Comment("", WORDS, Map(ids, Print), Commas(|ids| - 1), " ", reason, "")
  {
    assert (" " + reason) + "" == " " + reason;
  }

  lemma PrintedIds(ids: seq<nat>)
    ensures Map(Map(ids, Print), ToInt) == ids
  {
    forall i | 0 <= i < |ids| ensures Map(Map(ids, Print), ToInt)[i] == ids[i] {
      PrintRoundTrip(ids[i]);
    }
  }

  /** Beginning with a comma and a number is not enough to be lost. */
  lemma CommaReasonsSurvive()
    ensures !ReadsOn(", 7") && !ReadsOn(", 7x rest") && !ReadsOn(", 7, why")
  {
    NoNumberBeforeSpace(", 7");
    NoNumberBeforeSpace(", 7x rest");
    NoNumberBeforeSpace(", 7, why");
  }

  /** What is lost otherwise: a reason ", 7" that goes on after a space gives up its number to the list. */
  lemma LeadingCommaIsAnId(ids: seq<nat>, n: nat, rest: string)
    requires ids != [] && ReasonText(rest) && !IsSpace(rest[|rest| - 1])
    ensures ParseComment(PrintCommand(ids, ", " + Print(n) + " " + rest)) == Some(Request(ids + [n], rest))
  {
    ReadAsOneMore(ids, n, rest);
    MoreItemsValid(ids, n);
    CommandRoundTrip("", WORDS, Map(ids, Print) + [Print(n)], Commas(|ids| - 1) + [Sep(" ", " ")], " ", rest, "");
    MoreItemsRead(ids, n);
  }

  lemma MoreItemsValid(ids: seq<nat>, n: nat)
    requires ids != []
    ensures ValidItems(Map(ids, Print) + [Print(n)], Commas(|ids| - 1) + [Sep(" ", " ")])
  {
  }

  lemma MoreItemsRead(ids: seq<nat>, n: nat)
    ensures Map(Map(ids, Print) + [Print(n)], ToInt) == ids + [n]
  {
    forall i | 0 <= i < |ids| + 1 ensures Map(Map(ids, Print) + [Print(n)], ToInt)[i] == (ids + [n])[i] {
      PrintRoundTrip((ids + [n])[i]);
    }
  }

  lemma Reassociate(w: string, list: string, d: string, rest: string)
    ensures w + (list + (" " + (", " + d + " " + rest))) == "" + (w + ((list + (" , " + d)) + ((" " + rest) + "")))
  {
    var a, b := " " + (", " + d + " " + rest), (" , " + d) + (" " + rest);
    assert a == b;
    assert (" " + rest) + "" == " " + rest;
    assert (list + (" , " + d)) + (" " + rest) == list + b;
  }

  lemma OneMoreText(items: seq<string>, seps: seq<Sep>, d: string)
    requires |items| == |seps| + 1
    ensures IdsText(items + [d], seps + [Sep(" ", " ")]) == IdsText(items, seps) + (" , " + d)
  {
    IdsTextAppend(items, seps, [d], [Sep(" ", " ")]);
    assert TailText([d], [Sep(" ", " ")]) == SepText(Sep(" ", " ")) + d + "";
  }

  /** The very same comment text is another command with one more id. */
  lemma ReadAsOneMore(ids: seq<nat>, n: nat, rest: string)
    requires ids != []
    ensures PrintCommand(ids, ", " + Print(n) + " " + rest)
            == Comment("", WORDS, Map(ids, Print) + [Print(n)], Commas(|ids| - 1) + [Sep(" ", " ")], " ", rest, "")
  {
    OneMoreText(Map(ids, Print), Commas(|ids| - 1), Print(n));
    Reassociate(WordsText(WORDS), IdsText(Map(ids, Print), Commas(|ids| - 1)), Print(n), rest);
  }

  // ----- the handler -----

  datatype RepoRow = RepoRow(id: int, repoUrl: string, workspaceId: int, deleted: bool)

  /** _target_for_repo: the first live target with this clone URL in the firing
      installation's own workspace; an unknown workspace means no target at all. */
  function TargetForRepo(targets: seq<RepoRow>, url: Option<string>, workspace: Option<int>): (r: Option<RepoRow>)
    ensures r.Some? ==>
              && r.value in targets && !r.value.deleted
              && url == Some(r.value.repoUrl) && workspace == Some(r.value.workspaceId)
    ensures r.None? <==>
              (url.None? || url == Some("") || workspace.None?
               || forall t :: t in targets ==> t.deleted || t.repoUrl != url.value || t.workspaceId != workspace.value)
  {
    if url.None? || url.value == "" || workspace.None? then None
    else FirstLive(targets, url.value, workspace.value)
  }

  function FirstLive(targets: seq<RepoRow>, url: string, workspace: int): (r: Option<RepoRow>)
    ensures r.Some? ==>
              r.value in targets && !r.value.deleted && r.value.repoUrl == url && r.value.workspaceId == workspace
    ensures r.None? <==> forall t :: t in targets ==> t.deleted || t.repoUrl != url || t.workspaceId != workspace
  {
    if targets == [] then None
    else if !targets[0].deleted && targets[0].repoUrl == url && targets[0].workspaceId == workspace
      then Some(targets[0])
    else FirstLive(targets[1..], url, workspace)
  }

  datatype Event = Event(
    action: string, isPullRequest: bool, body: string, association: string, login: string, number: int)

  const TRUSTED := ["OWNER", "MEMBER", "COLLABORATOR"]

  datatype Reply =
    | Skipped(why: string)
    | NothingRequested(skipped: seq<(int, string)>)
    | IgnoreRequested(requested: seq<int>, skipped: seq<(int, string)>)

  const NOT_FOUND := "finding not found"
  const NOT_HERE := "finding does not belong to this PR"

  /** Belongs to a scan of this target and this pull request. */
  function Belongs(s: PrGuardrail.State, target: Option<int>, number: int): int -> bool {
    id => && id in s.prFindings && target.Some?
          && s.prFindings[id].prScanId in s.prScans
          && s.prScans[s.prFindings[id].prScanId] == PrGuardrail.PrScan(target.value, number)
  }

  function Reason(s: PrGuardrail.State): int -> (int, string) {
    id => (id, if id in s.prFindings then NOT_HERE else NOT_FOUND)
  }

  function NotBelongs(s: PrGuardrail.State, target: Option<int>, number: int): int -> bool {
    id => !Belongs(s, target, number)(id)
  }

  /** The PR findings after requesting an ignore for each of `ids`, nothing else touched. */
  predicate RequestedExactly(before: map<int, PrGuardrail.PrFinding>, after: map<int, PrGuardrail.PrFinding>,
                             ids: seq<int>, requester: string, reason: string) {
    && after.Keys == before.Keys
    && forall id :: id in before ==>
         after[id] == if id in ids then PrGuardrail.Submitted(before[id], requester, reason) else before[id]
  }

  /** `finding=1,1,2` asks about #1 once: first occurrences, in comment order. */
  method DedupIds(ids: seq<int>) returns (unique: seq<int>)
    ensures unique == Dedup(ids)
  {
    unique := [];
    var seen := {};
    for i := 0 to |ids|
      invariant unique == Dedup(ids[..i])
      invariant seen == set x | x in unique
    {
      assert ids[..i + 1][..i] == ids[..i];
      if ids[i] !in seen {
        seen := seen + {ids[i]};
        unique := unique + [ids[i]];
      }
    }
    assert ids[..|ids|] == ids;
  }

  /** One id of the loop: requested, or skipped with the reason. */
  method RequestOne(store: PrGuardrail.Store, id: int, target: Option<int>, number: int, login: string, reason: string)
    returns (skip: Option<(int, string)>)
    modifies store`prFindings
    ensures var s := old(store.Snapshot());
      if Belongs(s, target, number)(id)
      then && skip.None?
           && store.prFindings == s.prFindings[id := PrGuardrail.Submitted(s.prFindings[id], "github:" + login, reason)]
      else skip == Some(Reason(s)(id)) && store.prFindings == s.prFindings
  {
    if id !in store.prFindings {
      return Some((id, NOT_FOUND));
    }
    var finding := store.prFindings[id];
    if finding.prScanId !in store.prScans || target.None?
       || store.prScans[finding.prScanId].targetId != target.value
       || store.prScans[finding.prScanId].prNumber != number {
      return Some((id, NOT_HERE));
    }
    store.SubmitIgnoreRequest(id, "github:" + login, reason);
    return None;
  }

  /** Earlier requests of the same command do not change where a finding belongs. */
  lemma BelongsStable(s: PrGuardrail.State, t: PrGuardrail.State, ids: seq<int>, requester: string, reason: string,
                      target: Option<int>, number: int, id: int)
    requires RequestedExactly(s.prFindings, t.prFindings, ids, requester, reason) && s.prScans == t.prScans
    ensures Belongs(t, target, number)(id) == Belongs(s, target, number)(id)
    ensures Reason(t)(id) == Reason(s)(id)
  {
  }

  lemma OneMoreRequested(s: PrGuardrail.State, t: PrGuardrail.State, ids: seq<int>, requester: string, reason: string,
                         id: int)
    requires RequestedExactly(s.prFindings, t.prFindings, ids, requester, reason) && id !in ids && id in t.prFindings
    ensures RequestedExactly(s.prFindings,
                             t.prFindings[id := PrGuardrail.Submitted(t.prFindings[id], requester, reason)],
                             ids + [id], requester, reason)
  {
  }

  function RequestedOf(s: PrGuardrail.State, target: Option<int>, number: int, ids: seq<int>): seq<int> {
    Filter(ids, Belongs(s, target, number))
  }

  function SkippedOf(s: PrGuardrail.State, target: Option<int>, number: int, ids: seq<int>): seq<(int, string)> {
    Map(Filter(ids, NotBelongs(s, target, number)), Reason(s))
  }

  lemma RequestedSnoc(s: PrGuardrail.State, target: Option<int>, number: int, ids: seq<int>, i: nat)
    requires i < |ids| && Distinct(ids)
    ensures ids[i] !in RequestedOf(s, target, number, ids[..i])
    ensures RequestedOf(s, target, number, ids[..i + 1])
            == if Belongs(s, target, number)(ids[i]) then RequestedOf(s, target, number, ids[..i]) + [ids[i]]
               else RequestedOf(s, target, number, ids[..i])
  {
    assert ids[..i + 1] == ids[..i] + [ids[i]];
    FilterSnoc(ids[..i], ids[i], Belongs(s, target, number));
  }

  lemma SkippedSnoc(s: PrGuardrail.State, target: Option<int>, number: int, ids: seq<int>, i: nat)
    requires i < |ids| && Distinct(ids)
    ensures SkippedOf(s, target, number, ids[..i + 1])
            == if Belongs(s, target, number)(ids[i]) then SkippedOf(s, target, number, ids[..i])
               else SkippedOf(s, target, number, ids[..i]) + [Reason(s)(ids[i])]
  {
    assert ids[..i + 1] == ids[..i] + [ids[i]];
    FilterSnoc(ids[..i], ids[i], NotBelongs(s, target, number));
    MapSnoc(Filter(ids[..i], NotBelongs(s, target, number)), ids[i], Reason(s));
  }

  /** The partitioning loop: requests exactly the ids that belong here, each once, and
      records a reason for every other, neither list reordering the comment. */
  method RequestEach(store: PrGuardrail.Store, ids: seq<int>, target: Option<int>, number: int, login: string,
                     reason: string)
    returns (requested: seq<int>, skipped: seq<(int, string)>)
    requires Distinct(ids)
    modifies store`prFindings
    ensures requested == RequestedOf(old(store.Snapshot()), target, number, ids)
    ensures skipped == SkippedOf(old(store.Snapshot()), target, number, ids)
    ensures RequestedExactly(old(store.prFindings), store.prFindings, requested, "github:" + login, reason)
  {
    requested, skipped := [], [];
    ghost var s := store.Snapshot();
    ghost var requester := "github:" + login;
    for i := 0 to |ids|
      invariant requested == RequestedOf(s, target, number, ids[..i])
      invariant skipped == SkippedOf(s, target, number, ids[..i])
      invariant RequestedExactly(s.prFindings, store.prFindings, requested, requester, reason)
    {
      ghost var t := store.Snapshot();
      BelongsStable(s, t, requested, requester, reason, target, number, ids[i]);
      RequestedSnoc(s, target, number, ids, i);
      SkippedSnoc(s, target, number, ids, i);
      var skip := RequestOne(store, ids[i], target, number, login, reason);
      if skip.Some? {
        skipped := skipped + [skip.value];
      } else {
        OneMoreRequested(s, t, requested, requester, reason, ids[i]);
        requested := requested + [ids[i]];
      }
    }
    assert ids[..|ids|] == ids;
  }

  /** Every listed id is either requested or skipped, never both and never twice. */
  lemma SplitIsExact(ids: seq<int>, p: int -> bool)
    ensures var r, k := Filter(Dedup(ids), p), Filter(Dedup(ids), x => !p(x));
      && Distinct(r) && Distinct(k) && |r| + |k| == |Dedup(ids)|
      && forall id :: id in ids ==> (id in r) != (id in k)
  {
    var u := Dedup(ids);
    FilterDistinct(u, p);
    FilterDistinct(u, x => !p(x));
    CountOr(u, p, x => !p(x), x => true);
    FilterAll(u, x => true);
  }

  /** Requested are, in comment order, the listed ids whose PR finding was reported by a scan of this
      target and this pull request; every other id is skipped as unknown or as belonging elsewhere. */
  lemma SplitMeans(s: PrGuardrail.State, target: Option<int>, number: int, ids: seq<int>, id: int)
    ensures id in RequestedOf(s, target, number, ids)
            <==> && id in ids && id in s.prFindings && s.prFindings[id].prScanId in s.prScans
                 && target == Some(s.prScans[s.prFindings[id].prScanId].targetId)
                 && s.prScans[s.prFindings[id].prScanId].prNumber == number
    ensures id !in s.prFindings ==>
              ((id, "finding not found") in SkippedOf(s, target, number, ids) <==> id in ids)
    ensures id in s.prFindings ==>
              ((id, "finding does not belong to this PR") in SkippedOf(s, target, number, ids)
               <==> id in ids && id !in RequestedOf(s, target, number, ids))
  {
    var others := Filter(ids, NotBelongs(s, target, number));
    var skipped := Map(others, Reason(s));
    assert skipped == SkippedOf(s, target, number, ids);
    if Reason(s)(id) in skipped {
      var i :| 0 <= i < |others| && skipped[i] == Reason(s)(id);
      assert others[i] == id;
    }
    if id in others {
      var i :| 0 <= i < |others| && others[i] == id;
      assert skipped[i] == Reason(s)(id);
    }
  }

  /** What a request writes: who asked and why, the previous review forgotten. */
  lemma RequestedMeans(before: map<int, PrGuardrail.PrFinding>, after: map<int, PrGuardrail.PrFinding>, ids: seq<int>,
                       requester: string, reason: string, id: int)
    requires RequestedExactly(before, after, ids, requester, reason) && id in before
    ensures id in after
    ensures id !in ids ==> after[id] == before[id]
    ensures id in ids ==>
              && after[id].status == PrGuardrail.Requested
              && after[id].requestedBy == requester && after[id].requestedReason == reason
              && after[id].reviewedBy == "" && after[id].reviewedAt == None && after[id].rejectReason == None
  {
  }

  /** _handle_issue_comment. */
  method HandleIssueComment(store: PrGuardrail.Store, e: Event, targets: seq<RepoRow>, url: Option<string>,
                            workspace: Option<int>)
    returns (reply: Reply)
    modifies store`prFindings
    ensures var parsed := ParseComment(e.body);
      var acts := e.action == "created" && e.isPullRequest && parsed.Some? && parsed.value.reason != ""
        && (e.association == "OWNER" || e.association == "MEMBER" || e.association == "COLLABORATOR");
      && (!acts ==> reply.Skipped? && store.Snapshot() == old(store.Snapshot()))
      && (acts ==>
            var s := old(store.Snapshot());
            var t := TargetForRepo(targets, url, workspace);
            var target := if t.Some? then Some(t.value.id) else None;
            var ids := Dedup(parsed.value.ids);
            var requested, skipped := RequestedOf(s, target, e.number, ids), SkippedOf(s, target, e.number, ids);
            && RequestedExactly(s.prFindings, store.prFindings, requested, "github:" + e.login, parsed.value.reason)
            && (requested != [] ==> reply == IgnoreRequested(requested, skipped))
            && (requested == [] ==> reply == (if |ids| == 1 then Skipped(Reason(s)(ids[0]).1)
                                                else NothingRequested(skipped))))
  {
    if e.action != "created" {
      return Skipped("issue_comment action");
    }
    if !e.isPullRequest {
      return Skipped("not a PR comment");
    }
    var parsed := ParseComment(e.body);
    if parsed.None? {
      return Skipped("no ignore command");
    }
    if e.association !in TRUSTED {
      return Skipped("author_association not trusted");
    }
    if parsed.value.reason == "" {
      return Skipped("empty reason");
    }
    var ids := DedupIds(parsed.value.ids);
    var row := TargetForRepo(targets, url, workspace);
    var target := if row.Some? then Some(row.value.id) else None;
    ghost var s := store.Snapshot();
    var requested, skipped := RequestEach(store, ids, target, e.number, e.login, parsed.value.reason);
    if requested == [] {
      if |ids| == 1 {
        assert NotBelongs(s, target, e.number)(ids[0]);
        assert Filter(ids, NotBelongs(s, target, e.number)) == [ids[0]];
        return Skipped(skipped[0].1);
      }
      return NothingRequested(skipped);
    }
    return IgnoreRequested(requested, skipped);
  }
}
