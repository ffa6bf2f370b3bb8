# A verified model of the vulnerability-management backend

This project models the decision-making core of the backend in Dafny and proves what its
views, workflows and state machines promise each other. `dafny verify dfyconfig.toml` checks
all of it.

The modules follow the source files.

- **Findings** (`FindingsModel`, `FindingsQuery`, `FindingFacets`, `FindingGroups`). One query
  builder feeds the flat list, the grouped list, the facet counts and the category tabs. The
  builder is the source's own step-by-step narrowing over joined rows with SQL's three-valued
  logic; it is proved to select exactly the findings a plain predicate describes, and every
  other view is proved to agree with that one set.
- **PR Guardrail** (`PrGuardrail`, `IgnoreCommand`, `Webhooks`). The ignore workflow is a class
  over both tables, with theorems about every run; the comment grammar is a regular expression
  with backtracking priorities, with a printing/parsing round trip.
- **Schedules** (`ScanSchedules`). Tri-state overrides and the rules for when a due clock moves.
- **Reports** (`Reports`). The posture report's nested accumulation loops.
- **Audit feed** (`AuditFeed`, `AuditPaging`), **target lifecycle** (`TargetLifecycle`), **GitHub App
  registration** (`AppRegistration`), **repository sync** (`RepoSync`), **software inventory**
  (`Sbom`), **sessions** (`Auth`).
- `Prelude`, `Seqs`, `Ordering`, `Decimal` and `ToolRegistry` hold what these share: filtering,
  counting and partitioning of sequences, stable sorting and paging, numerals, and the
  tool-to-category vocabulary.

Stored rows that handlers change are classes whose methods are proved equal to a `Step`
function on values; the theorems about whole runs are lemmas about that function. SQL
statements are functions, Python loops are loops with invariants. Code outside the model enters
as parameters: the clock, ILIKE, jitter, JSON truth tests, GitHub's listings, password and
signature checks, fresh random tokens.

## Findings about the code

- `GET /api/findings/facets` is documented as taking exactly the list's query parameters and as
  counting, for every option, what the list would return for it. It takes neither `rule_id` nor
  `dependency_scope`, and its category counts leave out an `exclude_category` that the list keeps
  applying. `OptionAgrees` is the exact condition for the count beside an option,
  `FacetTotalAgrees` for the total; `OptionCanDisagree`, `ExcludedCategoryIsCounted` and
  `FacetTotalCanDisagree` are cases. Agreeing totals do not make the option counts right. Without
  the three parameters every count is right: `PlainUrlsAreHonest`. (The page never
  combines them: it offers categories only in the queue that excludes none.)
- The category tabs' route promises counts that reflect every other filter the way the list does,
  but it takes neither `rule_id`, `new_since_days`, `exclude_category` nor `workspace_id`:
  `TabAgrees` is the exact condition, `TabCanDisagree`, `TabIgnoresExclusion` and
  `TabIgnoresWorkspace` are cases.
- "Approved implies the main finding is not open" is not kept by a revocation that shares a row
  with another approval: `RevocationKeepsCovered` is the exact condition, `ApprovedCanBeOpen` a
  case.
- "A schedule PUT never makes a schedule newly due" holds of the row it addresses; a workspace
  PUT can wake a row that inherits `enabled`: `WorkspacePutWakesTarget` is the exact condition.
- Two dispatcher passes can both win one due row when the later one's instant has reached the due
  time the earlier one committed: `ExactlyOneClaimWins` is the exact condition,
  `TwoInstantsBothWin` a case a microsecond apart.
- Without a finding window, scan coverage is not bounded by the report instant:
  `CoverageIsAsOf` is the exact condition, `CoverageCanRunAhead` a case.
- An ignore reason that reads on as list (a comma, a number, whitespace and more text) loses its
  start to the ids, and no other stripped one-line reason does: `PrintParseExactly`; with further
  lines after it, `CommandComesBack`.
- The audit feed leaves rows of one trail at one instant as the database returns them, so two
  requests can page them differently: `FeedPagesStable` is the exact condition, `TiedScansMove` a
  case. Rows of different trails may share an instant freely.
- `severity_for_weight` falls back to a `Severity` member that does not exist;
  `GroupSeverityIsHighest` shows the fallback is never reached.
- A comment in the SPDX export cites section 11.1 for the identifier characters; in SPDX 2.3 it
  is clause 7.2.

## Model

| member | source | states |
|---|---|---|
| `ToolRegistry.CategoryInverse` | backend/app/core/tool_registry.py:401-440 | Forward and reverse category lookups agree for every tool and category; "Other" is exactly the unknown tools; every tool's category is an option. |
| `ToolRegistry.ShippedIsConsistent` | backend/app/core/tool_registry.py:42-398 | The shipped registry lists no tool twice and none as "Other", which the agreement needs. |
| `FindingsModel.BucketsPartition` | backend/app/api/findings.py:316-343 | Under three-valued logic exactly one fixability condition is true of every row, NULL `cve_id` included, and it is the bucket meant. |
| `FindingsModel.InIsOr` | backend/app/api/findings.py:316-343 | The `IN` those conditions use is a three-valued OR over equality: unknown for a NULL column, false over no values. |
| `FindingsModel.OrThroughAnd` | backend/app/api/findings.py:316-343 | Their AND, OR and NOT are the three-valued ones, tied by De Morgan. |
| `FindingsModel.VerdictAgreesExactly` | backend/app/core/fixability.py:40-64 | For any stored text at all, the verdict printed on a row equals its filter bucket if and only if the SQL and the JSON test read that text alike. |
| `FindingsModel.StoredVerdictAgrees` | backend/app/core/cve_enrichment.py:165-171 | On every row the application writes (NULL or the dump of a non-empty list), the verdict printed is the bucket of the filter and the facet. |
| `FindingsModel.StoredVerdictMeans` | backend/app/core/fixability.py:40-64 | And for such a row it says what was written: a fix exists if and only if the stored list was not empty. |
| `FindingsModel.SelectedDistinct` | backend/app/api/findings.py:346-526 | The filtered set holds no finding twice. |
| `FindingsModel.SelectedMeans` | backend/app/api/findings.py:346-561 | A stored finding is in the filtered set if and only if its target is live, in scope and, with it, meets every parameter, each written out on the columns (`new_since_days` as days before now, at least one). |
| `FindingsModel.NarrowedMeans` | backend/app/api/auth.py:376-392 | The workspace switcher narrows the scope to one workspace, 403 for one outside it, and leaves it alone when not set. |
| `FindingsQuery.JoinTargetStep` | backend/app/api/findings.py:437-526 | Joining Target by its key neither drops nor repeats a finding, at whichever filter the join first happens. |
| `FindingsQuery.JoinGroupStep` | backend/app/api/findings.py:437-526 | The group join, under the unique membership constraint, is a plain filter. |
| `FindingsQuery.FixabilityAnyMeaning` | backend/app/api/findings.py:316-526 | The OR of the picked buckets' SQL conditions is true exactly of the findings whose bucket is picked. |
| `FindingsQuery.FilteredFindingsQuery` | backend/app/api/findings.py:346-526 | For every mix of filters the builder yields exactly the findings the filters mean, in table order, once each; no query for a caller in no workspace. |
| `FindingsQuery.ApplyCategory` | backend/app/api/findings.py:530-561 | Filtering by tool name through the reverse lookup keeps exactly the findings whose forward category is wanted and not excluded. |
| `FindingsQuery.SelectFindings` | backend/app/api/findings.py:346-561 | Builder and category together select the filtered set. |
| `FindingsQuery.ListFindings` | backend/app/api/findings.py:582-645 | The flat list's total is the size of the filtered set and its items are one clamped page of it; each item comes before the next by the mode asked for: score, severity by name, age or recency, ties by score and id. |
| `FindingsQuery.FlatOrderStable` | backend/app/api/findings.py:564-580 | Every sort mode has one arrangement whatever order rows arrive in; consecutive pages give each row once. |
| `FindingsQuery.FlatPageOrder` | backend/app/api/findings.py:564-580 | Under every sort mode the items of a page stand in the order the mode names, said of their columns. |
| `FindingsQuery.FlatPagesStable` | backend/app/api/findings.py:564-646 | Two requests over the same rows stored in any two orders show the same page. |
| `FindingFacets.FoldCounts` | backend/app/api/findings.py:1066-1131 | Folding GROUP BY rows into a dict drops NULL groups and adds up groups that share a key: each entry is exactly the number of rows under it. |
| `FindingFacets.FacetIsPromise` | backend/app/api/findings.py:1163-1309 | For every data set, scope and set of the route's own filters, counting an option's rows among the self-excluded query gives the total after clicking it. |
| `FindingFacets.SeverityFacet` | backend/app/api/findings.py:1175-1309 | Every severity count is the list's total for it; the counts sum to the self-excluded query. |
| `FindingFacets.StateFacet` | backend/app/api/findings.py:1175-1309 | The same for states, ignoring `resolved`. |
| `FindingFacets.ToolFacet` | backend/app/api/findings.py:1325-1344 | The same for tools, over an option list that covers every selected row. |
| `FindingFacets.VisibleToolsMean` | backend/app/api/findings.py:1325-1344 | The tools on offer are those of findings of live targets in scope, whatever the filters, each once, in order, an empty name included. |
| `FindingFacets.FixabilityFacet` | backend/app/api/findings.py:1104-1117 | The same for the three buckets, counted with the filter's own conditions. |
| `FindingFacets.CategoryFacet` | backend/app/api/findings.py:1120-1131 | The same for categories, counted without the queue exclusion; `ExclusionAgrees` says when the list, which keeps the exclusion, returns as many. |
| `FindingFacets.TargetColumnFacet` | backend/app/api/findings.py:1086-1101 | Environment and owner counts, grouped over the joined target, are the list's totals. |
| `FindingFacets.TargetFacetMeans` | backend/app/api/findings.py:1849-1861 | The environments (or owners) on offer are the non-empty ones of live targets in scope, each once, in order. |
| `FindingFacets.ListFindingFacets` | backend/app/api/findings.py:1175-1309 | The whole response, over the filters the route takes: all seven dimensions honest, five of them losing nothing, the values on offer, and the total. What it means for the list's URL is `OptionAgrees`. |
| `FindingFacets.FacetTotalAgrees` | backend/app/api/findings.py:1175-1309 | List and facet totals for one URL agree if and only if no facet row fails `rule_id` or `dependency_scope`. |
| `FindingFacets.FacetTotalCanDisagree` | backend/app/api/findings.py:1175-1309 | A data set on which they disagree. |
| `FindingFacets.OptionAgrees` | backend/app/api/findings.py:1175-1309 | For one URL, whatever it carries: the count beside an option is the list's total with the option put in and everything else kept if and only if every row counted passes `rule_id` and `dependency_scope` and, for a category, is outside `exclude_category`. |
| `FindingFacets.HonestForUrl` | backend/app/api/findings.py:1175-1309 | Each count of the response is right or wrong for its URL by that test. |
| `FindingFacets.PlainUrlsAreHonest` | backend/app/api/findings.py:1175-1309 | A URL with neither of the two filters, nor an exclusion when categories are counted, gets right counts beside every option, on every data set. |
| `FindingFacets.ExclusionAgrees` | backend/app/api/findings.py:530-561 | Under an exclusion alone, a category's count is the list's total for it if and only if the category is not excluded or the count is 0. |
| `FindingFacets.ExcludedCategoryIsCounted` | backend/app/api/findings.py:1262-1268 | A data set and a URL that only excludes a category: its count is 1, the list for it is empty. |
| `FindingFacets.OptionCanDisagree` | backend/app/api/findings.py:1175-1309 | A data set and a URL where both totals agree and an option count is wrong. |
| `FindingFacets.ListCategoryFacets` | backend/app/api/findings.py:1368-1412 | Every registered category has a tab whose count is the total under it over everything the caller may see; the tabs sum to the unfiltered-by-category set. |
| `FindingFacets.TabAgrees` | backend/app/api/findings.py:1368-1412 | A tab, over the caller's whole scope, agrees with the list for one URL, narrowed to its `workspace_id`, if and only if no finding under the tab fails `rule_id` or `new_since_days`, lies outside that workspace or under `exclude_category`: none of the four reaches the tabs. |
| `FindingFacets.TabCanDisagree` | backend/app/api/findings.py:1368-1412 | A data set on which `new_since_days` makes them disagree. |
| `FindingFacets.TabIgnoresWorkspace` | backend/app/api/findings.py:1368-1412 | A data set on which `workspace_id` alone does. |
| `FindingFacets.TabIgnoresExclusion` | backend/app/api/findings.py:1368-1412 | A data set on which `exclude_category` alone does. |
| `FindingGroups.GroupRowsKeys` | backend/app/core/grouping.py:104-134 | One aggregate row per distinct (tool, rule_id), over exactly its members; `EveryRowExact` says what its columns are. |
| `FindingGroups.EveryRowExact` | backend/app/core/grouping.py:104-134 | Every stub of every request, over the findings it covers: the highest score, the first and last times seen and the last detected, the greatest EPSS, the numbers of targets, files and known-exploited findings, the highest severity. |
| `FindingGroups.GroupsAccountForFlat` | backend/app/api/findings.py:807-899 | `total_findings` never exceeds the flat total and equals it if and only if neither half overflows MAX_GROUPS. |
| `FindingGroups.CoveredOnce` | backend/app/api/findings.py:807-899 | Without overflow every filtered finding lies in a stub. |
| `FindingGroups.CoveredAtMostOnce` | backend/app/api/findings.py:807-899 | No finding lies in two stubs, truncated or not. |
| `FindingGroups.StubIdentityUnique` | backend/app/api/findings.py:711-748 | (tool, rule_id, representative_id) tells any two stubs apart, across both halves. |
| `FindingGroups.AllStubsIdentitiesDiffer` | backend/app/api/findings.py:711-748 | So the stubs of every request meet the condition the stable order needs. |
| `FindingGroups.GroupPagesStable` | backend/app/api/findings.py:711-748 | All five sort modes are independent of input order; concatenated pages give each stub once. |
| `FindingGroups.StubPageOrder` | backend/app/api/findings.py:711-748 | Under each of the five sort modes the stubs of a page stand in the order the mode names, said of their columns. |
| `FindingGroups.StubsOrderIndependent` | backend/app/api/findings.py:807-899 | Which groups survive truncation, and every stub, are independent of the order rows come back in. |
| `FindingGroups.TruncationKeepsHighest` | backend/app/api/findings.py:807-899 | A finding that truncation leaves without a stub scores no higher than any stub kept of its half. |
| `FindingGroups.GroupSeverityIsHighest` | backend/app/core/grouping.py:56-76 | A group shows its members' highest severity; the weight table's fallback is never reached. |
| `FindingGroups.RepresentativeFinding` | backend/app/core/grouping.py:83-101 | Worst severity, then oldest; nothing only for an empty group. |
| `FindingGroups.Enrich` | backend/app/api/findings.py:912-956 | Every emitted stub has a representative inside the same filtered set, covered by it, of its severity. |
| `FindingGroups.BuildStubs` | backend/app/api/findings.py:816-899 | The first pass builds exactly the stubs of both halves and the truncation flag. |
| `FindingGroups.ListFindingGroups` | backend/app/api/findings.py:757-961 | A page shows exactly the sorted stubs at its place, none silently dropped, in the order asked for, each row's columns true of the findings it covers, `truncated` exactly when a half overflows; untruncated totals equal the flat total. |
| `PrGuardrail.Store.ApplyTriage` | backend/app/core/triage.py:18-36 | One state change, one log row with the true old state. |
| `PrGuardrail.Store.Sync` | backend/app/api/pr_guardrail.py:533-600 | The triaged rows are exactly the matches, each moved and logged once, all others untouched. |
| `PrGuardrail.Store.SubmitIgnoreRequest` | backend/app/core/pr_guardrail_executor.py:1752-1782 | A fresh request forgets the previous verdict. |
| `PrGuardrail.Store.RequestIgnore` | backend/app/api/pr_guardrail.py:446-461 | Outcome and whole new state. |
| `PrGuardrail.Store.ApproveIgnore` | backend/app/api/pr_guardrail.py:604-637 | 403 for anyone but a security engineer or admin, then outcome and whole new state of both tables and the log; on rows, `MovesByDecision`. |
| `PrGuardrail.Store.RejectIgnore` | backend/app/api/pr_guardrail.py:640-671 | 403 likewise; needs a reason; never touches the main table. |
| `PrGuardrail.Store.RevokeIgnore` | backend/app/api/pr_guardrail.py:674-713 | 403 likewise; only an approved request; whole new state of both tables and the log. |
| `PrGuardrail.AnswerMeans` | backend/app/api/pr_guardrail.py:446-713 | Who is turned away and why: 403 for the decisions without the role, 404 unless finding, scan and target exist in the caller's workspaces, 400 for an empty reason or a revocation of what is not approved. |
| `PrGuardrail.RequestRecorded` | backend/app/api/pr_guardrail.py:446-713 | Every column an accepted request writes on the PR finding it names; its place and every other PR finding stay. |
| `PrGuardrail.MovesByDecision` | backend/app/api/pr_guardrail.py:533-600 | An accepted approval takes exactly the Open and Reopened rows of that target, default branch, tool, rule, path and line to Accepted Risk, a revocation the Accepted Risk ones to Reopened; every other row stays as it is. |
| `PrGuardrail.MovesAreLogged` | backend/app/api/pr_guardrail.py:533-600 | The log rows added are those of the findings moved, with their true states, the pull request and who decided. |
| `PrGuardrail.StepEdges` | backend/app/api/pr_guardrail.py:533-713 | One request moves rows only along Open/Reopened to Accepted Risk to Reopened, and only where the decided PR finding matches. |
| `PrGuardrail.RunEdges` | backend/app/api/pr_guardrail.py:533-713 | Over every run: no row appears or disappears, states reach only Accepted Risk or Reopened and only from an open or accepted one, unmatched rows never change; which states are frozen is `ClosedIsFrozen`. |
| `PrGuardrail.ClosedIsFrozen` | backend/app/api/pr_guardrail.py:533-713 | A Mitigated, False Positive or Won't Fix row is unchanged by every run. |
| `PrGuardrail.ElsewhereIsFrozen` | backend/app/api/pr_guardrail.py:533-713 | So is a row that differs from every PR finding's place in target, branch, tool, rule, path or line. |
| `PrGuardrail.DecisionTakesEffect` | backend/app/api/pr_guardrail.py:533-713 | Right after an approval no match is open; right after a revocation none is Accepted Risk. |
| `PrGuardrail.NothingLeftBehind` | backend/app/api/pr_guardrail.py:533-713 | Right after an approval no row equal in those six columns is Open or Reopened; after a revocation none is Accepted Risk. |
| `PrGuardrail.RunAppendsLogs` | backend/app/core/triage.py:18-36 | Over every run the log is only appended to. |
| `PrGuardrail.LogReplays` | backend/app/core/triage.py:18-36 | Replaying a finding's own log rows from its first state reproduces its last, over every run. |
| `PrGuardrail.CoveredKept` | backend/app/api/pr_guardrail.py:533-671 | Requests, approvals and rejections keep "approved implies not open". |
| `PrGuardrail.RevocationKeepsCovered` | backend/app/api/pr_guardrail.py:569-713 | A revocation keeps it if and only if no other approval shares a row it reopens. |
| `PrGuardrail.ApprovedCanBeOpen` | backend/app/api/pr_guardrail.py:569-713 | A state and a revocation that break it. |
| `IgnoreCommand.SearchFindsCommand` | backend/app/api/webhooks.py:88-90 | Despite backtracking, the captures are the written list and a reason that starts with no comma, for every spacing, capitalisation and surrounding text in which the expression does not already match earlier. |
| `IgnoreCommand.ReasonKept` | backend/app/api/webhooks.py:88-90 | Any one-line reason is captured whole, with its list, unless it and the lines after it read on as list. |
| `IgnoreCommand.ReasonCut` | backend/app/api/webhooks.py:88-90 | If they do, the captured list holds further ids. |
| `IgnoreCommand.QuietText` | backend/app/api/webhooks.py:88-90 | Text before the command starts no match when no `@toleman` in it is followed by whitespace. |
| `IgnoreCommand.SpaceMeans` | backend/app/api/webhooks.py:88-90 | What counts as whitespace between the command's words, code point by code point. |
| `IgnoreCommand.LowerMeans` | backend/app/api/webhooks.py:88-90 | What a letter of the command matches, capitals included. |
| `Webhooks.ListReadsBack` | backend/app/api/webhooks.py:442-448 | Splitting at commas and stripping returns the written numbers. |
| `Webhooks.CommandRoundTrip` | backend/app/api/webhooks.py:426-448 | Every way of writing a command whose reason starts with no comma parses to its ids and reason, whatever lines follow. |
| `Webhooks.CommandComesBack` | backend/app/api/webhooks.py:426-448 | Any command, whatever lines follow it, parses to its ids and one-line reason if and only if the reason is stripped and does not, with those lines, read on as list (comma, spaces, digits, further ids, whitespace, more text). |
| `Webhooks.PrintParse` | backend/app/api/webhooks.py:426-448 | Printing any non-empty id list and any one-line reason without outer spaces or a leading comma, then parsing, returns both. |
| `Webhooks.PrintParseExactly` | backend/app/api/webhooks.py:426-448 | For every non-empty id list and one-line reason printing then parsing returns both if and only if the reason passes that test. |
| `Webhooks.CommaReasonsSurvive` | backend/app/api/webhooks.py:88-90 | `, 7`, `, 7x rest` and `, 7, why` pass it. |
| `Webhooks.LeadingCommaIsAnId` | backend/app/api/webhooks.py:88-90 | A reason of a comma, a number, a space and more text gives its number up to the id list. |
| `Webhooks.TargetForRepo` | backend/app/api/webhooks.py:194-231 | A live target with this URL in the installation's workspace; none exactly when no such row exists. |
| `Webhooks.DedupIds` | backend/app/api/webhooks.py:442-448 | First occurrences, in comment order. |
| `Webhooks.RequestEach` | backend/app/api/webhooks.py:454-475 | Exactly the ids of this target and PR are requested, each once; every other gets a reason; both keep comment order. |
| `Webhooks.SplitIsExact` | backend/app/api/webhooks.py:442-475 | Every listed id is requested or skipped, never both, never twice. |
| `Webhooks.SplitMeans` | backend/app/api/webhooks.py:454-475 | Requested are the listed ids reported by a scan of this target and this pull request; every other id is skipped, as unknown or as belonging elsewhere. |
| `Webhooks.RequestedMeans` | backend/app/api/webhooks.py:454-475 | Each of them is left requested, with who asked and why, and no other PR finding changes. |
| `Webhooks.HandleIssueComment` | backend/app/api/webhooks.py:415-520 | When the handler acts, what it changes and which reply it gives; otherwise nothing changes. |
| `ScanSchedules.Schedules.Apply` | backend/app/api/scan_schedules.py:198-273 | The whole new table; 422 for an interval out of range. |
| `ScanSchedules.EnabledIsPatched` | backend/app/api/scan_schedules.py:198-273 | Of every accepted PUT: a value given is in force afterwards, a null gives the field back to the workspace (on a workspace row, to the shipped default), a field left out stays as stored. |
| `ScanSchedules.IntervalIsPatched` | backend/app/api/scan_schedules.py:198-273 | The same for the interval. |
| `ScanSchedules.ClockIsReset` | backend/app/api/scan_schedules.py:236-270 | The next run is moved exactly for a new row, a changed effective interval or a resume at or past it, and then lies at least one effective interval after now. |
| `ScanSchedules.RejectedMeans` | backend/app/api/scan_schedules.py:224-232 | Only an interval outside 1 to 8760 hours is refused, and nothing changes. |
| `ScanSchedules.EffectiveMeans` | backend/app/core/scan_schedules.py:235-365 | A field in force is the row's own, else for an override the workspace's, else the shipped one: full scans on, API scans off, every 24 hours. |
| `ScanSchedules.Schedules.Reset` | backend/app/api/scan_schedules.py:343-373 | 404 or 403 without change, else the override row goes and the target inherits its workspace again. |
| `ScanSchedules.Schedules.ClaimDue` | backend/app/core/scan_schedules.py:444-503 | Won exactly when the stored due time has passed at the pass's own instant; the row moves only then, to the time computed from what the pass had loaded. |
| `ScanSchedules.DispatchMeans` | backend/app/core/scan_schedules.py:390-503 | What is due, and the due time a won claim commits: the one loaded moved on by the interval unless that is past too. |
| `ScanSchedules.PutNeverNewlyDue` | backend/app/api/scan_schedules.py:198-273 | A PUT never makes the addressed schedule newly due; off-to-on leaves its next run ahead. |
| `ScanSchedules.NoRunMakesNewlyDue` | backend/app/api/scan_schedules.py:198-273 | Both guarantees at every point of every run of PUTs, resets and dispatcher claims from an empty table. |
| `ScanSchedules.QuietRunsKeepClock` | backend/app/api/scan_schedules.py:198-273 | If the effective interval never changes and no resume comes at or past the due time, no number of PUTs, on any rows, moves the clock. |
| `ScanSchedules.PutTouchesOneRow` | backend/app/api/scan_schedules.py:198-273 | Every other row and its clock stay as they are. |
| `ScanSchedules.WorkspacePutWakesTarget` | backend/app/api/scan_schedules.py:277-308 | A workspace PUT makes an overriding row due if and only if it inherits `enabled`, the workspace goes on, and its own time has passed. |
| `ScanSchedules.WakingHappens` | backend/app/api/scan_schedules.py:277-308 | A case of it. |
| `ScanSchedules.PanelsMatchDispatcher` | backend/app/api/scan_schedules.py:64-195 | What both panels show is what the dispatcher acts on. |
| `ScanSchedules.LaterPassLoses` | backend/app/core/scan_schedules.py:444-503 | After a win a later pass loses if and only if its instant lies before the due time the winner committed. |
| `ScanSchedules.ExactlyOneClaimWins` | backend/app/core/scan_schedules.py:390-503 | Of any number of passes, each with its own instant and its own stale reading, exactly one wins if and only if all after the first winner run before the due time it committed. |
| `ScanSchedules.OneInstantOneWin` | backend/app/core/scan_schedules.py:390-503 | Passes that share one instant: exactly one wins. |
| `ScanSchedules.TwoInstantsBothWin` | backend/app/core/scan_schedules.py:390-503 | Two passes a microsecond apart that both win. |
| `Reports.BreakdownFacts` | backend/app/api/reports.py:564-579 | One row per (severity, state) met, its count exact, the counts summing to the target's rows. |
| `Reports.OpenAge` | backend/app/api/reports.py:581-615 | One row per severity with an open finding, in the order of their names; its count, buckets, average and oldest age exact. |
| `Reports.AgeIsExact` | backend/app/api/reports.py:581-615 | Of such a row: its four buckets count the open findings first seen less than 8, 8 to 30, 31 to 90 and at least 91 whole days before, and its oldest age is attained and bounds every age. |
| `Reports.SectionsAgreeBecauseHonest` | backend/app/api/reports.py:564-615 | Each open-age count equals the Open count of the other section and the sum of its four buckets. |
| `Reports.LatestRuns` | backend/app/api/reports.py:648-670 | One row per tool ever run, and it is a latest run of that tool; newest first. |
| `Reports.Coverage` | backend/app/api/reports.py:645-694 | Those rows, whole runs with the scanning switch, or exactly one placeholder when no run is eligible. |
| `Reports.CoverageIsAsOf` | backend/app/api/reports.py:645-648 | The runs considered are those at or before the report instant if and only if there is a window or no run lies in the future. |
| `Reports.CoverageCanRunAhead` | backend/app/api/reports.py:645-648 | A run started after the clock was read is covered when there is no window. |
| `Reports.ResolvedCovers` | backend/app/api/reports.py:338-441 | Narrowing the targets by the same filters loses no finding of the Findings-page query. |
| `Reports.BaseRowsMean` | backend/app/api/reports.py:503-540 | In the fields of the form: a stored finding is one of the report's query if and only if its target is live, in scope and as asked, its severity, state, tool and category are among those asked for (none asks for all), it was last seen on or after the first day and first seen by the end of the last. |
| `Reports.ResolvedMean` | backend/app/api/reports.py:338-441 | The targets are exactly the live ones in scope named, grouped, placed and owned as asked, in name order. |
| `Reports.ResolvedRefuses` | backend/app/api/reports.py:338-441 | 404 if and only if a target named is not live and in scope. |
| `Reports.ReportIsPage` | backend/app/api/reports.py:338-441 | So the report is over exactly the stored findings the form asks for on their targets' default branches (`InReport`, which names `AsksForIn` only), in table order. |
| `Reports.AddBreakdown` | backend/app/api/reports.py:573-579 | The cross-target totals grow by exactly this target's counts. |
| `Reports.TotalsConserve` | backend/app/api/reports.py:547-615 | Cross-target totals, printed per-target counts and the filtered default-branch findings are one number. |
| `Reports.BuildPostureReport` | backend/app/api/reports.py:465-715 | 404, or the sections asked for: one part per target in scope, exact over the stored findings the form asks for there (counts per severity and state, ages in days, latest runs); the totals count exactly those findings per severity and state. |
| `Reports.ReportCountsPage` | backend/app/api/reports.py:465-715 | The severity/state counts and the cross-target totals of one report each add up to the number of stored findings the form asks for, on their targets' default branches. |
| `AuditFeed.IsoOrder` | backend/app/api/audit.py:160-259 | Comparing `isoformat` strings compares the times, although a zero fraction is left out. |
| `AuditFeed.IsoInjective` | backend/app/api/audit.py:160-259 | Equal strings if and only if equal times. |
| `AuditFeed.IsoShape` | backend/app/api/audit.py:160-259 | The text is YYYY-MM-DDTHH:MM:SS, with six digits after a dot when there are microseconds. |
| `AuditFeed.SourcesConserve` | backend/app/api/audit.py:152-197 | Every visible log row lies behind exactly one triage entry. |
| `AuditFeed.TriageFeedConserves` | backend/app/api/audit.py:152-197 | Every triage entry stands for one row or one whole batch under its newest timestamp, and the `grouped_count` values sum to the visible rows. |
| `AuditFeed.TriageEntries` | backend/app/api/audit.py:152-197 | Every triage entry shows its newest row's time, actor and reason; an unbatched row is alone, rows sharing a batch id are all together with one line each. |
| `AuditFeed.Partition` | backend/app/api/audit.py:152-158 | The dict holds exactly each batch's rows, keys in order of first occurrence. |
| `AuditFeed.TriageEvents` | backend/app/api/audit.py:152-197 | The loops build exactly those entries, in order. |
| `AuditFeed.FeedScope` | backend/app/api/audit.py:61-85 | Under any filters, a triage or scan row is shown if and only if the filters pass it and, for anyone but an admin, its target lies in one of the caller's workspaces. |
| `AuditFeed.McpScope` | backend/app/api/audit.py:88-108 | And an agent call if and only if the filters pass it and the target or finding it names is in scope, or it names neither and the caller is an admin or made it. |
| `AuditFeed.AuditLog` | backend/app/api/audit.py:111-267 | One clamped page of the sorted merge of the three trails, and the total before paging; what the entries say is `EntriesMean`. |
| `AuditFeed.EntriesMean` | backend/app/api/audit.py:152-259 | Every entry of every feed is a triage entry, a scan or an agent call shown under the filters, with the columns of its rows. |
| `AuditFeed.NamesMean` | backend/app/api/audit.py:61-85 | A title or target name is shown if and only if the caller may see it, and it is the stored one. |
| `AuditPaging.FeedOrder` | backend/app/api/audit.py:259 | The feed of every request is newest first in time: each entry bears the time of a stored row, and later entries earlier times. |
| `AuditPaging.FeedPages` | backend/app/api/audit.py:260-267 | Page after page of one arrangement gives every entry, as often as it was gathered. |
| `AuditPaging.FeedPagesStable` | backend/app/api/audit.py:133-267 | Requests over the same rows, read in any order, show the same pages if and only if rows of one trail at one instant look alike: unbatched rows, the rows inside each batch, whole batches, scans, agent calls. |
| `AuditPaging.DistinctInstantsPageAlike` | backend/app/api/audit.py:133-267 | So they do where no two rows shown of one table share an instant. |
| `AuditPaging.TiedScansMove` | backend/app/api/audit.py:199-223 | Two scans by different tools at one instant: the pages depend on the order the database returns them in. |
| `AuditPaging.BatchesExactly` | backend/app/api/audit.py:152-197 | Batch entries keep their place in every reading order if and only if tied rows of a batch expand alike, tied newest rows name one actor and reason, and tied batches are one entry. |
| `TargetLifecycle.Store.DeactivateTarget` | backend/app/api/targets.py:525-552 | 403 or 404 by workspace role, or the deactivated target, with one audit row exactly on a real transition. |
| `TargetLifecycle.Store.ReactivateTarget` | backend/app/api/targets.py:555-573 | 403 or 404, or the active target, likewise. |
| `TargetLifecycle.Store.DeleteTarget` | backend/app/api/targets.py:576-616 | A higher role; soft delete: findings kept and counted, `deactivated_at` untouched. |
| `TargetLifecycle.AnswerMeans` | backend/app/api/targets.py:525-616 | Unknown or deleted is 404; below developer (to delete, security engineer) in the target's workspace is 403, checked before deletion is. |
| `TargetLifecycle.StepMeans` | backend/app/core/target_lifecycle.py:135-165 | An accepted call writes one timestamp on its own row and one audit row, and neither when the target already is as asked. |
| `TargetLifecycle.RunReplays` | backend/app/api/targets.py:525-616 | After any run, from any database whose trails replay (an empty one does), replaying a target's audit rows from "active" reproduces its state. |
| `TargetLifecycle.ReplayIffTurns` | backend/app/api/targets.py:525-616 | A trail replays if and only if deactivations and reactivations alternate and a deletion, if any, is last. |
| `TargetLifecycle.RunTrail` | backend/app/api/targets.py:525-616 | After any run the trail has that shape and tells deleted, active or not. |
| `TargetLifecycle.RowPerTransition` | backend/app/core/target_lifecycle.py:135-165 | The trail grows exactly when the target changes, and exactly when it changes. |
| `TargetLifecycle.Idempotent` | backend/app/core/target_lifecycle.py:135-165 | A repeated call does nothing the second time. |
| `TargetLifecycle.DeletedForGood` | backend/app/api/targets.py:236-255 | Nothing in any run touches a deleted target or its trail again. |
| `AppRegistration.Registry.ManifestData` | backend/app/api/github_app.py:97-119 | A fresh token is remembered with its scope, or 403 and no change. |
| `AppRegistration.Registry.BeginCallback` | backend/app/api/github_app.py:271-281 | 400 unless the token waits in the dict; otherwise it is consumed, with the scope it was issued for. |
| `AppRegistration.Registry.FinishCallback` | backend/app/api/github_app.py:283-329 | One App in the token's scope, or the scope was taken and nothing is stored. |
| `AppRegistration.Registry.SetupCallback` | backend/app/api/github_app.py:332-380 | Which App an install links to; insert, backfill or leave. |
| `AppRegistration.ConfigForMeans` | backend/app/api/github_app.py:351-358 | The App whose token came back, else the only one there is, else none. |
| `AppRegistration.LinkMeans` | backend/app/api/github_app.py:361-380 | A new installation number is added in the App's workspace when the installer belongs to it; a known one only has a missing link filled in. |
| `AppRegistration.Registry.DeleteAppConfig` | backend/app/api/github_app.py:483-511 | The App goes with every installation that names it. |
| `AppRegistration.StepConsistent` | backend/app/api/github_app.py:45-511 | Every step keeps tokens tracked, scopes unique and links whole. |
| `AppRegistration.RunRegisters` | backend/alembic/versions/f589f48b137b_add_workspace_id_to_github_app_config.py:55-70 | Over every interleaving: one App per token and in its scope, one per workspace and platform, every link names a stored App. |
| `AppRegistration.RunProvenance` | backend/app/api/github_app.py:283-329 | Every stored App was there at the start or came from a callback. |
| `AppRegistration.RaceHasOneWinner` | backend/app/api/github_app.py:312-327 | Of two callbacks racing for a scope the first to commit registers, the other is turned away. |
| `AppRegistration.RemovalFreesScope` | backend/app/api/github_app.py:483-511 | A taken scope admits no second App; removing its App admits one. |
| `AppRegistration.SpentStaysSpent` | backend/app/api/github_app.py:279-281 | A consumed token never works again. |
| `RepoSync.ResolveOrder` | backend/app/core/github_app.py:400-430 | An unlinked installation gets its workspace's App, else the platform's, else the only one; if and only if. |
| `RepoSync.ResolveLinked` | backend/app/core/github_app.py:400-430 | A linked installation gets the App it names, or none. |
| `RepoSync.UnseenIsFirstOffer` | backend/app/api/github_app.py:398-437 | Each imported row is the first offer of its URL. |
| `RepoSync.AddedRows` | backend/app/api/github_app.py:398-437 | Every row added is a repository a resolvable installation in range lists, with that repository's columns and defaults, at a URL no live target had. |
| `RepoSync.Targets.SyncRepos` | backend/app/api/github_app.py:383-463 | All or nothing; the table grows by exactly the unseen offers, which are counted and queued. |
| `RepoSync.SyncMerges` | backend/app/api/github_app.py:398-437 | For any offers: live URLs become the union, distinctness is kept, the rows added are as many as the new URLs, a second run adds nothing. |
| `RepoSync.CandidateUrls` | backend/app/api/github_app.py:413-420 | A URL is offered if and only if an installation in range resolves to an App and lists it. |
| `RepoSync.SyncOutcome` | backend/app/api/github_app.py:383-437 | What `SyncRepos` leaves: a URL is live afterwards if and only if it was before or a resolvable installation in range lists it; each once; a second run creates nothing. |
| `RepoSync.OfferedReturnsOnce` | backend/app/api/github_app.py:401-412 | A soft-deleted repository comes back exactly once, its old row untouched. |
| `Sbom.AggregateOrgComponents` | backend/app/api/sbom.py:96-146 | Every package once, its carriers duplicate-free and exact, ordered by name, then version; the three summary counts. |
| `Sbom.ListedExactly` | backend/app/api/sbom.py:112-146 | A package is listed with a target if and only if that target is visible and has it on its default branch. |
| `Sbom.SummaryMeans` | backend/app/api/sbom.py:96-146 | The targets counted as having an inventory, and the packages counted, are those with a component on a visible target's default branch. |
| `Sbom.PackageIdAllowed` | backend/app/api/sbom.py:467-472 | SPDX identifiers use only the characters of clause 7.2 of SPDX 2.3 and are never the document's. |
| `Sbom.PackageIdsEqual` | backend/app/api/sbom.py:467-472 | Two identifiers coincide if and only if both ids and slugs do: a slug collision alone never suffices. |
| `Sbom.SlugsCollide` | backend/app/api/sbom.py:471 | Two names one slug cannot tell apart. |
| `Sbom.SlugMeans` | backend/app/api/sbom.py:471 | Letters, digits, dot and dash stay, every other character becomes a dash. |
| `Sbom.SpdxWellFormed` | backend/app/api/sbom.py:475-524 | Every exported document: identifiers allowed and distinct, each package described exactly once, under its component's name, version and purl. |
| `Auth.Sessions.RequireUser` | backend/app/api/auth.py:54-68 | The user a cookie stands for, or 401. |
| `Auth.Sessions.Login` | backend/app/api/auth.py:140-184 | A new version and a token accepted from now on, or 401 and no change. |
| `Auth.Sessions.Logout` | backend/app/api/auth.py:187-201 | Needs an accepted cookie; moves the version on. |
| `Auth.Sessions.ChangePassword` | backend/app/api/auth.py:230-264 | 401 or 400 without change, or a new version and a fresh token. |
| `Auth.StepMeans` | backend/app/api/auth.py:140-264 | A login or a password change of eight characters or more moves the version on by one and hands out a token of it for 24 hours; a logout only moves it on; a refusal does neither. |
| `Auth.CurrentUserMeans` | backend/app/api/auth.py:54-68 | A cookie is accepted if and only if its token was issued here, has not expired and carries its user's stored version. |
| `Auth.OneSession` | backend/app/api/auth.py:161-173 | After any run an accepted token is the last one issued to its user, so there is at most one. |
| `Auth.LogoutHolds` | backend/app/api/auth.py:187-201 | Between a logout and the user's next login no token of theirs is accepted. |
| `Auth.SessionLifetime` | backend/app/core/security.py:44-68 | An accepted token is still accepted after a run if and only if it has not expired and nothing revoked it. |

## Left out

- AuditFeed.AuditLog: the date filters arrive parsed.
- AuditPaging.FeedPagesStable: targets, findings and users are looked up by key, so only the three trails are taken in different orders.
- FindingGroups.Enrich: the SLA and fixability columns filled in beside the representative.
- Reports.BuildPostureReport: the SBOM section, the target list and its labels, the order of the totals rows; a section not asked for is emptied here, where the source also skips its queries.
- Reports.OpenAge: the average is exact, where the source rounds it to one decimal.
- Reports.ReportIsPage: an empty `environment` or `owner`, which the export routes reject.
- AppRegistration.Registry.FinishCallback: the stored secrets and owner columns, and the foreign key to a workspace deleted meanwhile.
- AppRegistration.Registry.SetupCallback: the repository sync that ends the handler, which is `RepoSync`.
- Auth.OneSession: accounts may be removed during a run but not added, so an id is never taken over by another account; API tokens are not part of this model.
- Each request reads the clock once, and requests are atomic, except that a registration callback is two steps and a dispatcher pass reads before it claims.
- Database collation: strings compare by code point; ILIKE is an arbitrary relation.
- Enumerations spelt by member name in old rows (`_enum_facet_key`), and Unicode decimal digits other than 0-9 in the ignore command.
- SLA deadlines, notifications, false-positive learning, PR comments and commit statuses, recomputing a PR scan's status.
- Which of several equally ranked representatives the database returns.
- HTTP calls, Celery dispatch, rate limiting, HMAC, password hashing and encryption.
- PDF, CSV and CycloneDX rendering, the frontend, seeding, and the create/read/update/delete modules: easy members only.
