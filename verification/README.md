# prometheus-exporter-github, modelled in Dafny

This project models the part of the GitHub Prometheus exporter that turns GitHub data into gauge values. It then proves what each extraction pass publishes.

- **Gauge sink (`Metrics`).** It models the 22 gauges of the `Metrics` class, plus the two repository review gauges that only `src/metrics.js` declares. Each has its exposed name and label names. The sink is a map from a series (gauge and label map) to its last value. Each `set*` setter is a pure function that overwrites one series.
- **Data source (`GithubRepository`).** The remote API is given as data. A paginated listing is the sequence of pages it delivered and, possibly, the error that ended it. A search is a response or an error. The module covers the three listings, the branch count, the six organisation pull-request queries and the search-backed count.
- **TypeScript extraction (`GithubExtractor`, with shared pieces in `Extraction`).** It models `processRepoPulls`, `processPulls`, `processBranches` and `processOrganisationRepositories`. An awaited step is a `Run`: the setter calls it made, in order, and the error that rejected it, if any. Awaits in sequence are `Then` and `Chain`, so a pass that fails part-way is modelled exactly.
- **JavaScript extraction (`GithubJs`, `GithubJsPulls`).** It models the page-by-page tally of `processOrganisationRepositories` in `src/github.js` as methods with loop invariants, and `processBranches`. It also models the unused `processPulls`. Branch listings started together and awaited with `Promise.all` are `Gather`.
- **Error handler (`ErrorHandler`).** It models the Express error handler's decision: the final status, the `WWW-Authenticate` challenge, the JSON body, the log severity, or passing the request on.
- **Configuration (`Config`).** It models the split of `GITHUB_REPOSITORIES` into `{owner, repository}` records, following JavaScript's `split` and array destructuring. It also models the `MISSING` and `debug` defaults. The environment is a map parameter.

Modelling choices:

- The extractor writes some gauges directly with `this.metrics.xGauge.set(...)`, although those fields are private. Every such write is modelled as a call of the matching setter, which has the same effect on the sink.
- The repository pull-request gauges declare extra label names (`created_at`, `merged_at`). They are keyed by the label map actually supplied, `{owner, repo}`.
- The six organisation counts of `processPulls` are awaited one after another, as the code does: each gauge is set as soon as its count arrives, and the first rejected count stops the rest.
- Response headers are keyed by their lower-case name, as Node's `setHeader` stores them. So `Content-Type` set by the handler replaces a `content-type` set earlier, and `WWW-Authenticate` is the key `www-authenticate`.
- A rejected await inside the `new Promise(async ...)` executors of `src/github.js` leaves the outer promise pending forever. The model reports it as a run that did not complete. The setter calls made before the rejection stay.

## Model

| member | source | states |
|---|---|---|
| Metrics.Set | src/Metrics.ts:143-145 | `gauge.set(labels, value)` overwrites: the series reads the new value whatever it held, and every other series is unchanged |
| Metrics.SetRepoGauge | src/Metrics.ts:143-145 | `github_repo_count` at the supplied labels reads the value afterwards; every other series reads as before |
| Metrics.SetRepoPublicGauge | src/Metrics.ts:147-149 | `github_repo_public_count` at the supplied labels reads the value afterwards; every other series reads as before |
| Metrics.SetRepoPrivateGauge | src/Metrics.ts:151-153 | `github_repo_private_count` at the supplied labels reads the value afterwards; every other series reads as before |
| Metrics.SetRepoStarsGauge | src/Metrics.ts:155-157 | `github_repo_stars_count` at the supplied labels reads the value afterwards; every other series reads as before |
| Metrics.SetRepoForksGauge | src/Metrics.ts:159-161 | `github_repo_forks_count` at the supplied labels reads the value afterwards; every other series reads as before |
| Metrics.SetRepoOpenIssuesGauge | src/Metrics.ts:163-165 | `github_repo_open_issues_count` at the supplied labels reads the value afterwards; every other series reads as before |
| Metrics.SetRepoPullRequestsGauge | src/Metrics.ts:167-169 | `github_repo_pull_requests_count` at the supplied labels reads the value afterwards; every other series reads as before |
| Metrics.SetRepoPullRequestsOpenGauge | src/Metrics.ts:171-173 | `github_repo_pull_requests_open_count` at the supplied labels reads the value afterwards; every other series reads as before |
| Metrics.SetRepoPullRequestsCloseGauge | src/Metrics.ts:175-177 | `github_repo_pull_requests_close_count` at the supplied labels reads the value afterwards; every other series reads as before |
| Metrics.SetPullRequestsGauge | src/Metrics.ts:179-181 | `github_pull_requests_count` at the supplied labels reads the value afterwards; every other series reads as before |
| Metrics.SetPullRequestsOpenGauge | src/Metrics.ts:183-185 | `github_pull_requests_open_count` at the supplied labels reads the value afterwards; every other series reads as before |
| Metrics.SetPullRequestsCloseGauge | src/Metrics.ts:187-189 | `github_pull_requests_close_count` at the supplied labels reads the value afterwards; every other series reads as before |
| Metrics.SetPullRequestsOpenApprovedGauge | src/Metrics.ts:191-193 | `github_pull_requests_open_approved_count` at the supplied labels reads the value afterwards; every other series reads as before |
| Metrics.SetPullRequestsOpenWaitingApprovalGauge | src/Metrics.ts:195-197 | `github_pull_requests_open_waiting_approval_count` at the supplied labels reads the value afterwards; every other series reads as before |
| Metrics.SetPullRequestsMergedGauge | src/Metrics.ts:199-201 | `github_pull_requests_merged_count` at the supplied labels reads the value afterwards; every other series reads as before |
| Metrics.SetRepoBranchesGauge | src/Metrics.ts:203-205 | `github_repo_branch_count` at the supplied labels reads the value afterwards; every other series reads as before |
| Metrics.SetRepoPullRequestsOpenByReviewersGauge | src/Metrics.ts:207-209 | `github_repo_pull_requests_open_by_reviewer_count` at the supplied labels reads the value afterwards; every other series reads as before |
| Metrics.SetRepoPullRequestsCloseByReviewersGauge | src/Metrics.ts:211-213 | `github_repo_pull_requests_close_by_reviewer_count` at the supplied labels reads the value afterwards; every other series reads as before |
| Metrics.SetAuthorPullRequestCloseGauge | src/Metrics.ts:215-217 | `github_user_pull_requests_close_count` at the supplied labels reads the value afterwards; every other series reads as before |
| Metrics.SetAuthorPullRequestOpenGauge | src/Metrics.ts:219-221 | `github_user_pull_requests_open_count` at the supplied labels reads the value afterwards; every other series reads as before |
| Metrics.SetAuthorPullRequestGauge | src/Metrics.ts:223-225 | `github_user_pull_requests_count` at the supplied labels reads the value afterwards; every other series reads as before |
| Metrics.SetPullRequestsCommentsGauge | src/Metrics.ts:227-229 | `github_comments_on_pull_requests_count` at the supplied labels reads the value afterwards; every other series reads as before |
| Metrics.Apply | src/Metrics.ts:143-229 | a setter call through the gauge's own setter overwrites exactly its series and leaves the rest of the sink alone |
| Metrics.Publish | src/Metrics.ts:143-229 | no contract; characterised by `Metrics.PublishRead`: the sink after a sequence of setter calls made in turn |
| Metrics.SetLastWriteWins | src/Metrics.ts:143-145 | a second set of the same series discards the first value: overwrite, not increment |
| Metrics.SetIdempotent | src/Metrics.ts:143-229 | setting the same value twice is the same as setting it once |
| Metrics.SetIndependent | src/Metrics.ts:155-169 | sets of distinct series, including one gauge under two repositories' labels, commute and do not disturb each other |
| Metrics.PublishRead | src/Metrics.ts:143-229 | after a sequence of setter calls a series reads the last value written to it, or its old value exactly when no call touched it |
| Metrics.PublishDisjointCommute | src/Metrics.ts:143-229 | two batches of setter calls on disjoint series may be published in either order |
| Metrics.GaugeNamedInvertsName | src/Metrics.ts:28-139 | every gauge is recovered from its exposed metric name |
| Metrics.GaugeNamesDistinct | src/Metrics.ts:28-139 | no two gauges share a metric name, so no two setters alias one time series |
| Metrics.GaugeScopes | src/Metrics.ts:28-108 | a gauge is organisation-level exactly when its only label is `owner`; repository-level gauges are labelled `owner`, `repo` first |
| GithubRepository.Concatenated | src/GithubRepository.ts:47-51 | the accumulator `repositories.concat(page)` ends as all pages' items in page order |
| GithubRepository.PageLengthTotal | src/GithubRepository.ts:27-36 | the accumulator `branchCount += page.length` ends as the number of items of the flattened pages |
| GithubRepository.Drain | src/GithubRepository.ts:20-23 | a drained listing succeeds exactly when no page failed, with the flattened pages; otherwise it carries the error that ended it |
| GithubRepository.GetPullsForRepository | src/GithubRepository.ts:10-24 | all pull requests of the repository in page order, or the listing's error |
| GithubRepository.GetCountOfBranchesInRepository | src/GithubRepository.ts:26-38 | the number of branches over all pages, or the listing's error |
| GithubRepository.GetRepositoryListForOrg | src/GithubRepository.ts:40-54 | all repositories of the organisation in page order, or the listing's error |
| GithubRepository.ListingRequestShapes | src/GithubRepository.ts:12-45 | every listing asks for pages of 100 sorted by `updated`, for the repository's owner and name; pull requests in state `all` |
| GithubRepository.NoPagesNoItems | src/GithubRepository.ts:10-54 | with no pages the lists are empty and the branch count is 0 |
| GithubRepository.QueryString | src/GithubRepository.ts:56-78 | every count query starts with `org:<organisation> is:pr` and continues with its own qualifier |
| GithubRepository.QueryStringsDistinct | src/GithubRepository.ts:56-78 | the six count queries are pairwise different for every organisation |
| GithubRepository.GetCountOfIssueAndPullRequest | src/GithubRepository.ts:80-87 | one search with page size 1; it succeeds exactly when the search does, with the reported `total_count`, and otherwise carries the search's error |
| GithubRepository.CountPullRequests | src/GithubRepository.ts:56-87 | each count is the `total_count` of the search for its query string |
| Extraction.ThenCompleted | src/GithubExtractor.ts:80-102 | two awaited steps complete only if both do, and then set the first step's gauges before the second's |
| Extraction.ChainCompleted | src/GithubExtractor.ts:82-104 | steps awaited in turn complete exactly when every step completes |
| Extraction.ChainAround | src/GithubExtractor.ts:82-104 | around the first failing step the calls are: those of earlier steps, those of the failing step, nothing after; the error is that step's |
| Extraction.ChainPublishes | src/GithubExtractor.ts:82-104 | a setter call survives the whole sequence when earlier steps completed and nothing later writes its series |
| Extraction.RepoLabelsIdentify | src/GithubExtractor.ts:88-99 | two repositories share their gauges exactly when they share owner login and name |
| Extraction.Classify | src/GithubExtractor.ts:19-26 | the two-way tally of a loop adds up to the length of the list |
| Extraction.ClassifyCountsFilter | src/GithubExtractor.ts:19-26 | the tally counts exactly the items passing the test and exactly those failing it |
| Extraction.FilterMembers | src/GithubExtractor.ts:19-26 | an item is counted on a side exactly when it is in the list and on that side of the test |
| Extraction.FieldWrites | src/GithubExtractor.ts:88-99 | three setter calls, in the order stars, forks, open issues, each to the repository's own count under its `{owner, repo}` labels |
| Extraction.TotalWrites | src/GithubExtractor.ts:106-117 | no contract; characterised by `Extraction.TotalWritesLabels` and `Extraction.TotalsRead`: the three organisation totals |
| Extraction.Totals | src/GithubExtractor.ts:106-117 | no contract; characterised by `Extraction.TotalsRead`: the totals with the private and public tallies of the walked repositories |
| Extraction.TotalWritesLabels | src/GithubExtractor.ts:106-117 | the totals are organisation-level gauges labelled `{owner: organisation}` |
| Extraction.TotalsRead | src/GithubExtractor.ts:106-117 | whatever was set before, after the totals the three organisation gauges read the count, the private tally and the public tally |
| Extraction.RepoLabelsDeclared | src/GithubExtractor.ts:88-99 | each repository-level gauge declares the `owner` and `repo` labels it is given |
| Extraction.OrgLabelsDeclared | src/GithubExtractor.ts:106-117 | each organisation-level gauge declares the `owner` label it is given |
| GithubExtractor.RepoPullWrites | src/GithubExtractor.ts:19-38 | close, open and total gauges: the number of pulls not in state `open`, the number in state `open`, the number of pulls |
| GithubExtractor.ProcessRepoPulls | src/GithubExtractor.ts:15-39 | completes exactly when the pulls were fetched, then sets close, open and total from the fetched list; on a failed fetch it sets nothing |
| GithubExtractor.PullCountsPartition | src/GithubExtractor.ts:19-26 | open plus closed is the number of pulls; a pull is open exactly when its state is `"open"` and closed otherwise |
| GithubExtractor.RepoPullsScenario | src/GithubExtractor.ts:15-39 | pulls `[close, close, open]` give close 2, open 1, total 3 |
| GithubExtractor.RepoPullsEmpty | src/GithubExtractor.ts:16-38 | with no pull requests all three gauges are still set, each to 0 |
| GithubExtractor.PullQueryGauge | src/GithubExtractor.ts:41-65 | each count feeds an organisation-level gauge that is not a repository total |
| GithubExtractor.PublishCounts | src/GithubExtractor.ts:41-66 | counts awaited in turn: all gauges set on completion; otherwise the calls stop exactly at the first rejected count, with its error |
| GithubExtractor.PublishCountsWrite | src/GithubExtractor.ts:41-66 | gauge i is set only after count i resolved, and to that count |
| GithubExtractor.ProcessPulls | src/GithubExtractor.ts:41-66 | the six organisation pull-request gauges in order total, open, close, merged, approved, waiting, each to its count; a rejection stops the rest |
| GithubExtractor.ProcessPullsLabels | src/GithubExtractor.ts:41-66 | every gauge set is organisation-level and labelled `{owner: organisation}` |
| GithubExtractor.ProcessPullsPublishes | src/GithubExtractor.ts:41-66 | after a completed pass each of the six gauges reads its own count |
| GithubExtractor.ProcessPullsScenario | src/GithubExtractor.ts:41-66 | counts 1..6 are set to total, open, close, merged, approved and waiting, in that order |
| GithubExtractor.ProcessBranches | src/GithubExtractor.ts:68-73 | completes exactly when the branches were counted, then sets the branch gauge to the count; otherwise sets nothing |
| GithubExtractor.RepoStep | src/GithubExtractor.ts:88-102 | a repository step first sets stars, forks and open issues; it completes exactly when the pulls and the branches were fetched |
| GithubExtractor.RepoStepLabels | src/GithubExtractor.ts:88-102 | every gauge of a step is repository-level under that repository's labels; after the first three, only pull-request and branch gauges |
| GithubExtractor.Sweep | src/GithubExtractor.ts:82-104 | the repository loop completes exactly when every repository's step completes |
| GithubExtractor.SweepWriteOwner | src/GithubExtractor.ts:82-104 | every gauge the loop sets is a repository-level gauge of one of the listed repositories |
| GithubExtractor.SweepAppend | src/GithubExtractor.ts:82-104 | walking a concatenation walks the first part, then the second only if the first completed |
| GithubExtractor.SweepAbortsAtFirstFailure | src/GithubExtractor.ts:82-104 | if repository k is the first whose fetch fails, every gauge of earlier repositories stays set, plus k's stars, forks and open issues, and the loop stops with k's error |
| GithubExtractor.SweepPublishesFields | src/GithubExtractor.ts:88-99 | with distinct owner/name keys, each reached repository's stars, forks and open issues read its own values |
| GithubExtractor.SweepAndTotals | src/GithubExtractor.ts:82-117 | the totals follow the loop only if it completed; otherwise the run is the loop's |
| GithubExtractor.OrganisationPass | src/GithubExtractor.ts:75-118 | the pass starts with the calls of `processPulls` and completes exactly when the counts, the listing and the loop all completed |
| GithubExtractor.CompletedPassWrites | src/GithubExtractor.ts:75-118 | a completed pass sets the six counts, then every repository's gauges in list order, then the three totals |
| GithubExtractor.AbortedPassWrites | src/GithubExtractor.ts:75-118 | an incomplete pass stopped within `processPulls`, at the listing, or inside the loop |
| GithubExtractor.SweepSetsNoTotals | src/GithubExtractor.ts:82-104 | the repository loop never sets an organisation total |
| GithubExtractor.AbortedPassSetsNoTotals | src/GithubExtractor.ts:75-118 | a pass that fails anywhere sets none of the three organisation totals |
| GithubExtractor.ProcessOrganisationRepositories | src/GithubExtractor.ts:75-118 | no contract; characterised by `GithubExtractor.AsWrittenPublishesZeroRepositories`: the pass as written, whose repository count stays 0 |
| GithubExtractor.ProcessOrganisationRepositoriesCorrected | src/GithubExtractor.ts:75-118 | no contract; characterised by `GithubExtractor.CorrectedTotalsPublished`: the pass with the repository count incremented per repository |
| GithubExtractor.CorrectedTotalsPublished | src/GithubExtractor.ts:75-118 | corrected pass: after completion the totals read the number of listed repositories, the private count and the public count, which add up to it |
| GithubExtractor.AsWrittenPublishesZeroRepositories | src/GithubExtractor.ts:105-109 | as written, a completed pass publishes `github_repo_count` as 0 whatever the organisation holds |
| GithubExtractor.ScenarioTallies | src/GithubExtractor.ts:82-87 | the three test repositories (private, public, private) tally 2 private and 1 public |
| GithubExtractor.RepositoryCountScenario | src/GithubExtractor.ts:75-118 | the test organisation: corrected gives count 3, private 2, public 1; as written the count reads 0 |
| GithubJs.Gather | src/github.js:50 | no contract; characterised by `GithubJs.GatherCompleted`, `GithubJs.GatherWriteOwner` and `GithubJs.GatherIsChainWhenCompleted`: `Promise.all` over runs started together |
| GithubJs.GatherCompleted | src/github.js:50 | `Promise.all` over the branch listings resolves exactly when each listing does |
| GithubJs.GatherWriteOwner | src/github.js:34-50 | every setter call of the group comes from one of its listings, failed ones included |
| GithubJs.GatherIsChainWhenCompleted | src/github.js:34-50 | when every listing succeeds, the started-together group sets the same gauges in the same order as awaiting them in turn |
| GithubJs.ProcessBranchesJs | src/github.js:99-112 | the loop adds up the branch page lengths; the branch gauge is set to the flattened page count exactly when the listing did not fail |
| GithubJs.FieldWritesAll | src/github.js:20-31 | three setter calls per repository seen |
| GithubJs.FieldWritesAllAt | src/github.js:20-31 | setter call 3j + f is field f (stars, forks, open issues) of repository j |
| GithubJs.FieldWritesAllPublishes | src/github.js:20-31 | with distinct owner/name keys, each repository's stars, forks and open issues read its own values |
| GithubJs.BranchWriteOwner | src/github.js:34 | each setter call of the branch group is the branch gauge of one listed repository |
| GithubJs.SeenStepTally | src/github.js:15-19 | one more repository adds one to the number of private repositories seen if it is private and to the number of public ones otherwise, leaving the other alone |
| GithubJs.TallyRepository | src/github.js:14-34 | one repository: counted on exactly one side, its three field gauges set, its branch listing started |
| GithubJs.TallyPage | src/github.js:13-35 | the inner loop keeps private + public = repositories seen, with each counter the number of private (public) repositories seen, the field calls and the started listings for every repository of the page |
| GithubJs.OrganisationPassJs | src/github.js:4-53 | no contract; characterised by `GithubJs.ProcessOrganisationRepositoriesJs`, `GithubJs.PassJsWrites` and `GithubJs.JsTotalsPublished`: the pass as a run |
| GithubJs.ProcessOrganisationRepositoriesJs | src/github.js:4-53 | `repository_count` is the number of repositories over all pages, the private and public tallies count each side and add up to it, and the run is the pass |
| GithubJs.JsTotalsPublished | src/github.js:37-49 | once every page arrived the totals read the repository count and its private and public parts, whether or not branch listings fail |
| GithubJs.PassJsWrites | src/github.js:4-53 | the pass sets the field gauges, then the totals unless a page failed, then the branch gauges |
| GithubJs.JsFieldsPublished | src/github.js:20-31 | with distinct owner/name keys, every listed repository's fields read its own values, even when a page or a listing fails |
| GithubJs.JsPageFailureSetsNoTotals | src/github.js:11-49 | if a page of the repository listing fails, the pass does not resolve and sets no total |
| GithubJs.JsAgreesWithExtractorOnTotals | src/github.js:37-49 | once both passes have published their totals, the JavaScript pass and the corrected TypeScript pass agree on all three |
| GithubJsPulls.RepoQueryString | src/github.js:61-81 | no contract; characterised by `GithubJsPulls.RepoQueryStringsDistinct`: the four search queries of a repository |
| GithubJsPulls.RepoQueryStringsDistinct | src/github.js:61-81 | the four searches of a repository send four different queries, each starting with `repo:` |
| GithubJsPulls.RepoQueryGauge | src/github.js:61-86 | each search sets a distinct repository-level gauge other than the total |
| GithubJsPulls.RepoQueryGaugeInjective | src/github.js:61-86 | two searches set the same gauge exactly when they are the same search |
| GithubJsPulls.SearchRun | src/github.js:61-86 | a search's callback sets at most one call, to its own gauge under the repository's labels, exactly when the search answers |
| GithubJsPulls.Searches | src/github.js:60-87 | no contract; characterised by `GithubJsPulls.SearchesGathered` and `GithubJsPulls.SearchesComplete`: the four searches started together |
| GithubJsPulls.SearchesGathered | src/github.js:60-89 | the four searches behave as the group of their runs in start order |
| GithubJsPulls.SearchesComplete | src/github.js:60-89 | the searches resolve together exactly when each answers |
| GithubJsPulls.SearchWritesAvoid | src/github.js:61-86 | the searches set only their own four series |
| GithubJsPulls.SearchGaugeRead | src/github.js:61-86 | after the searches the gauge of a search that answered reads its count |
| GithubJsPulls.ProcessPullsJs | src/github.js:55-97 | no contract; characterised by `GithubJsPulls.AsWrittenTotalIsZero` and `GithubJsPulls.AsWrittenSearchGauges`: the pass as written |
| GithubJsPulls.ProcessPullsJsCorrected | src/github.js:55-97 | no contract; characterised by `GithubJsPulls.CorrectedPullsCompletes`, `GithubJsPulls.CorrectedPullTotal` and `GithubJsPulls.CorrectedFailureKeepsTotal`: the pass awaiting its searches |
| GithubJsPulls.AsWrittenTotalIsZero | src/github.js:57-94 | as written, the pass always resolves and the total reads 0 whatever the searches report |
| GithubJsPulls.AsWrittenSearchGauges | src/github.js:61-86 | as written, each search that answers still sets its own gauge |
| GithubJsPulls.CorrectedPullsCompletes | src/github.js:89-94 | awaiting the searches, the pass resolves exactly when all four answer, setting the search gauges then the total |
| GithubJsPulls.CorrectedPullTotal | src/github.js:58-94 | awaiting the searches, the total reads the open count plus the closed count |
| GithubJsPulls.CorrectedSearchGauges | src/github.js:61-86 | awaiting the searches, every search gauge reads its count after the total is set |
| GithubJsPulls.CorrectedFailureKeepsTotal | src/github.js:89-94 | awaiting the searches, a failing search leaves the total as it was |
| GithubJsPulls.PullTotalScenario | src/github.js:55-97 | open 2 and closed 3: as written the total reads 0, awaiting the searches it reads 5 |
| ErrorHandler.FinalStatus | src/ErrorHandler.ts:25-30 | the final status is at least 400; a numeric error status of at least 400 is kept; without an error status a prior status of at least 400 is kept |
| ErrorHandler.Challenge | src/ErrorHandler.ts:36 | the challenge is the type, ` realm="`, the env, `", charset="`, the charset and a closing quote, in that order |
| ErrorHandler.Handle | src/ErrorHandler.ts:15-60 | the handler passes the request on, untouched, exactly when there is no error |
| ErrorHandler.AnsweredStatus | src/ErrorHandler.ts:25-30 | an answered request ends with a status of at least 400: the error's own, the prior one, or 500 |
| ErrorHandler.StatusForced | src/ErrorHandler.ts:25-30 | the status is 500 exactly when the supplied status is missing, not a number, below 400, or 500 itself |
| ErrorHandler.ChallengeIff | src/ErrorHandler.ts:32-39 | the `www-authenticate` header is set exactly for a 401 with type, env and charset present, and then carries them |
| ErrorHandler.AnsweredBody | src/ErrorHandler.ts:32-57 | the body is `{error: 'server_error'}` as `application/json`, replacing any earlier content type; every other header keeps its value, and header names stay lower-case |
| ErrorHandler.LogSeverity | src/ErrorHandler.ts:20-54 | logged as an error exactly when the status is 500 or more, otherwise at info with the error's message; the log's context carries the status, the error's message and the request |
| ErrorHandler.HandlerScenarios | src/ErrorHandler.ts:15-60 | a 404 is kept and logged at info; a status that is not a number becomes 500, logged as an error that carries the error's message |
| ErrorHandler.ContentTypeReplaced | src/ErrorHandler.ts:56-57 | a response already typed `text/html` ends with the single content type `application/json` |
| ErrorHandler.LogKeepsMessage | src/ErrorHandler.ts:20-54 | two failures at one status with different messages log different lines |
| ErrorHandler.ChallengeScenario | src/ErrorHandler.ts:32-39 | a 401 with realm Bearer/prod/UTF-8 is challenged with `Bearer realm="prod", charset="UTF-8"` |
| Config.Split | src/config.js:1-4 | `split` with a one-character separator always yields at least one piece |
| Config.SplitJoin | src/config.js:1-4 | joining the pieces with the separator gives back the split string |
| Config.SplitPieces | src/config.js:1-4 | no piece contains the separator, and there is one piece more than separators |
| Config.JoinSplit | src/config.js:1-4 | splitting separator-free pieces joined with the separator gives the pieces back |
| Config.ParseEntry | src/config.js:4 | neither owner nor repository contains `/` |
| Config.ParseRepositories | src/config.js:1-6 | one record per comma-separated piece, empty pieces included |
| Config.ParseEntryFields | src/config.js:4 | the owner is the text before the first `/` (or all of it); the repository is present exactly when there is a `/`, and runs to the next `/` or the end |
| Config.ParseEntryRoundTrip | src/config.js:4 | for an entry with exactly one `/`, `owner + "/" + repository` is the entry |
| Config.RepositoriesRoundTrip | src/config.js:1-6 | when every piece has exactly one `/`, writing the records back comma-separated gives the variable's value |
| Config.EmptyValueOneEntry | src/config.js:1 | an empty value yields exactly one record, with an empty owner and no repository |
| Config.EnvOr | src/config.js:11 | the result is the fallback or the variable's value; it is non-empty exactly when the fallback or the variable is; a set, non-empty variable wins |
| Config.LoadSettings | src/config.js:1-16 | loading fails exactly when `GITHUB_REPOSITORIES` is unset; otherwise the records are those of its value |
| Config.Defaults | src/config.js:11-14 | an unset or empty token becomes `MISSING` and an unset or empty log level `debug`; other values are kept |
| Config.ParseEntryScenario | src/config.js:4 | `a/b/c` gives owner `a` and repository `b` |
| Config.ParseScenario | src/config.js:1-6 | `a/b,c` gives `{a, b}` and `{c, undefined}` |

## Left out

- Rate limiting and retry: they live in the Octokit throttling and retry plugins, which the client factory installs. The client factory (`src/GithubClientFactory.ts`) is not part of this model.
- Pagination internals: `paginate.iterator` is a library call. Its outcome is taken as given data: the pages in order, and the error that ended the iteration, if any.
- The scheduler (`src/Application.ts`), the HTTP listener, the `/metrics` route and shutdown (`src/ExpressServer.ts`, `src/index.ts`, `src/index.js`): timers, sockets and signals.
- Logging (`src/Logger.ts`, `src/logger.js`): the `Processing N repositories` debug line of both extractions is not modelled. The error handler's log call is modelled as the value it hands the logger: severity, message, status, the error's message and the request. The error's stack trace is not modelled.
- Dependency wiring (`src/Injector.ts`) and the TypeScript configuration (`src/Config.ts`): wiring and environment defaults only.
- The team, comment, author and reviewer gauges: they are declared with their names, labels and setters, but no modelled code sets them.
- prom-client internals: the text exposition format, label validation and concurrency.
- `src/metrics.js`: its gauges are modelled by the same constructors as the `Metrics` class, whose names they share. Its label names are not modelled separately.
- ErrorHandler.FinalStatus: `Number(err.status)` is given as the integer it converts to, or as not a number. Fractional and infinite statuses are not modelled.
- GithubJsPulls.SearchesGathered: the order in which the search callbacks run is fixed to start order. The four searches set distinct series, so the published sink does not depend on it.
- GithubJs.PassJsWrites: the branch gauges are ordered after the organisation totals. In the source a branch callback may run between two page fetches. Branch gauges and totals are distinct series, so the published sink is the same.
- GithubJs.ProcessOrganisationRepositoriesJs: a rejected await leaves the source's promise pending forever, and the rejection goes unhandled. The model reports a run that did not complete. It does not model that the caller waits forever.
- GithubJsPulls.RepoQueryString: the stray space in `repo: <name> is:pr is:closed` and the missing `is:pr` of the open search are kept as written. Their effect on GitHub's search results is part of the given search data.

## Findings

| source | as written | input that shows it | evidently intended | confidence | as-written member | corrected member |
|---|---|---|---|---|---|---|
| src/GithubExtractor.ts:76 | `repositoryCount` is declared 0 and never incremented, so `github_repo_count` is always set to 0 (lines 105-109) | an organisation with three repositories: the repository count reads 0 | the number of listed repositories, as in `src/github.js:12` and as the unit test expects (3) | high, not executed | GithubExtractor.AsWrittenPublishesZeroRepositories | GithubExtractor.CorrectedTotalsPublished |
| src/github.js:60-89 | the four search promises are pushed as one array element, so `Promise.all` waits for nothing and `pull_count` is published while still 0 | a repository with open count 2 and closed count 3: the total reads 0 | await the four searches, then set the total to open plus closed (5) | high, not executed | GithubJsPulls.AsWrittenTotalIsZero | GithubJsPulls.CorrectedPullTotal |
