/**
  The extraction orchestrator (src/GithubExtractor.ts): walks the organisation's
  repositories and publishes per-repository and organisation gauges.

  Every awaited call becomes a call on the remote data (`Api`); the direct
  `gauge.set` calls on the Metrics fields are modelled as calls of the matching
  setters, which have the same effect on the sink. A step is a `Run`: the setter
  calls it made and, if an awaited call rejected, the error that ended it.
*/
module GithubExtractor {
  import opened Wrappers
  import opened Metrics
  import opened GithubRepository
  import opened Extraction

  /** The three gauges `processRepoPulls` sets once the pull requests are fetched. */
  function RepoPullWrites(repo: Repo, pulls: seq<Pull>): (ws: seq<Write>)
    ensures ws == [
      Write(RepoPullRequestsClose, RepoLabels(repo), |Filter(pulls, IsClosed)|),
      Write(RepoPullRequestsOpen, RepoLabels(repo), |Filter(pulls, IsOpen)|),
      Write(RepoPullRequests, RepoLabels(repo), |pulls|)]
  {
    var t := Classify(pulls, IsOpen);
    ClassifyCountsFilter(pulls, IsOpen, IsClosed);
    var l := RepoLabels(repo);
    [Write(RepoPullRequestsClose, l, t.no), Write(RepoPullRequestsOpen, l, t.yes), Write(RepoPullRequests, l, t.no + t.yes)]
  }

  /** `processRepoPulls`: the closed, open and total pull request gauges of one repository. */
  function ProcessRepoPulls(api: Api, repo: Repo): (r: Run)
    ensures var fetched := GetPullsForRepository(api, repo);
      && (r.Completed() <==> fetched.Success?)
      && (fetched.Failure? ==> r == Abort(fetched.error))
      && (fetched.Success? ==> r.writes == [
            Write(RepoPullRequestsClose, RepoLabels(repo), |Filter(fetched.value, IsClosed)|),
            Write(RepoPullRequestsOpen, RepoLabels(repo), |Filter(fetched.value, IsOpen)|),
            Write(RepoPullRequests, RepoLabels(repo), |fetched.value|)])
  {
    match GetPullsForRepository(api, repo)
    case Failure(e) => Abort(e)
    case Success(pulls) => Emit(RepoPullWrites(repo, pulls))
  }

  /** Open and closed pull requests partition the list: every pull request is
      counted once, as open exactly when its state is "open". */
  lemma {:induction false} PullCountsPartition(pulls: seq<Pull>, p: Pull)
    ensures |Filter(pulls, IsOpen)| + |Filter(pulls, IsClosed)| == |pulls|
    ensures p in Filter(pulls, IsOpen) <==> p in pulls && p.state == "open"
    ensures p in Filter(pulls, IsClosed) <==> p in pulls && p.state != "open"
  {
    ClassifyCountsFilter(pulls, IsOpen, IsClosed);
    FilterMembers(pulls, IsOpen, p);
    FilterMembers(pulls, IsClosed, p);
  }

  /** The unit test's pull requests `[close, close, open]` give close 2, open 1, total 3. */
  lemma RepoPullsScenario(repo: Repo)
    ensures RepoPullWrites(repo, [Pull("close"), Pull("close"), Pull("open")]) == [
      Write(RepoPullRequestsClose, RepoLabels(repo), 2),
      Write(RepoPullRequestsOpen, RepoLabels(repo), 1),
      Write(RepoPullRequests, RepoLabels(repo), 3)]
  {
    var pulls := [Pull("close"), Pull("close"), Pull("open")];
    assert pulls[1..][1..][1..] == [];
    assert Filter(pulls, IsOpen) == [Pull("open")];
    assert Filter(pulls, IsClosed) == [Pull("close"), Pull("close")];
  }

  /** A repository without pull requests still gets all three gauges, each set to 0. */
  lemma RepoPullsEmpty(repo: Repo)
    ensures RepoPullWrites(repo, []) == [
      Write(RepoPullRequestsClose, RepoLabels(repo), 0),
      Write(RepoPullRequestsOpen, RepoLabels(repo), 0),
      Write(RepoPullRequests, RepoLabels(repo), 0)]
  {
  }

  /** The organisation gauge each count query feeds. */
  function PullQueryGauge(k: PullQuery): (g: Gauge)
    ensures OrganisationLevel(g) && !RepoTotalGauge(g)
  {
    match k
    case AllPulls => PullRequests
    case OpenPulls => PullRequestsOpen
    case ClosedPulls => PullRequestsClose
    case MergedPulls => PullRequestsMerged
    case OpenApprovedPulls => PullRequestsOpenApproved
    case OpenUnreviewedPulls => PullRequestsOpenWaitingApproval
  }

  /** The order in which `processPulls` awaits the six counts. */
  const PullQueryOrder: seq<PullQuery> :=
    [AllPulls, OpenPulls, ClosedPulls, MergedPulls, OpenApprovedPulls, OpenUnreviewedPulls]

  /** The position of each count in `PullQueryOrder`. */
  function QueryIndex(k: PullQuery): nat {
    match k
    case AllPulls => 0
    case OpenPulls => 1
    case ClosedPulls => 2
    case MergedPulls => 3
    case OpenApprovedPulls => 4
    case OpenUnreviewedPulls => 5
  }

  lemma QueryIndexInverts(k: PullQuery)
    ensures QueryIndex(k) < 6 && PullQueryOrder[QueryIndex(k)] == k
  {
  }

  lemma QueryIndexOfOrder(j: nat)
    requires j < 6
    ensures QueryIndex(PullQueryOrder[j]) == j
  {
  }

  /** One `gauge.set({ owner: organisation }, await count)` after another: each
      count is awaited and published before the next is requested. */
  function PublishCounts(api: Api, org: string, ks: seq<PullQuery>): (r: Run)
    ensures |r.writes| <= |ks|
    ensures r.Completed() ==> |r.writes| == |ks|
    ensures !r.Completed() ==> |r.writes| < |ks| && CountPullRequests(api, org, ks[|r.writes|]) == Failure(r.error.value)
    decreases |ks|
  {
    if |ks| == 0 then Emit([])
    else
      match CountPullRequests(api, org, ks[0])
      case Failure(e) => Abort(e)
      case Success(n) => Then(Emit([Write(PullQueryGauge(ks[0]), OrgLabels(org), n)]), PublishCounts(api, org, ks[1..]))
  }

  /** Gauge i is set only after count i resolved, and it is set to that count. */
  lemma {:induction false} PublishCountsWrite(api: Api, org: string, ks: seq<PullQuery>, i: nat)
    requires i < |PublishCounts(api, org, ks).writes|
    ensures CountPullRequests(api, org, ks[i]).Success?
    ensures PublishCounts(api, org, ks).writes[i] == Write(PullQueryGauge(ks[i]), OrgLabels(org), CountPullRequests(api, org, ks[i]).value)
    decreases |ks|
  {
    if i > 0 {
      PublishCountsWrite(api, org, ks[1..], i - 1);
    }
  }

  /** `processPulls`: the six organisation pull request gauges, in order; if a
      count rejects, the gauges before it are set and the rest are not. */
  function ProcessPulls(api: Api, org: string): (r: Run)
    ensures |r.writes| <= 6
    ensures r.Completed() ==> |r.writes| == 6
    ensures forall i :: 0 <= i < |r.writes| ==>
      && CountPullRequests(api, org, PullQueryOrder[i]).Success?
      && r.writes[i] == Write(PullQueryGauge(PullQueryOrder[i]), OrgLabels(org), CountPullRequests(api, org, PullQueryOrder[i]).value)
    ensures !r.Completed() ==> |r.writes| < 6 && CountPullRequests(api, org, PullQueryOrder[|r.writes|]) == Failure(r.error.value)
  {
    var r := PublishCounts(api, org, PullQueryOrder);
    forall i | 0 <= i < |r.writes|
      ensures CountPullRequests(api, org, PullQueryOrder[i]).Success?
      ensures r.writes[i] == Write(PullQueryGauge(PullQueryOrder[i]), OrgLabels(org), CountPullRequests(api, org, PullQueryOrder[i]).value)
    {
      PublishCountsWrite(api, org, PullQueryOrder, i);
    }
    r
  }

  /** Every gauge `processPulls` sets is an organisation-level gauge labelled with the organisation. */
  lemma ProcessPullsLabels(api: Api, org: string, i: nat)
    requires i < |ProcessPulls(api, org).writes|
    ensures OrganisationLevel(ProcessPulls(api, org).writes[i].gauge)
    ensures ProcessPulls(api, org).writes[i].labels == OrgLabels(org)
  {
  }

  /** Each of the six counts lands on its own gauge: after a completed
      `processPulls` every organisation pull request gauge reads its count. */
  lemma ProcessPullsPublishes(s: Sink, api: Api, org: string, k: PullQuery)
    requires ProcessPulls(api, org).Completed()
    ensures CountPullRequests(api, org, k).Success?
    ensures Read(Publish(s, ProcessPulls(api, org).writes), Series(PullQueryGauge(k), OrgLabels(org)))
         == Some(CountPullRequests(api, org, k).value)
  {
    var ws := ProcessPulls(api, org).writes;
    var x := Series(PullQueryGauge(k), OrgLabels(org));
    QueryIndexInverts(k);
    var i := QueryIndex(k);
    forall j | i < j < |ws|
      ensures ws[j].Target() != x
    {
      QueryIndexInverts(PullQueryOrder[j]);
      QueryIndexOfOrder(j);
    }
    LastWriteSole(ws, i, x);
    PublishRead(s, ws, x);
  }

  /** The unit test's counts 1..6 are published to total, open, close, merged,
      approved and waiting, in that order. */
  lemma ProcessPullsScenario(api: Api, org: string)
    requires forall k :: CountPullRequests(api, org, k) == Success(match k
      case AllPulls => 1 case OpenPulls => 2 case ClosedPulls => 3
      case MergedPulls => 4 case OpenApprovedPulls => 5 case OpenUnreviewedPulls => 6)
    ensures ProcessPulls(api, org) == Emit([
      Write(PullRequests, OrgLabels(org), 1),
      Write(PullRequestsOpen, OrgLabels(org), 2),
      Write(PullRequestsClose, OrgLabels(org), 3),
      Write(PullRequestsMerged, OrgLabels(org), 4),
      Write(PullRequestsOpenApproved, OrgLabels(org), 5),
      Write(PullRequestsOpenWaitingApproval, OrgLabels(org), 6)])
  {
    assert CountPullRequests(api, org, PullQueryOrder[5]).Success?;
  }

  /** `processBranches`: the branch gauge of one repository. */
  function ProcessBranches(api: Api, repo: Repo): (r: Run)
    ensures var fetched := GetCountOfBranchesInRepository(api, repo);
      && (r.Completed() <==> fetched.Success?)
      && (fetched.Failure? ==> r == Abort(fetched.error))
      && (fetched.Success? ==> r.writes == [Write(RepoBranches, RepoLabels(repo), fetched.value)])
  {
    match GetCountOfBranchesInRepository(api, repo)
    case Failure(e) => Abort(e)
    case Success(n) => Emit([Write(RepoBranches, RepoLabels(repo), n)])
  }

  /** The gauges a repository step sets after stars, forks and open issues. */
  predicate PullOrBranchGauge(g: Gauge) {
    g.RepoPullRequestsClose? || g.RepoPullRequestsOpen? || g.RepoPullRequests? || g.RepoBranches?
  }

  /** The body of the repository loop: stars, forks and open issues, then the
      pull request gauges, then the branch gauge. */
  function RepoStep(api: Api, repo: Repo): (r: Run)
    ensures |r.writes| >= 3 && r.writes[..3] == FieldWrites(repo)
    ensures r.Completed() <==> GetPullsForRepository(api, repo).Success? && GetCountOfBranchesInRepository(api, repo).Success?
  {
    Then(Emit(FieldWrites(repo)), Then(ProcessRepoPulls(api, repo), ProcessBranches(api, repo)))
  }

  /** Every gauge a repository step sets is a repository-level gauge labelled
      with that repository; after the first three it sets only pull request
      and branch gauges. */
  lemma RepoStepLabels(api: Api, repo: Repo, i: nat)
    requires i < |RepoStep(api, repo).writes|
    ensures RepoStep(api, repo).writes[i].labels == RepoLabels(repo)
    ensures RepositoryLevel(RepoStep(api, repo).writes[i].gauge)
    ensures i >= 3 ==> PullOrBranchGauge(RepoStep(api, repo).writes[i].gauge)
  {
    var ws := RepoStep(api, repo).writes;
    var pulls := ProcessRepoPulls(api, repo);
    var tail := if pulls.Completed() then pulls.writes + ProcessBranches(api, repo).writes else pulls.writes;
    assert ws == FieldWrites(repo) + tail;
    if i < 3 {
      assert ws[i] == FieldWrites(repo)[i];
    } else {
      assert ws[i] == tail[i - 3];
    }
  }

  /** The repository steps of a list, in list order. */
  function Steps(api: Api, repos: seq<Repo>): (steps: seq<Run>)
    ensures |steps| == |repos|
    ensures forall j :: 0 <= j < |repos| ==> steps[j] == RepoStep(api, repos[j])
  {
    seq(|repos|, j requires 0 <= j < |repos| => RepoStep(api, repos[j]))
  }

  /** The repository loop: one step per repository, in list order, stopping at the first rejection. */
  function Sweep(api: Api, repos: seq<Repo>): (r: Run)
    ensures r.Completed() <==> forall j :: 0 <= j < |repos| ==> RepoStep(api, repos[j]).Completed()
  {
    ChainCompleted(Steps(api, repos));
    Chain(Steps(api, repos))
  }

  /** Every gauge the sweep sets is a repository-level gauge of one of the listed
      repositories; `j` is that repository. */
  lemma SweepWriteOwner(api: Api, repos: seq<Repo>, i: nat) returns (j: nat)
    requires i < |Sweep(api, repos).writes|
    ensures j < |repos|
    ensures Sweep(api, repos).writes[i].labels == RepoLabels(repos[j])
    ensures RepositoryLevel(Sweep(api, repos).writes[i].gauge)
  {
    var m;
    j, m := ChainWriteOwner(Steps(api, repos), i);
    RepoStepLabels(api, repos[j], m);
  }

  /** Walking a concatenation walks the first part, then, if it completed, the second. */
  lemma SweepAppend(api: Api, a: seq<Repo>, b: seq<Repo>)
    ensures Sweep(api, a + b) == Then(Sweep(api, a), Sweep(api, b))
  {
    StepsAppend(api, a, b);
    ChainAppend(Steps(api, a), Steps(api, b));
  }

  lemma StepsAppend(api: Api, a: seq<Repo>, b: seq<Repo>)
    ensures Steps(api, a + b) == Steps(api, a) + Steps(api, b)
  {
    assert forall j :: 0 <= j < |a| ==> (a + b)[j] == a[j];
    assert forall j :: |a| <= j < |a| + |b| ==> (a + b)[j] == b[j - |a|];
  }

  /** If repository k is the first whose pull requests or branches cannot be
      fetched, the sweep keeps every gauge set for the repositories before it,
      plus the stars, forks and open issues of repository k, and stops there. */
  lemma SweepAbortsAtFirstFailure(api: Api, repos: seq<Repo>, k: nat)
    requires k < |repos|
    requires forall j :: 0 <= j < k ==> RepoStep(api, repos[j]).Completed()
    requires !RepoStep(api, repos[k]).Completed()
    ensures Sweep(api, repos[..k]).Completed()
    ensures Sweep(api, repos).writes == Sweep(api, repos[..k]).writes + RepoStep(api, repos[k]).writes
    ensures Sweep(api, repos).error == RepoStep(api, repos[k]).error
    ensures Sweep(api, repos).writes[|Sweep(api, repos[..k]).writes|..][..3] == FieldWrites(repos[k])
  {
    var steps := Steps(api, repos);
    ChainAround(steps, k);
    assert steps[..k] == Steps(api, repos[..k]);
    var a := Sweep(api, repos[..k]).writes;
    var b := RepoStep(api, repos[k]).writes;
    assert (a + b)[|a|..] == b;
  }

  /** The stars, forks and open-issues gauges of a repository the sweep reached
      read that repository's own values afterwards, provided no two
      repositories share owner and name. */
  lemma SweepPublishesFields(s: Sink, api: Api, repos: seq<Repo>, i: nat, f: nat)
    requires DistinctKeys(repos)
    requires i < |repos| && f < 3
    requires forall j :: 0 <= j < i ==> RepoStep(api, repos[j]).Completed()
    ensures Read(Publish(s, Sweep(api, repos).writes), FieldWrites(repos[i])[f].Target()) == Some(FieldWrites(repos[i])[f].value)
  {
    var steps := Steps(api, repos);
    var step := steps[i].writes;
    assert step[f] == FieldWrites(repos[i])[f] by {
      assert step[..3][f] == step[f];
    }
    var x := step[f].Target();
    forall m | f < m < |step|
      ensures step[m].Target() != x
    {
      StepTailDiffers(api, repos[i], f, m);
    }
    forall j, m | i < j < |steps| && 0 <= m < |steps[j].writes|
      ensures steps[j].writes[m].Target() != x
    {
      RepoStepLabels(api, repos[j], m);
    }
    ChainPublishes(s, steps, i, f);
  }

  /** Within one repository step, field write f is not overridden by a later write of the step. */
  lemma StepTailDiffers(api: Api, repo: Repo, f: nat, m: nat)
    requires f < m < |RepoStep(api, repo).writes| && f < 3
    ensures RepoStep(api, repo).writes[m].Target() != FieldWrites(repo)[f].Target()
  {
    var step := RepoStep(api, repo).writes;
    RepoStepLabels(api, repo, m);
    if m < 3 {
      assert step[m] == step[..3][m];
    }
  }

  /** The repository loop followed, if it completed, by the organisation totals
      tallied while walking the list. */
  function SweepAndTotals(api: Api, org: string, repos: seq<Repo>, repositoryCount: int): (r: Run)
    ensures r.Completed() <==> Sweep(api, repos).Completed()
    ensures r.Completed() ==> r.writes == Sweep(api, repos).writes + Totals(org, repositoryCount, repos)
    ensures !r.Completed() ==> r == Sweep(api, repos)
  {
    ClassifyCountsFilter(repos, IsPrivate, IsPublic);
    Then(Sweep(api, repos), Emit(TotalWrites(org, repositoryCount, Classify(repos, IsPrivate))))
  }

  /** What follows `processPulls`: the repository list, the loop and the totals. */
  function ListedRest(api: Api, org: string, repositoryCount: seq<Repo> -> int): Run {
    match GetRepositoryListForOrg(api, org)
    case Failure(e) => Abort(e)
    case Success(repos) => SweepAndTotals(api, org, repos, repositoryCount(repos))
  }

  /** `processOrganisationRepositories` with the value its repository counter
      holds when the totals are published: first `processPulls`, then the
      repository list, then one step per repository, then the totals. */
  function OrganisationPass(api: Api, org: string, repositoryCount: seq<Repo> -> int): (r: Run)
    ensures ProcessPulls(api, org).writes <= r.writes
    ensures r.Completed() <==>
      && ProcessPulls(api, org).Completed()
      && GetRepositoryListForOrg(api, org).Success?
      && Sweep(api, GetRepositoryListForOrg(api, org).value).Completed()
  {
    Then(ProcessPulls(api, org), ListedRest(api, org, repositoryCount))
  }

  /** Once the list arrived and the loop completed, what follows `processPulls`
      sets the gauges of every repository, then the totals. */
  lemma ListedRestWrites(api: Api, org: string, repositoryCount: seq<Repo> -> int)
    requires ListedRest(api, org, repositoryCount).Completed()
    ensures GetRepositoryListForOrg(api, org).Success?
    ensures var repos := GetRepositoryListForOrg(api, org).value;
      ListedRest(api, org, repositoryCount).writes == Sweep(api, repos).writes + Totals(org, repositoryCount(repos), repos)
  {
  }

  /** A completed pass sets the six pull request gauges, then the gauges of
      every repository in list order, then the three totals. */
  lemma CompletedPassWrites(api: Api, org: string, repositoryCount: seq<Repo> -> int)
    requires OrganisationPass(api, org, repositoryCount).Completed()
    ensures GetRepositoryListForOrg(api, org).Success?
    ensures var repos := GetRepositoryListForOrg(api, org).value;
      OrganisationPass(api, org, repositoryCount).writes
        == ProcessPulls(api, org).writes + Sweep(api, repos).writes + Totals(org, repositoryCount(repos), repos)
  {
    ThenCompleted(ProcessPulls(api, org), ListedRest(api, org, repositoryCount));
    ListedRestWrites(api, org, repositoryCount);
    var repos := GetRepositoryListForOrg(api, org).value;
    AppendAssociative(ProcessPulls(api, org).writes, Sweep(api, repos).writes, Totals(org, repositoryCount(repos), repos));
  }

  /** A pass that did not complete stopped within `processPulls`, at the
      repository list, or inside the repository loop. */
  lemma AbortedPassWrites(api: Api, org: string, repositoryCount: seq<Repo> -> int)
    requires !OrganisationPass(api, org, repositoryCount).Completed()
    ensures var ws := OrganisationPass(api, org, repositoryCount).writes;
      var listed := GetRepositoryListForOrg(api, org);
      || ws == ProcessPulls(api, org).writes
      || (listed.Success? && ws == ProcessPulls(api, org).writes + Sweep(api, listed.value).writes)
  {
  }

  lemma SweepSetsNoTotals(api: Api, repos: seq<Repo>)
    ensures SetsNoTotals(Sweep(api, repos).writes)
  {
    forall i | 0 <= i < |Sweep(api, repos).writes|
      ensures !RepoTotalGauge(Sweep(api, repos).writes[i].gauge)
    {
      var _ := SweepWriteOwner(api, repos, i);
    }
  }

  /** A pass that did not complete sets none of the three organisation totals:
      they are only published after the last repository. */
  lemma AbortedPassSetsNoTotals(api: Api, org: string, repositoryCount: seq<Repo> -> int)
    requires !OrganisationPass(api, org, repositoryCount).Completed()
    ensures forall i :: 0 <= i < |OrganisationPass(api, org, repositoryCount).writes| ==>
      !RepoTotalGauge(OrganisationPass(api, org, repositoryCount).writes[i].gauge)
  {
    var pulls := ProcessPulls(api, org).writes;
    var listed := GetRepositoryListForOrg(api, org);
    AbortedPassWrites(api, org, repositoryCount);
    assert SetsNoTotals(pulls);
    if listed.Success? {
      SweepSetsNoTotals(api, listed.value);
      SetsNoTotalsAppend(pulls, Sweep(api, listed.value).writes);
    }
    assert SetsNoTotals(OrganisationPass(api, org, repositoryCount).writes);
  }

  /** `processOrganisationRepositories` as written: `repositoryCount` is
      declared 0 and never incremented. */
  function ProcessOrganisationRepositories(api: Api, org: string): Run {
    OrganisationPass(api, org, repos => 0)
  }

  /** `processOrganisationRepositories` with the repository counter counting
      the repositories, as the unit test and src/github.js expect. */
  function ProcessOrganisationRepositoriesCorrected(api: Api, org: string): Run {
    OrganisationPass(api, org, repos => |repos|)
  }

  /** After a completed pass the organisation totals read the number of
      repositories and its split into private and public ones, which add up to it. */
  lemma CorrectedTotalsPublished(s: Sink, api: Api, org: string)
    requires ProcessOrganisationRepositoriesCorrected(api, org).Completed()
    ensures GetRepositoryListForOrg(api, org).Success?
    ensures var repos := GetRepositoryListForOrg(api, org).value;
      var sink := Publish(s, ProcessOrganisationRepositoriesCorrected(api, org).writes);
      && repos == Flatten(api.repoPages(OrgReposRequest(org)).pages)
      && Read(sink, Series(RepoCount, OrgLabels(org))) == Some(|repos|)
      && Read(sink, Series(RepoPrivateCount, OrgLabels(org))) == Some(|Filter(repos, IsPrivate)|)
      && Read(sink, Series(RepoPublicCount, OrgLabels(org))) == Some(|Filter(repos, IsPublic)|)
      && |Filter(repos, IsPrivate)| + |Filter(repos, IsPublic)| == |repos|
  {
    var repos := GetRepositoryListForOrg(api, org).value;
    var prefix := ProcessPulls(api, org).writes + Sweep(api, repos).writes;
    CompletedPassWrites(api, org, repos => |repos|);
    TotalsRead(s, prefix, org, |repos|, repos);
    ClassifyCountsFilter(repos, IsPrivate, IsPublic);
  }

  /** As written, a completed pass publishes `github_repo_count` as 0, however
      many repositories the organisation has. */
  lemma AsWrittenPublishesZeroRepositories(s: Sink, api: Api, org: string)
    requires ProcessOrganisationRepositories(api, org).Completed()
    ensures Read(Publish(s, ProcessOrganisationRepositories(api, org).writes), Series(RepoCount, OrgLabels(org))) == Some(0)
  {
    var repos := GetRepositoryListForOrg(api, org).value;
    var prefix := ProcessPulls(api, org).writes + Sweep(api, repos).writes;
    CompletedPassWrites(api, org, repos => 0);
    TotalsRead(s, prefix, org, 0, repos);
  }

  /** A `processPulls` whose six searches all resolve completes. */
  lemma {:induction false} PublishCountsCompletes(api: Api, org: string, ks: seq<PullQuery>)
    requires forall q :: api.search(q).Success?
    ensures PublishCounts(api, org, ks).Completed()
    decreases |ks|
  {
    if |ks| > 0 {
      PublishCountsCompletes(api, org, ks[1..]);
    }
  }

  /** The three repositories of the unit test: private, public, private. */
  const ScenarioRepos: seq<Repo> := [
    Repo("a login", "fakeRepository1", "", true, 3, 0, 500),
    Repo("a login", "fakeRepository2", "", false, 4, 2, 450),
    Repo("a login", "fakeRepository3", "", true, 5, 4, 350)]

  /** The repository tallies of the unit test: 2 private and 1 public. */
  lemma ScenarioTallies()
    ensures |Filter(ScenarioRepos, IsPrivate)| == 2 && |Filter(ScenarioRepos, IsPublic)| == 1
  {
    assert ScenarioRepos[1..][1..][1..] == [];
  }

  /** With every request answered, the unit test's organisation pass completes. */
  lemma ScenarioPassCompletes(api: Api, org: string, repositoryCount: seq<Repo> -> int)
    requires api.repoPages(OrgReposRequest(org)) == Paged([ScenarioRepos], None)
    requires forall req :: api.pullPages(req) == Paged([], None)
    requires forall req :: api.branchPages(req) == Paged([], None)
    requires forall q :: api.search(q).Success?
    ensures GetRepositoryListForOrg(api, org) == Success(ScenarioRepos)
    ensures OrganisationPass(api, org, repositoryCount).Completed()
  {
    var repos := ScenarioRepos;
    var pages: seq<seq<Repo>> := [repos];
    assert Flatten(pages) == repos by {
      assert |pages[1..]| == 0;
      assert repos + [] == repos;
    }
    PublishCountsCompletes(api, org, PullQueryOrder);
    forall j | 0 <= j < |repos|
      ensures RepoStep(api, repos[j]).Completed()
    {
      assert api.pullPages(PullsRequest(repos[j])) == Paged([], None);
      assert api.branchPages(BranchesRequest(repos[j])) == Paged([], None);
    }
  }

  /** The unit test's organisation: one page of three repositories, no pull
      requests, no branches. The corrected pass publishes 3 repositories, 2
      private and 1 public, as the test expects; as written, the repository
      count is published as 0. */
  lemma RepositoryCountScenario(s: Sink, api: Api, org: string)
    requires api.repoPages(OrgReposRequest(org)) == Paged([ScenarioRepos], None)
    requires forall req :: api.pullPages(req) == Paged([], None)
    requires forall req :: api.branchPages(req) == Paged([], None)
    requires forall q :: api.search(q).Success?
    ensures ProcessOrganisationRepositoriesCorrected(api, org).Completed()
    ensures ProcessOrganisationRepositories(api, org).Completed()
    ensures var sink := Publish(s, ProcessOrganisationRepositoriesCorrected(api, org).writes);
      && Read(sink, Series(RepoCount, OrgLabels(org))) == Some(3)
      && Read(sink, Series(RepoPrivateCount, OrgLabels(org))) == Some(2)
      && Read(sink, Series(RepoPublicCount, OrgLabels(org))) == Some(1)
    ensures Read(Publish(s, ProcessOrganisationRepositories(api, org).writes), Series(RepoCount, OrgLabels(org))) == Some(0)
  {
    ScenarioPassCompletes(api, org, repos => |repos|);
    ScenarioPassCompletes(api, org, repos => 0);
    ScenarioTallies();
    CorrectedTotalsPublished(s, api, org);
    AsWrittenPublishesZeroRepositories(s, api, org);
  }
}
