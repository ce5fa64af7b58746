/**
  The older JavaScript extraction (src/github.js). Repositories are tallied page
  by page; each repository's branch listing is started without being awaited
  and the organisation totals are published once every page is consumed. The
  per-repository pull request search, `processPulls`, is defined there but not
  called.

  Gauges are those of src/metrics.js; their names are the same as those of the
  Metrics class, so the same `Gauge` constructors stand for them.
*/
module GithubJs {
  import opened Wrappers
  import opened Metrics
  import opened GithubRepository
  import opened Extraction
  import opened GithubExtractor

  /** Steps started together and all awaited: every step makes its setter
      calls, listed here in start order; the group fails with the first error
      among them. */
  function Gather(runs: seq<Run>): Run
    decreases |runs|
  {
    if |runs| == 0 then Emit([])
    else
      var rest := Gather(runs[1..]);
      Run(runs[0].writes + rest.writes, if runs[0].error.Some? then runs[0].error else rest.error)
  }

  /** A group completes exactly when each of its steps does. */
  lemma {:induction false} GatherCompleted(runs: seq<Run>)
    ensures Gather(runs).Completed() <==> forall j :: 0 <= j < |runs| ==> runs[j].Completed()
    decreases |runs|
  {
    if |runs| > 0 {
      GatherCompleted(runs[1..]);
      assert forall j :: 0 < j < |runs| ==> runs[j] == runs[1..][j - 1];
    }
  }

  /** Unlike a chain, a group keeps the setter calls of the steps after a failed one. */
  lemma {:induction false} GatherWriteOwner(runs: seq<Run>, i: nat) returns (j: nat, m: nat)
    requires i < |Gather(runs).writes|
    ensures j < |runs| && m < |runs[j].writes|
    ensures Gather(runs).writes[i] == runs[j].writes[m]
    decreases |runs|
  {
    if i < |runs[0].writes| {
      j, m := 0, i;
    } else {
      var j', m' := GatherWriteOwner(runs[1..], i - |runs[0].writes|);
      j, m := j' + 1, m';
    }
  }

  /** When every step completes, starting them together and awaiting them one
      after another set the same gauges in the same order. */
  lemma {:induction false} GatherIsChainWhenCompleted(runs: seq<Run>)
    requires forall j :: 0 <= j < |runs| ==> runs[j].Completed()
    ensures Gather(runs) == Chain(runs)
    decreases |runs|
  {
    if |runs| > 0 {
      assert forall j :: 0 <= j < |runs[1..]| ==> runs[1..][j] == runs[j + 1];
      GatherIsChainWhenCompleted(runs[1..]);
    }
  }

  /** `processBranches` of src/github.js: adds up the page lengths of the
      branch listing, then sets the branch gauge; if the listing fails the
      gauge is not set. */
  method ProcessBranchesJs(api: Api, repo: Repo) returns (r: Run)
    ensures r == ProcessBranches(api, repo)
    ensures r.Completed() <==> api.branchPages(BranchesRequest(repo)).failure.None?
    ensures r.Completed() ==> r.writes == [Write(RepoBranches, RepoLabels(repo), |Flatten(api.branchPages(BranchesRequest(repo)).pages)|)]
  {
    var paged := api.branchPages(BranchesRequest(repo));
    var branchCount := 0;
    var k := 0;
    while k < |paged.pages|
      invariant 0 <= k <= |paged.pages|
      invariant branchCount == |Flatten(paged.pages[..k])|
    {
      FlattenSnoc(paged.pages, k);
      branchCount := branchCount + |paged.pages[k]|;
      k := k + 1;
    }
    assert paged.pages[..k] == paged.pages;
    if paged.failure.Some? {
      r := Abort(paged.failure.value);
    } else {
      r := Emit([Write(RepoBranches, RepoLabels(repo), branchCount)]);
    }
  }

  /** The stars, forks and open-issues gauges of every repository, in list order. */
  function FieldWritesAll(repos: seq<Repo>): (ws: seq<Write>)
    ensures |ws| == 3 * |repos|
    decreases |repos|
  {
    if |repos| == 0 then [] else FieldWritesAll(repos[..|repos| - 1]) + FieldWrites(repos[|repos| - 1])
  }

  /** Setter call 3j + f is field f of repository j. */
  lemma {:induction false} FieldWritesAllAt(repos: seq<Repo>, j: nat, f: nat)
    requires j < |repos| && f < 3
    ensures FieldWritesAll(repos)[3 * j + f] == FieldWrites(repos[j])[f]
    decreases |repos|
  {
    var init := repos[..|repos| - 1];
    if j < |repos| - 1 {
      FieldWritesAllAt(init, j, f);
      assert init[j] == repos[j];
    }
  }

  /** Every field setter call is field f of some repository j, at position 3j + f. */
  lemma FieldWriteIndex(repos: seq<Repo>, n: nat) returns (j: nat, f: nat)
    requires n < |FieldWritesAll(repos)|
    ensures j < |repos| && f < 3 && n == 3 * j + f
    ensures FieldWritesAll(repos)[n] == FieldWrites(repos[j])[f]
  {
    j, f := n / 3, n % 3;
    FieldWritesAllAt(repos, j, f);
  }

  /** With no two repositories sharing owner and name, field f of repository j
      is what its series reads after all the field gauges are set. */
  lemma FieldWritesAllPublishes(s: Sink, repos: seq<Repo>, j: nat, f: nat)
    requires DistinctKeys(repos)
    requires j < |repos| && f < 3
    ensures Read(Publish(s, FieldWritesAll(repos)), FieldWrites(repos[j])[f].Target()) == Some(FieldWrites(repos[j])[f].value)
  {
    var ws := FieldWritesAll(repos);
    var x := FieldWrites(repos[j])[f].Target();
    FieldWritesAllAt(repos, j, f);
    FieldWritesAfter(repos, j, f);
    LastWriteSole(ws, 3 * j + f, x);
    PublishRead(s, ws, x);
  }

  /** With no two repositories sharing owner and name, no later field setter
      call touches the series of field f of repository j. */
  lemma FieldWritesAfter(repos: seq<Repo>, j: nat, f: nat)
    requires DistinctKeys(repos)
    requires j < |repos| && f < 3
    ensures forall n :: 3 * j + f < n < |FieldWritesAll(repos)| ==> FieldWritesAll(repos)[n].Target() != FieldWrites(repos[j])[f].Target()
  {
    forall n | 3 * j + f < n < |FieldWritesAll(repos)|
      ensures FieldWritesAll(repos)[n].Target() != FieldWrites(repos[j])[f].Target()
    {
      var jn, fn := FieldWriteIndex(repos, n);
      if jn != j {
        assert RepoLabels(repos[j]) != RepoLabels(repos[jn]);
      }
    }
  }

  /** The branch listings started for the given repositories, in order. */
  function BranchRuns(api: Api, repos: seq<Repo>): (runs: seq<Run>)
    ensures |runs| == |repos|
    ensures forall j :: 0 <= j < |repos| ==> runs[j] == ProcessBranches(api, repos[j])
  {
    seq(|repos|, j requires 0 <= j < |repos| => ProcessBranches(api, repos[j]))
  }

  /** The branch gauges set by the group of branch listings: each is the branch
      gauge of one of the repositories. */
  lemma BranchWriteOwner(api: Api, repos: seq<Repo>, i: nat) returns (j: nat)
    requires i < |Gather(BranchRuns(api, repos)).writes|
    ensures j < |repos|
    ensures Gather(BranchRuns(api, repos)).writes[i].gauge == RepoBranches
    ensures Gather(BranchRuns(api, repos)).writes[i].labels == RepoLabels(repos[j])
  {
    var m;
    j, m := GatherWriteOwner(BranchRuns(api, repos), i);
  }

  /** Branch listings set only branch gauges. */
  lemma BranchWritesAvoid(api: Api, repos: seq<Repo>, x: Series)
    requires x.gauge != RepoBranches
    ensures forall n :: 0 <= n < |Gather(BranchRuns(api, repos)).writes| ==> Gather(BranchRuns(api, repos)).writes[n].Target() != x
  {
    forall n | 0 <= n < |Gather(BranchRuns(api, repos)).writes|
      ensures Gather(BranchRuns(api, repos)).writes[n].Target() != x
    {
      var _ := BranchWriteOwner(api, repos, n);
    }
  }

  /** The field gauges are never totals or branch gauges. */
  lemma FieldWritesAllGauges(repos: seq<Repo>, n: nat)
    requires n < |FieldWritesAll(repos)|
    ensures RepositoryLevel(FieldWritesAll(repos)[n].gauge) && FieldWritesAll(repos)[n].gauge != RepoBranches
  {
    var j, f := FieldWriteIndex(repos, n);
  }

  /** One more repository: one more field triple and one more branch listing. */
  lemma SeenStep(api: Api, seen: seq<Repo>, repo: Repo)
    ensures FieldWritesAll(seen + [repo]) == FieldWritesAll(seen) + FieldWrites(repo)
    ensures BranchRuns(api, seen + [repo]) == BranchRuns(api, seen) + [ProcessBranches(api, repo)]
  {
    SnocPrefix(seen, repo);
  }

  /** One more repository: one more on exactly one side of the private/public tally. */
  lemma SeenStepTally(seen: seq<Repo>, repo: Repo)
    ensures |Filter(seen + [repo], IsPrivate)| == |Filter(seen, IsPrivate)| + (if repo.isPrivate then 1 else 0)
    ensures |Filter(seen + [repo], IsPublic)| == |Filter(seen, IsPublic)| + (if repo.isPrivate then 0 else 1)
  {
    FilterAppend(seen, [repo], IsPrivate);
    FilterAppend(seen, [repo], IsPublic);
  }

  /** What `processOrganisationRepositories` of src/github.js sets, in order:
      the field gauges of every listed repository, then, if every page arrived,
      the three totals, then the branch gauges of the listings that succeed. It
      resolves only if every page arrived and every branch listing succeeded. */
  function OrganisationPassJs(api: Api, org: string): Run {
    var paged := api.repoPages(OrgReposRequest(org));
    var seen := Flatten(paged.pages);
    var branches := Gather(BranchRuns(api, seen));
    if paged.failure.Some? then Run(FieldWritesAll(seen) + branches.writes, paged.failure)
    else Run(FieldWritesAll(seen) + Totals(org, |seen|, seen) + branches.writes, branches.error)
  }

  /** What the loops have built after the repositories `seen`: the private and
      public tallies, the field gauges set so far and the branch listings started. */
  ghost predicate Tallied(api: Api, seen: seq<Repo>, privateCount: nat, publicCount: nat, writes: seq<Write>, pending: seq<Run>) {
    && privateCount == |Filter(seen, IsPrivate)|
    && publicCount == |Filter(seen, IsPublic)|
    && privateCount + publicCount == |seen|
    && writes == FieldWritesAll(seen)
    && pending == BranchRuns(api, seen)
  }

  /** The body of the inner loop: one repository counted on its side, its three
      field gauges set and its branch listing started. */
  method TallyRepository(api: Api, repo: Repo, ghost seen: seq<Repo>, privateCount: nat, publicCount: nat, writes: seq<Write>, pending: seq<Run>)
    returns (privateCount': nat, publicCount': nat, writes': seq<Write>, pending': seq<Run>)
    requires Tallied(api, seen, privateCount, publicCount, writes, pending)
    ensures Tallied(api, seen + [repo], privateCount', publicCount', writes', pending')
  {
    SeenStep(api, seen, repo);
    SeenStepTally(seen, repo);
    privateCount', publicCount' := privateCount, publicCount;
    if repo.isPrivate {
      privateCount' := privateCount + 1;
    } else {
      publicCount' := publicCount + 1;
    }
    writes' := writes + FieldWrites(repo);
    pending' := pending + [ProcessBranches(api, repo)];
  }

  lemma PrefixStart<T>(a: seq<T>, b: seq<T>)
    ensures a + b[..0] == a
  {
  }

  lemma PrefixStep<T>(a: seq<T>, b: seq<T>, i: nat)
    requires i < |b|
    ensures a + b[..i + 1] == (a + b[..i]) + [b[i]]
  {
    assert b[..i + 1] == b[..i] + [b[i]];
  }

  lemma PrefixEnd<T>(a: seq<T>, b: seq<T>)
    ensures a + b[..|b|] == a + b
  {
  }

  /** The inner loop over the repositories of one page. */
  method TallyPage(api: Api, page: seq<Repo>, ghost seen: seq<Repo>, privateCount: nat, publicCount: nat, writes: seq<Write>, pending: seq<Run>)
    returns (privateCount': nat, publicCount': nat, writes': seq<Write>, pending': seq<Run>)
    requires Tallied(api, seen, privateCount, publicCount, writes, pending)
    ensures Tallied(api, seen + page, privateCount', publicCount', writes', pending')
  {
    privateCount', publicCount', writes', pending' := privateCount, publicCount, writes, pending;
    var i := 0;
    PrefixStart(seen, page);
    while i < |page|
      invariant 0 <= i <= |page|
      invariant Tallied(api, seen + page[..i], privateCount', publicCount', writes', pending')
    {
      PrefixStep(seen, page, i);
      privateCount', publicCount', writes', pending' := TallyRepository(api, page[i], seen + page[..i], privateCount', publicCount', writes', pending');
      i := i + 1;
    }
    PrefixEnd(seen, page);
  }

  /** `processOrganisationRepositories` of src/github.js: an outer loop over the
      pages and an inner loop over each page's repositories, tallying as it goes
      and starting one branch listing per repository. */
  method ProcessOrganisationRepositoriesJs(api: Api, org: string)
    returns (r: Run, repositoryCount: nat, privateCount: nat, publicCount: nat)
    ensures var pages := api.repoPages(OrgReposRequest(org)).pages;
      && repositoryCount == |Flatten(pages)|
      && privateCount == |Filter(Flatten(pages), IsPrivate)|
      && publicCount == |Filter(Flatten(pages), IsPublic)|
    ensures privateCount + publicCount == repositoryCount
    ensures r == OrganisationPassJs(api, org)
  {
    var paged := api.repoPages(OrgReposRequest(org));
    var pages := paged.pages;
    repositoryCount, privateCount, publicCount := 0, 0, 0;
    var writes: seq<Write> := [];
    var pending: seq<Run> := [];
    var k := 0;
    while k < |pages|
      invariant 0 <= k <= |pages|
      invariant repositoryCount == |Flatten(pages[..k])|
      invariant Tallied(api, Flatten(pages[..k]), privateCount, publicCount, writes, pending)
    {
      FlattenSnoc(pages, k);
      repositoryCount := repositoryCount + |pages[k]|;
      privateCount, publicCount, writes, pending := TallyPage(api, pages[k], Flatten(pages[..k]), privateCount, publicCount, writes, pending);
      k := k + 1;
    }
    assert pages[..k] == pages;
    var branches := Gather(pending);
    if paged.failure.Some? {
      r := Run(writes + branches.writes, paged.failure);
    } else {
      r := Run(writes + TotalWrites(org, repositoryCount, Tally(privateCount, publicCount)) + branches.writes, branches.error);
    }
  }

  /** Once every page arrived, the totals read the number of listed repositories
      and its private and public parts, which add up to it, whether or not the
      branch listings succeed. */
  lemma JsTotalsPublished(s: Sink, api: Api, org: string)
    requires api.repoPages(OrgReposRequest(org)).failure.None?
    ensures var seen := Flatten(api.repoPages(OrgReposRequest(org)).pages);
      var sink := Publish(s, OrganisationPassJs(api, org).writes);
      && Read(sink, Series(RepoCount, OrgLabels(org))) == Some(|seen|)
      && Read(sink, Series(RepoPrivateCount, OrgLabels(org))) == Some(|Filter(seen, IsPrivate)|)
      && Read(sink, Series(RepoPublicCount, OrgLabels(org))) == Some(|Filter(seen, IsPublic)|)
      && |Filter(seen, IsPrivate)| + |Filter(seen, IsPublic)| == |seen|
  {
    var seen := Flatten(api.repoPages(OrgReposRequest(org)).pages);
    var fields := FieldWritesAll(seen);
    var totals := Totals(org, |seen|, seen);
    var branches := Gather(BranchRuns(api, seen)).writes;
    forall x | x in {Series(RepoCount, OrgLabels(org)), Series(RepoPrivateCount, OrgLabels(org)), Series(RepoPublicCount, OrgLabels(org))}
      ensures Read(Publish(s, fields + totals + branches), x) == Read(Publish(s, fields + totals), x)
    {
      BranchWritesAvoid(api, seen, x);
      PublishIgnoresUntouching(s, fields + totals, branches, x);
    }
    TotalsRead(s, fields, org, |seen|, seen);
    ClassifyCountsFilter(seen, IsPrivate, IsPublic);
  }

  /** The pass sets the field gauges, then the totals unless a page failed,
      then the branch gauges. */
  lemma PassJsWrites(api: Api, org: string)
    ensures var paged := api.repoPages(OrgReposRequest(org));
      var seen := Flatten(paged.pages);
      OrganisationPassJs(api, org).writes
        == FieldWritesAll(seen) + (if paged.failure.Some? then [] else Totals(org, |seen|, seen)) + Gather(BranchRuns(api, seen)).writes
  {
    var paged := api.repoPages(OrgReposRequest(org));
    if paged.failure.Some? {
      assert FieldWritesAll(Flatten(paged.pages)) + [] == FieldWritesAll(Flatten(paged.pages));
    }
  }

  /** A field gauge is neither a total nor a branch gauge. */
  lemma FieldGaugeKind(repo: Repo, f: nat)
    requires f < 3
    ensures FieldWrites(repo)[f].gauge != RepoBranches && !RepoTotalGauge(FieldWrites(repo)[f].gauge)
  {
    assert f == 0 || f == 1 || f == 2;
  }

  /** Setter calls after the first group that leave a series alone do not change what it reads. */
  lemma FirstGroupRead(s: Sink, a: seq<Write>, b: seq<Write>, c: seq<Write>, x: Series)
    requires forall n :: 0 <= n < |b| ==> b[n].Target() != x
    requires forall n :: 0 <= n < |c| ==> c[n].Target() != x
    ensures Read(Publish(s, a + b + c), x) == Read(Publish(s, a), x)
  {
    PublishIgnoresUntouching(s, a + b, c, x);
    PublishIgnoresUntouching(s, a, b, x);
  }

  /** With no two repositories sharing owner and name, each listed repository's
      stars, forks and open-issues gauges read its own values, even when a page
      or a branch listing fails. */
  lemma JsFieldsPublished(s: Sink, api: Api, org: string, j: nat, f: nat)
    requires DistinctKeys(Flatten(api.repoPages(OrgReposRequest(org)).pages))
    requires j < |Flatten(api.repoPages(OrgReposRequest(org)).pages)| && f < 3
    ensures var seen := Flatten(api.repoPages(OrgReposRequest(org)).pages);
      Read(Publish(s, OrganisationPassJs(api, org).writes), FieldWrites(seen[j])[f].Target()) == Some(FieldWrites(seen[j])[f].value)
  {
    var paged := api.repoPages(OrgReposRequest(org));
    var seen := Flatten(paged.pages);
    var middle := if paged.failure.Some? then [] else Totals(org, |seen|, seen);
    var x := FieldWrites(seen[j])[f].Target();
    FieldGaugeKind(seen[j], f);
    PassJsWrites(api, org);
    BranchWritesAvoid(api, seen, x);
    if paged.failure.None? {
      TotalsAvoid(org, |seen|, seen, x);
    }
    FirstGroupRead(s, FieldWritesAll(seen), middle, Gather(BranchRuns(api, seen)).writes, x);
    FieldWritesAllPublishes(s, seen, j, f);
  }

  /** The field gauges are never totals. */
  lemma FieldsSetNoTotals(repos: seq<Repo>)
    ensures SetsNoTotals(FieldWritesAll(repos))
  {
    forall n | 0 <= n < |FieldWritesAll(repos)|
      ensures !RepoTotalGauge(FieldWritesAll(repos)[n].gauge)
    {
      FieldWritesAllGauges(repos, n);
    }
  }

  /** The branch gauges are never totals. */
  lemma BranchesSetNoTotals(api: Api, repos: seq<Repo>)
    ensures SetsNoTotals(Gather(BranchRuns(api, repos)).writes)
  {
    forall n | 0 <= n < |Gather(BranchRuns(api, repos)).writes|
      ensures !RepoTotalGauge(Gather(BranchRuns(api, repos)).writes[n].gauge)
    {
      var _ := BranchWriteOwner(api, repos, n);
    }
  }

  /** If a page of the repository listing fails, no total is set. */
  lemma JsPageFailureSetsNoTotals(api: Api, org: string)
    requires api.repoPages(OrgReposRequest(org)).failure.Some?
    ensures !OrganisationPassJs(api, org).Completed()
    ensures SetsNoTotals(OrganisationPassJs(api, org).writes)
  {
    var seen := Flatten(api.repoPages(OrgReposRequest(org)).pages);
    FieldsSetNoTotals(seen);
    BranchesSetNoTotals(api, seen);
    SetsNoTotalsAppend(FieldWritesAll(seen), Gather(BranchRuns(api, seen)).writes);
  }

  /** Both extractions list the same repositories with the same request; once
      each has published its totals, the JavaScript pass and the corrected
      TypeScript pass agree on all three. */
  lemma JsAgreesWithExtractorOnTotals(s1: Sink, s2: Sink, api: Api, org: string, x: Series)
    requires ProcessOrganisationRepositoriesCorrected(api, org).Completed()
    requires x in {Series(RepoCount, OrgLabels(org)), Series(RepoPrivateCount, OrgLabels(org)), Series(RepoPublicCount, OrgLabels(org))}
    ensures api.repoPages(OrgReposRequest(org)).failure.None?
    ensures Read(Publish(s1, OrganisationPassJs(api, org).writes), x)
         == Read(Publish(s2, ProcessOrganisationRepositoriesCorrected(api, org).writes), x)
  {
    CorrectedTotalsPublished(s2, api, org);
    JsTotalsPublished(s1, api, org);
  }
}
