/**
  Concepts shared by both versions of the extraction (src/GithubExtractor.ts and
  src/github.js): the effect of one awaited step on the gauge sink, the label
  maps the exporter supplies, and the two-way tallies it keeps while it walks a
  list.
*/
module Extraction {
  import opened Wrappers
  import opened Metrics
  import opened GithubRepository

  /** The effect of an extraction step: the setter calls it made, in order, and
      the error that aborted it, if one did. The sink after the step is
      `Publish(sink, run.writes)`, whether or not it completed. */
  datatype Run = Run(writes: seq<Write>, error: Option<ApiError>) {
    predicate Completed() {
      error.None?
    }
  }

  /** A step that makes the given setter calls and completes. */
  function Emit(ws: seq<Write>): Run {
    Run(ws, None)
  }

  /** A step whose awaited call rejects before any setter call. */
  function Abort(e: ApiError): Run {
    Run([], Some(e))
  }

  /** `await a; await b`: the second step runs only if the first completed. */
  function Then(a: Run, b: Run): Run {
    if a.Completed() then Run(a.writes + b.writes, b.error) else a
  }

  /** A sequence of two steps completes only if both do, setting the first
      step's gauges and then the second's. */
  lemma ThenCompleted(a: Run, b: Run)
    requires Then(a, b).Completed()
    ensures a.Completed() && b.Completed()
    ensures Then(a, b).writes == a.writes + b.writes
  {
  }

  lemma AppendAssociative(a: seq<Write>, b: seq<Write>, c: seq<Write>)
    ensures a + (b + c) == a + b + c
  {
  }

  lemma AppendEmpty(a: seq<Write>)
    ensures [] + a == a && a + [] == a
  {
  }

  /** Sequencing steps is associative. */
  lemma ThenAssociative(a: Run, b: Run, c: Run)
    ensures Then(Then(a, b), c) == Then(a, Then(b, c))
  {
    if a.Completed() && b.Completed() {
      assert (a.writes + b.writes) + c.writes == a.writes + (b.writes + c.writes);
    }
  }

  /** A step that did nothing and completed is neutral. */
  lemma ThenEmpty(b: Run)
    ensures Then(Emit([]), b) == b
  {
    assert [] + b.writes == b.writes;
  }

  /** Steps awaited one after another, stopping at the first that did not complete. */
  function Chain(runs: seq<Run>): Run
    decreases |runs|
  {
    if |runs| == 0 then Emit([]) else Then(runs[0], Chain(runs[1..]))
  }

  /** A chain completes exactly when each of its steps completes; otherwise it
      ends with the error of the first step that did not. */
  lemma {:induction false} ChainCompleted(runs: seq<Run>)
    ensures Chain(runs).Completed() <==> forall j :: 0 <= j < |runs| ==> runs[j].Completed()
    decreases |runs|
  {
    if |runs| > 0 {
      ChainCompleted(runs[1..]);
      assert forall j :: 0 < j < |runs| ==> runs[j] == runs[1..][j - 1];
    }
  }

  /** Chaining a concatenation chains the first part, then, if it completed, the second. */
  lemma {:induction false} ChainAppend(a: seq<Run>, b: seq<Run>)
    ensures Chain(a + b) == Then(Chain(a), Chain(b))
    decreases |a|
  {
    if |a| == 0 {
      assert a + b == b;
      ThenEmpty(Chain(b));
    } else {
      assert (a + b)[0] == a[0];
      assert (a + b)[1..] == a[1..] + b;
      ChainAppend(a[1..], b);
      ThenAssociative(a[0], Chain(a[1..]), Chain(b));
    }
  }

  /** Every setter call of a chain is setter call `m` of step `j`. */
  lemma {:induction false} ChainWriteOwner(runs: seq<Run>, i: nat) returns (j: nat, m: nat)
    requires i < |Chain(runs).writes|
    ensures j < |runs| && m < |runs[j].writes|
    ensures Chain(runs).writes[i] == runs[j].writes[m]
    decreases |runs|
  {
    var first := runs[0];
    var ws := Chain(runs).writes;
    if i < |first.writes| {
      j, m := 0, i;
    } else {
      var rest := Chain(runs[1..]).writes;
      assert ws[i] == rest[i - |first.writes|];
      var j', m' := ChainWriteOwner(runs[1..], i - |first.writes|);
      j, m := j' + 1, m';
    }
  }

  /** The setter calls of a chain split around step i, once every earlier step
      completed: those of the earlier steps, those of step i, and, if step i
      completed, those of the later steps. */
  lemma {:induction false} ChainAround(runs: seq<Run>, i: nat)
    requires i < |runs|
    requires forall j :: 0 <= j < i ==> runs[j].Completed()
    ensures Chain(runs[..i]).Completed()
    ensures Chain(runs).writes == Chain(runs[..i]).writes + runs[i].writes
      + (if runs[i].Completed() then Chain(runs[i + 1..]).writes else [])
    ensures !runs[i].Completed() ==> Chain(runs).error == runs[i].error
  {
    var a, b, c := runs[..i], runs[i..], runs[i + 1..];
    assert Chain(runs) == Then(Chain(a), Chain(b)) by {
      assert runs == a + b;
      ChainAppend(a, b);
    }
    assert Chain(a).Completed() by {
      ChainCompleted(a);
      assert forall j :: 0 <= j < |a| ==> a[j] == runs[j];
    }
    assert Chain(b) == Then(runs[i], Chain(c)) by {
      assert b[0] == runs[i] && b[1..] == c;
    }
    var wa, wi, wc := Chain(a).writes, runs[i].writes, Chain(c).writes;
    if runs[i].Completed() {
      assert Chain(runs).writes == wa + (wi + wc);
      assert wa + (wi + wc) == wa + wi + wc;
    } else {
      assert Chain(runs).writes == wa + wi;
      assert wa + wi + [] == wa + wi;
    }
  }

  /** A chain of steps none of which writes series x writes no x. */
  lemma ChainAvoids(runs: seq<Run>, x: Series)
    requires forall j, m :: 0 <= j < |runs| && 0 <= m < |runs[j].writes| ==> runs[j].writes[m].Target() != x
    ensures forall n :: 0 <= n < |Chain(runs).writes| ==> Chain(runs).writes[n].Target() != x
  {
    forall n | 0 <= n < |Chain(runs).writes|
      ensures Chain(runs).writes[n].Target() != x
    {
      var j, m := ChainWriteOwner(runs, n);
    }
  }

  /** A setter call of step i survives the whole chain when every earlier step
      completed and neither the rest of step i nor any later step writes the
      same series. */
  lemma ChainPublishes(s: Sink, runs: seq<Run>, i: nat, k: nat)
    requires i < |runs| && k < |runs[i].writes|
    requires forall j :: 0 <= j < i ==> runs[j].Completed()
    requires forall m :: k < m < |runs[i].writes| ==> runs[i].writes[m].Target() != runs[i].writes[k].Target()
    requires forall j, m :: i < j < |runs| && 0 <= m < |runs[j].writes| ==> runs[j].writes[m].Target() != runs[i].writes[k].Target()
    ensures Read(Publish(s, Chain(runs).writes), runs[i].writes[k].Target()) == Some(runs[i].writes[k].value)
  {
    var x := runs[i].writes[k].Target();
    var a := Chain(runs[..i]).writes;
    var step := runs[i].writes;
    var c := if runs[i].Completed() then Chain(runs[i + 1..]).writes else [];
    ChainAround(runs, i);
    assert forall n :: 0 <= n < |c| ==> c[n].Target() != x by {
      if runs[i].Completed() {
        var later := runs[i + 1..];
        assert forall j :: 0 <= j < |later| ==> later[j] == runs[i + 1 + j];
        ChainAvoids(later, x);
      }
    }
    PublishIgnoresUntouching(s, a + step, c, x);
    PublishReadsTail(s, a, step, k);
  }

  /** The label map `{ owner: organisation }`. */
  function OrgLabels(org: string): Labels {
    map["owner" := org]
  }

  /** The label map `{ owner: repository.owner.login, repo: repository.name }`. */
  function RepoLabels(repo: Repo): Labels {
    map["owner" := repo.ownerLogin, "repo" := repo.name]
  }

  /** Two repositories share their gauges exactly when they share owner login and name. */
  lemma RepoLabelsIdentify(a: Repo, b: Repo)
    ensures RepoLabels(a) == RepoLabels(b) <==> a.ownerLogin == b.ownerLogin && a.name == b.name
  {
    if RepoLabels(a) == RepoLabels(b) {
      assert RepoLabels(a)["owner"] == RepoLabels(b)["owner"];
      assert RepoLabels(a)["repo"] == RepoLabels(b)["repo"];
    }
  }

  /** No two repositories of the list have the same owner login and name. */
  ghost predicate DistinctKeys(repos: seq<Repo>) {
    forall i, j :: 0 <= i < j < |repos| ==> RepoLabels(repos[i]) != RepoLabels(repos[j])
  }

  /** How many items of a list fall on either side of a test. */
  datatype Tally = Tally(yes: nat, no: nat)

  /** The items of `xs` that pass `p`, in order (reference definition). */
  function Filter<T>(xs: seq<T>, p: T -> bool): (r: seq<T>)
    ensures |r| <= |xs|
    decreases |xs|
  {
    if |xs| == 0 then [] else (if p(xs[0]) then [xs[0]] else []) + Filter(xs[1..], p)
  }

  lemma {:induction false} FilterAppend<T>(a: seq<T>, b: seq<T>, p: T -> bool)
    ensures Filter(a + b, p) == Filter(a, p) + Filter(b, p)
    decreases |a|
  {
    if |a| == 0 {
      assert a + b == b;
    } else {
      var head := if p(a[0]) then [a[0]] else [];
      assert (a + b)[0] == a[0];
      assert (a + b)[1..] == a[1..] + b;
      calc {
        Filter(a + b, p);
        head + Filter(a[1..] + b, p);
        { FilterAppend(a[1..], b, p); }
        head + (Filter(a[1..], p) + Filter(b, p));
        (head + Filter(a[1..], p)) + Filter(b, p);
      }
    }
  }

  /** The running tally of a `for` loop that adds one to the first counter when
      `p` holds of the item and one to the second counter otherwise. */
  function Classify<T>(xs: seq<T>, p: T -> bool): (t: Tally)
    ensures t.yes + t.no == |xs|
    decreases |xs|
  {
    if |xs| == 0 then Tally(0, 0)
    else
      var t := Classify(xs[..|xs| - 1], p);
      if p(xs[|xs| - 1]) then Tally(t.yes + 1, t.no) else Tally(t.yes, t.no + 1)
  }

  /** Filtering keeps exactly the items that pass the test. */
  lemma {:induction false} FilterMembers<T>(xs: seq<T>, p: T -> bool, x: T)
    ensures x in Filter(xs, p) <==> x in xs && p(x)
    decreases |xs|
  {
    if |xs| > 0 {
      FilterMembers(xs[1..], p, x);
      assert xs == [xs[0]] + xs[1..];
    }
  }

  /** The tally counts exactly the items that pass the test (`p`) and exactly
      those that fail it (`q`, the negation of `p`). */
  lemma {:induction false} ClassifyCountsFilter<T>(xs: seq<T>, p: T -> bool, q: T -> bool)
    requires forall x :: q(x) == !p(x)
    ensures Classify(xs, p).yes == |Filter(xs, p)|
    ensures Classify(xs, p).no == |Filter(xs, q)|
    decreases |xs|
  {
    if |xs| > 0 {
      var init := xs[..|xs| - 1];
      var last := xs[|xs| - 1];
      assert xs == init + [last];
      ClassifyCountsFilter(init, p, q);
      FilterAppend(init, [last], p);
      FilterAppend(init, [last], q);
    }
  }

  /** A pull request counts as open exactly when its state is the string "open". */
  predicate IsOpen(pull: Pull) {
    pull.state == "open"
  }

  predicate IsClosed(pull: Pull) {
    !IsOpen(pull)
  }

  predicate IsPrivate(repo: Repo) {
    repo.isPrivate
  }

  predicate IsPublic(repo: Repo) {
    !repo.isPrivate
  }

  /** The stars, forks and open-issues gauges of one repository, set in that order. */
  function FieldWrites(repo: Repo): (ws: seq<Write>)
    ensures |ws| == 3
    ensures forall w :: w in ws ==> w.labels == RepoLabels(repo) && RepositoryLevel(w.gauge)
    ensures ws[0] == Write(RepoStars, RepoLabels(repo), repo.stars)
    ensures ws[1] == Write(RepoForks, RepoLabels(repo), repo.forks)
    ensures ws[2] == Write(RepoOpenIssues, RepoLabels(repo), repo.openIssues)
  {
    var l := RepoLabels(repo);
    [Write(RepoStars, l, repo.stars), Write(RepoForks, l, repo.forks), Write(RepoOpenIssues, l, repo.openIssues)]
  }

  /** The organisation totals, set in the order repository count, private, public. */
  function TotalWrites(org: string, repositoryCount: int, tally: Tally): seq<Write> {
    var l := OrgLabels(org);
    [Write(RepoCount, l, repositoryCount), Write(RepoPrivateCount, l, tally.yes), Write(RepoPublicCount, l, tally.no)]
  }

  /** The totals are organisation-level gauges under the organisation's labels. */
  lemma TotalWritesLabels(org: string, repositoryCount: int, tally: Tally)
    ensures forall w :: w in TotalWrites(org, repositoryCount, tally) ==> w.labels == OrgLabels(org) && OrganisationLevel(w.gauge)
  {
  }

  /** True of the three organisation repository totals. */
  predicate RepoTotalGauge(g: Gauge) {
    g.RepoCount? || g.RepoPrivateCount? || g.RepoPublicCount?
  }

  /** The totals set after walking `repos`: the number of private and of
      public repositories among them. */
  function Totals(org: string, repositoryCount: int, repos: seq<Repo>): seq<Write> {
    TotalWrites(org, repositoryCount, Tally(|Filter(repos, IsPrivate)|, |Filter(repos, IsPublic)|))
  }

  /** The totals set only total gauges. */
  lemma TotalsAvoid(org: string, repositoryCount: int, repos: seq<Repo>, x: Series)
    requires !RepoTotalGauge(x.gauge)
    ensures forall n :: 0 <= n < |Totals(org, repositoryCount, repos)| ==> Totals(org, repositoryCount, repos)[n].Target() != x
  {
  }

  /** Whatever was set before them, after the totals the three organisation
      gauges read the totals. */
  lemma TotalsRead(s: Sink, prefix: seq<Write>, org: string, repositoryCount: int, repos: seq<Repo>)
    ensures var sink := Publish(s, prefix + Totals(org, repositoryCount, repos));
      && Read(sink, Series(RepoCount, OrgLabels(org))) == Some(repositoryCount)
      && Read(sink, Series(RepoPrivateCount, OrgLabels(org))) == Some(|Filter(repos, IsPrivate)|)
      && Read(sink, Series(RepoPublicCount, OrgLabels(org))) == Some(|Filter(repos, IsPublic)|)
  {
    var tail := Totals(org, repositoryCount, repos);
    PublishReadsTail(s, prefix, tail, 0);
    PublishReadsTail(s, prefix, tail, 1);
    PublishReadsTail(s, prefix, tail, 2);
  }

  /** None of the setter calls sets an organisation repository total. */
  ghost predicate SetsNoTotals(ws: seq<Write>) {
    forall i :: 0 <= i < |ws| ==> !RepoTotalGauge(ws[i].gauge)
  }

  lemma SetsNoTotalsAppend(a: seq<Write>, b: seq<Write>)
    requires SetsNoTotals(a) && SetsNoTotals(b)
    ensures SetsNoTotals(a + b)
  {
    forall i | 0 <= i < |a + b|
      ensures !RepoTotalGauge((a + b)[i].gauge)
    {
      if i >= |a| {
        assert (a + b)[i] == b[i - |a|];
      }
    }
  }

  /** Every repository-level gauge declares the labels `owner` and `repo` it is given. */
  lemma RepoLabelsDeclared(w: Write, repo: Repo)
    requires w.labels == RepoLabels(repo) && RepositoryLevel(w.gauge)
    ensures LabelledAsDeclared(w)
  {
    GaugeScopes(w.gauge);
    assert LabelNames(w.gauge)[0] == "owner" && LabelNames(w.gauge)[1] == "repo";
  }

  /** Every organisation-level gauge declares the label `owner` it is given. */
  lemma OrgLabelsDeclared(w: Write, org: string)
    requires w.labels == OrgLabels(org) && OrganisationLevel(w.gauge)
    ensures LabelledAsDeclared(w)
  {
    GaugeScopes(w.gauge);
    assert LabelNames(w.gauge)[0] == "owner";
  }
}
