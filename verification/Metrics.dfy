/**
  The gauge sink of the exporter (src/Metrics.ts): a registry of named gauges,
  each holding one value per label map, written only by overwriting setters.

  A time series is a (gauge, label map) pair and the sink maps every series that
  has been set to its last value. prom-client's exposition format, its label
  validation and its concurrency are not part of this model.
*/
module Metrics {
  import opened Wrappers

  /** The gauges of src/Metrics.ts, in declaration order, followed by the two
      per-repository review gauges that only src/metrics.js declares. */
  datatype Gauge =
    | RepoCount
    | RepoPublicCount
    | RepoPrivateCount
    | RepoStars
    | RepoForks
    | RepoOpenIssues
    | RepoPullRequests
    | RepoPullRequestsOpen
    | RepoPullRequestsClose
    | PullRequests
    | PullRequestsOpen
    | PullRequestsClose
    | PullRequestsOpenApproved
    | PullRequestsOpenWaitingApproval
    | PullRequestsMerged
    | RepoBranches
    | RepoPullRequestsOpenByReviewers
    | RepoPullRequestsCloseByReviewers
    | AuthorPullRequests
    | AuthorPullRequestsOpen
    | AuthorPullRequestsClose
    | PullRequestsComments
    | RepoPullRequestsOpenApproved
    | RepoPullRequestsOpenWaitingApproval

  /** The exposed metric name of each gauge. */
  function Name(g: Gauge): string {
    match g
    case RepoCount => "github_repo_count"
    case RepoPublicCount => "github_repo_public_count"
    case RepoPrivateCount => "github_repo_private_count"
    case RepoStars => "github_repo_stars_count"
    case RepoForks => "github_repo_forks_count"
    case RepoOpenIssues => "github_repo_open_issues_count"
    case RepoPullRequests => "github_repo_pull_requests_count"
    case RepoPullRequestsOpen => "github_repo_pull_requests_open_count"
    case RepoPullRequestsClose => "github_repo_pull_requests_close_count"
    case PullRequests => "github_pull_requests_count"
    case PullRequestsOpen => "github_pull_requests_open_count"
    case PullRequestsClose => "github_pull_requests_close_count"
    case PullRequestsOpenApproved => "github_pull_requests_open_approved_count"
    case PullRequestsOpenWaitingApproval => "github_pull_requests_open_waiting_approval_count"
    case PullRequestsMerged => "github_pull_requests_merged_count"
    case RepoBranches => "github_repo_branch_count"
    case RepoPullRequestsOpenByReviewers => "github_repo_pull_requests_open_by_reviewer_count"
    case RepoPullRequestsCloseByReviewers => "github_repo_pull_requests_close_by_reviewer_count"
    case AuthorPullRequests => "github_user_pull_requests_count"
    case AuthorPullRequestsOpen => "github_user_pull_requests_open_count"
    case AuthorPullRequestsClose => "github_user_pull_requests_close_count"
    case PullRequestsComments => "github_comments_on_pull_requests_count"
    case RepoPullRequestsOpenApproved => "github_repo_pull_requests_open_approved_count"
    case RepoPullRequestsOpenWaitingApproval => "github_repo_pull_requests_open_waiting_approval_count"
  }

  /** The label names each gauge is declared with. */
  function LabelNames(g: Gauge): seq<string> {
    match g
    case RepoCount => ["owner"]
    case RepoPublicCount => ["owner"]
    case RepoPrivateCount => ["owner"]
    case RepoStars => ["owner", "repo"]
    case RepoForks => ["owner", "repo"]
    case RepoOpenIssues => ["owner", "repo"]
    case RepoPullRequests => ["owner", "repo"]
    case RepoPullRequestsOpen => ["owner", "repo", "created_at"]
    case RepoPullRequestsClose => ["owner", "repo", "merged_at"]
    case PullRequests => ["owner"]
    case PullRequestsOpen => ["owner"]
    case PullRequestsClose => ["owner"]
    case PullRequestsOpenApproved => ["owner"]
    case PullRequestsOpenWaitingApproval => ["owner"]
    case PullRequestsMerged => ["owner"]
    case RepoBranches => ["owner", "repo"]
    case RepoPullRequestsOpenByReviewers => ["owner", "repo", "team", "reviewer"]
    case RepoPullRequestsCloseByReviewers => ["owner", "repo", "team", "reviewer"]
    case AuthorPullRequests => ["repo", "author", "team"]
    case AuthorPullRequestsOpen => ["repo", "author", "team"]
    case AuthorPullRequestsClose => ["repo", "author", "team"]
    case PullRequestsComments => ["repo", "prAuthor", "prAuthorTeam", "prNumber", "commentator", "commentatorTeam"]
    case RepoPullRequestsOpenApproved => ["owner", "repo"]
    case RepoPullRequestsOpenWaitingApproval => ["owner", "repo"]
  }

  /** The organisation-level gauges. */
  predicate OrganisationLevel(g: Gauge) {
    || g.RepoCount? || g.RepoPublicCount? || g.RepoPrivateCount?
    || g.PullRequests? || g.PullRequestsOpen? || g.PullRequestsClose?
    || g.PullRequestsOpenApproved? || g.PullRequestsOpenWaitingApproval? || g.PullRequestsMerged?
  }

  /** The per-repository gauges the extraction writes. */
  predicate RepositoryLevel(g: Gauge) {
    || g.RepoStars? || g.RepoForks? || g.RepoOpenIssues?
    || g.RepoPullRequests? || g.RepoPullRequestsOpen? || g.RepoPullRequestsClose?
    || g.RepoBranches? || g.RepoPullRequestsOpenApproved? || g.RepoPullRequestsOpenWaitingApproval?
  }

  /** A label map: label name to label value. */
  type Labels = map<string, string>

  /** One observable time series. */
  datatype Series = Series(gauge: Gauge, labels: Labels)

  /** The registry: the last value set for every series that has been set. */
  type Sink = map<Series, int>

  /** The current value of a series, or None if it was never set. */
  function Read(s: Sink, x: Series): Option<int> {
    if x in s then Some(s[x]) else None
  }

  /** `r` is `s` after overwriting series `x` with `v`: `x` reads `v` and every other series reads as before. */
  ghost predicate Overwrote(s: Sink, r: Sink, x: Series, v: int) {
    && Read(r, x) == Some(v)
    && forall y :: y != x ==> Read(r, y) == Read(s, y)
  }

  /** prom-client's `Gauge.set(labels, value)`: overwrite, never accumulate. */
  function Set(s: Sink, x: Series, v: int): (r: Sink)
    ensures Overwrote(s, r, x, v)
  {
    s[x := v]
  }

  // The 22 setters of the Metrics class, each overwriting its own gauge.

  function SetRepoGauge(s: Sink, labels: Labels, value: int): (r: Sink)
    ensures Overwrote(s, r, Series(RepoCount, labels), value)
  {
    Set(s, Series(RepoCount, labels), value)
  }

  function SetRepoPublicGauge(s: Sink, labels: Labels, value: int): (r: Sink)
    ensures Overwrote(s, r, Series(RepoPublicCount, labels), value)
  {
    Set(s, Series(RepoPublicCount, labels), value)
  }

  function SetRepoPrivateGauge(s: Sink, labels: Labels, value: int): (r: Sink)
    ensures Overwrote(s, r, Series(RepoPrivateCount, labels), value)
  {
    Set(s, Series(RepoPrivateCount, labels), value)
  }

  function SetRepoStarsGauge(s: Sink, labels: Labels, value: int): (r: Sink)
    ensures Overwrote(s, r, Series(RepoStars, labels), value)
  {
    Set(s, Series(RepoStars, labels), value)
  }

  function SetRepoForksGauge(s: Sink, labels: Labels, value: int): (r: Sink)
    ensures Overwrote(s, r, Series(RepoForks, labels), value)
  {
    Set(s, Series(RepoForks, labels), value)
  }

  function SetRepoOpenIssuesGauge(s: Sink, labels: Labels, value: int): (r: Sink)
    ensures Overwrote(s, r, Series(RepoOpenIssues, labels), value)
  {
    Set(s, Series(RepoOpenIssues, labels), value)
  }

  function SetRepoPullRequestsGauge(s: Sink, labels: Labels, value: int): (r: Sink)
    ensures Overwrote(s, r, Series(RepoPullRequests, labels), value)
  {
    Set(s, Series(RepoPullRequests, labels), value)
  }

  function SetRepoPullRequestsOpenGauge(s: Sink, labels: Labels, value: int): (r: Sink)
    ensures Overwrote(s, r, Series(RepoPullRequestsOpen, labels), value)
  {
    Set(s, Series(RepoPullRequestsOpen, labels), value)
  }

  function SetRepoPullRequestsCloseGauge(s: Sink, labels: Labels, value: int): (r: Sink)
    ensures Overwrote(s, r, Series(RepoPullRequestsClose, labels), value)
  {
    Set(s, Series(RepoPullRequestsClose, labels), value)
  }

  function SetPullRequestsGauge(s: Sink, labels: Labels, value: int): (r: Sink)
    ensures Overwrote(s, r, Series(PullRequests, labels), value)
  {
    Set(s, Series(PullRequests, labels), value)
  }

  function SetPullRequestsOpenGauge(s: Sink, labels: Labels, value: int): (r: Sink)
    ensures Overwrote(s, r, Series(PullRequestsOpen, labels), value)
  {
    Set(s, Series(PullRequestsOpen, labels), value)
  }

  function SetPullRequestsCloseGauge(s: Sink, labels: Labels, value: int): (r: Sink)
    ensures Overwrote(s, r, Series(PullRequestsClose, labels), value)
  {
    Set(s, Series(PullRequestsClose, labels), value)
  }

  function SetPullRequestsOpenApprovedGauge(s: Sink, labels: Labels, value: int): (r: Sink)
    ensures Overwrote(s, r, Series(PullRequestsOpenApproved, labels), value)
  {
    Set(s, Series(PullRequestsOpenApproved, labels), value)
  }

  function SetPullRequestsOpenWaitingApprovalGauge(s: Sink, labels: Labels, value: int): (r: Sink)
    ensures Overwrote(s, r, Series(PullRequestsOpenWaitingApproval, labels), value)
  {
    Set(s, Series(PullRequestsOpenWaitingApproval, labels), value)
  }

  function SetPullRequestsMergedGauge(s: Sink, labels: Labels, value: int): (r: Sink)
    ensures Overwrote(s, r, Series(PullRequestsMerged, labels), value)
  {
    Set(s, Series(PullRequestsMerged, labels), value)
  }

  function SetRepoBranchesGauge(s: Sink, labels: Labels, value: int): (r: Sink)
    ensures Overwrote(s, r, Series(RepoBranches, labels), value)
  {
    Set(s, Series(RepoBranches, labels), value)
  }

  function SetRepoPullRequestsOpenByReviewersGauge(s: Sink, labels: Labels, value: int): (r: Sink)
    ensures Overwrote(s, r, Series(RepoPullRequestsOpenByReviewers, labels), value)
  {
    Set(s, Series(RepoPullRequestsOpenByReviewers, labels), value)
  }

  function SetRepoPullRequestsCloseByReviewersGauge(s: Sink, labels: Labels, value: int): (r: Sink)
    ensures Overwrote(s, r, Series(RepoPullRequestsCloseByReviewers, labels), value)
  {
    Set(s, Series(RepoPullRequestsCloseByReviewers, labels), value)
  }

  function SetAuthorPullRequestCloseGauge(s: Sink, labels: Labels, value: int): (r: Sink)
    ensures Overwrote(s, r, Series(AuthorPullRequestsClose, labels), value)
  {
    Set(s, Series(AuthorPullRequestsClose, labels), value)
  }

  function SetAuthorPullRequestOpenGauge(s: Sink, labels: Labels, value: int): (r: Sink)
    ensures Overwrote(s, r, Series(AuthorPullRequestsOpen, labels), value)
  {
    Set(s, Series(AuthorPullRequestsOpen, labels), value)
  }

  function SetAuthorPullRequestGauge(s: Sink, labels: Labels, value: int): (r: Sink)
    ensures Overwrote(s, r, Series(AuthorPullRequests, labels), value)
  {
    Set(s, Series(AuthorPullRequests, labels), value)
  }

  function SetPullRequestsCommentsGauge(s: Sink, labels: Labels, value: int): (r: Sink)
    ensures Overwrote(s, r, Series(PullRequestsComments, labels), value)
  {
    Set(s, Series(PullRequestsComments, labels), value)
  }

  /** One call of a setter: the gauge, the label map supplied and the value. */
  datatype Write = Write(gauge: Gauge, labels: Labels, value: int) {
    function Target(): Series { Series(gauge, labels) }
  }

  /** A write whose label names are all among those its gauge declares. */
  predicate LabelledAsDeclared(w: Write) {
    forall k :: k in w.labels ==> k in LabelNames(w.gauge)
  }

  /** Performs one write through the setter of its gauge; the two gauges that
      only src/metrics.js declares are set on the gauge directly. */
  function Apply(s: Sink, w: Write): (r: Sink)
    ensures Overwrote(s, r, w.Target(), w.value)
  {
    match w.gauge
    case RepoCount => SetRepoGauge(s, w.labels, w.value)
    case RepoPublicCount => SetRepoPublicGauge(s, w.labels, w.value)
    case RepoPrivateCount => SetRepoPrivateGauge(s, w.labels, w.value)
    case RepoStars => SetRepoStarsGauge(s, w.labels, w.value)
    case RepoForks => SetRepoForksGauge(s, w.labels, w.value)
    case RepoOpenIssues => SetRepoOpenIssuesGauge(s, w.labels, w.value)
    case RepoPullRequests => SetRepoPullRequestsGauge(s, w.labels, w.value)
    case RepoPullRequestsOpen => SetRepoPullRequestsOpenGauge(s, w.labels, w.value)
    case RepoPullRequestsClose => SetRepoPullRequestsCloseGauge(s, w.labels, w.value)
    case PullRequests => SetPullRequestsGauge(s, w.labels, w.value)
    case PullRequestsOpen => SetPullRequestsOpenGauge(s, w.labels, w.value)
    case PullRequestsClose => SetPullRequestsCloseGauge(s, w.labels, w.value)
    case PullRequestsOpenApproved => SetPullRequestsOpenApprovedGauge(s, w.labels, w.value)
    case PullRequestsOpenWaitingApproval => SetPullRequestsOpenWaitingApprovalGauge(s, w.labels, w.value)
    case PullRequestsMerged => SetPullRequestsMergedGauge(s, w.labels, w.value)
    case RepoBranches => SetRepoBranchesGauge(s, w.labels, w.value)
    case RepoPullRequestsOpenByReviewers => SetRepoPullRequestsOpenByReviewersGauge(s, w.labels, w.value)
    case RepoPullRequestsCloseByReviewers => SetRepoPullRequestsCloseByReviewersGauge(s, w.labels, w.value)
    case AuthorPullRequests => SetAuthorPullRequestGauge(s, w.labels, w.value)
    case AuthorPullRequestsOpen => SetAuthorPullRequestOpenGauge(s, w.labels, w.value)
    case AuthorPullRequestsClose => SetAuthorPullRequestCloseGauge(s, w.labels, w.value)
    case PullRequestsComments => SetPullRequestsCommentsGauge(s, w.labels, w.value)
    case RepoPullRequestsOpenApproved => Set(s, w.Target(), w.value)
    case RepoPullRequestsOpenWaitingApproval => Set(s, w.Target(), w.value)
  }

  /** Performs the writes in order. */
  function Publish(s: Sink, ws: seq<Write>): Sink
    decreases |ws|
  {
    if |ws| == 0 then s else Apply(Publish(s, ws[..|ws| - 1]), ws[|ws| - 1])
  }

  /** The value of the last write in `ws` that targets `x`, if any. */
  function LastWrite(ws: seq<Write>, x: Series): Option<int>
    decreases |ws|
  {
    if |ws| == 0 then None
    else if ws[|ws| - 1].Target() == x then Some(ws[|ws| - 1].value)
    else LastWrite(ws[..|ws| - 1], x)
  }

  /** True iff some write in `ws` targets `x`. */
  predicate Touches(ws: seq<Write>, x: Series) {
    exists i :: 0 <= i < |ws| && ws[i].Target() == x
  }

  /** Two sinks in which every series reads the same are the same sink. */
  lemma SinkExtensional(a: Sink, b: Sink)
    requires forall x :: Read(a, x) == Read(b, x)
    ensures a == b
  {
    forall x
      ensures x in a <==> x in b
    {
      assert Read(a, x) == Read(b, x);
    }
    forall x | x in a
      ensures a[x] == b[x]
    {
      assert Read(a, x) == Read(b, x);
    }
  }

  /** Last write wins: a second set of the same series discards the first value. */
  lemma SetLastWriteWins(s: Sink, x: Series, v1: int, v2: int)
    ensures Set(Set(s, x, v1), x, v2) == Set(s, x, v2)
  {
    SinkExtensional(Set(Set(s, x, v1), x, v2), Set(s, x, v2));
  }

  /** Setting the same value twice has the effect of setting it once. */
  lemma SetIdempotent(s: Sink, x: Series, v: int)
    ensures Set(Set(s, x, v), x, v) == Set(s, x, v)
  {
    SetLastWriteWins(s, x, v, v);
  }

  /** Writes to distinct series (another gauge, or the same gauge under other labels) are independent. */
  lemma SetIndependent(s: Sink, x: Series, y: Series, a: int, b: int)
    requires x != y
    ensures Set(Set(s, x, a), y, b) == Set(Set(s, y, b), x, a)
    ensures Read(Set(Set(s, x, a), y, b), x) == Some(a)
  {
    SinkExtensional(Set(Set(s, x, a), y, b), Set(Set(s, y, b), x, a));
  }

  /** After a sequence of writes a series reads the last value written to it, or its old value if none targets it. */
  lemma {:induction false} PublishRead(s: Sink, ws: seq<Write>, x: Series)
    ensures Read(Publish(s, ws), x) == (if LastWrite(ws, x).Some? then LastWrite(ws, x) else Read(s, x))
    ensures LastWrite(ws, x).Some? <==> Touches(ws, x)
    decreases |ws|
  {
    if |ws| > 0 {
      var init := ws[..|ws| - 1];
      PublishRead(s, init, x);
      if !(ws[|ws| - 1].Target() == x) && Touches(ws, x) {
        var i :| 0 <= i < |ws| && ws[i].Target() == x;
        assert init[i].Target() == x;
      }
      if Touches(init, x) {
        var i :| 0 <= i < |init| && init[i].Target() == x;
        assert ws[i].Target() == x;
      }
    }
  }

  /** The last write to a series in a concatenation comes from the second part if it touches the series. */
  lemma {:induction false} LastWriteAppend(a: seq<Write>, b: seq<Write>, x: Series)
    ensures LastWrite(a + b, x) == (if LastWrite(b, x).Some? then LastWrite(b, x) else LastWrite(a, x))
    decreases |b|
  {
    if |b| == 0 {
      assert a + b == a;
    } else {
      assert (a + b)[..|a + b| - 1] == a + b[..|b| - 1];
      assert (a + b)[|a + b| - 1] == b[|b| - 1];
      LastWriteAppend(a, b[..|b| - 1], x);
    }
  }

  /** A write that no later write overrides is the one a series reads after publication. */
  lemma {:induction false} LastWriteSole(ws: seq<Write>, i: nat, x: Series)
    requires i < |ws| && ws[i].Target() == x
    requires forall j :: i < j < |ws| ==> ws[j].Target() != x
    ensures LastWrite(ws, x) == Some(ws[i].value)
    decreases |ws|
  {
    if i < |ws| - 1 {
      LastWriteSole(ws[..|ws| - 1], i, x);
    }
  }

  /** A write in an appended batch that the rest of the batch does not override
      is what its series reads, whatever was published before the batch. */
  lemma PublishReadsTail(s: Sink, prefix: seq<Write>, tail: seq<Write>, i: nat)
    requires i < |tail|
    requires forall j :: i < j < |tail| ==> tail[j].Target() != tail[i].Target()
    ensures Read(Publish(s, prefix + tail), tail[i].Target()) == Some(tail[i].value)
  {
    var x := tail[i].Target();
    LastWriteSole(tail, i, x);
    LastWriteAppend(prefix, tail, x);
    PublishRead(s, prefix + tail, x);
  }

  /** A batch that writes no series x leaves what x reads unchanged. */
  lemma PublishIgnoresUntouching(s: Sink, a: seq<Write>, b: seq<Write>, x: Series)
    requires forall j :: 0 <= j < |b| ==> b[j].Target() != x
    ensures Read(Publish(s, a + b), x) == Read(Publish(s, a), x)
  {
    PublishAppend(s, a, b);
    PublishRead(Publish(s, a), b, x);
  }

  /** Publishing two batches one after the other is publishing their concatenation. */
  lemma {:induction false} PublishAppend(s: Sink, a: seq<Write>, b: seq<Write>)
    ensures Publish(s, a + b) == Publish(Publish(s, a), b)
    decreases |b|
  {
    if |b| > 0 {
      assert (a + b)[..|a + b| - 1] == a + b[..|b| - 1];
      assert (a + b)[|a + b| - 1] == b[|b| - 1];
      PublishAppend(s, a, b[..|b| - 1]);
    } else {
      assert a + b == a;
    }
  }

  /** Two batches that target no common series may be published in either order. */
  lemma PublishDisjointCommute(s: Sink, a: seq<Write>, b: seq<Write>)
    requires forall i, j :: 0 <= i < |a| && 0 <= j < |b| ==> a[i].Target() != b[j].Target()
    ensures Publish(s, a + b) == Publish(s, b + a)
  {
    forall x
      ensures Read(Publish(s, a + b), x) == Read(Publish(s, b + a), x)
    {
      PublishRead(s, a + b, x);
      PublishRead(s, b + a, x);
      PublishAppend(s, a, b);
      PublishAppend(s, b, a);
      PublishRead(s, a, x);
      PublishRead(s, b, x);
      PublishRead(Publish(s, a), b, x);
      PublishRead(Publish(s, b), a, x);
    }
    SinkExtensional(Publish(s, a + b), Publish(s, b + a));
  }

  /** The gauge a metric name belongs to, if any (names are told apart by length first). */
  function GaugeNamed(n: string): Option<Gauge> {
    if |n| == 17 then
      if n == "github_repo_count" then Some(RepoCount) else None
    else if |n| == 23 then
      if n == "github_repo_stars_count" then Some(RepoStars) else if n == "github_repo_forks_count" then Some(RepoForks) else None
    else if |n| == 24 then
      if n == "github_repo_public_count" then Some(RepoPublicCount) else if n == "github_repo_branch_count" then Some(RepoBranches) else None
    else if |n| == 25 then
      if n == "github_repo_private_count" then Some(RepoPrivateCount) else None
    else if |n| == 26 then
      if n == "github_pull_requests_count" then Some(PullRequests) else None
    else if |n| == 29 then
      if n == "github_repo_open_issues_count" then Some(RepoOpenIssues) else None
    else if |n| == 31 then
      if n == "github_repo_pull_requests_count" then Some(RepoPullRequests) else if n == "github_pull_requests_open_count" then Some(PullRequestsOpen) else if n == "github_user_pull_requests_count" then Some(AuthorPullRequests) else None
    else if |n| == 32 then
      if n == "github_pull_requests_close_count" then Some(PullRequestsClose) else None
    else if |n| == 33 then
      if n == "github_pull_requests_merged_count" then Some(PullRequestsMerged) else None
    else if |n| == 36 then
      if n == "github_repo_pull_requests_open_count" then Some(RepoPullRequestsOpen) else if n == "github_user_pull_requests_open_count" then Some(AuthorPullRequestsOpen) else None
    else if |n| == 37 then
      if n == "github_repo_pull_requests_close_count" then Some(RepoPullRequestsClose) else if n == "github_user_pull_requests_close_count" then Some(AuthorPullRequestsClose) else None
    else if |n| == 38 then
      if n == "github_comments_on_pull_requests_count" then Some(PullRequestsComments) else None
    else if |n| == 40 then
      if n == "github_pull_requests_open_approved_count" then Some(PullRequestsOpenApproved) else None
    else if |n| == 45 then
      if n == "github_repo_pull_requests_open_approved_count" then Some(RepoPullRequestsOpenApproved) else None
    else if |n| == 48 then
      if n == "github_pull_requests_open_waiting_approval_count" then Some(PullRequestsOpenWaitingApproval) else if n == "github_repo_pull_requests_open_by_reviewer_count" then Some(RepoPullRequestsOpenByReviewers) else None
    else if |n| == 49 then
      if n == "github_repo_pull_requests_close_by_reviewer_count" then Some(RepoPullRequestsCloseByReviewers) else None
    else if |n| == 53 then
      if n == "github_repo_pull_requests_open_waiting_approval_count" then Some(RepoPullRequestsOpenWaitingApproval) else None
    else None
  }

  /** Each gauge, one at a time, is found again from its name. */
  lemma RepoCountNamed()
    ensures GaugeNamed(Name(RepoCount)) == Some(RepoCount)
  {
    assert |Name(RepoCount)| == 17;
  }

  lemma RepoPublicCountNamed()
    ensures GaugeNamed(Name(RepoPublicCount)) == Some(RepoPublicCount)
  {
    assert |Name(RepoPublicCount)| == 24 && Name(RepoPublicCount)[12] != "github_repo_branch_count"[12];
  }

  lemma RepoPrivateCountNamed()
    ensures GaugeNamed(Name(RepoPrivateCount)) == Some(RepoPrivateCount)
  {
    assert |Name(RepoPrivateCount)| == 25;
  }

  lemma RepoStarsNamed()
    ensures GaugeNamed(Name(RepoStars)) == Some(RepoStars)
  {
    assert |Name(RepoStars)| == 23 && Name(RepoStars)[12] != "github_repo_forks_count"[12];
  }

  lemma RepoForksNamed()
    ensures GaugeNamed(Name(RepoForks)) == Some(RepoForks)
  {
    assert |Name(RepoForks)| == 23 && Name(RepoForks)[12] != "github_repo_stars_count"[12];
  }

  lemma RepoOpenIssuesNamed()
    ensures GaugeNamed(Name(RepoOpenIssues)) == Some(RepoOpenIssues)
  {
    assert |Name(RepoOpenIssues)| == 29;
  }

  lemma RepoPullRequestsNamed()
    ensures GaugeNamed(Name(RepoPullRequests)) == Some(RepoPullRequests)
  {
    assert |Name(RepoPullRequests)| == 31 && Name(RepoPullRequests)[7] != "github_pull_requests_open_count"[7] && Name(RepoPullRequests)[7] != "github_user_pull_requests_count"[7];
  }

  lemma RepoPullRequestsOpenNamed()
    ensures GaugeNamed(Name(RepoPullRequestsOpen)) == Some(RepoPullRequestsOpen)
  {
    assert |Name(RepoPullRequestsOpen)| == 36 && Name(RepoPullRequestsOpen)[7] != "github_user_pull_requests_open_count"[7];
  }

  lemma RepoPullRequestsCloseNamed()
    ensures GaugeNamed(Name(RepoPullRequestsClose)) == Some(RepoPullRequestsClose)
  {
    assert |Name(RepoPullRequestsClose)| == 37 && Name(RepoPullRequestsClose)[7] != "github_user_pull_requests_close_count"[7];
  }

  lemma PullRequestsNamed()
    ensures GaugeNamed(Name(PullRequests)) == Some(PullRequests)
  {
    assert |Name(PullRequests)| == 26;
  }

  lemma PullRequestsOpenNamed()
    ensures GaugeNamed(Name(PullRequestsOpen)) == Some(PullRequestsOpen)
  {
    assert |Name(PullRequestsOpen)| == 31 && Name(PullRequestsOpen)[7] != "github_repo_pull_requests_count"[7] && Name(PullRequestsOpen)[7] != "github_user_pull_requests_count"[7];
  }

  lemma PullRequestsCloseNamed()
    ensures GaugeNamed(Name(PullRequestsClose)) == Some(PullRequestsClose)
  {
    assert |Name(PullRequestsClose)| == 32;
  }

  lemma PullRequestsOpenApprovedNamed()
    ensures GaugeNamed(Name(PullRequestsOpenApproved)) == Some(PullRequestsOpenApproved)
  {
    assert |Name(PullRequestsOpenApproved)| == 40;
  }

  lemma PullRequestsOpenWaitingApprovalNamed()
    ensures GaugeNamed(Name(PullRequestsOpenWaitingApproval)) == Some(PullRequestsOpenWaitingApproval)
  {
    assert |Name(PullRequestsOpenWaitingApproval)| == 48 && Name(PullRequestsOpenWaitingApproval)[7] != "github_repo_pull_requests_open_by_reviewer_count"[7];
  }

  lemma PullRequestsMergedNamed()
    ensures GaugeNamed(Name(PullRequestsMerged)) == Some(PullRequestsMerged)
  {
    assert |Name(PullRequestsMerged)| == 33;
  }

  lemma RepoBranchesNamed()
    ensures GaugeNamed(Name(RepoBranches)) == Some(RepoBranches)
  {
    assert |Name(RepoBranches)| == 24 && Name(RepoBranches)[12] != "github_repo_public_count"[12];
  }

  lemma RepoPullRequestsOpenByReviewersNamed()
    ensures GaugeNamed(Name(RepoPullRequestsOpenByReviewers)) == Some(RepoPullRequestsOpenByReviewers)
  {
    assert |Name(RepoPullRequestsOpenByReviewers)| == 48 && Name(RepoPullRequestsOpenByReviewers)[7] != "github_pull_requests_open_waiting_approval_count"[7];
  }

  lemma RepoPullRequestsCloseByReviewersNamed()
    ensures GaugeNamed(Name(RepoPullRequestsCloseByReviewers)) == Some(RepoPullRequestsCloseByReviewers)
  {
    assert |Name(RepoPullRequestsCloseByReviewers)| == 49;
  }

  lemma AuthorPullRequestsNamed()
    ensures GaugeNamed(Name(AuthorPullRequests)) == Some(AuthorPullRequests)
  {
    assert |Name(AuthorPullRequests)| == 31 && Name(AuthorPullRequests)[7] != "github_repo_pull_requests_count"[7] && Name(AuthorPullRequests)[7] != "github_pull_requests_open_count"[7];
  }

  lemma AuthorPullRequestsOpenNamed()
    ensures GaugeNamed(Name(AuthorPullRequestsOpen)) == Some(AuthorPullRequestsOpen)
  {
    assert |Name(AuthorPullRequestsOpen)| == 36 && Name(AuthorPullRequestsOpen)[7] != "github_repo_pull_requests_open_count"[7];
  }

  lemma AuthorPullRequestsCloseNamed()
    ensures GaugeNamed(Name(AuthorPullRequestsClose)) == Some(AuthorPullRequestsClose)
  {
    assert |Name(AuthorPullRequestsClose)| == 37 && Name(AuthorPullRequestsClose)[7] != "github_repo_pull_requests_close_count"[7];
  }

  lemma PullRequestsCommentsNamed()
    ensures GaugeNamed(Name(PullRequestsComments)) == Some(PullRequestsComments)
  {
    assert |Name(PullRequestsComments)| == 38;
  }

  lemma RepoPullRequestsOpenApprovedNamed()
    ensures GaugeNamed(Name(RepoPullRequestsOpenApproved)) == Some(RepoPullRequestsOpenApproved)
  {
    assert |Name(RepoPullRequestsOpenApproved)| == 45;
  }

  lemma RepoPullRequestsOpenWaitingApprovalNamed()
    ensures GaugeNamed(Name(RepoPullRequestsOpenWaitingApproval)) == Some(RepoPullRequestsOpenWaitingApproval)
  {
    assert |Name(RepoPullRequestsOpenWaitingApproval)| == 53;
  }

  /** Every gauge is found again from its metric name. */
  lemma GaugeNamedInvertsName(g: Gauge)
    ensures GaugeNamed(Name(g)) == Some(g)
  {
    match g
    case RepoCount => RepoCountNamed();
    case RepoPublicCount => RepoPublicCountNamed();
    case RepoPrivateCount => RepoPrivateCountNamed();
    case RepoStars => RepoStarsNamed();
    case RepoForks => RepoForksNamed();
    case RepoOpenIssues => RepoOpenIssuesNamed();
    case RepoPullRequests => RepoPullRequestsNamed();
    case RepoPullRequestsOpen => RepoPullRequestsOpenNamed();
    case RepoPullRequestsClose => RepoPullRequestsCloseNamed();
    case PullRequests => PullRequestsNamed();
    case PullRequestsOpen => PullRequestsOpenNamed();
    case PullRequestsClose => PullRequestsCloseNamed();
    case PullRequestsOpenApproved => PullRequestsOpenApprovedNamed();
    case PullRequestsOpenWaitingApproval => PullRequestsOpenWaitingApprovalNamed();
    case PullRequestsMerged => PullRequestsMergedNamed();
    case RepoBranches => RepoBranchesNamed();
    case RepoPullRequestsOpenByReviewers => RepoPullRequestsOpenByReviewersNamed();
    case RepoPullRequestsCloseByReviewers => RepoPullRequestsCloseByReviewersNamed();
    case AuthorPullRequests => AuthorPullRequestsNamed();
    case AuthorPullRequestsOpen => AuthorPullRequestsOpenNamed();
    case AuthorPullRequestsClose => AuthorPullRequestsCloseNamed();
    case PullRequestsComments => PullRequestsCommentsNamed();
    case RepoPullRequestsOpenApproved => RepoPullRequestsOpenApprovedNamed();
    case RepoPullRequestsOpenWaitingApproval => RepoPullRequestsOpenWaitingApprovalNamed();
  }

  /** No two gauges share a metric name, so no two setters alias one time series. */
  lemma GaugeNamesDistinct(g1: Gauge, g2: Gauge)
    requires g1 != g2
    ensures Name(g1) != Name(g2)
  {
    GaugeNamedInvertsName(g1);
    GaugeNamedInvertsName(g2);
  }

  /** Organisation-level gauges carry the single label `owner`; the repository-level
      gauges are labelled `owner` and `repo` first. */
  lemma GaugeScopes(g: Gauge)
    ensures OrganisationLevel(g) <==> LabelNames(g) == ["owner"]
    ensures RepositoryLevel(g) ==> |LabelNames(g)| >= 2 && LabelNames(g)[..2] == ["owner", "repo"]
  {
  }
}
