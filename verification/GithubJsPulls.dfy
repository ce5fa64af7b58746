/**
  `processPulls` of src/github.js: four searches about one repository, each
  setting one per-repository gauge when it answers, and a pull request total
  that adds the open and the closed counts.

  As written, the four search promises are pushed as one array element, so
  `Promise.all` has nothing to wait for and the total is set before any search
  answered: it is always 0. The corrected pass awaits the four searches and
  sets the total to the open count plus the closed count.
*/
module GithubJsPulls {
  import opened Wrappers
  import opened Metrics
  import opened GithubRepository
  import opened Extraction
  import opened GithubJs

  /** The four searches about one repository. */
  datatype RepoQuery = RepoOpen | RepoClosed | RepoOpenApproved | RepoOpenUnreviewed

  /** The search strings as src/github.js writes them, the stray space after
      `repo:` of the closed search included. */
  function RepoQueryString(repo: Repo, k: RepoQuery): string {
    match k
    case RepoOpen => "repo:" + repo.fullName + " is:open"
    case RepoClosed => "repo: " + repo.fullName + " is:pr is:closed"
    case RepoOpenApproved => "repo:" + repo.fullName + " is:pr is:open review:approved"
    case RepoOpenUnreviewed => "repo:" + repo.fullName + " is:pr is:open review:none"
  }

  /** The four searches of a repository are four different queries: each
      suffix has its own length. */
  lemma RepoQueryStringsDistinct(repo: Repo, k1: RepoQuery, k2: RepoQuery)
    ensures RepoQueryString(repo, k1) == RepoQueryString(repo, k2) <==> k1 == k2
    ensures RepoQueryString(repo, k1)[..5] == "repo:"
  {
    var n := |repo.fullName|;
    assert |RepoQueryString(repo, RepoOpen)| == n + 13;
    assert |RepoQueryString(repo, RepoClosed)| == n + 22;
    assert |RepoQueryString(repo, RepoOpenApproved)| == n + 35;
    assert |RepoQueryString(repo, RepoOpenUnreviewed)| == n + 31;
  }

  /** The gauge each search sets. */
  function RepoQueryGauge(k: RepoQuery): (g: Gauge)
    ensures RepositoryLevel(g) && g != RepoPullRequests
  {
    match k
    case RepoOpen => RepoPullRequestsOpen
    case RepoClosed => RepoPullRequestsClose
    case RepoOpenApproved => RepoPullRequestsOpenApproved
    case RepoOpenUnreviewed => RepoPullRequestsOpenWaitingApproval
  }

  /** No two searches set the same gauge. */
  lemma RepoQueryGaugeInjective(k1: RepoQuery, k2: RepoQuery)
    ensures RepoQueryGauge(k1) == RepoQueryGauge(k2) <==> k1 == k2
  {
  }

  /** The count one search reports, with a page size of 1. */
  function SearchCount(api: Api, repo: Repo, k: RepoQuery): Result<int, ApiError> {
    GetCountOfIssueAndPullRequest(api, RepoQueryString(repo, k))
  }

  /** One search and its callback: the gauge is set only when the search answers. */
  function SearchRun(api: Api, repo: Repo, k: RepoQuery): (r: Run)
    ensures r.Completed() <==> api.search(SearchRequest(RepoQueryString(repo, k), 1)).Success?
    ensures |r.writes| <= 1
    ensures forall w :: w in r.writes ==> w.gauge == RepoQueryGauge(k) && w.labels == RepoLabels(repo)
  {
    match SearchCount(api, repo, k)
    case Success(n) => Emit([Write(RepoQueryGauge(k), RepoLabels(repo), n)])
    case Failure(e) => Abort(e)
  }

  /** The four searches in the order they are started. */
  function SearchRuns(api: Api, repo: Repo): seq<Run> {
    [SearchRun(api, repo, RepoOpen), SearchRun(api, repo, RepoClosed),
     SearchRun(api, repo, RepoOpenApproved), SearchRun(api, repo, RepoOpenUnreviewed)]
  }

  /** What a search's callback adds to `pull_count`: its count if it answered,
      nothing otherwise. */
  function Counted(api: Api, repo: Repo, k: RepoQuery): int {
    match SearchCount(api, repo, k)
    case Success(n) => n
    case Failure(_) => 0
  }

  /** The series of the pull request total of a repository. */
  function TotalSeries(repo: Repo): Series {
    Series(RepoPullRequests, RepoLabels(repo))
  }

  /** The series a search of a repository sets. */
  function SearchSeries(repo: Repo, k: RepoQuery): Series {
    Series(RepoQueryGauge(k), RepoLabels(repo))
  }

  /** The four searches started together and awaited: the gauges they set,
      in start order, and the first failure among them. */
  function Searches(api: Api, repo: Repo): Run {
    var o, c := SearchRun(api, repo, RepoOpen), SearchRun(api, repo, RepoClosed);
    var a, u := SearchRun(api, repo, RepoOpenApproved), SearchRun(api, repo, RepoOpenUnreviewed);
    Run(o.writes + c.writes + a.writes + u.writes,
        if o.error.Some? then o.error else if c.error.Some? then c.error else if a.error.Some? then a.error else u.error)
  }

  /** `processPulls` as written: the total is set while `pull_count` is still
      0, then each search that answers sets its gauge; it always resolves. */
  function ProcessPullsJs(api: Api, repo: Repo): Run {
    Run([Write(RepoPullRequests, RepoLabels(repo), 0)] + Searches(api, repo).writes, None)
  }

  /** `processPulls` awaiting its four searches: once all of them answered the
      total is set to the open count plus the closed count; if one fails the
      total is not set. */
  function ProcessPullsJsCorrected(api: Api, repo: Repo): Run {
    Then(Searches(api, repo),
         Emit([Write(RepoPullRequests, RepoLabels(repo), Counted(api, repo, RepoOpen) + Counted(api, repo, RepoClosed))]))
  }

  /** The four searches behave as the group of their runs, in start order. */
  lemma SearchesGathered(api: Api, repo: Repo)
    ensures Searches(api, repo) == Gather(SearchRuns(api, repo))
  {
    var runs := SearchRuns(api, repo);
    assert Gather(runs[3..]) == Run(runs[3].writes, runs[3].error) by {
      assert runs[3..][1..] == [];
      assert runs[3..][0] == runs[3];
      assert runs[3].writes + [] == runs[3].writes;
    }
    assert Gather(runs[2..]) == Run(runs[2].writes + runs[3].writes, if runs[2].error.Some? then runs[2].error else runs[3].error) by {
      assert runs[2..][1..] == runs[3..] && runs[2..][0] == runs[2];
    }
    assert Gather(runs[1..]).writes == runs[1].writes + (runs[2].writes + runs[3].writes) by {
      assert runs[1..][1..] == runs[2..] && runs[1..][0] == runs[1];
    }
    assert Gather(runs[1..]).error == if runs[1].error.Some? then runs[1].error else Gather(runs[2..]).error by {
      assert runs[1..][1..] == runs[2..] && runs[1..][0] == runs[1];
    }
    AppendAssociative(runs[0].writes, runs[1].writes, runs[2].writes + runs[3].writes);
    AppendAssociative(runs[0].writes + runs[1].writes, runs[2].writes, runs[3].writes);
  }

  /** The searches resolve together exactly when each of them answers. */
  lemma SearchesComplete(api: Api, repo: Repo)
    ensures Searches(api, repo).Completed() <==> forall k :: SearchCount(api, repo, k).Success?
  {
    if Searches(api, repo).Completed() {
      forall k
        ensures SearchCount(api, repo, k).Success?
      {
        assert SearchRun(api, repo, k).Completed();
      }
    }
  }

  /** A series no search sets is set by none of them. */
  lemma SearchWritesAvoid(api: Api, repo: Repo, x: Series)
    requires forall k :: x != SearchSeries(repo, k)
    ensures forall n :: 0 <= n < |Searches(api, repo).writes| ==> Searches(api, repo).writes[n].Target() != x
  {
    var ws := Searches(api, repo).writes;
    forall n | 0 <= n < |ws|
      ensures ws[n].Target() != x
    {
      var k :| ws[n] in SearchRun(api, repo, k).writes by {
        assert ws[n] in ws;
        if ws[n] in SearchRun(api, repo, RepoOpen).writes {
        } else if ws[n] in SearchRun(api, repo, RepoClosed).writes {
        } else if ws[n] in SearchRun(api, repo, RepoOpenApproved).writes {
        } else {
          assert ws[n] in SearchRun(api, repo, RepoOpenUnreviewed).writes;
        }
      }
      assert ws[n].Target() == SearchSeries(repo, k);
    }
  }

  /** The searches other than k set nothing k's gauge reads. */
  lemma OtherSearchesAvoid(api: Api, repo: Repo, k: RepoQuery, k': RepoQuery)
    requires k != k'
    ensures forall n :: 0 <= n < |SearchRun(api, repo, k').writes| ==> SearchRun(api, repo, k').writes[n].Target() != SearchSeries(repo, k)
  {
    forall n | 0 <= n < |SearchRun(api, repo, k').writes|
      ensures SearchRun(api, repo, k').writes[n].Target() != SearchSeries(repo, k)
    {
      assert SearchRun(api, repo, k').writes[n] in SearchRun(api, repo, k').writes;
      RepoQueryGaugeInjective(k, k');
    }
  }

  /** A write that nothing after it overrides is what its series reads. */
  lemma ReadsOwnWrite(s: Sink, a: seq<Write>, w: Write, c: seq<Write>)
    requires forall j :: 0 <= j < |c| ==> c[j].Target() != w.Target()
    ensures Read(Publish(s, a + [w] + c), w.Target()) == Some(w.value)
  {
    PublishIgnoresUntouching(s, a + [w], c, w.Target());
    PublishReadsTail(s, a, [w], 0);
  }

  /** The last value search k' gives series x: its count if it is the search
      that sets x and it answered, none otherwise. */
  lemma SearchLastWrite(api: Api, repo: Repo, k: RepoQuery, k': RepoQuery)
    ensures LastWrite(SearchRun(api, repo, k').writes, SearchSeries(repo, k))
         == if k == k' && SearchCount(api, repo, k).Success? then Some(SearchCount(api, repo, k).value) else None
  {
    RepoQueryGaugeInjective(k, k');
  }

  /** After the four searches, the gauge of a search that answered reads its count. */
  lemma SearchGaugeRead(s: Sink, pre: seq<Write>, post: seq<Write>, api: Api, repo: Repo, k: RepoQuery)
    requires SearchCount(api, repo, k).Success?
    requires forall j :: 0 <= j < |post| ==> post[j].Target() != SearchSeries(repo, k)
    ensures Read(Publish(s, pre + Searches(api, repo).writes + post), SearchSeries(repo, k)) == Some(SearchCount(api, repo, k).value)
  {
    var x := SearchSeries(repo, k);
    var w0, w1 := SearchRun(api, repo, RepoOpen).writes, SearchRun(api, repo, RepoClosed).writes;
    var w2, w3 := SearchRun(api, repo, RepoOpenApproved).writes, SearchRun(api, repo, RepoOpenUnreviewed).writes;
    SearchLastWrite(api, repo, k, RepoOpen);
    SearchLastWrite(api, repo, k, RepoClosed);
    SearchLastWrite(api, repo, k, RepoOpenApproved);
    SearchLastWrite(api, repo, k, RepoOpenUnreviewed);
    LastWriteAppend(w0, w1, x);
    LastWriteAppend(w0 + w1, w2, x);
    LastWriteAppend(w0 + w1 + w2, w3, x);
    LastWriteAppend(pre, w0 + w1 + w2 + w3, x);
    PublishRead(s, post, x);
    LastWriteAppend(pre + Searches(api, repo).writes, post, x);
    PublishRead(s, pre + Searches(api, repo).writes + post, x);
  }

  /** A write placed last is what its series reads. */
  lemma ReadsLastWrite(s: Sink, ws: seq<Write>, w: Write)
    ensures Read(Publish(s, ws + [w]), w.Target()) == Some(w.value)
  {
    PublishReadsTail(s, ws, [w], 0);
  }

  /** As written, `processPulls` always resolves and the pull request total
      reads 0, whatever the searches report. */
  lemma AsWrittenTotalIsZero(s: Sink, api: Api, repo: Repo)
    ensures ProcessPullsJs(api, repo).Completed()
    ensures Read(Publish(s, ProcessPullsJs(api, repo).writes), TotalSeries(repo)) == Some(0)
  {
    var w := Write(RepoPullRequests, RepoLabels(repo), 0);
    SearchWritesAvoid(api, repo, TotalSeries(repo));
    ReadsOwnWrite(s, [], w, Searches(api, repo).writes);
    assert [] + [w] == [w];
  }

  /** As written, each search that answers still sets its own gauge. */
  lemma AsWrittenSearchGauges(s: Sink, api: Api, repo: Repo, k: RepoQuery)
    requires SearchCount(api, repo, k).Success?
    ensures Read(Publish(s, ProcessPullsJs(api, repo).writes), SearchSeries(repo, k)) == Some(SearchCount(api, repo, k).value)
  {
    var pre := [Write(RepoPullRequests, RepoLabels(repo), 0)];
    SearchGaugeRead(s, pre, [], api, repo, k);
    AppendEmpty(pre + Searches(api, repo).writes);
  }

  /** Awaiting the searches, the pass resolves exactly when all four answer,
      setting the search gauges and then the total. */
  lemma CorrectedPullsCompletes(api: Api, repo: Repo)
    ensures ProcessPullsJsCorrected(api, repo).Completed() <==> forall k :: SearchCount(api, repo, k).Success?
    ensures ProcessPullsJsCorrected(api, repo).Completed() ==>
      ProcessPullsJsCorrected(api, repo).writes
        == Searches(api, repo).writes + [Write(RepoPullRequests, RepoLabels(repo), Counted(api, repo, RepoOpen) + Counted(api, repo, RepoClosed))]
  {
    SearchesComplete(api, repo);
  }

  /** Awaiting the searches, a resolved pass sets the total to the open count
      plus the closed count. */
  lemma CorrectedPullTotal(s: Sink, api: Api, repo: Repo)
    requires ProcessPullsJsCorrected(api, repo).Completed()
    ensures SearchCount(api, repo, RepoOpen).Success? && SearchCount(api, repo, RepoClosed).Success?
    ensures Read(Publish(s, ProcessPullsJsCorrected(api, repo).writes), TotalSeries(repo))
         == Some(SearchCount(api, repo, RepoOpen).value + SearchCount(api, repo, RepoClosed).value)
  {
    CorrectedPullsCompletes(api, repo);
    ReadsLastWrite(s, Searches(api, repo).writes, Write(RepoPullRequests, RepoLabels(repo), Counted(api, repo, RepoOpen) + Counted(api, repo, RepoClosed)));
  }

  /** A total set after the four searches leaves their gauges as they set them. */
  lemma SearchGaugeAfterTotal(s: Sink, api: Api, repo: Repo, k: RepoQuery, total: Write)
    requires SearchCount(api, repo, k).Success?
    requires total.gauge == RepoPullRequests
    ensures Read(Publish(s, Searches(api, repo).writes + [total]), SearchSeries(repo, k)) == Some(SearchCount(api, repo, k).value)
  {
    SearchGaugeRead(s, [], [total], api, repo, k);
    AppendEmpty(Searches(api, repo).writes);
  }

  /** Awaiting the searches, a resolved pass sets every search gauge to its count. */
  lemma CorrectedSearchGauges(s: Sink, api: Api, repo: Repo, k: RepoQuery)
    requires ProcessPullsJsCorrected(api, repo).Completed()
    ensures SearchCount(api, repo, k).Success?
    ensures Read(Publish(s, ProcessPullsJsCorrected(api, repo).writes), SearchSeries(repo, k)) == Some(SearchCount(api, repo, k).value)
  {
    CorrectedPullsCompletes(api, repo);
    SearchGaugeAfterTotal(s, api, repo, k, Write(RepoPullRequests, RepoLabels(repo), Counted(api, repo, RepoOpen) + Counted(api, repo, RepoClosed)));
  }

  /** Awaiting the searches, a pass in which a search fails leaves the total
      as it was. */
  lemma CorrectedFailureKeepsTotal(s: Sink, api: Api, repo: Repo)
    requires !ProcessPullsJsCorrected(api, repo).Completed()
    ensures Read(Publish(s, ProcessPullsJsCorrected(api, repo).writes), TotalSeries(repo)) == Read(s, TotalSeries(repo))
  {
    var searches := Searches(api, repo).writes;
    SearchWritesAvoid(api, repo, TotalSeries(repo));
    PublishIgnoresUntouching(s, [], searches, TotalSeries(repo));
    AppendEmpty(searches);
  }

  /** Open count 2 and closed count 3: as written the total reads 0, awaiting
      the searches it reads 5. */
  lemma PullTotalScenario(s: Sink, api: Api, repo: Repo)
    requires SearchCount(api, repo, RepoOpen) == Success(2)
    requires SearchCount(api, repo, RepoClosed) == Success(3)
    requires forall k :: SearchCount(api, repo, k).Success?
    ensures Read(Publish(s, ProcessPullsJs(api, repo).writes), TotalSeries(repo)) == Some(0)
    ensures Read(Publish(s, ProcessPullsJsCorrected(api, repo).writes), TotalSeries(repo)) == Some(5)
  {
    AsWrittenTotalIsZero(s, api, repo);
    CorrectedPullsCompletes(api, repo);
    CorrectedPullTotal(s, api, repo);
  }
}
