/**
  The data source of the exporter (src/GithubRepository.ts): listing calls that
  drain every page of a paginated endpoint, and search-backed counts.

  The remote API is given as data. A listing request yields the pages the
  paginator delivered, in order, and possibly the error that ended the
  iteration. A search request yields a response or an error. Rate limiting,
  retry and the paginator itself are not modelled.
*/
module GithubRepository {
  import opened Wrappers

  /** A repository of the organisation, with the fields the exporter reads. */
  datatype Repo = Repo(
    ownerLogin: string,
    name: string,
    fullName: string,
    isPrivate: bool,
    stars: int,
    forks: int,
    openIssues: int)

  /** A pull request; only its state is read. */
  datatype Pull = Pull(state: string)

  /** A branch; only the number of branches is read. */
  datatype Branch = Branch(name: string)

  /** A rejected request: HTTP status and endpoint. */
  datatype ApiError = ApiError(status: int, endpoint: string)

  /** What one paginated listing delivers: the pages in order and, if the
      iteration failed, the error that ended it after those pages. */
  datatype Paged<T> = Paged(pages: seq<seq<T>>, failure: Option<ApiError>)

  /** The three listing requests the data source issues. */
  datatype ListRequest =
    | ListPulls(owner: string, repo: string, sort: string, state: string, perPage: int)
    | ListBranches(owner: string, repo: string, sort: string, perPage: int)
    | ListOrgRepos(org: string, sort: string, perPage: int)

  /** A search for issues and pull requests. */
  datatype SearchRequest = SearchRequest(q: string, perPage: int)

  datatype SearchResponse = SearchResponse(totalCount: int)

  /** The remote API as the data source sees it. */
  datatype Api = Api(
    repoPages: ListRequest -> Paged<Repo>,
    pullPages: ListRequest -> Paged<Pull>,
    branchPages: ListRequest -> Paged<Branch>,
    search: SearchRequest -> Result<SearchResponse, ApiError>)

  /** The page size of every listing request. */
  const PageSize: int := 100

  /** The pages one after the other (reference definition). */
  function Flatten<T>(pages: seq<seq<T>>): seq<T>
    decreases |pages|
  {
    if |pages| == 0 then [] else pages[0] + Flatten(pages[1..])
  }

  /** Flattening distributes over a split of the page list. */
  lemma {:induction false} FlattenAppend<T>(a: seq<seq<T>>, b: seq<seq<T>>)
    ensures Flatten(a + b) == Flatten(a) + Flatten(b)
    decreases |a|
  {
    if |a| == 0 {
      assert a + b == b;
    } else {
      assert (a + b)[1..] == a[1..] + b;
      FlattenAppend(a[1..], b);
    }
  }

  /** Flattening the first k + 1 pages adds page k to the flattened first k pages. */
  lemma FlattenSnoc<T>(pages: seq<seq<T>>, k: nat)
    requires k < |pages|
    ensures Flatten(pages[..k + 1]) == Flatten(pages[..k]) + pages[k]
  {
    assert pages[..k + 1] == pages[..k] + [pages[k]];
    FlattenAppend(pages[..k], [pages[k]]);
    assert Flatten([pages[k]]) == pages[k] + Flatten([]);
  }

  /** Dropping the last item of a sequence extended by one gives the sequence back. */
  lemma SnocPrefix<T>(a: seq<T>, x: T)
    ensures (a + [x])[..|a|] == a
  {
  }

  /** The accumulator `items = items.concat(page)` after every page: the in-order concatenation. */
  function Concatenated<T>(pages: seq<seq<T>>): (items: seq<T>)
    ensures items == Flatten(pages)
    decreases |pages|
  {
    if |pages| == 0 then []
    else
      var k := |pages| - 1;
      assert pages[..k + 1] == pages;
      FlattenSnoc(pages, k);
      Concatenated(pages[..k]) + pages[k]
  }

  /** The accumulator `count += page.length` after every page: the number of items on all pages. */
  function PageLengthTotal<T>(pages: seq<seq<T>>): (count: nat)
    ensures count == |Flatten(pages)|
    decreases |pages|
  {
    if |pages| == 0 then 0
    else
      var k := |pages| - 1;
      assert pages[..k + 1] == pages;
      FlattenSnoc(pages, k);
      PageLengthTotal(pages[..k]) + |pages[k]|
  }

  /** A drained listing: every item of every page in order, or the error that ended the iteration. */
  function Drain<T>(p: Paged<T>): (r: Result<seq<T>, ApiError>)
    ensures r.Success? <==> p.failure.None?
    ensures r.Success? ==> r.value == Flatten(p.pages)
    ensures r.Failure? ==> r.error == p.failure.value
  {
    match p.failure
    case Some(e) => Failure(e)
    case None => Success(Concatenated(p.pages))
  }

  function PullsRequest(repo: Repo): ListRequest {
    ListPulls(repo.ownerLogin, repo.name, "updated", "all", PageSize)
  }

  function BranchesRequest(repo: Repo): ListRequest {
    ListBranches(repo.ownerLogin, repo.name, "updated", PageSize)
  }

  function OrgReposRequest(org: string): ListRequest {
    ListOrgRepos(org, "updated", PageSize)
  }

  /** Every listing request asks for pages of 100 sorted by update time; the
      pull request listing asks for pull requests in every state. */
  lemma ListingRequestShapes(repo: Repo, org: string)
    ensures PullsRequest(repo).perPage == 100 && PullsRequest(repo).state == "all"
    ensures BranchesRequest(repo).perPage == 100 && OrgReposRequest(org).perPage == 100
    ensures PullsRequest(repo).sort == BranchesRequest(repo).sort == OrgReposRequest(org).sort == "updated"
    ensures PullsRequest(repo).owner == BranchesRequest(repo).owner == repo.ownerLogin
    ensures PullsRequest(repo).repo == BranchesRequest(repo).repo == repo.name
  {
  }

  /** `getPullsForRepository`: all pull requests of the repository, page after page. */
  function GetPullsForRepository(api: Api, repo: Repo): (r: Result<seq<Pull>, ApiError>)
    ensures var p := api.pullPages(PullsRequest(repo));
      && (r.Success? <==> p.failure.None?)
      && (r.Success? ==> r.value == Flatten(p.pages))
      && (r.Failure? ==> r.error == p.failure.value)
  {
    Drain(api.pullPages(PullsRequest(repo)))
  }

  /** `getCountofBranchesInRepository`: the number of branches over all pages. */
  function GetCountOfBranchesInRepository(api: Api, repo: Repo): (r: Result<nat, ApiError>)
    ensures var p := api.branchPages(BranchesRequest(repo));
      && (r.Success? <==> p.failure.None?)
      && (r.Success? ==> r.value == |Flatten(p.pages)|)
      && (r.Failure? ==> r.error == p.failure.value)
  {
    var p := api.branchPages(BranchesRequest(repo));
    match p.failure
    case Some(e) => Failure(e)
    case None => Success(PageLengthTotal(p.pages))
  }

  /** `getRepositoryListForOrg`: all repositories of the organisation, page after page. */
  function GetRepositoryListForOrg(api: Api, org: string): (r: Result<seq<Repo>, ApiError>)
    ensures var p := api.repoPages(OrgReposRequest(org));
      && (r.Success? <==> p.failure.None?)
      && (r.Success? ==> r.value == Flatten(p.pages))
      && (r.Failure? ==> r.error == p.failure.value)
  {
    Drain(api.repoPages(OrgReposRequest(org)))
  }

  /** With no pages, the lists are empty and the branch count is 0. */
  lemma NoPagesNoItems(api: Api, repo: Repo, org: string)
    requires api.pullPages(PullsRequest(repo)) == Paged([], None)
    requires api.branchPages(BranchesRequest(repo)) == Paged([], None)
    requires api.repoPages(OrgReposRequest(org)) == Paged([], None)
    ensures GetPullsForRepository(api, repo) == Success([])
    ensures GetCountOfBranchesInRepository(api, repo) == Success(0)
    ensures GetRepositoryListForOrg(api, org) == Success([])
  {
  }

  /** The six organisation-wide pull request counts. */
  datatype PullQuery =
    | AllPulls
    | OpenPulls
    | ClosedPulls
    | MergedPulls
    | OpenApprovedPulls
    | OpenUnreviewedPulls

  /** The scope every count query starts with. */
  function QueryScope(org: string): string {
    "org:" + org + " is:pr"
  }

  /** What each count query adds after its scope. */
  function QueryQualifier(k: PullQuery): string {
    match k
    case AllPulls => ""
    case OpenPulls => " is:open"
    case ClosedPulls => " is:close"
    case MergedPulls => " is:merged"
    case OpenApprovedPulls => " is:open review:approved"
    case OpenUnreviewedPulls => " is:open review:none"
  }

  /** The search string of `getPRCount`, `getPROpenCount`, ..., `getPROpenAndNotApproved`. */
  function QueryString(org: string, k: PullQuery): (q: string)
    ensures QueryScope(org) <= q
    ensures q[|QueryScope(org)|..] == QueryQualifier(k)
  {
    QueryScope(org) + QueryQualifier(k)
  }

  /** Different counts never share a search string, for any organisation. */
  lemma {:induction false} QueryStringsDistinct(org: string, k1: PullQuery, k2: PullQuery)
    requires k1 != k2
    ensures QueryString(org, k1) != QueryString(org, k2)
  {
    if QueryString(org, k1) == QueryString(org, k2) {
      assert QueryQualifier(k1) == QueryString(org, k1)[|QueryScope(org)|..];
      assert QueryQualifier(k1) == QueryQualifier(k2);
      QualifiersDistinct(k1, k2);
    }
  }

  lemma QualifiersDistinct(k1: PullQuery, k2: PullQuery)
    requires k1 != k2
    ensures QueryQualifier(k1) != QueryQualifier(k2)
  {
  }

  /** `getCountOfIssueAndPullRequest`: one search with page size 1, returning the reported total. */
  function GetCountOfIssueAndPullRequest(api: Api, q: string): (r: Result<int, ApiError>)
    ensures api.search(SearchRequest(q, 1)).Success? <==> r.Success?
    ensures r.Success? ==> r.value == api.search(SearchRequest(q, 1)).value.totalCount
    ensures r.Failure? ==> r.error == api.search(SearchRequest(q, 1)).error
  {
    match api.search(SearchRequest(q, 1))
    case Success(response) => Success(response.totalCount)
    case Failure(e) => Failure(e)
  }

  /** The count behind one of the six organisation pull request gauges. */
  function CountPullRequests(api: Api, org: string, k: PullQuery): (r: Result<int, ApiError>)
    ensures var response := api.search(SearchRequest(QueryString(org, k), 1));
      && (r.Success? <==> response.Success?)
      && (r.Success? ==> r.value == response.value.totalCount)
  {
    GetCountOfIssueAndPullRequest(api, QueryString(org, k))
  }
}
