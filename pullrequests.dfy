/** The PullRequests operations: each one builds its URL from the base URL and
    the identifiers in its options, picks a verb and an executor entry point,
    and attaches the body, if any. The executor itself is not modelled: the
    result is the request it would be handed. */
module PullRequests {
  import opened Wrappers
  import opened JsonTree
  import opened UrlQuery
  import opened Options
  import opened Bodies

  datatype Verb = GET | POST | PUT | DELETE

  /** Which executor entry point receives the request: execute,
      executeWithContext, executePaginated (with no page state) or executeRaw. */
  datatype Mode = Single | WithContext | Paginated | Raw

  /** The payload: the marshalled JSON tree, or the empty string. */
  datatype Body = NoBody | JsonBody(json: Json)

  datatype Request = Request(verb: Verb, target: Target, body: Body, mode: Mode)

  /** `/repositories/{owner}/{slug}/pullrequests/`: the collection root of the
      family used by every operation except Create, Get and Merge. */
  function RepositoryPullRequestsUrl(base: string, owner: string, slug: string): string {
    base + "/repositories/" + owner + "/" + slug + "/pullrequests/"
  }

  /** One pull request in the `/repositories/` family. */
  function PullRequestUrl(base: string, po: PullRequestsOptions): string {
    RepositoryPullRequestsUrl(base, po.project, po.repoSlug) + po.id
  }

  /** `/projects/{project}/repos/{slug}/pull-requests/`: the collection root Create and Merge use. */
  function ProjectPullRequestsUrl(base: string, project: string, slug: string): string {
    base + "/projects/" + project + "/repos/" + slug + "/pull-requests/"
  }

  function Create(po: PullRequestsOptions, base: string): (r: Request)
    ensures r.verb == POST && r.mode == WithContext
    ensures r.body == JsonBody(PullRequestBody(po))
    ensures r.target == Plain(ProjectPullRequestsUrl(base, po.project, po.repoSlug))
  {
    Request(POST, Plain(ProjectPullRequestsUrl(base, po.project, po.repoSlug)), JsonBody(PullRequestBody(po)), WithContext)
  }

  function Update(po: PullRequestsOptions, base: string): (r: Request)
    ensures r.verb == PUT && r.mode == Single
    ensures r.body == Create(po, base).body
    ensures r.target == Plain(PullRequestUrl(base, po))
  {
    Request(PUT, Plain(PullRequestUrl(base, po)), JsonBody(PullRequestBody(po)), Single)
  }

  /** The one pull-request URL under `/projects/` without a `repos` segment. */
  function Get(po: PullRequestsOptions, base: string): (r: Request)
    ensures r.verb == GET && r.mode == Single && r.body == NoBody
    ensures r.target == Plain(base + "/projects/" + po.project + "/" + po.repoSlug + "/pull-requests/" + po.id)
  {
    Request(GET, Plain(base + "/projects/" + po.project + "/" + po.repoSlug + "/pull-requests/" + po.id), NoBody, Single)
  }

  /** The activity list sits where a pull request with id "activity" would. */
  function Activities(po: PullRequestsOptions, base: string): (r: Request)
    ensures r.verb == GET && r.mode == Paginated && r.body == NoBody
    ensures r.target == Update(po.(id := "activity"), base).target
  {
    Request(GET, Plain(RepositoryPullRequestsUrl(base, po.project, po.repoSlug) + "activity"), NoBody, Paginated)
  }

  function Activity(po: PullRequestsOptions, base: string): (r: Request)
    ensures r.verb == GET && r.mode == Single && r.body == NoBody
    ensures r.target == Plain(Update(po, base).target.text + "/activity")
  {
    Request(GET, Plain(PullRequestUrl(base, po) + "/activity"), NoBody, Single)
  }

  function Commits(po: PullRequestsOptions, base: string): (r: Request)
    ensures r.verb == GET && r.mode == Paginated && r.body == NoBody
    ensures r.target == Plain(Update(po, base).target.text + "/commits")
  {
    Request(GET, Plain(PullRequestUrl(base, po) + "/commits"), NoBody, Paginated)
  }

  function Patch(po: PullRequestsOptions, base: string): (r: Request)
    ensures r.verb == GET && r.mode == Raw && r.body == NoBody
    ensures r.target == Plain(Update(po, base).target.text + "/patch")
  {
    Request(GET, Plain(PullRequestUrl(base, po) + "/patch"), NoBody, Raw)
  }

  function Diff(po: PullRequestsOptions, base: string): (r: Request)
    ensures r.verb == GET && r.mode == Raw && r.body == NoBody
    ensures r.target == Plain(Update(po, base).target.text + "/diff")
  {
    Request(GET, Plain(PullRequestUrl(base, po) + "/diff"), NoBody, Raw)
  }

  /** Merge posts the pull-request body below Create's collection root. */
  function Merge(po: PullRequestsOptions, base: string): (r: Request)
    ensures r.verb == POST && r.mode == WithContext
    ensures r.body == Create(po, base).body
    ensures r.target == Plain(Create(po, base).target.text + po.id + "/merge")
  {
    Request(POST, Plain(ProjectPullRequestsUrl(base, po.project, po.repoSlug) + po.id + "/merge"), JsonBody(PullRequestBody(po)), WithContext)
  }

  function Decline(po: PullRequestsOptions, base: string): (r: Request)
    ensures r.verb == POST && r.mode == WithContext
    ensures r.body == Create(po, base).body
    ensures r.target == Plain(Update(po, base).target.text + "/decline")
  {
    Request(POST, Plain(PullRequestUrl(base, po) + "/decline"), JsonBody(PullRequestBody(po)), WithContext)
  }

  function Approve(po: PullRequestsOptions, base: string): (r: Request)
    ensures r.verb == POST && r.mode == WithContext && r.body == NoBody
    ensures r.target == Plain(Update(po, base).target.text + "/approve")
  {
    Request(POST, Plain(PullRequestUrl(base, po) + "/approve"), NoBody, WithContext)
  }

  /** UnApprove deletes what Approve posts to. */
  function UnApprove(po: PullRequestsOptions, base: string): (r: Request)
    ensures r.verb == DELETE && r.mode == Single && r.body == NoBody
    ensures r.target == Approve(po, base).target
  {
    Request(DELETE, Plain(PullRequestUrl(base, po) + "/approve"), NoBody, Single)
  }

  function RequestChanges(po: PullRequestsOptions, base: string): (r: Request)
    ensures r.verb == POST && r.mode == WithContext && r.body == NoBody
    ensures r.target == Plain(Update(po, base).target.text + "/request-changes")
  {
    Request(POST, Plain(PullRequestUrl(base, po) + "/request-changes"), NoBody, WithContext)
  }

  /** UnRequestChanges deletes what RequestChanges posts to. */
  function UnRequestChanges(po: PullRequestsOptions, base: string): (r: Request)
    ensures r.verb == DELETE && r.mode == Single && r.body == NoBody
    ensures r.target == RequestChanges(po, base).target
  {
    Request(DELETE, Plain(PullRequestUrl(base, po) + "/request-changes"), NoBody, Single)
  }

  /** Comments of the pull request named by a comment-options record. */
  function CommentsUrl(base: string, co: PullRequestCommentOptions): string {
    RepositoryPullRequestsUrl(base, co.owner, co.repoSlug) + co.pullRequestId + "/comments"
  }

  function AddComment(co: PullRequestCommentOptions, base: string): (r: Request)
    ensures r.verb == POST && r.mode == WithContext
    ensures r.body == JsonBody(CommentBody(co))
    ensures r.target == Plain(CommentsUrl(base, co))
  {
    Request(POST, Plain(CommentsUrl(base, co)), JsonBody(CommentBody(co)), WithContext)
  }

  function UpdateComment(co: PullRequestCommentOptions, base: string): (r: Request)
    ensures r.verb == PUT && r.mode == Single
    ensures r.body == AddComment(co, base).body
    ensures r.target == Plain(AddComment(co, base).target.text + "/" + co.commentId)
  {
    Request(PUT, Plain(CommentsUrl(base, co) + "/" + co.commentId), JsonBody(CommentBody(co)), Single)
  }

  /** DeleteComment deletes what UpdateComment puts to, with no body. */
  function DeleteComment(co: PullRequestCommentOptions, base: string): (r: Request)
    ensures r.verb == DELETE && r.mode == Single && r.body == NoBody
    ensures r.target == UpdateComment(co, base).target
  {
    Request(DELETE, Plain(CommentsUrl(base, co) + "/" + co.commentId), NoBody, Single)
  }

  /** The comment list, with a trailing slash, read through the pull-request options. */
  function GetComments(po: PullRequestsOptions, base: string): (r: Request)
    ensures r.verb == GET && r.mode == Paginated && r.body == NoBody
    ensures r.target == Plain(Update(po, base).target.text + "/comments/")
  {
    Request(GET, Plain(PullRequestUrl(base, po) + "/comments/"), NoBody, Paginated)
  }

  function GetComment(po: PullRequestsOptions, base: string): (r: Request)
    ensures r.verb == GET && r.mode == Single && r.body == NoBody
    ensures r.target == Plain(GetComments(po, base).target.text + po.commentId)
  {
    Request(GET, Plain(PullRequestUrl(base, po) + "/comments/" + po.commentId), NoBody, Single)
  }

  /** The filter blocks of the list operations, in source order: `state` once
      per element of `states`, then `q`, then `sort`, each only when given. The
      first block that parses the URL can fail, and then nothing is sent. */
  function ListFilters(t: Target, states: seq<string>, query: string, sort: string): (r: Result<Target, UrlError>)
    ensures r.Success? <==> FilterKeys(states, query, sort) == {} || Reparse(t).Success?
    ensures FilterKeys(states, query, sort) == {} ==> r == Success(t)
  {
    var t1 :- if states != [] then ApplyFilter(t, "state", states) else Success(t);
    var t2 :- if query != "" then ApplyFilter(t1, "q", [query]) else Success(t1);
    if sort != "" then ApplyFilter(t2, "sort", [sort]) else Success(t2)
  }

  /** The keys the filter blocks set for the given options. */
  function FilterKeys(states: seq<string>, query: string, sort: string): set<string> {
    (if states != [] then {"state"} else {}) + (if query != "" then {"q"} else {}) + (if sort != "" then {"sort"} else {})
  }

  /** Gets, as a function of its options: the list URL with the state, q and sort filters. */
  function GetsRequest(po: PullRequestsOptions, base: string): (r: Result<Request, UrlError>)
    ensures r.Failure? ==> FilterKeys(po.states, po.query, po.sort) != {}
    ensures r.Success? ==> r.value.verb == GET && r.value.mode == Paginated && r.value.body == NoBody
    ensures FilterKeys(po.states, po.query, po.sort) == {} ==>
      r == Success(Request(GET, Plain(RepositoryPullRequestsUrl(base, po.project, po.repoSlug)), NoBody, Paginated))
  {
    var target :- ListFilters(Plain(RepositoryPullRequestsUrl(base, po.project, po.repoSlug)), po.states, po.query, po.sort);
    Success(Request(GET, target, NoBody, Paginated))
  }

  /** Statuses, as a function of its options: it has no state filter. */
  function StatusesRequest(po: PullRequestsOptions, base: string): (r: Result<Request, UrlError>)
    ensures r.Failure? ==> po.query != "" || po.sort != ""
    ensures r.Success? ==> r.value.verb == GET && r.value.mode == Paginated && r.value.body == NoBody
    ensures po.query == "" && po.sort == "" ==> r == Success(Request(GET, Plain(PullRequestUrl(base, po) + "/statuses"), NoBody, Paginated))
  {
    var target :- ListFilters(Plain(Update(po, base).target.text + "/statuses"), [], po.query, po.sort);
    Success(Request(GET, target, NoBody, Paginated))
  }

  /** One single-valued filter block: url.Parse, Query().Set(key, value), re-encode. */
  method SetQueryParam(urlStr: Target, key: string, value: string) returns (r: Result<Target, UrlError>)
    ensures r == ApplyFilter(urlStr, key, [value])
  {
    var parsed := Reparse(urlStr);
    if parsed.Failure? {
      return Failure(parsed.error);
    }
    var query := parsed.value.query;
    query := Set(query, key, value);
    return Success(Parsed(Url(parsed.value.path, query)));
  }

  /** The state block of Gets: one parse, then `Set("state", …)` once per
      state, so only the last state survives; then re-encode. */
  method SetStates(urlStr: Target, states: seq<string>) returns (r: Result<Target, UrlError>)
    requires states != []
    ensures r == ApplyFilter(urlStr, "state", states)
  {
    var parsed := Reparse(urlStr);
    if parsed.Failure? {
      return Failure(parsed.error);
    }
    var query := parsed.value.query;
    for i := 0 to |states|
      invariant query == SetEach(parsed.value.query, "state", states[..i])
    {
      assert states[..i + 1][..i] == states[..i];
      query := Set(query, "state", states[i]);
    }
    assert states[..|states|] == states;
    return Success(Parsed(Url(parsed.value.path, query)));
  }

  /** Gets: the list URL, then the state, q and sort blocks, each of which
      returns early when the URL does not parse. */
  method Gets(po: PullRequestsOptions, base: string) returns (r: Result<Request, UrlError>)
    ensures r == GetsRequest(po, base)
  {
    var urlStr := Plain(RepositoryPullRequestsUrl(base, po.project, po.repoSlug));

    if |po.states| != 0 {
      var next := SetStates(urlStr, po.states);
      if next.Failure? {
        return Failure(next.error);
      }
      urlStr := next.value;
    }

    if po.query != "" {
      var next := SetQueryParam(urlStr, "q", po.query);
      if next.Failure? {
        return Failure(next.error);
      }
      urlStr := next.value;
    }

    if po.sort != "" {
      var next := SetQueryParam(urlStr, "sort", po.sort);
      if next.Failure? {
        return Failure(next.error);
      }
      urlStr := next.value;
    }

    return Success(Request(GET, urlStr, NoBody, Paginated));
  }

  /** Statuses: the statuses URL of one pull request with the q and sort blocks. */
  method Statuses(po: PullRequestsOptions, base: string) returns (r: Result<Request, UrlError>)
    ensures r == StatusesRequest(po, base)
  {
    var urlStr := Plain(PullRequestUrl(base, po) + "/statuses");

    if po.query != "" {
      var next := SetQueryParam(urlStr, "q", po.query);
      if next.Failure? {
        return Failure(next.error);
      }
      urlStr := next.value;
    }

    if po.sort != "" {
      var next := SetQueryParam(urlStr, "sort", po.sort);
      if next.Failure? {
        return Failure(next.error);
      }
      urlStr := next.value;
    }

    return Success(Request(GET, urlStr, NoBody, Paginated));
  }

  /** The filter blocks fail exactly when some filter is given and the URL does
      not parse; with no filter the URL is passed on untouched, unparsed. */
  lemma ListFiltersOutcome(t: Target, states: seq<string>, query: string, sort: string)
    ensures ListFilters(t, states, query, sort).Failure? <==> FilterKeys(states, query, sort) != {} && Reparse(t).Failure?
    ensures FilterKeys(states, query, sort) == {} ==> ListFilters(t, states, query, sort) == Success(t)
  {
  }

  /** On a URL that parses as `u0`, the filter blocks keep the path, give each
      filter key exactly one value (the last state for `state`), and leave every
      other key of `u0` as it was. */
  lemma ListFiltersQuery(t: Target, states: seq<string>, query: string, sort: string)
    requires FilterKeys(states, query, sort) != {}
    requires Reparse(t).Success?
    ensures ListFilters(t, states, query, sort).Success?
    ensures ListFilters(t, states, query, sort).value.Parsed?
    ensures ListFilters(t, states, query, sort).value.url.path == Reparse(t).value.path
    ensures ListFilters(t, states, query, sort).value.url.query.Keys == Reparse(t).value.query.Keys + FilterKeys(states, query, sort)
    ensures states != [] ==> ListFilters(t, states, query, sort).value.url.query["state"] == [states[|states| - 1]]
    ensures query != "" ==> ListFilters(t, states, query, sort).value.url.query["q"] == [query]
    ensures sort != "" ==> ListFilters(t, states, query, sort).value.url.query["sort"] == [sort]
    ensures forall k :: k in Reparse(t).value.query && k !in FilterKeys(states, query, sort) ==>
      ListFilters(t, states, query, sort).value.url.query[k] == Reparse(t).value.query[k]
  {
    var u0 := Reparse(t).value;
    var t1 := if states != [] then ApplyFilter(t, "state", states).value else t;
    assert Reparse(t1).Success? && Reparse(t1).value.path == u0.path;
    var t2 := if query != "" then ApplyFilter(t1, "q", [query]).value else t1;
    assert Reparse(t2).Success? && Reparse(t2).value.path == u0.path;
  }

  /** A block whose key already holds exactly the value it would set leaves a parsed URL as it is. */
  lemma ApplyFilterFixed(u: Url, key: string, values: seq<string>)
    requires values != [] && key in u.query && u.query[key] == [values[|values| - 1]]
    ensures ApplyFilter(Parsed(u), key, values) == Success(Parsed(u))
  {
    assert Set(u.query, key, values[|values| - 1]) == u.query;
  }

  /** Running the filter blocks again on their own output changes nothing. */
  lemma ListFiltersIdempotent(t: Target, states: seq<string>, query: string, sort: string)
    requires ListFilters(t, states, query, sort).Success?
    ensures ListFilters(ListFilters(t, states, query, sort).value, states, query, sort) == ListFilters(t, states, query, sort)
  {
    if FilterKeys(states, query, sort) != {} {
      ListFiltersQuery(t, states, query, sort);
      var u1 := ListFilters(t, states, query, sort).value.url;
      if states != [] {
        ApplyFilterFixed(u1, "state", states);
      }
      if query != "" {
        ApplyFilterFixed(u1, "q", [query]);
      }
      if sort != "" {
        ApplyFilterFixed(u1, "sort", [sort]);
      }
    }
  }

  /** Some filter of Gets is given. */
  predicate HasListFilter(po: PullRequestsOptions) {
    FilterKeys(po.states, po.query, po.sort) != {}
  }

  /** Gets fails only when a filter is given and the list URL holds a control
      character; without filters the list URL goes out as concatenated. */
  lemma GetsOutcome(po: PullRequestsOptions, base: string)
    ensures var url := RepositoryPullRequestsUrl(base, po.project, po.repoSlug);
      GetsRequest(po, base).Failure? <==> HasListFilter(po) && HasControl(url)
    ensures GetsRequest(po, base).Success? ==>
      && GetsRequest(po, base).value.verb == GET
      && GetsRequest(po, base).value.mode == Paginated
      && GetsRequest(po, base).value.body == NoBody
    ensures !HasListFilter(po) ==>
      GetsRequest(po, base).value.target == Plain(RepositoryPullRequestsUrl(base, po.project, po.repoSlug))
  {
    ListFiltersOutcome(Plain(RepositoryPullRequestsUrl(base, po.project, po.repoSlug)), po.states, po.query, po.sort);
  }

  /** The query Gets sends, against the query `u0` already in the list URL:
      `state` holds only the last state, q and sort hold their one value, and
      no block removes a key another block or the base URL put there. */
  lemma GetsQuery(po: PullRequestsOptions, base: string)
    requires HasListFilter(po)
    requires GetsRequest(po, base).Success?
    ensures var u0 := ParseUrl(RepositoryPullRequestsUrl(base, po.project, po.repoSlug)).value;
      var target := GetsRequest(po, base).value.target;
      && target.Parsed?
      && target.url.path == u0.path
      && target.url.query.Keys == u0.query.Keys + FilterKeys(po.states, po.query, po.sort)
      && (po.states != [] ==> target.url.query["state"] == [po.states[|po.states| - 1]])
      && (po.query != "" ==> target.url.query["q"] == [po.query])
      && (po.sort != "" ==> target.url.query["sort"] == [po.sort])
      && (forall k :: k in u0.query && k !in FilterKeys(po.states, po.query, po.sort) ==> target.url.query[k] == u0.query[k])
  {
    var t := Plain(RepositoryPullRequestsUrl(base, po.project, po.repoSlug));
    ListFiltersOutcome(t, po.states, po.query, po.sort);
    ListFiltersQuery(t, po.states, po.query, po.sort);
  }

  /** With a base URL that carries no query of its own, each of state, q and
      sort is in the query exactly when its option is given, with one value. */
  lemma GetsQueryKeys(po: PullRequestsOptions, base: string)
    requires HasListFilter(po)
    requires GetsRequest(po, base).Success?
    requires '?' !in RepositoryPullRequestsUrl(base, po.project, po.repoSlug)
    ensures var q := GetsRequest(po, base).value.target.url.query;
      && ("state" in q <==> po.states != [])
      && ("q" in q <==> po.query != "")
      && ("sort" in q <==> po.sort != "")
      && forall k :: k in q ==> |q[k]| == 1
  {
    var url := RepositoryPullRequestsUrl(base, po.project, po.repoSlug);
    assert ParseUrl(url).value.query == map[];
    GetsQuery(po, base);
    var q := GetsRequest(po, base).value.target.url.query;
    assert q.Keys == FilterKeys(po.states, po.query, po.sort);
  }

  /** Two states give one `state` value: the first state cannot be read back. */
  lemma GetsKeepsOnlyLastState(po: PullRequestsOptions, base: string)
    requires po.states == ["OPEN", "MERGED"]
    requires GetsRequest(po, base).Success?
    ensures GetsRequest(po, base).value.target.url.query["state"] == ["MERGED"]
    ensures "OPEN" !in GetsRequest(po, base).value.target.url.query["state"]
  {
    GetsQuery(po, base);
  }

  /** Statuses never adds a `state` key, whatever the options hold. */
  lemma StatusesQuery(po: PullRequestsOptions, base: string)
    requires StatusesRequest(po, base).Success?
    ensures var url := PullRequestUrl(base, po) + "/statuses";
      var target := StatusesRequest(po, base).value.target;
      && (po.query == "" && po.sort == "" ==> target == Plain(url))
      && (po.query != "" || po.sort != "" ==>
        && target.Parsed?
        && target.url.path == ParseUrl(url).value.path
        && target.url.query.Keys == ParseUrl(url).value.query.Keys + FilterKeys([], po.query, po.sort)
        && ("state" in target.url.query <==> "state" in ParseUrl(url).value.query))
  {
    var t := Plain(PullRequestUrl(base, po) + "/statuses");
    ListFiltersOutcome(t, [], po.query, po.sort);
    if po.query != "" || po.sort != "" {
      ListFiltersQuery(t, [], po.query, po.sort);
    }
  }
}
