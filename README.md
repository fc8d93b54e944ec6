# Pull-request request shaping, modelled in Dafny

This project models the `PullRequests` client of a Bitbucket API library
(`pullrequests.go`). Each of its 21 operations takes an options record,
builds a URL from the API base URL and the record's identifiers, picks an
HTTP verb and one of four executor entry points, and attaches a JSON body
when it has one. What the model returns is the request the executor would be
handed: `Request(verb, target, body, mode)`.

- `options.dfy`: the two option records (`PullRequestsOptions`,
  `PullRequestCommentOptions`). An empty string or list counts as "not given".
- `json.dfy`: the JSON tree (`JObject`, `JArray`, `JString`, `JInt`) and
  `Lookup`, which follows a path of object keys through the tree.
- `bodies.dfy`: `buildPullRequestBody` and `buildPullRequestCommentBody`.
  Each is an imperative method that fills a map key by key, as the Go code
  does. The reviewer slice is filled by index into an array. Each method is
  proved equal to a function describing the finished tree, and lemmas state
  the body's shape in terms of `Lookup`.
- `query.dfy`: Go's `url.Values` with `Set` and `Add`, a cut-down
  `url.Parse`, and one filter block: parse the URL, `Set` a key, re-encode.
  A request URL is either still the concatenated string (`Plain`) or a parsed
  URL rebuilt after a filter block ran (`Parsed`).
- `pullrequests.dfy`: one function per operation. `Gets` and `Statuses` are
  imperative methods, with the loop over states that calls `Set` once per
  state. Each is proved equal to a function, and the lemmas about the filter
  blocks are stated on those functions.
- `catalog.dfy`: an `Operation` enumeration, `Route`, which dispatches each
  operation to its function, and lemmas over all operations: verbs, executor
  entry points, bodies and the two URL families.

The base URL is a parameter. It stands for `GetApiBaseURL()`, and for the
base that `requestUrl` puts in front of its formatted path.

Where a reader might expect otherwise, the model follows the code:

- The two URL families are hard-coded per operation. There is no
  Server/Cloud switch. `Create` and `Merge` use
  `/projects/{project}/repos/{slug}/pull-requests/`. `Get` uses
  `/projects/{project}/{slug}/pull-requests/{id}`, with no `repos` segment.
  All the other operations use
  `/repositories/{project}/{slug}/pullrequests/`.
- `Gets` calls `Set("state", …)` once per state, so only the last state
  reaches the query. A list query that keeps every state would need `Add`;
  the code does not do that, and `GetsKeepsOnlyLastState` shows the effect.
- An empty title or description is sent as `""`. "Title when non-empty,
  otherwise `""`" is the same value as the title itself.
- `Activities` targets `/pullrequests/activity`, with no pull-request id.
  That is the item URL of a pull request whose id is `activity`.

## Model

| member | source | states |
|---|---|---|
| UrlQuery.Set | pullrequests.go:54 | After `Values.Set`, the key holds exactly the one new value, and every other key keeps its values |
| UrlQuery.SetEach | pullrequests.go:41-43 | Calling `Set` once per value, in order, leaves only the last value (or the query unchanged when there are no values) |
| UrlQuery.ParseUrl | pullrequests.go:36-40 | Parsing fails exactly when the URL holds a control character. The path stops before the first `?` and has no `?`; with no `?`, the whole string is the path and the query is empty |
| UrlQuery.ParseQueryKeeps | pullrequests.go:40 | Decoding more of a raw query never removes or reorders values: every key already there keeps its list as a prefix |
| UrlQuery.ParseSegment | pullrequests.go:40 | A `key=value` segment followed by `&` appends value to key's list (so repeated keys keep every value, in order), and decoding continues after the `&` |
| UrlQuery.ParseLastSegment | pullrequests.go:40 | A final `key=value` segment appends value to key's list |
| UrlQuery.ParsedPathKeepsPrefix | pullrequests.go:36-45 | Parsing keeps every `?`-free prefix of the URL at the front of the parsed path |
| UrlQuery.ApplyFilter | pullrequests.go:48-57 | A filter block succeeds exactly when the URL parses. It keeps the path and sets the key to its last value |
| Bodies.BranchRef | pullrequests.go:218-246 | A ref has only displayId, id and repository. displayId and id are present exactly when the branch is named, repository exactly when the repository is named |
| Bodies.PullRequestBody | pullrequests.go:203-254 | The pull-request body is an object with exactly the five skeletal keys, whatever is set |
| Bodies.CommentBody | pullrequests.go:264-274 | The comment body has `content` (holding `raw`), plus `parent` exactly when Parent is set |
| Bodies.BuildPullRequestBody | pullrequests.go:203-262 | The map built from the skeleton, key by key, equals `PullRequestBody` |
| Bodies.BuildReviewers | pullrequests.go:211-216 | The slice made with n slots and filled by index is the list of `{uuid}` objects, in input order |
| Bodies.FillRef | pullrequests.go:218-246 | The branch and repository blocks, applied to an empty ref, yield displayId/id exactly for a named branch and repository exactly for a named repository |
| Bodies.BuildPullRequestCommentBody | pullrequests.go:264-282 | The comment map with `parent` inserted conditionally equals `CommentBody` |
| Bodies.SkeletonWhenNothingSet | pullrequests.go:204-209 | With every optional field empty, the body is exactly `{fromRef: {}, toRef: {}, reviewers: [], title: "", description: ""}` |
| Bodies.TopLevelKeys | pullrequests.go:204-254 | Whatever is set, the body's top-level keys are exactly the five skeletal keys |
| Bodies.ReviewersInOrder | pullrequests.go:211-216 | `reviewers` is an array with one element per reviewer, and element i is `{uuid: Reviewers[i]}` |
| Bodies.BranchRefs | pullrequests.go:218-236 | A non-empty branch b gives `displayId == b` and `id == "refs/heads/" + b` on its side. An empty branch leaves both keys absent |
| Bodies.RefRepository | pullrequests.go:223-231 | In a ref, `repository` is present exactly when a repository is named, whatever the branch. It then has name, slug and project.key |
| Bodies.RepositoryRefs | pullrequests.go:223-246 | `fromRef.repository` is present iff SourceRepository is non-empty, and `toRef.repository` iff DestinationRepository is. Then name == slug == that repository and project.key == Project |
| Bodies.TitleAndDescription | pullrequests.go:248-254 | `title` and `description` always hold the options' strings, so an empty one is sent as "" |
| Bodies.CommentBodyShape | pullrequests.go:264-274 | The comment body has `content.raw == Content`. `parent` is present iff Parent is set, and then `parent.id` is its value; no other keys |
| PullRequests.Create | pullrequests.go:13-21 | POST with context to `/projects/{P}/repos/{S}/pull-requests/`, carrying the pull-request body |
| PullRequests.Update | pullrequests.go:23-30 | PUT to `/repositories/{P}/{S}/pullrequests/{ID}` with the same body as Create |
| PullRequests.Get | pullrequests.go:73-76 | GET to `/projects/{P}/{S}/pull-requests/{ID}` (no `repos` segment), no body |
| PullRequests.Activities | pullrequests.go:78-81 | Paginated GET to the URL Update would use for a pull request whose id is `activity` |
| PullRequests.Activity | pullrequests.go:83-86 | GET to the pull request's URL + `/activity` |
| PullRequests.Commits | pullrequests.go:88-91 | Paginated GET to the pull request's URL + `/commits` |
| PullRequests.Patch | pullrequests.go:93-96 | Raw GET to the pull request's URL + `/patch` |
| PullRequests.Diff | pullrequests.go:98-101 | Raw GET to the pull request's URL + `/diff` |
| PullRequests.Merge | pullrequests.go:103-111 | POST with context to Create's URL + `{ID}/merge`, with Create's body |
| PullRequests.Decline | pullrequests.go:113-120 | POST with context to the pull request's URL + `/decline`, with the pull-request body |
| PullRequests.Approve | pullrequests.go:122-125 | POST with context and no body to the pull request's URL + `/approve` |
| PullRequests.UnApprove | pullrequests.go:127-130 | DELETE, with no body, to exactly the URL Approve posts to |
| PullRequests.RequestChanges | pullrequests.go:132-135 | POST with context and no body to the pull request's URL + `/request-changes` |
| PullRequests.UnRequestChanges | pullrequests.go:137-140 | DELETE, with no body, to exactly the URL RequestChanges posts to |
| PullRequests.AddComment | pullrequests.go:142-150 | POST with context to `/repositories/{Owner}/{S}/pullrequests/{PullRequestID}/comments`, with the comment body |
| PullRequests.UpdateComment | pullrequests.go:152-160 | PUT to AddComment's URL + `/{CommentId}`, with the same comment body |
| PullRequests.DeleteComment | pullrequests.go:162-165 | DELETE, with no body, to exactly UpdateComment's URL |
| PullRequests.GetComments | pullrequests.go:167-170 | Paginated GET to the pull request's URL + `/comments/` |
| PullRequests.GetComment | pullrequests.go:172-175 | GET to GetComments' URL followed directly by CommentID |
| PullRequests.ListFilters | pullrequests.go:35-68 | The state, q and sort blocks in order succeed exactly when no filter is given or the URL parses; with no filter the URL goes out unchanged |
| PullRequests.GetsRequest | pullrequests.go:32-71 | Gets is a paginated GET with no body. It can fail only when some filter is given, and sends the bare list URL when none is |
| PullRequests.StatusesRequest | pullrequests.go:177-201 | Statuses is a paginated GET with no body. It can fail only when q or sort is given, and sends the bare statuses URL when neither is |
| PullRequests.SetStates | pullrequests.go:35-46 | One parse, then a loop calling `Set("state", …)` per state, computes exactly one state filter step: only the last state is kept, failure included |
| PullRequests.SetQueryParam | pullrequests.go:48-57 | The parse–Set–re-encode block computes exactly one filter step, failure included |
| PullRequests.Gets | pullrequests.go:32-71 | The imperative list operation (state block, q block and sort block, each of which can return early) computes exactly `GetsRequest` |
| PullRequests.Statuses | pullrequests.go:177-201 | The imperative statuses operation (q and sort blocks) computes exactly `StatusesRequest` |
| PullRequests.ListFiltersOutcome | pullrequests.go:35-68 | The filter blocks fail exactly when some filter is given and the URL does not parse. With no filter, the URL goes out unparsed and unchanged |
| PullRequests.ListFiltersQuery | pullrequests.go:35-68 | The filter blocks keep the path. `state` gets the last state; q and sort get their one value. The keys are the URL's own keys plus the filter keys, and every other key keeps its values |
| PullRequests.ListFiltersIdempotent | pullrequests.go:35-68 | Running the filter blocks again on their own output gives the same URL |
| PullRequests.GetsOutcome | pullrequests.go:32-71 | Gets fails only when a filter is given and the list URL has a control character. Otherwise it is a paginated GET with no body, and the URL is unchanged when no filter is given |
| PullRequests.GetsQuery | pullrequests.go:35-68 | Gets' query: `state` holds only the last state, q and sort hold one value each, and no block removes a key another block or the base URL put there |
| PullRequests.GetsQueryKeys | pullrequests.go:35-68 | With no `?` in the list URL, `state`, `q` and `sort` are each present iff their option is given, and every key has exactly one value |
| PullRequests.GetsKeepsOnlyLastState | pullrequests.go:41-43 | With states ["OPEN", "MERGED"], `state` is ["MERGED"], and "OPEN" cannot be read back |
| PullRequests.StatusesQuery | pullrequests.go:177-199 | Without q and sort, the statuses URL goes out as concatenated. Otherwise the path is kept, the keys are the URL's own keys plus q and/or sort, and `state` is present iff the URL already had it: Statuses never adds it |
| Catalog.Route | pullrequests.go:13-201 | Dispatches each operation to its function; only Gets and Statuses can fail |
| Catalog.Verbs | pullrequests.go:13-175 | DELETE exactly for UnApprove, UnRequestChanges and DeleteComment. PUT exactly for Update and UpdateComment. GET exactly for the ten reads |
| Catalog.Modes | pullrequests.go:13-201 | Raw exactly for Patch and Diff. Paginated exactly for Gets, Activities, Commits, GetComments and Statuses. With-context exactly for the six POSTs |
| Catalog.RequestBodies | pullrequests.go:13-160 | A JSON body exactly for Create, Update, Merge, Decline, AddComment and UpdateComment: the pull-request body for the first four, the comment body for the other two |
| Catalog.PathFamilies | pullrequests.go:13-201 | Create, Get and Merge lie under `/projects/{P}/`, all other operations under `/repositories/{owner}/{slug}/pullrequests/`, and no operation lies under both. This holds for any identifiers, except that Gets and Statuses, which parse their URL again, need base, owner and slug free of `?` |

## Left out

- The executor (`execute`, `executeWithContext`, `executePaginated`,
  `executeRaw`) is network I/O. The model returns the request together with a
  tag naming the entry point. What the executor returns, including its
  errors, is not modelled.
- `requestUrl` and `GetApiBaseURL` are not part of this model. The base URL
  is a parameter, and `requestUrl` is taken as the base followed by the
  formatted path.
- `json.Marshal` is not modelled at byte level: key order, escaping and the
  text encoding are left out. Bodies are JSON trees.
- Bodies.BuildPullRequestBody: omits `json.Marshal`'s error return, because these
  fixed shapes of strings and ints cannot fail to marshal. The operations that
  send a body therefore have no error path.
- Bodies.BuildPullRequestCommentBody: omits `json.Marshal`'s error return, for the
  same reason.
- UrlQuery.ParseUrl: fails only on ASCII control characters. `url.Parse`'s
  other failures are not modelled: an invalid percent-escape in the path (a
  `%` not followed by two hex digits, such as a slug `100%` or `%zz`), a bad
  scheme, host or port, and a colon in the first path segment. With such an
  identifier and a filter, Gets and Statuses return an error in Go, but the
  model sends the request. Fragments (`#`) are not split off. Query segments
  are not percent-decoded, and `+` is not turned into a space.
- `Values.Encode` is not modelled, and neither is re-serialising the path with
  `URL.String()`: no percent-encoding, no key sorting. After a filter block
  the URL is kept in parsed form, and the next block's parse returns it
  unchanged. That is the Encode/Parse round trip, taken as given.
- The diagnostics written with `log.Printf` before Create and Merge send are
  observability only and are left out.
- The cancellation contexts (`po.ctx`, `co.ctx`) are the executor's concern.
  Only the with-context tag is kept.
- The nil page state passed to `executePaginated` is left out.
