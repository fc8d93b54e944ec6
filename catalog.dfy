/** The operation catalog: one name per PullRequests method, dispatched to the
    function that models it, and what holds across the whole catalog. */
module Catalog {
  import opened Wrappers
  import opened UrlQuery
  import opened Options
  import opened Bodies
  import PR = PullRequests

  datatype Operation =
    | Create | Update | Gets | Get | Activities | Activity | Commits | Patch | Diff
    | Merge | Decline | Approve | UnApprove | RequestChanges | UnRequestChanges
    | AddComment | UpdateComment | DeleteComment | GetComments | GetComment | Statuses

  /** The operations whose URL is rooted at `/projects/`. */
  predicate InProjectsFamily(op: Operation) {
    op == Create || op == Get || op == Merge
  }

  /** The operations that take a comment-options record. */
  predicate TakesCommentOptions(op: Operation) {
    op == AddComment || op == UpdateComment || op == DeleteComment
  }

  /** The request each operation builds; only the two filtered lists can fail. */
  function Route(op: Operation, po: PullRequestsOptions, co: PullRequestCommentOptions, base: string): (r: Result<PR.Request, UrlError>)
    ensures r.Failure? ==> op == Gets || op == Statuses
  {
    match op
    case Create => Success(PR.Create(po, base))
    case Update => Success(PR.Update(po, base))
    case Gets => PR.GetsRequest(po, base)
    case Get => Success(PR.Get(po, base))
    case Activities => Success(PR.Activities(po, base))
    case Activity => Success(PR.Activity(po, base))
    case Commits => Success(PR.Commits(po, base))
    case Patch => Success(PR.Patch(po, base))
    case Diff => Success(PR.Diff(po, base))
    case Merge => Success(PR.Merge(po, base))
    case Decline => Success(PR.Decline(po, base))
    case Approve => Success(PR.Approve(po, base))
    case UnApprove => Success(PR.UnApprove(po, base))
    case RequestChanges => Success(PR.RequestChanges(po, base))
    case UnRequestChanges => Success(PR.UnRequestChanges(po, base))
    case AddComment => Success(PR.AddComment(co, base))
    case UpdateComment => Success(PR.UpdateComment(co, base))
    case DeleteComment => Success(PR.DeleteComment(co, base))
    case GetComments => Success(PR.GetComments(po, base))
    case GetComment => Success(PR.GetComment(po, base))
    case Statuses => PR.StatusesRequest(po, base)
  }

  /** Verbs across the catalog: DELETE exactly for the three undo operations,
      PUT exactly for the two updates, GET exactly for the reads. */
  lemma Verbs(op: Operation, po: PullRequestsOptions, co: PullRequestCommentOptions, base: string)
    requires Route(op, po, co, base).Success?
    ensures Route(op, po, co, base).value.verb == PR.DELETE <==> op in {UnApprove, UnRequestChanges, DeleteComment}
    ensures Route(op, po, co, base).value.verb == PR.PUT <==> op in {Update, UpdateComment}
    ensures Route(op, po, co, base).value.verb == PR.GET <==>
      op in {Gets, Get, Activities, Activity, Commits, Patch, Diff, GetComments, GetComment, Statuses}
  {
    if op == Gets {
      PR.GetsOutcome(po, base);
    }
  }

  /** Executor entry points across the catalog: raw exactly for Patch and Diff,
      paginated exactly for the five lists, with-context exactly for the posts. */
  lemma Modes(op: Operation, po: PullRequestsOptions, co: PullRequestCommentOptions, base: string)
    requires Route(op, po, co, base).Success?
    ensures Route(op, po, co, base).value.mode == PR.Raw <==> op in {Patch, Diff}
    ensures Route(op, po, co, base).value.mode == PR.Paginated <==> op in {Gets, Activities, Commits, GetComments, Statuses}
    ensures Route(op, po, co, base).value.mode == PR.WithContext <==>
      op in {Create, Merge, Decline, Approve, RequestChanges, AddComment}
  {
    if op == Gets {
      PR.GetsOutcome(po, base);
    }
  }

  /** Bodies across the catalog: the pull-request body for Create, Update, Merge
      and Decline, the comment body for AddComment and UpdateComment, none else. */
  lemma RequestBodies(op: Operation, po: PullRequestsOptions, co: PullRequestCommentOptions, base: string)
    requires Route(op, po, co, base).Success?
    ensures Route(op, po, co, base).value.body.JsonBody? <==>
      op in {Create, Update, Merge, Decline, AddComment, UpdateComment}
    ensures op in {Create, Update, Merge, Decline} ==> Route(op, po, co, base).value.body == PR.JsonBody(PullRequestBody(po))
    ensures op in {AddComment, UpdateComment} ==> Route(op, po, co, base).value.body == PR.JsonBody(CommentBody(co))
  {
    if op == Gets {
      PR.GetsOutcome(po, base);
    }
  }

  /** The owner and slug an operation's URL names. */
  function Owner(op: Operation, po: PullRequestsOptions, co: PullRequestCommentOptions): string {
    if TakesCommentOptions(op) then co.owner else po.project
  }

  function Slug(op: Operation, po: PullRequestsOptions, co: PullRequestCommentOptions): string {
    if TakesCommentOptions(op) then co.repoSlug else po.repoSlug
  }

  /** Create, Get and Merge lie under `/projects/{project}/`. */
  lemma ProjectsRoot(op: Operation, po: PullRequestsOptions, co: PullRequestCommentOptions, base: string)
    requires InProjectsFamily(op)
    ensures base + "/projects/" + po.project + "/" <= Path(Route(op, po, co, base).value.target)
  {
    var prefix := base + "/projects/" + po.project + "/";
    var collection := PR.ProjectPullRequestsUrl(base, po.project, po.repoSlug);
    match op
    case Get =>
      assert PR.Get(po, base).target.text == prefix + (po.repoSlug + "/pull-requests/" + po.id);
      PrefixExtends(prefix, prefix, po.repoSlug + "/pull-requests/" + po.id);
    case Create =>
      assert collection == prefix + ("repos/" + po.repoSlug + "/pull-requests/");
      PrefixExtends(prefix, prefix, "repos/" + po.repoSlug + "/pull-requests/");
    case Merge =>
      assert collection == prefix + ("repos/" + po.repoSlug + "/pull-requests/");
      PrefixExtends(prefix, prefix, "repos/" + po.repoSlug + "/pull-requests/");
      PrefixExtends(prefix, collection, po.id);
      PrefixExtends(prefix, collection + po.id, "/merge");
  }

  /** A prefix stays a prefix when text is appended. */
  lemma PrefixExtends(prefix: string, s: string, tail: string)
    requires prefix <= s
    ensures prefix <= s + tail
  {
  }

  /** The `/repositories/` operations that take the pull-request options and
      are not filtered all extend the item URL of that pull request, or, for
      Activities, the collection root. */
  lemma ItemRepositoriesRoot(op: Operation, po: PullRequestsOptions, co: PullRequestCommentOptions, base: string)
    requires op in {Update, Activity, Commits, Patch, Diff, Decline, Approve, UnApprove, RequestChanges, UnRequestChanges, GetComments, GetComment}
    ensures Route(op, po, co, base).value.target.Plain?
    ensures PR.PullRequestUrl(base, po) <= Route(op, po, co, base).value.target.text
  {
    var item := PR.PullRequestUrl(base, po);
    match op
    case Update =>
    case Activity => PrefixExtends(item, item, "/activity");
    case Commits => PrefixExtends(item, item, "/commits");
    case Patch => PrefixExtends(item, item, "/patch");
    case Diff => PrefixExtends(item, item, "/diff");
    case Decline => PrefixExtends(item, item, "/decline");
    case Approve => PrefixExtends(item, item, "/approve");
    case UnApprove => PrefixExtends(item, item, "/approve");
    case RequestChanges => PrefixExtends(item, item, "/request-changes");
    case UnRequestChanges => PrefixExtends(item, item, "/request-changes");
    case GetComments => PrefixExtends(item, item, "/comments/");
    case GetComment =>
      PrefixExtends(item, item, "/comments/");
      PrefixExtends(item, item + "/comments/", po.commentId);
  }

  /** The three comment operations extend the collection root of their owner and slug. */
  lemma CommentRepositoriesRoot(op: Operation, po: PullRequestsOptions, co: PullRequestCommentOptions, base: string)
    requires TakesCommentOptions(op)
    ensures Route(op, po, co, base).value.target.Plain?
    ensures PR.RepositoryPullRequestsUrl(base, co.owner, co.repoSlug) <= Route(op, po, co, base).value.target.text
  {
    var root := PR.RepositoryPullRequestsUrl(base, co.owner, co.repoSlug);
    var comments := PR.CommentsUrl(base, co);
    PrefixExtends(root, root, co.pullRequestId);
    PrefixExtends(root, root + co.pullRequestId, "/comments");
    PrefixExtends(root, comments, "/");
    PrefixExtends(root, comments + "/", co.commentId);
    match op
    case AddComment =>
    case UpdateComment =>
    case DeleteComment =>
  }

  /** The `/repositories/` operations other than the two filtered lists extend
      the collection root of their owner and slug. */
  lemma UnfilteredRepositoriesRoot(op: Operation, po: PullRequestsOptions, co: PullRequestCommentOptions, base: string)
    requires !InProjectsFamily(op) && op != Gets && op != Statuses
    ensures Route(op, po, co, base).value.target.Plain?
    ensures PR.RepositoryPullRequestsUrl(base, Owner(op, po, co), Slug(op, po, co)) <= Path(Route(op, po, co, base).value.target)
  {
    if TakesCommentOptions(op) {
      CommentRepositoriesRoot(op, po, co, base);
    } else if op == Activities {
      var root := PR.RepositoryPullRequestsUrl(base, po.project, po.repoSlug);
      PrefixExtends(root, root, "activity");
    } else {
      var root := PR.RepositoryPullRequestsUrl(base, po.project, po.repoSlug);
      PrefixExtends(root, root, po.id);
      ItemRepositoriesRoot(op, po, co, base);
    }
  }

  /** The path Gets sends keeps the collection root in front, parsed or not,
      as long as the root holds no `?`. */
  lemma GetsRoot(po: PullRequestsOptions, base: string)
    requires PR.GetsRequest(po, base).Success?
    requires '?' !in PR.RepositoryPullRequestsUrl(base, po.project, po.repoSlug)
    ensures PR.RepositoryPullRequestsUrl(base, po.project, po.repoSlug) <= Path(PR.GetsRequest(po, base).value.target)
  {
    var root := PR.RepositoryPullRequestsUrl(base, po.project, po.repoSlug);
    PR.GetsOutcome(po, base);
    if PR.HasListFilter(po) {
      PR.GetsQuery(po, base);
      ParsedPathKeepsPrefix(root, root);
    }
  }

  /** The same for Statuses, whose URL extends the collection root. */
  lemma StatusesRoot(po: PullRequestsOptions, base: string)
    requires PR.StatusesRequest(po, base).Success?
    requires '?' !in PR.RepositoryPullRequestsUrl(base, po.project, po.repoSlug)
    ensures PR.RepositoryPullRequestsUrl(base, po.project, po.repoSlug) <= Path(PR.StatusesRequest(po, base).value.target)
  {
    var root := PR.RepositoryPullRequestsUrl(base, po.project, po.repoSlug);
    var text := PR.PullRequestUrl(base, po) + "/statuses";
    PrefixExtends(root, root, po.id);
    PrefixExtends(root, root + po.id, "/statuses");
    PR.StatusesQuery(po, base);
    if po.query != "" || po.sort != "" {
      ParsedPathKeepsPrefix(text, root);
    }
  }

  /** A text under `/projects/{project}/` is under `/projects/` and not under `/repositories/`. */
  lemma ProjectsPathFacts(base: string, project: string, path: string)
    requires base + "/projects/" + project + "/" <= path
    ensures base + "/projects/" <= path
    ensures !(base + "/repositories/" <= path)
  {
    var projects := base + "/projects/";
    PrefixExtends(projects, projects, project + "/");
    assert projects + (project + "/") == projects + project + "/";
    assert path[|base| + 1] == projects[|base| + 1] == 'p';
    assert (base + "/repositories/")[|base| + 1] == 'r';
  }

  /** A text under a collection root is under `/repositories/` and not under `/projects/`. */
  lemma RepositoriesPathFacts(base: string, owner: string, slug: string, path: string)
    requires PR.RepositoryPullRequestsUrl(base, owner, slug) <= path
    ensures base + "/repositories/" <= path
    ensures !(base + "/projects/" <= path)
  {
    var repositories := base + "/repositories/";
    PrefixExtends(repositories, repositories, owner + "/" + slug + "/pullrequests/");
    assert repositories + (owner + "/" + slug + "/pullrequests/") == PR.RepositoryPullRequestsUrl(base, owner, slug);
    assert path[|base| + 1] == repositories[|base| + 1] == 'r';
    assert (base + "/projects/")[|base| + 1] == 'p';
  }

  /** The collection root holds a `?` only if the base, owner or slug does. */
  lemma RootWithoutQuestionMark(base: string, owner: string, slug: string)
    requires '?' !in base + owner + slug
    ensures '?' !in PR.RepositoryPullRequestsUrl(base, owner, slug)
  {
    assert '?' !in base && '?' !in owner && '?' !in slug by {
      assert base + owner + slug == base + (owner + slug);
    }
  }

  /** The two URL families: Create, Get and Merge lie under
      `/projects/{project}/`, every other operation under
      `/repositories/{owner}/{slug}/pullrequests/`; no operation lies in both.
      Only the two filtered lists parse their URL again, so only for them must
      the base, owner and slug be free of `?`. */
  lemma PathFamilies(op: Operation, po: PullRequestsOptions, co: PullRequestCommentOptions, base: string)
    requires Route(op, po, co, base).Success?
    requires op == Gets || op == Statuses ==> '?' !in base + Owner(op, po, co) + Slug(op, po, co)
    ensures var path := Path(Route(op, po, co, base).value.target);
      && (base + "/projects/" <= path <==> InProjectsFamily(op))
      && (base + "/repositories/" <= path <==> !InProjectsFamily(op))
      && (InProjectsFamily(op) ==> base + "/projects/" + po.project + "/" <= path)
      && (!InProjectsFamily(op) ==> PR.RepositoryPullRequestsUrl(base, Owner(op, po, co), Slug(op, po, co)) <= path)
  {
    var path := Path(Route(op, po, co, base).value.target);
    if InProjectsFamily(op) {
      ProjectsRoot(op, po, co, base);
      ProjectsPathFacts(base, po.project, path);
    } else {
      if op == Gets || op == Statuses {
        RootWithoutQuestionMark(base, Owner(op, po, co), Slug(op, po, co));
        if op == Gets {
          GetsRoot(po, base);
        } else {
          StatusesRoot(po, base);
        }
      } else {
        UnfilteredRepositoriesRoot(op, po, co, base);
      }
      RepositoriesPathFacts(base, Owner(op, po, co), Slug(op, po, co), path);
    }
  }
}
