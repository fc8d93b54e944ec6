/** The caller-supplied option records. An empty string or an empty list is
    Go's zero value and means "not given". */
module Options {
  import opened Wrappers

  /** PullRequestsOptions: the target pull request and the optional fields of
      a create, update, merge, decline or list call. The cancellation context
      is not part of the model. */
  datatype PullRequestsOptions = PullRequestsOptions(
    id: string,
    commentId: string,
    project: string,
    repoSlug: string,
    title: string,
    description: string,
    sourceBranch: string,
    sourceRepository: string,
    destinationBranch: string,
    destinationRepository: string,
    reviewers: seq<string>,
    states: seq<string>,
    query: string,
    sort: string)

  /** PullRequestCommentOptions: the comment's pull request, its text and, for
      a threaded reply, the id of the parent comment (a Go `*int`). */
  datatype PullRequestCommentOptions = PullRequestCommentOptions(
    owner: string,
    repoSlug: string,
    pullRequestId: string,
    content: string,
    commentId: string,
    parent: Option<int>)
}
