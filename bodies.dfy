/** The request bodies: buildPullRequestBody and buildPullRequestCommentBody,
    as JSON trees. Each builder is an imperative method that fills a map key by
    key, proved equal to a function that describes the finished tree. */
module Bodies {
  import opened Wrappers
  import opened JsonTree
  import opened Options

  /** The prefix that turns a branch name into a fully qualified ref. */
  const RefsHeads: string := "refs/heads/"

  /** One element of `reviewers`: `{uuid: id}`. */
  function ReviewerRef(uuid: string): Json {
    JObject(map["uuid" := JString(uuid)])
  }

  /** `reviewers`: one reference per reviewer, in input order. */
  function ReviewerList(uuids: seq<string>): Json {
    JArray(seq(|uuids|, i requires 0 <= i < |uuids| => ReviewerRef(uuids[i])))
  }

  /** The `repository` member of a ref: name and slug are the slug, project.key the project. */
  function RepositoryRef(slug: string, project: string): Json {
    JObject(map[
      "name" := JString(slug),
      "project" := JObject(map["key" := JString(project)]),
      "slug" := JString(slug)])
  }

  /** `fromRef` or `toRef`: displayId and id exactly when a branch is named,
      repository exactly when a repository is named, each independently. */
  function BranchRef(branch: string, repository: string, project: string): (r: Json)
    ensures r.JObject? && r.fields.Keys <= {"displayId", "id", "repository"}
    ensures "displayId" in r.fields <==> branch != ""
    ensures "id" in r.fields <==> branch != ""
    ensures "repository" in r.fields <==> repository != ""
  {
    JObject(
      (if branch != "" then map["displayId" := JString(branch), "id" := JString(RefsHeads + branch)] else map[])
      + (if repository != "" then map["repository" := RepositoryRef(repository, project)] else map[]))
  }

  /** The pull-request body: always the five top-level keys. */
  function PullRequestBody(po: PullRequestsOptions): (r: Json)
    ensures r.JObject? && r.fields.Keys == {"fromRef", "toRef", "reviewers", "title", "description"}
  {
    JObject(TopLevel(
      BranchRef(po.sourceBranch, po.sourceRepository, po.project),
      BranchRef(po.destinationBranch, po.destinationRepository, po.project),
      ReviewerList(po.reviewers),
      JString(po.title),
      JString(po.description)))
  }

  /** The comment body: content.raw always, parent.id only for a reply. */
  function CommentBody(co: PullRequestCommentOptions): (r: Json)
    ensures r.JObject? && r.fields.Keys == if co.parent.Some? then {"content", "parent"} else {"content"}
    ensures r.fields["content"] == JObject(map["raw" := JString(co.content)])
  {
    JObject(
      map["content" := JObject(map["raw" := JString(co.content)])]
      + (if co.parent.Some? then map["parent" := JObject(map["id" := JInt(co.parent.value)])] else map[]))
  }

  /** buildPullRequestBody: start from the skeleton, then overwrite the
      sub-fields whose option is non-empty. */
  method BuildPullRequestBody(po: PullRequestsOptions) returns (body: Json)
    ensures body == PullRequestBody(po)
  {
    var fields: map<string, Json> := map[];
    fields := fields["fromRef" := JObject(map[])];
    fields := fields["toRef" := JObject(map[])];
    fields := fields["reviewers" := JArray([])];
    fields := fields["title" := JString("")];
    fields := fields["description" := JString("")];
    ghost var fromRef0, toRef0, reviewers0, title0, description0 := JObject(map[]), JObject(map[]), JArray([]), JString(""), JString("");
    assert fields == TopLevel(fromRef0, toRef0, reviewers0, title0, description0);

    if |po.reviewers| > 0 {
      var reviewers := BuildReviewers(po.reviewers);
      TopLevelUpdates(fromRef0, toRef0, reviewers0, title0, description0, reviewers);
      fields := fields["reviewers" := reviewers];
    }
    ghost var reviewers1 := ReviewerList(po.reviewers);
    assert |po.reviewers| == 0 ==> reviewers0 == reviewers1;
    assert fields == TopLevel(fromRef0, toRef0, reviewers1, title0, description0);

    TopLevelUpdates(fromRef0, toRef0, reviewers1, title0, description0, fields["fromRef"]);
    var fromRef := FillRef(fields["fromRef"], po.sourceBranch, po.sourceRepository, po.project);
    TopLevelUpdates(fromRef0, toRef0, reviewers1, title0, description0, fromRef);
    fields := fields["fromRef" := fromRef];
    assert fields == TopLevel(fromRef, toRef0, reviewers1, title0, description0);

    TopLevelUpdates(fromRef, toRef0, reviewers1, title0, description0, fields["toRef"]);
    var toRef := FillRef(fields["toRef"], po.destinationBranch, po.destinationRepository, po.project);
    TopLevelUpdates(fromRef, toRef0, reviewers1, title0, description0, toRef);
    fields := fields["toRef" := toRef];
    assert fields == TopLevel(fromRef, toRef, reviewers1, title0, description0);

    if po.title != "" {
      TopLevelUpdates(fromRef, toRef, reviewers1, title0, description0, JString(po.title));
      fields := fields["title" := JString(po.title)];
    }
    assert fields == TopLevel(fromRef, toRef, reviewers1, JString(po.title), description0);

    if po.description != "" {
      TopLevelUpdates(fromRef, toRef, reviewers1, JString(po.title), description0, JString(po.description));
      fields := fields["description" := JString(po.description)];
    }
    assert fields == TopLevel(fromRef, toRef, reviewers1, JString(po.title), JString(po.description));
    body := JObject(fields);
  }

  /** The top level of a pull-request body from its five members. */
  function TopLevel(fromRef: Json, toRef: Json, reviewers: Json, title: Json, description: Json): map<string, Json> {
    map["fromRef" := fromRef, "toRef" := toRef, "reviewers" := reviewers, "title" := title, "description" := description]
  }

  /** Overwriting one member of the top level replaces just that member. */
  lemma TopLevelUpdates(fromRef: Json, toRef: Json, reviewers: Json, title: Json, description: Json, x: Json)
    ensures TopLevel(fromRef, toRef, reviewers, title, description)["fromRef"] == fromRef
    ensures TopLevel(fromRef, toRef, reviewers, title, description)["toRef"] == toRef
    ensures TopLevel(fromRef, toRef, reviewers, title, description)["fromRef" := x] == TopLevel(x, toRef, reviewers, title, description)
    ensures TopLevel(fromRef, toRef, reviewers, title, description)["toRef" := x] == TopLevel(fromRef, x, reviewers, title, description)
    ensures TopLevel(fromRef, toRef, reviewers, title, description)["reviewers" := x] == TopLevel(fromRef, toRef, x, title, description)
    ensures TopLevel(fromRef, toRef, reviewers, title, description)["title" := x] == TopLevel(fromRef, toRef, reviewers, x, description)
    ensures TopLevel(fromRef, toRef, reviewers, title, description)["description" := x] == TopLevel(fromRef, toRef, reviewers, title, x)
  {
    TopLevelUpdateFromRef(fromRef, toRef, reviewers, title, description, x);
    TopLevelUpdateToRef(fromRef, toRef, reviewers, title, description, x);
    TopLevelUpdateReviewers(fromRef, toRef, reviewers, title, description, x);
    TopLevelUpdateTitle(fromRef, toRef, reviewers, title, description, x);
    TopLevelUpdateDescription(fromRef, toRef, reviewers, title, description, x);
  }

  lemma TopLevelUpdateFromRef(fromRef: Json, toRef: Json, reviewers: Json, title: Json, description: Json, x: Json)
    ensures TopLevel(fromRef, toRef, reviewers, title, description)["fromRef" := x] == TopLevel(x, toRef, reviewers, title, description)
  {
  }

  lemma TopLevelUpdateToRef(fromRef: Json, toRef: Json, reviewers: Json, title: Json, description: Json, x: Json)
    ensures TopLevel(fromRef, toRef, reviewers, title, description)["toRef" := x] == TopLevel(fromRef, x, reviewers, title, description)
  {
  }

  lemma TopLevelUpdateReviewers(fromRef: Json, toRef: Json, reviewers: Json, title: Json, description: Json, x: Json)
    ensures TopLevel(fromRef, toRef, reviewers, title, description)["reviewers" := x] == TopLevel(fromRef, toRef, x, title, description)
  {
  }

  lemma TopLevelUpdateTitle(fromRef: Json, toRef: Json, reviewers: Json, title: Json, description: Json, x: Json)
    ensures TopLevel(fromRef, toRef, reviewers, title, description)["title" := x] == TopLevel(fromRef, toRef, reviewers, x, description)
  {
  }

  lemma TopLevelUpdateDescription(fromRef: Json, toRef: Json, reviewers: Json, title: Json, description: Json, x: Json)
    ensures TopLevel(fromRef, toRef, reviewers, title, description)["description" := x] == TopLevel(fromRef, toRef, reviewers, title, x)
  {
  }

  /** The reviewer slice: made with one slot per reviewer, then filled by index. */
  method BuildReviewers(uuids: seq<string>) returns (reviewers: Json)
    ensures reviewers == ReviewerList(uuids)
  {
    var slots := new Json[|uuids|];
    for i := 0 to |uuids|
      invariant forall j :: 0 <= j < i ==> slots[j] == ReviewerRef(uuids[j])
    {
      slots[i] := ReviewerRef(uuids[i]);
    }
    assert slots[..] == ReviewerList(uuids).items;
    reviewers := JArray(slots[..]);
  }

  /** The two blocks that fill one side's ref, applied to the empty skeleton
      ref: displayId and id for a named branch, then repository for a named
      repository. */
  method FillRef(skeleton: Json, branch: string, repository: string, project: string) returns (ref: Json)
    requires skeleton == JObject(map[])
    ensures ref == BranchRef(branch, repository, project)
  {
    var fields := skeleton.fields;
    if branch != "" {
      fields := fields["displayId" := JString(branch)];
      fields := fields["id" := JString(RefsHeads + branch)];
    }
    if repository != "" {
      fields := fields["repository" := RepositoryRef(repository, project)];
    }
    ref := JObject(fields);
  }

  /** buildPullRequestCommentBody: content first, parent inserted only when set. */
  method BuildPullRequestCommentBody(co: PullRequestCommentOptions) returns (body: Json)
    ensures body == CommentBody(co)
  {
    var fields: map<string, Json> := map[];
    fields := fields["content" := JObject(map["raw" := JString(co.content)])];
    if co.parent.Some? {
      fields := fields["parent" := JObject(map["id" := JInt(co.parent.value)])];
    }
    body := JObject(fields);
  }

  /** Every optional field that shapes the body is at its zero value. */
  predicate NoOptionalFields(po: PullRequestsOptions) {
    && po.reviewers == []
    && po.sourceBranch == "" && po.sourceRepository == ""
    && po.destinationBranch == "" && po.destinationRepository == ""
    && po.title == "" && po.description == ""
  }

  /** The skeleton sent when nothing is set. */
  lemma SkeletonWhenNothingSet(po: PullRequestsOptions)
    requires NoOptionalFields(po)
    ensures PullRequestBody(po) == JObject(map[
      "fromRef" := JObject(map[]),
      "toRef" := JObject(map[]),
      "reviewers" := JArray([]),
      "title" := JString(""),
      "description" := JString("")])
  {
    assert BranchRef("", "", po.project) == JObject(map[]);
    assert ReviewerList([]).items == [];
  }

  /** Whatever is set, the top level has exactly the five keys. */
  lemma TopLevelKeys(po: PullRequestsOptions)
    ensures PullRequestBody(po).JObject?
    ensures PullRequestBody(po).fields.Keys == {"fromRef", "toRef", "reviewers", "title", "description"}
  {
  }

  /** `reviewers` has one `{uuid: ...}` per reviewer, in input order, and nothing else. */
  lemma ReviewersInOrder(po: PullRequestsOptions)
    ensures Lookup(PullRequestBody(po), ["reviewers"]).Some?
    ensures Lookup(PullRequestBody(po), ["reviewers"]).value.JArray?
    ensures |Lookup(PullRequestBody(po), ["reviewers"]).value.items| == |po.reviewers|
    ensures forall i :: 0 <= i < |po.reviewers| ==>
      Lookup(PullRequestBody(po), ["reviewers"]).value.items[i] == JObject(map["uuid" := JString(po.reviewers[i])])
  {
  }

  /** A named branch gives displayId and the refs/heads/ id; an empty one leaves both out. */
  lemma BranchRefs(po: PullRequestsOptions)
    ensures Lookup(PullRequestBody(po), ["fromRef", "displayId"])
      == if po.sourceBranch != "" then Some(JString(po.sourceBranch)) else None
    ensures Lookup(PullRequestBody(po), ["fromRef", "id"])
      == if po.sourceBranch != "" then Some(JString("refs/heads/" + po.sourceBranch)) else None
    ensures Lookup(PullRequestBody(po), ["toRef", "displayId"])
      == if po.destinationBranch != "" then Some(JString(po.destinationBranch)) else None
    ensures Lookup(PullRequestBody(po), ["toRef", "id"])
      == if po.destinationBranch != "" then Some(JString("refs/heads/" + po.destinationBranch)) else None
  {
  }

  /** Within one ref, `repository` depends on the repository alone. */
  lemma RefRepository(branch: string, repository: string, project: string)
    ensures Lookup(BranchRef(branch, repository, project), ["repository"]).Some? <==> repository != ""
    ensures repository != "" ==>
      && Lookup(BranchRef(branch, repository, project), ["repository", "name"]) == Some(JString(repository))
      && Lookup(BranchRef(branch, repository, project), ["repository", "slug"]) == Some(JString(repository))
      && Lookup(BranchRef(branch, repository, project), ["repository", "project", "key"]) == Some(JString(project))
  {
    if repository != "" {
      var ref := BranchRef(branch, repository, project);
      var repo := RepositoryRef(repository, project);
      assert ref.fields["repository"] == repo;
      LookupChild(ref.fields, "repository", ["name"]);
      LookupChild(ref.fields, "repository", ["slug"]);
      LookupChild(ref.fields, "repository", ["project", "key"]);
      LookupChild(repo.fields, "project", ["key"]);
    }
  }

  /** Lookups below `fromRef` or `toRef` are lookups in that ref. */
  lemma RefLookups(po: PullRequestsOptions, side: string)
    requires side == "fromRef" || side == "toRef"
    ensures var body := PullRequestBody(po); var ref := body.fields[side];
      && Lookup(body, [side, "repository"]) == Lookup(ref, ["repository"])
      && Lookup(body, [side, "repository", "name"]) == Lookup(ref, ["repository", "name"])
      && Lookup(body, [side, "repository", "slug"]) == Lookup(ref, ["repository", "slug"])
      && Lookup(body, [side, "repository", "project", "key"]) == Lookup(ref, ["repository", "project", "key"])
  {
    var fields := PullRequestBody(po).fields;
    LookupChild(fields, side, ["repository"]);
    LookupChild(fields, side, ["repository", "name"]);
    LookupChild(fields, side, ["repository", "slug"]);
    LookupChild(fields, side, ["repository", "project", "key"]);
    assert [side] + ["repository"] == [side, "repository"];
    assert [side] + ["repository", "name"] == [side, "repository", "name"];
    assert [side] + ["repository", "slug"] == [side, "repository", "slug"];
    assert [side] + ["repository", "project", "key"] == [side, "repository", "project", "key"];
  }

  /** `repository` appears in a ref exactly when that side's repository is named,
      whatever the branch, and then carries name, slug and project.key. */
  lemma RepositoryRefs(po: PullRequestsOptions)
    ensures Lookup(PullRequestBody(po), ["fromRef", "repository"]).Some? <==> po.sourceRepository != ""
    ensures po.sourceRepository != "" ==>
      && Lookup(PullRequestBody(po), ["fromRef", "repository", "name"]) == Some(JString(po.sourceRepository))
      && Lookup(PullRequestBody(po), ["fromRef", "repository", "slug"]) == Some(JString(po.sourceRepository))
      && Lookup(PullRequestBody(po), ["fromRef", "repository", "project", "key"]) == Some(JString(po.project))
    ensures Lookup(PullRequestBody(po), ["toRef", "repository"]).Some? <==> po.destinationRepository != ""
    ensures po.destinationRepository != "" ==>
      && Lookup(PullRequestBody(po), ["toRef", "repository", "name"]) == Some(JString(po.destinationRepository))
      && Lookup(PullRequestBody(po), ["toRef", "repository", "slug"]) == Some(JString(po.destinationRepository))
      && Lookup(PullRequestBody(po), ["toRef", "repository", "project", "key"]) == Some(JString(po.project))
  {
    RefLookups(po, "fromRef");
    RefLookups(po, "toRef");
    RefRepository(po.sourceBranch, po.sourceRepository, po.project);
    RefRepository(po.destinationBranch, po.destinationRepository, po.project);
  }

  /** Title and description are sent as given; an empty one is sent as "". */
  lemma TitleAndDescription(po: PullRequestsOptions)
    ensures Lookup(PullRequestBody(po), ["title"]) == Some(JString(po.title))
    ensures Lookup(PullRequestBody(po), ["description"]) == Some(JString(po.description))
  {
  }

  /** The comment body: content.raw is the text; parent is present exactly for a reply. */
  lemma CommentBodyShape(co: PullRequestCommentOptions)
    ensures CommentBody(co).JObject?
    ensures CommentBody(co).fields.Keys == if co.parent.Some? then {"content", "parent"} else {"content"}
    ensures Lookup(CommentBody(co), ["content", "raw"]) == Some(JString(co.content))
    ensures Lookup(CommentBody(co), ["parent"]).Some? <==> co.parent.Some?
    ensures co.parent.Some? ==> Lookup(CommentBody(co), ["parent", "id"]) == Some(JInt(co.parent.value))
  {
  }
}
