/** src/lib/services/collaborationService.ts: the query string of
    `getCollaborations` (lines 98-101) and the path templates of the other
    calls. These paths are written out in the service, not taken from the
    endpoint table, and unlike every entry of that table they carry no
    `/api` prefix. */
module CollaborationService {
  import opened Common
  import opened Text
  import opened QueryParams

  /** `CollaborationFilters`; a missing filter is `None`. */
  datatype CollaborationFilters = CollaborationFilters(
    page: Option<int>,
    limit: Option<int>,
    search: Option<string>,
    status: Option<string>)

  /** The keys in the order of the `append` lines. */
  const CollaborationKeys: seq<string> := ["page", "limit", "search", "status"]

  /** What each line would append, or `None` where the filter is falsy. */
  function CollaborationValues(f: CollaborationFilters): (vs: seq<Option<string>>)
    ensures |vs| == |CollaborationKeys|
  {
    [NumberParam(f.page), NumberParam(f.limit), TextParam(f.search), TextParam(f.status)]
  }

  /** The parameters of `getCollaborations`, appended line by line. */
  method CollaborationQuery(f: CollaborationFilters) returns (params: seq<Param>)
    ensures params == Pick(CollaborationKeys, CollaborationValues(f))
  {
    // the lines run so far, and what they tested
    params := [];
    PickSnoc([], [], "page", NumberParam(f.page));
    params := AppendIfPresent(params, "page", NumberParam(f.page));
    ghost var keys: seq<string>, vals: seq<Option<string>> := ["page"], [NumberParam(f.page)];
    PickSnoc(keys, vals, "limit", NumberParam(f.limit));
    params := AppendIfPresent(params, "limit", NumberParam(f.limit));
    keys, vals := keys + ["limit"], vals + [NumberParam(f.limit)];
    PickSnoc(keys, vals, "search", TextParam(f.search));
    params := AppendIfPresent(params, "search", TextParam(f.search));
    keys, vals := keys + ["search"], vals + [TextParam(f.search)];
    PickSnoc(keys, vals, "status", TextParam(f.status));
    params := AppendIfPresent(params, "status", TextParam(f.status));
    keys, vals := keys + ["status"], vals + [TextParam(f.status)];
    assert keys == CollaborationKeys && vals == CollaborationValues(f);
  }

  /** Each key appears at most once and in the order of the lines; a filter
      is sent exactly when it is truthy. */
  lemma CollaborationQueryShape(f: CollaborationFilters)
    ensures Distinct(KeysOf(Pick(CollaborationKeys, CollaborationValues(f))))
    ensures forall i, j :: 0 <= i < j < |Pick(CollaborationKeys, CollaborationValues(f))| ==>
      IndexOf(CollaborationKeys, Pick(CollaborationKeys, CollaborationValues(f))[i].0)
        < IndexOf(CollaborationKeys, Pick(CollaborationKeys, CollaborationValues(f))[j].0)
    ensures forall j :: 0 <= j < |CollaborationKeys| ==>
      var present := CollaborationKeys[j] in KeysOf(Pick(CollaborationKeys, CollaborationValues(f)));
      present <==> CollaborationValues(f)[j].Some?
  {
    assert Distinct(CollaborationKeys);
    PickDistinct(CollaborationKeys, CollaborationValues(f));
    PickOrdered(CollaborationKeys, CollaborationValues(f));
    forall j | 0 <= j < |CollaborationKeys|
      ensures var present := CollaborationKeys[j] in KeysOf(Pick(CollaborationKeys, CollaborationValues(f)));
        present <==> CollaborationValues(f)[j].Some?
    {
      PickPresence(CollaborationKeys, CollaborationValues(f), j);
    }
  }

  // ---------------------------------------------------------------------
  // Paths

  /** The list and create path (lines 104 and 127). */
  const CollaborationsPath := "/collaborations"

  /** The URL `getCollaborations` requests (line 104). */
  function CollaborationListUrl(params: seq<Param>): (u: string)
    ensures StartsWith(u, CollaborationsPath + "?")
    ensures u[|CollaborationsPath| + 1..] == QueryString(params)
  {
    CollaborationsPath + "?" + QueryString(params)
  }

  /** Detail, update and delete of one collaboration (lines 116, 137,
      172). */
  function CollaborationPath(id: string): (p: string)
    ensures StartsWith(p, CollaborationsPath + "/") && p[|CollaborationsPath| + 1..] == id
  {
    CollaborationsPath + "/" + id
  }

  /** Where `addMember` posts (line 148). */
  function MembersPath(collaborationId: string): (p: string)
    ensures StartsWith(p, CollaborationPath(collaborationId))
  {
    CollaborationPath(collaborationId) + "/members"
  }

  /** What `removeMember` deletes (line 161). */
  function MemberPath(collaborationId: string, userId: string): (p: string)
    ensures StartsWith(p, MembersPath(collaborationId) + "/")
    ensures p[|MembersPath(collaborationId)| + 1..] == userId
  {
    MembersPath(collaborationId) + "/" + userId
  }

  /** None of these paths is under `/api`, where every path of the endpoint
      table lies. */
  lemma PathsOutsideApi(id: string, userId: string)
    ensures !StartsWith(CollaborationsPath, "/api")
    ensures !StartsWith(CollaborationPath(id), "/api")
    ensures !StartsWith(MembersPath(id), "/api")
    ensures !StartsWith(MemberPath(id, userId), "/api")
  {
    assert CollaborationPath(id)[1] == 'c';
    assert MembersPath(id)[1] == 'c';
    assert MemberPath(id, userId)[1] == 'c';
  }

  /** With a slash-free id, the collaboration path reads back as the
      segments of the list path, then the id. */
  lemma CollaborationSegments(c: string)
    requires '/' !in c
    ensures Split(CollaborationPath(c), '/') == Split(CollaborationsPath, '/') + [c]
  {
    SplitChild(CollaborationsPath, c, '/');
  }

  /** The member path of slash-free ids reads back as the segments of the
      list path, then the collaboration id, "members" and the user id. */
  lemma MemberSegments(c: string, u: string)
    requires '/' !in c && '/' !in u
    ensures Split(MemberPath(c, u), '/') == Split(CollaborationsPath, '/') + [c, "members", u]
  {
    var root, members := Split(CollaborationsPath, '/'), "members";
    CollaborationSegments(c);
    MembersPathIsChild(c);
    SplitChild(CollaborationPath(c), members, '/');
    SplitChild(MembersPath(c), u, '/');
    assert root + [c] + [members] + [u] == root + [c, members, u];
  }

  lemma MembersPathIsChild(c: string)
    ensures MembersPath(c) == CollaborationPath(c) + ['/'] + "members" && '/' !in "members"
  {
  }

  /** So the member path names one collaboration and one member: different
      slash-free id pairs give different paths. */
  lemma MemberPathInjective(c1: string, u1: string, c2: string, u2: string)
    requires '/' !in c1 && '/' !in u1 && '/' !in c2 && '/' !in u2
    requires MemberPath(c1, u1) == MemberPath(c2, u2)
    ensures c1 == c2 && u1 == u2
  {
    var root := Split(CollaborationsPath, '/');
    MemberSegments(c1, u1);
    MemberSegments(c2, u2);
    assert (root + [c1, "members", u1])[|root|] == c1;
    assert (root + [c2, "members", u2])[|root|] == c2;
    assert (root + [c1, "members", u1])[|root| + 2] == u1;
    assert (root + [c2, "members", u2])[|root| + 2] == u2;
  }

  /** An id containing a slash is not one segment: the collaboration
      "x/members" has the same path as the members of "x". */
  lemma SlashInIdCollides()
    ensures CollaborationPath("x/members") == MembersPath("x")
  {
  }
}
