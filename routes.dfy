/** Model of the data-shaping parts of plugins/live-delphi-routes/index.js:
    the ids a user's entitlements allow for a resource type, the `type:id`
    names of created Keycloak resources, joining a query (find or create the
    participant's QueryUser), the four quadrants of the comments report, the
    folder listing of `getQueries` and the required fields of the create
    forms. The store and Keycloak are values and parameters. */
module Routes {
  import opened Base
  import AccessControl
  import Analysis
  import DataExport

  const FolderType: string := "folder"
  const QueryType: string := "query"

  // ---------------------------------------------------------------------
  // Resource names

  /** `${ResourceType.X}:${id}`. */
  function ResourceName(resourceType: string, id: nat): (name: string)
    ensures name == AccessControl.ResourceString(resourceType, AccessControl.Str(NatToString(id)))
  {
    resourceType + ":" + NatToString(id)
  }

  /** A name built from a type without ':' splits back into the type and the id. */
  lemma ResourceNameSplits(resourceType: string, id: nat)
    requires ':' !in resourceType
    ensures Split(ResourceName(resourceType, id), ':') == [resourceType, NatToString(id)]
  {
    NoColonInDigits(NatToString(id));
    AccessControl.ResourceStringSplits(resourceType, AccessControl.Str(NatToString(id)));
  }

  lemma NoColonInDigits(s: string)
    requires forall i :: 0 <= i < |s| ==> IsDigit(s[i])
    ensures ':' !in s
  {
    forall i | 0 <= i < |s|
      ensures s[i] != ':'
    {
      assert IsDigit(s[i]);
    }
  }

  /** For one resource: not of the type (None), or of the type with its
      segment [1], which is `undefined` (None) when there is no ':'. */
  function IdOfType(resource: string, resourceType: string): (r: Option<Option<string>>)
    ensures r.Some? <==> Split(resource, ':')[0] == resourceType
    ensures r.Some? && r.value.Some? ==> |Split(resource, ':')| >= 2 && r.value.value == Split(resource, ':')[1]
  {
    var parts := Split(resource, ':');
    if parts[0] == resourceType then Some(if |parts| > 1 then Some(parts[1]) else None) else None
  }

  /** Segment [1] of every permission resource of the type, in permission order. */
  function AllowedIds(permissions: seq<AccessControl.Permission>, resourceType: string): (ids: seq<Option<string>>)
    ensures |ids| <= |permissions|
    decreases |permissions|
  {
    if |permissions| == 0 then []
    else
      var init := AllowedIds(permissions[..|permissions| - 1], resourceType);
      match IdOfType(permissions[|permissions| - 1].resource, resourceType)
      case Some(id) => init + [id]
      case None => init
  }

  /** `getAllowedResourceIdsWIthType`. */
  method GetAllowedResourceIdsWithType(entitlements: AccessControl.Entitlements, resourceType: string) returns (result: seq<Option<string>>)
    ensures result == AllowedIds(entitlements.permissions, resourceType)
  {
    var permissions := entitlements.permissions;
    result := [];
    var i := 0;
    while i < |permissions|
      invariant 0 <= i <= |permissions|
      invariant result == AllowedIds(permissions[..i], resourceType)
    {
      var resourceParts := Split(permissions[i].resource, ':');
      if resourceParts[0] == resourceType {
        result := result + [if |resourceParts| > 1 then Some(resourceParts[1]) else None];
      }
      assert permissions[..i + 1][..i] == permissions[..i];
      i := i + 1;
    }
    assert permissions[..i] == permissions;
  }

  /** A permission on a resource created as `type:id` contributes `id`. */
  lemma AllowedIdsOfCreatedResource(permissions: seq<AccessControl.Permission>, resourceType: string, scopes: seq<string>, id: nat)
    requires ':' !in resourceType
    ensures AllowedIds(permissions + [AccessControl.Permission(scopes, ResourceName(resourceType, id))], resourceType)
      == AllowedIds(permissions, resourceType) + [Some(NatToString(id))]
  {
    ResourceNameSplits(resourceType, id);
    assert (permissions + [AccessControl.Permission(scopes, ResourceName(resourceType, id))])[..|permissions|] == permissions;
  }

  /** A permission on a resource of another type contributes nothing. */
  lemma AllowedIdsSkipOtherType(permissions: seq<AccessControl.Permission>, resourceType: string, other: string, scopes: seq<string>, id: nat)
    requires ':' !in other && other != resourceType
    ensures AllowedIds(permissions + [AccessControl.Permission(scopes, ResourceName(other, id))], resourceType)
      == AllowedIds(permissions, resourceType)
  {
    ResourceNameSplits(other, id);
    assert (permissions + [AccessControl.Permission(scopes, ResourceName(other, id))])[..|permissions|] == permissions;
  }

  /** A resource name without ':' is of its whole name's type, with no id. */
  lemma AllowedIdsOfBareName(resourceType: string, scopes: seq<string>)
    requires ':' !in resourceType
    ensures AllowedIds([AccessControl.Permission(scopes, resourceType)], resourceType) == [None]
  {
    SplitNoSeparator(resourceType, ':');
    assert [AccessControl.Permission(scopes, resourceType)][..0] == [];
  }

  // ---------------------------------------------------------------------
  // Creating queries and folders

  /** The fields of the create-query form; absent fields are None. */
  datatype QueryForm = QueryForm(
    folderId: Option<string>, start: Option<string>, end: Option<string>, name: Option<string>,
    thesis: Option<string>, labelx: Option<string>, labely: Option<string>,
    colorx: Option<string>, colory: Option<string>)

  datatype NewQuery = NewQuery(
    id: nat, start: string, end: string, name: string, thesis: string, labelx: string, labely: string,
    colorx: Option<string>, colory: Option<string>, queryType: string)

  datatype NewFolder = NewFolder(id: nat, name: string, creator: string, accessCode: Option<string>)

  /** The Keycloak resource, policy and permission named after a created record. */
  datatype Protection = Protection(resourceName: string, resourceType: string, policyName: string, policyMembers: seq<Option<string>>, permissionName: string)

  datatype CreateResult<T> = Created(record: T, protection: Protection) | Rejected(status: nat, message: string)

  const QueryFieldsMissing: string := "Pakollisia kenttiä ovat nimi, teesi, X-akselin nimi, Y-Akselin nimi, alkuaika ja loppuaika. Täytä kaikki pakolliset kentät."
  const FolderFieldsMissing: string := "Pakollisia kenttiä ovat nimi ja käyttäjä. Täytä kaikki pakolliset kentät."

  function ProtectionOf(resourceType: string, id: nat, userId: Option<string>): (p: Protection)
    ensures p.resourceName == ResourceName(resourceType, id) && p.resourceType == resourceType
    ensures p.policyName == p.resourceName + "-policy" && p.permissionName == p.resourceName + "-permission"
    ensures p.policyMembers == [userId]
  {
    var resourceName := ResourceName(resourceType, id);
    Protection(resourceName, resourceType, resourceName + "-policy", [userId], resourceName + "-permission")
  }

  /** `postCreateQuery`: a 2D query is created, as record `id`, exactly when
      start, end, name, thesis and both labels are all given; otherwise 500
      and nothing is created. The form's folder is read but not stored. */
  function PostCreateQuery(form: QueryForm, userId: Option<string>, id: nat): (r: CreateResult<NewQuery>)
    ensures r.Created? <==>
      TruthyStr(form.start) && TruthyStr(form.end) && TruthyStr(form.name) &&
      TruthyStr(form.thesis) && TruthyStr(form.labelx) && TruthyStr(form.labely)
    ensures r.Rejected? ==> r.status == 500 && r.message == QueryFieldsMissing
    ensures r.Created? ==>
      && r.record.id == id && r.record.queryType == "2D"
      && r.record.start == form.start.value && r.record.end == form.end.value
      && r.record.name == form.name.value && r.record.thesis == form.thesis.value
      && r.record.labelx == form.labelx.value && r.record.labely == form.labely.value
      && r.record.colorx == form.colorx && r.record.colory == form.colory
      && r.protection == ProtectionOf(QueryType, id, userId)
  {
    if TruthyStr(form.start) && TruthyStr(form.end) && TruthyStr(form.name) &&
       TruthyStr(form.thesis) && TruthyStr(form.labelx) && TruthyStr(form.labely) then
      Created(NewQuery(id, form.start.value, form.end.value, form.name.value, form.thesis.value,
                       form.labelx.value, form.labely.value, form.colorx, form.colory, "2D"),
              ProtectionOf(QueryType, id, userId))
    else
      Rejected(500, QueryFieldsMissing)
  }

  /** `postCreateQueryFolder`: created exactly when the name and the logged
      user id are truthy; otherwise 500 and nothing is created. */
  function PostCreateQueryFolder(name: Option<string>, accessCode: Option<string>, userId: Option<string>, id: nat): (r: CreateResult<NewFolder>)
    ensures r.Created? <==> TruthyStr(name) && TruthyStr(userId)
    ensures r.Rejected? ==> r.status == 500 && r.message == FolderFieldsMissing
    ensures r.Created? ==>
      && r.record == NewFolder(id, name.value, userId.value, accessCode)
      && r.protection == ProtectionOf(FolderType, id, userId)
  {
    if TruthyStr(name) && TruthyStr(userId) then
      Created(NewFolder(id, name.value, userId.value, accessCode), ProtectionOf(FolderType, id, userId))
    else
      Rejected(500, FolderFieldsMissing)
  }

  /** The creator of a query is later allowed exactly the new query's id
      when Keycloak grants the permission on the created resource. */
  lemma CreatedQueryIsAllowed(form: QueryForm, userId: Option<string>, id: nat, scopes: seq<string>)
    requires PostCreateQuery(form, userId, id).Created?
    ensures var p := PostCreateQuery(form, userId, id).protection;
      AllowedIds([AccessControl.Permission(scopes, p.resourceName)], QueryType) == [Some(NatToString(id))]
      && AllowedIds([AccessControl.Permission(scopes, p.resourceName)], FolderType) == []
  {
    AllowedIdsOfCreatedResource([], QueryType, scopes, id);
    AllowedIdsSkipOtherType([], FolderType, QueryType, scopes, id);
  }

  // ---------------------------------------------------------------------
  // Joining a query

  datatype Session = Session(id: string, userId: Option<string>, queryUserId: Option<nat>)

  datatype QueryUser = QueryUser(id: nat, queryId: nat, userId: string)

  /** The sessions, the query users in creation order and the next query user id. */
  datatype JoinStore = JoinStore(sessions: map<string, Session>, queryUsers: seq<QueryUser>, nextQueryUserId: nat)

  /** Query user ids are distinct and below the next id, and no two query
      users have the same query and user. */
  ghost predicate ValidJoinStore(store: JoinStore) {
    && (forall k :: 0 <= k < |store.queryUsers| ==> store.queryUsers[k].id < store.nextQueryUserId)
    && (forall k, l :: 0 <= k < l < |store.queryUsers| ==> store.queryUsers[k].id != store.queryUsers[l].id)
    && (forall k, l :: 0 <= k < l < |store.queryUsers| ==>
          !(store.queryUsers[k].queryId == store.queryUsers[l].queryId && store.queryUsers[k].userId == store.queryUsers[l].userId))
  }

  /** `findQueryUserByQueryIdAndUserId`: the position of the query user, if any. */
  function FindQueryUser(queryUsers: seq<QueryUser>, queryId: nat, userId: string): (k: Option<nat>)
    ensures k.Some? ==> k.value < |queryUsers| && queryUsers[k.value].queryId == queryId && queryUsers[k.value].userId == userId
    ensures k.None? ==> forall l :: 0 <= l < |queryUsers| ==> !(queryUsers[l].queryId == queryId && queryUsers[l].userId == userId)
    decreases |queryUsers|
  {
    if |queryUsers| == 0 then None
    else
      var last := queryUsers[|queryUsers| - 1];
      if last.queryId == queryId && last.userId == userId then Some(|queryUsers| - 1)
      else FindQueryUser(queryUsers[..|queryUsers| - 1], queryId, userId)
  }

  datatype JoinResponse = JoinForbidden | Joined(queryUserId: nat, userHash: string)

  /** `postJoinQuery`: 403 for an unknown session or one without a user id,
      before any query user is looked up. Otherwise the participant's query
      user for the query is found, or created with the next id, and the
      session is pointed at it; the reply carries its id and the hash of the
      id's decimal string. */
  function PostJoinQuery(store: JoinStore, hash: string -> string, queryId: nat, sessionId: string): (r: (JoinResponse, JoinStore))
    ensures sessionId !in store.sessions || !TruthyStr(store.sessions[sessionId].userId) ==> r == (JoinForbidden, store)
    ensures r.0.Joined? ==> r.0.userHash == hash(NatToString(r.0.queryUserId))
    ensures r.0.Joined? ==> sessionId in r.1.sessions && r.1.sessions[sessionId].queryUserId == Some(r.0.queryUserId)
    ensures r.0.Joined? ==> exists k :: 0 <= k < |r.1.queryUsers| && r.1.queryUsers[k] == QueryUser(r.0.queryUserId, queryId, store.sessions[sessionId].userId.value)
    ensures |r.1.queryUsers| == |store.queryUsers| || r.1.queryUsers == store.queryUsers + [QueryUser(store.nextQueryUserId, queryId, store.sessions[sessionId].userId.value)]
  {
    if sessionId !in store.sessions then (JoinForbidden, store)
    else
      var session := store.sessions[sessionId];
      if !TruthyStr(session.userId) then (JoinForbidden, store)
      else
        var userId := session.userId.value;
        match FindQueryUser(store.queryUsers, queryId, userId)
        case Some(k) =>
          var queryUser := store.queryUsers[k];
          (Joined(queryUser.id, hash(NatToString(queryUser.id))),
           store.(sessions := store.sessions[sessionId := session.(queryUserId := Some(queryUser.id))]))
        case None =>
          var queryUser := QueryUser(store.nextQueryUserId, queryId, userId);
          var queryUsers := store.queryUsers + [queryUser];
          assert queryUsers[|queryUsers| - 1] == queryUser;
          (Joined(queryUser.id, hash(NatToString(queryUser.id))),
           JoinStore(store.sessions[sessionId := session.(queryUserId := Some(queryUser.id))], queryUsers, store.nextQueryUserId + 1))
  }

  /** An existing query user is reused and nothing is created; a new one is
      created only when the participant has none for the query. */
  lemma JoinFindsOrCreates(store: JoinStore, hash: string -> string, queryId: nat, sessionId: string)
    requires sessionId in store.sessions && TruthyStr(store.sessions[sessionId].userId)
    ensures var userId := store.sessions[sessionId].userId.value;
      var r := PostJoinQuery(store, hash, queryId, sessionId);
      && r.0.Joined?
      && (FindQueryUser(store.queryUsers, queryId, userId).Some? ==>
            r.1.queryUsers == store.queryUsers && r.1.nextQueryUserId == store.nextQueryUserId)
      && (FindQueryUser(store.queryUsers, queryId, userId).None? ==>
            r.1.queryUsers == store.queryUsers + [QueryUser(store.nextQueryUserId, queryId, userId)])
  {
  }

  /** Joining keeps the store valid: ids stay distinct and joining never adds
      a second query user for a query and user. The other pages that create
      query users do so unconditionally, so validity of the store is an
      assumption of this lemma, not an invariant of the whole program. */
  lemma JoinPreservesValidity(store: JoinStore, hash: string -> string, queryId: nat, sessionId: string)
    requires ValidJoinStore(store)
    ensures ValidJoinStore(PostJoinQuery(store, hash, queryId, sessionId).1)
  {
    var r := PostJoinQuery(store, hash, queryId, sessionId);
    if sessionId in store.sessions && TruthyStr(store.sessions[sessionId].userId) {
      var userId := store.sessions[sessionId].userId.value;
      if FindQueryUser(store.queryUsers, queryId, userId).None? {
        var qs := r.1.queryUsers;
        assert qs == store.queryUsers + [QueryUser(store.nextQueryUserId, queryId, userId)];
        forall k, l | 0 <= k < l < |qs|
          ensures qs[k].id != qs[l].id
          ensures !(qs[k].queryId == qs[l].queryId && qs[k].userId == qs[l].userId)
        {
          if l == |qs| - 1 {
            assert qs[k] == store.queryUsers[k];
          }
        }
      }
    }
  }

  /** Joining twice with the same session gives the same response and leaves
      the store as the first join left it: the second join creates nothing. */
  lemma JoinIdempotent(store: JoinStore, hash: string -> string, queryId: nat, sessionId: string)
    requires ValidJoinStore(store)
    ensures var first := PostJoinQuery(store, hash, queryId, sessionId);
      var second := PostJoinQuery(first.1, hash, queryId, sessionId);
      second == first
  {
    var first := PostJoinQuery(store, hash, queryId, sessionId);
    if sessionId in store.sessions && TruthyStr(store.sessions[sessionId].userId) {
      var userId := store.sessions[sessionId].userId.value;
      assert first.1.sessions[sessionId].userId == store.sessions[sessionId].userId;
      JoinPreservesValidity(store, hash, queryId, sessionId);
      var qs := first.1.queryUsers;
      var k :| 0 <= k < |qs| && qs[k] == QueryUser(first.0.queryUserId, queryId, userId);
      assert FindQueryUser(qs, queryId, userId) == Some(k);
      var session := first.1.sessions[sessionId];
      assert session.(queryUserId := Some(first.0.queryUserId)) == session;
      assert first.1.sessions[sessionId := session] == first.1.sessions;
    }
  }

  // ---------------------------------------------------------------------
  // Comments report

  datatype Segment = Segment(title: string, comments: seq<DataExport.Thread>, commentCount: nat, childCommentCount: nat)

  const SegmentTitles: seq<string> := ["- / -", "+ / -", "- / +", "+ / +"]

  function SegmentOf(t: DataExport.Thread): (k: nat)
    ensures k < 4
  {
    Analysis.GroupIndex(t.root.x, t.root.y)
  }

  /** The threads whose root falls in quadrant `k`, in order. */
  function InSegment(threads: seq<DataExport.Thread>, k: nat): seq<DataExport.Thread>
    decreases |threads|
  {
    if |threads| == 0 then []
    else
      var t := threads[|threads| - 1];
      InSegment(threads[..|threads| - 1], k) + (if SegmentOf(t) == k then [t] else [])
  }

  /** The number of replies of the threads. */
  function ReplyCount(threads: seq<DataExport.Thread>): nat
    decreases |threads|
  {
    if |threads| == 0 then 0 else ReplyCount(threads[..|threads| - 1]) + |threads[|threads| - 1].childComments|
  }

  lemma ReplyCountAppend(threads: seq<DataExport.Thread>, t: DataExport.Thread)
    ensures ReplyCount(threads + [t]) == ReplyCount(threads) + |t.childComments|
  {
    assert (threads + [t])[..|threads|] == threads;
  }

  lemma InSegmentAppend(threads: seq<DataExport.Thread>, t: DataExport.Thread, k: nat)
    ensures InSegment(threads + [t], k) == InSegment(threads, k) + (if SegmentOf(t) == k then [t] else [])
  {
    assert (threads + [t])[..|threads|] == threads;
  }

  function SegmentSpec(threads: seq<DataExport.Thread>, k: nat): Segment
    requires k < 4
  {
    Segment(SegmentTitles[k], InSegment(threads, k), |InSegment(threads, k)|, ReplyCount(InSegment(threads, k)))
  }

  /** `segment.comments.push(comment)` with the two counters incremented. */
  function AddToSegment(s: Segment, t: DataExport.Thread): Segment {
    s.(comments := s.comments + [t], commentCount := s.commentCount + 1,
       childCommentCount := s.childCommentCount + |t.childComments|)
  }

  /** Adding a comment to its own segment keeps every segment equal to its specification. */
  lemma SegmentSpecStep(threads: seq<DataExport.Thread>, t: DataExport.Thread, k: nat)
    requires k < 4
    ensures SegmentSpec(threads + [t], k) ==
      if SegmentOf(t) == k then AddToSegment(SegmentSpec(threads, k), t) else SegmentSpec(threads, k)
  {
    InSegmentAppend(threads, t, k);
    var before := InSegment(threads, k);
    if SegmentOf(t) == k {
      assert InSegment(threads + [t], k) == before + [t];
      ReplyCountAppend(before, t);
    } else {
      assert InSegment(threads + [t], k) == before;
    }
  }

  /** The segmenting `forEach` of `getPrintQueryReportsComments2d`, over the
      four segment objects it updates in place. */
  method SegmentComments(threads: seq<DataExport.Thread>) returns (segments: seq<Segment>)
    ensures |segments| == 4
    ensures forall k :: 0 <= k < 4 ==> segments[k] == SegmentSpec(threads, k)
  {
    var a := new Segment[4](k requires 0 <= k < 4 => SegmentSpec([], k));
    var i := 0;
    while i < |threads|
      invariant 0 <= i <= |threads|
      invariant forall k :: 0 <= k < 4 ==> a[k] == SegmentSpec(threads[..i], k)
    {
      var t := threads[i];
      var xSide := if t.root.x > 7.0 / 2.0 then 1 else 0;
      var ySide := if t.root.y > 7.0 / 2.0 then 1 else 0;
      var index := xSide + ySide * 2;
      assert index == SegmentOf(t);
      a[index] := AddToSegment(a[index], t);
      forall k | 0 <= k < 4
        ensures a[k] == SegmentSpec(threads[..i] + [t], k)
      {
        SegmentSpecStep(threads[..i], t, k);
      }
      assert threads[..i + 1] == threads[..i] + [t];
      i := i + 1;
    }
    assert threads[..i] == threads;
    segments := a[..];
  }

  /** Every comment lands in exactly one segment: the counts add up to the
      number of comments, and the reply counts to the number of replies. */
  lemma {:induction false} SegmentCountsAddUp(threads: seq<DataExport.Thread>)
    ensures |InSegment(threads, 0)| + |InSegment(threads, 1)| + |InSegment(threads, 2)| + |InSegment(threads, 3)| == |threads|
    ensures ReplyCount(InSegment(threads, 0)) + ReplyCount(InSegment(threads, 1)) + ReplyCount(InSegment(threads, 2))
      + ReplyCount(InSegment(threads, 3)) == ReplyCount(threads)
    decreases |threads|
  {
    if |threads| > 0 {
      var init := threads[..|threads| - 1];
      var t := threads[|threads| - 1];
      assert threads == init + [t];
      SegmentCountsAddUp(init);
      SegmentSpecStep(init, t, 0);
      SegmentSpecStep(init, t, 1);
      SegmentSpecStep(init, t, 2);
      SegmentSpecStep(init, t, 3);
      ReplyCountAppend(init, t);
    }
  }

  // ---------------------------------------------------------------------
  // Query listing

  datatype Folder = Folder(id: nat, name: string)

  /** A group of the listing: the queries without a folder, or a folder with its queries. */
  datatype Group = Unfoldered(queries: seq<nat>) | InFolder(folder: Folder, queries: seq<nat>)

  const UnfolderedName: string := "Ei kansiota"

  /** The store reads of `getQueries`. */
  datatype ListingStore = ListingStore(
    unfoldered: seq<nat>,
    foldersByAccessCodes: seq<Option<string>> -> seq<Folder>,
    inProgressOf: nat -> seq<nat>,
    endedByFolderIds: seq<Option<nat>> -> seq<nat>)

  datatype Listing = Listing(folders: seq<Group>, endedQueries: seq<nat>, accessCodes: string, folderIds: seq<Option<nat>>)

  /** `req.query.accessCodes ? req.query.accessCodes.split(',') : []`; joining
      the codes again gives the parameter back. */
  function AccessCodes(param: Option<string>): (codes: seq<string>)
    ensures !TruthyStr(param) ==> codes == []
    ensures TruthyStr(param) ==> |codes| >= 1 && Join(codes, ',') == param.value
    ensures forall k :: 0 <= k < |codes| ==> ',' !in codes[k]
  {
    if TruthyStr(param) then JoinSplit(param.value, ','); Split(param.value, ',') else []
  }

  /** The folders with at least one query in progress, each with those queries, in order. */
  function FolderGroups(folders: seq<Folder>, inProgressOf: nat -> seq<nat>): (groups: seq<Group>)
    ensures forall g :: g in groups ==> g.InFolder? && g.folder in folders && g.queries == inProgressOf(g.folder.id) && |g.queries| > 0
    decreases |folders|
  {
    if |folders| == 0 then []
    else
      var f := folders[|folders| - 1];
      FolderGroups(folders[..|folders| - 1], inProgressOf) + (if |inProgressOf(f.id)| > 0 then [InFolder(f, inProgressOf(f.id))] else [])
  }

  /** Every folder with a query in progress is listed. */
  lemma {:induction false} FolderGroupsComplete(folders: seq<Folder>, inProgressOf: nat -> seq<nat>, k: nat)
    requires k < |folders| && |inProgressOf(folders[k].id)| > 0
    ensures InFolder(folders[k], inProgressOf(folders[k].id)) in FolderGroups(folders, inProgressOf)
    decreases |folders|
  {
    if k < |folders| - 1 {
      FolderGroupsComplete(folders[..|folders| - 1], inProgressOf, k);
    }
  }

  function FolderIds(folders: seq<Folder>): (ids: seq<Option<nat>>)
    ensures |ids| == |folders| && forall k :: 0 <= k < |folders| ==> ids[k] == Some(folders[k].id)
  {
    seq(|folders|, k requires 0 <= k < |folders| => Some(folders[k].id))
  }

  /** `[null].concat(accessCodes)`: the folders without a code, then those of each code. */
  function CodeLookup(codes: seq<string>): (lookup: seq<Option<string>>)
    ensures |lookup| == |codes| + 1 && lookup[0] == None
    ensures forall k :: 0 <= k < |codes| ==> lookup[k + 1] == Some(codes[k])
  {
    [None] + seq(|codes|, k requires 0 <= k < |codes| => Some(codes[k]))
  }

  /** The in-progress queries of each folder and the folder ids after `null`. */
  method ListFolderedQueries(store: ListingStore, queryFolders: seq<Folder>) returns (folderedQueries: seq<seq<nat>>, folderIds: seq<Option<nat>>)
    ensures |folderedQueries| == |queryFolders|
    ensures forall k :: 0 <= k < |queryFolders| ==> folderedQueries[k] == store.inProgressOf(queryFolders[k].id)
    ensures folderIds == [None] + FolderIds(queryFolders)
  {
    folderedQueries := [];
    folderIds := [None];
    var i := 0;
    while i < |queryFolders|
      invariant 0 <= i <= |queryFolders|
      invariant |folderedQueries| == i
      invariant forall k :: 0 <= k < i ==> folderedQueries[k] == store.inProgressOf(queryFolders[k].id)
      invariant folderIds == [None] + FolderIds(queryFolders[..i])
    {
      folderedQueries := folderedQueries + [store.inProgressOf(queryFolders[i].id)];
      folderIds := folderIds + [Some(queryFolders[i].id)];
      i := i + 1;
    }
    assert queryFolders[..i] == queryFolders;
  }

  /** The second `forEach`: the folders whose query list is not empty, each with its list. */
  method GroupFolders(queryFolders: seq<Folder>, folderedQueries: seq<seq<nat>>, inProgressOf: nat -> seq<nat>) returns (groups: seq<Group>)
    requires |folderedQueries| == |queryFolders|
    requires forall k :: 0 <= k < |queryFolders| ==> folderedQueries[k] == inProgressOf(queryFolders[k].id)
    ensures groups == FolderGroups(queryFolders, inProgressOf)
  {
    groups := [];
    var i := 0;
    while i < |queryFolders|
      invariant 0 <= i <= |queryFolders|
      invariant groups == FolderGroups(queryFolders[..i], inProgressOf)
    {
      if |folderedQueries[i]| > 0 {
        groups := groups + [InFolder(queryFolders[i], folderedQueries[i])];
      }
      assert queryFolders[..i + 1][..i] == queryFolders[..i];
      i := i + 1;
    }
    assert queryFolders[..i] == queryFolders;
  }

  /** `getQueries`: the unfoldered group first when it has queries, then the
      folders found by the access codes (and by no code) that have queries
      in progress; the ended queries of those folders and of no folder. */
  method GetQueries(store: ListingStore, accessCodesParam: Option<string>) returns (listing: Listing)
    ensures var folders := store.foldersByAccessCodes(CodeLookup(AccessCodes(accessCodesParam)));
      && listing.folderIds == [None] + FolderIds(folders)
      && listing.folders == (if |store.unfoldered| > 0 then [Unfoldered(store.unfoldered)] else []) + FolderGroups(folders, store.inProgressOf)
      && listing.endedQueries == store.endedByFolderIds(listing.folderIds)
      && listing.accessCodes == Join(AccessCodes(accessCodesParam), ',')
  {
    var result: seq<Group> := [];
    if |store.unfoldered| > 0 {
      result := result + [Unfoldered(store.unfoldered)];
    }
    var accessCodes := AccessCodes(accessCodesParam);
    var queryFolders := store.foldersByAccessCodes(CodeLookup(accessCodes));
    var folderedQueries, folderIds := ListFolderedQueries(store, queryFolders);
    var groups := GroupFolders(queryFolders, folderedQueries, store.inProgressOf);
    result := result + groups;
    listing := Listing(result, store.endedByFolderIds(folderIds), Join(accessCodes, ','), folderIds);
  }

  /** The rendered access codes are the parameter itself, or empty without one. */
  lemma ListingAccessCodesEchoParameter(accessCodesParam: Option<string>)
    ensures Join(AccessCodes(accessCodesParam), ',') == if TruthyStr(accessCodesParam) then accessCodesParam.value else ""
  {
  }
}
