/** Model of plugins/live-delphi-access-control/index.js: where a protected
    route finds the id of the resource it guards, the `type:id` resource and
    `resource#scopes` permission strings sent to Keycloak, the null-safe
    reads of the access token and the user id, the logged-user middleware,
    the three-step protection chain and the mapping of the permissions of a
    decoded RPT token. Keycloak's answers are parameters. */
module AccessControl {
  import opened Base

  /** A request value as a template literal sees it. */
  datatype JsValue = Undefined | NullValue | Str(s: string)

  /** `${value}` */
  function Render(v: JsValue): (text: string)
    ensures v.Str? ==> text == v.s
    ensures v == Undefined ==> text == "undefined"
    ensures v == NullValue ==> text == "null"
  {
    match v
    case Undefined => "undefined"
    case NullValue => "null"
    case Str(s) => s
  }

  datatype TokenContent = TokenContent(sub: Option<string>)

  datatype AccessToken = AccessToken(token: string, content: Option<TokenContent>)

  datatype Grant = Grant(accessToken: Option<AccessToken>)

  datatype Kauth = Kauth(grant: Option<Grant>)

  /** The parts of an Express request the helpers read. */
  datatype Request = Request(
    params: map<string, string>,
    query: map<string, string>,
    body: map<string, string>,
    kauth: Option<Kauth>)

  /** `getAccessToken`: `kauth.grant.access_token` when all three are present, else null. */
  function GetAccessToken(req: Request): (token: Option<AccessToken>)
    ensures token.Some? <==>
      req.kauth.Some? && req.kauth.value.grant.Some? && req.kauth.value.grant.value.accessToken.Some?
    ensures token.Some? ==> token == req.kauth.value.grant.value.accessToken
  {
    if req.kauth.Some? && req.kauth.value.grant.Some? && req.kauth.value.grant.value.accessToken.Some? then
      req.kauth.value.grant.value.accessToken
    else
      None
  }

  /** `getLoggedUserId`: the token content's `sub`, or nothing when there is
      no token or no content. */
  function GetLoggedUserId(req: Request): (userId: Option<string>)
    ensures userId.Some? ==> GetAccessToken(req).Some? && GetAccessToken(req).value.content.Some?
    ensures userId.Some? ==> userId == GetAccessToken(req).value.content.value.sub
    ensures GetAccessToken(req).None? ==> userId.None?
  {
    var token := GetAccessToken(req);
    if token.Some? && token.value.content.Some? then token.value.content.value.sub else None
  }

  /** What a middleware does with a request. */
  datatype Outcome = Next | Forbidden(message: string) | KeycloakRejected

  /** `createLoggedUserMiddleware`: on to the next handler exactly when the
      user id is truthy, 403 otherwise. */
  function LoggedUserMiddleware(req: Request): (outcome: Outcome)
    ensures outcome == Next <==> TruthyStr(GetLoggedUserId(req))
    ensures outcome != Next ==> outcome == Forbidden("User id not found")
  {
    if TruthyStr(GetLoggedUserId(req)) then Next else Forbidden("User id not found")
  }

  /** `options.id`: where the id is read and under which name. */
  datatype IdOptions = IdOptions(from: string, name: string)

  function Lookup(m: map<string, string>, name: string): (v: JsValue)
    ensures name in m ==> v == Str(m[name])
    ensures name !in m ==> v == Undefined
  {
    if name in m then Str(m[name]) else Undefined
  }

  /** The id switch of `protectResourceMiddleware`. */
  function ResourceId(req: Request, idOptions: IdOptions): (id: JsValue)
    ensures idOptions.from == "path" ==> id == Lookup(req.params, idOptions.name)
    ensures idOptions.from == "query" ==> id == Lookup(req.query, idOptions.name)
    ensures idOptions.from == "body" ==> id == Lookup(req.body, idOptions.name)
    ensures idOptions.from !in {"path", "query", "body"} ==> id == NullValue
  {
    match idOptions.from
    case "path" => Lookup(req.params, idOptions.name)
    case "query" => Lookup(req.query, idOptions.name)
    case "body" => Lookup(req.body, idOptions.name)
    case _ => NullValue
  }

  /** An id found in the request is never `null`: null marks an unknown source. */
  lemma ResourceIdNullOnlyForUnknownSource(req: Request, idOptions: IdOptions)
    ensures ResourceId(req, idOptions) == NullValue <==> idOptions.from !in {"path", "query", "body"}
  {
  }

  /** `hasResourcePermission`'s resource: `${type}:${id}`. */
  function ResourceString(resourceType: string, id: JsValue): (resource: string)
    ensures |resource| == |resourceType| + 1 + |Render(id)|
    ensures resource[..|resourceType|] == resourceType && resource[|resourceType|] == ':'
    ensures resource[|resourceType| + 1..] == Render(id)
  {
    resourceType + ":" + Render(id)
  }

  /** The type and the id read back from the resource string, for a type
      without ':' and an id without ':'. */
  lemma ResourceStringSplits(resourceType: string, id: JsValue)
    requires ':' !in resourceType && ':' !in Render(id)
    ensures Split(ResourceString(resourceType, id), ':') == [resourceType, Render(id)]
  {
    SplitAtFirstSeparator(resourceType, Render(id), ':');
    SplitNoSeparator(Render(id), ':');
  }

  /** `scopes`: an array, or any other value used as it is. */
  datatype Scopes = ScopeList(list: seq<string>) | ScopeValue(value: JsValue)

  /** `Array.isArray(scopes) ? scopes.join(",") : scopes`. */
  function ScopeString(scopes: Scopes): (s: string)
    ensures scopes == ScopeList([]) ==> s == ""
    ensures scopes.ScopeList? && |scopes.list| >= 1 && (forall k :: 0 <= k < |scopes.list| ==> ',' !in scopes.list[k]) ==>
      Split(s, ',') == scopes.list
    ensures scopes.ScopeValue? ==> s == Render(scopes.value)
  {
    match scopes
    case ScopeList(list) => JoinSplitsBack(list, ','); Join(list, ',')
    case ScopeValue(v) => Render(v)
  }

  /** Joining parts that contain no separator and splitting again gives the
      parts back, when there is at least one. */
  lemma {:induction false} JoinSplitsBack(parts: seq<string>, sep: char)
    ensures |parts| >= 1 && (forall k :: 0 <= k < |parts| ==> sep !in parts[k]) ==> Split(Join(parts, sep), sep) == parts
    decreases |parts|
  {
    if |parts| >= 1 && (forall k :: 0 <= k < |parts| ==> sep !in parts[k]) {
      if |parts| == 1 {
        SplitNoSeparator(parts[0], sep);
      } else {
        JoinSplitsBack(parts[1..], sep);
        SplitAtFirstSeparator(parts[0], Join(parts[1..], sep), sep);
        assert parts == [parts[0]] + parts[1..];
      }
    }
  }

  /** The `permission` form field of the entitlement request: `${resource}#${scopeString}`. */
  function PermissionField(resource: string, scopes: Scopes): (field: string)
    ensures |field| > |resource| && field[..|resource|] == resource && field[|resource|] == '#'
  {
    resource + "#" + ScopeString(scopes)
  }

  /** The permission field splits back into the resource and the scopes when
      the resource has no '#'. */
  lemma PermissionFieldSplits(resource: string, scopes: Scopes)
    requires '#' !in resource
    ensures Split(PermissionField(resource, scopes), '#') == [resource] + Split(ScopeString(scopes), '#')
  {
    SplitAtFirstSeparator(resource, ScopeString(scopes), '#');
  }

  /** `options` of `protectResourceMiddleware`. */
  datatype ProtectOptions = ProtectOptions(id: IdOptions, resourceType: string, scopes: Scopes)

  /** The chain `[keycloak.protect(), loggedUser, permissionCheck]`. Keycloak's
      login check is `authenticated`; whether the entitlement request for a
      permission field succeeds is `entitled`. The last step calls `next`
      only when the entitlement request resolves and answers 403 otherwise. */
  function ProtectResource(req: Request, options: ProtectOptions, authenticated: bool, entitled: string -> bool): (outcome: Outcome)
    ensures outcome == Next <==>
      && authenticated
      && TruthyStr(GetLoggedUserId(req))
      && entitled(PermissionField(ResourceString(options.resourceType, ResourceId(req, options.id)), options.scopes))
    ensures !authenticated ==> outcome == KeycloakRejected
    ensures authenticated && !TruthyStr(GetLoggedUserId(req)) ==> outcome == Forbidden("User id not found")
    ensures authenticated && TruthyStr(GetLoggedUserId(req)) && outcome != Next ==> outcome == Forbidden("Permission denied")
  {
    if !authenticated then KeycloakRejected
    else
      var logged := LoggedUserMiddleware(req);
      if logged != Next then logged
      else
        var resource := ResourceString(options.resourceType, ResourceId(req, options.id));
        if entitled(PermissionField(resource, options.scopes)) then Next else Forbidden("Permission denied")
  }

  /** A permission in a decoded RPT token: resource name and scopes. */
  datatype RptPermission = RptPermission(rsname: string, scopes: seq<string>)

  datatype Rpt = Rpt(preferredUsername: string, roles: Option<seq<string>>, authorization: Option<Option<seq<RptPermission>>>)

  /** A permission of the entitlements: the resource and its scopes. */
  datatype Permission = Permission(scopes: seq<string>, resource: string)

  datatype Entitlements = Entitlements(userName: string, roles: seq<string>, permissions: seq<Permission>)

  /** `decodeRptToken`, after the JSON and JWT decoding: every permission of
      the token in order, `rsname` as the resource and the scopes copied; an
      absent permission list is empty. A token without `authorization` or
      `realm_access` makes the decoding throw. */
  method DecodeRptToken(rpt: Rpt) returns (r: Option<Entitlements>)
    ensures r.Some? <==> rpt.authorization.Some? && rpt.roles.Some?
    ensures r.Some? ==> r.value.userName == rpt.preferredUsername && r.value.roles == rpt.roles.value
    ensures r.Some? ==>
      var source := rpt.authorization.value.GetOr([]);
      && |r.value.permissions| == |source|
      && forall i :: 0 <= i < |source| ==>
           r.value.permissions[i] == Permission(source[i].scopes, source[i].rsname)
  {
    if rpt.authorization.None? {
      return None;
    }
    var source := rpt.authorization.value.GetOr([]);
    var permissions: seq<Permission> := [];
    var i := 0;
    while i < |source|
      invariant 0 <= i <= |source|
      invariant |permissions| == i
      invariant forall k :: 0 <= k < i ==> permissions[k] == Permission(source[k].scopes, source[k].rsname)
    {
      permissions := permissions + [Permission(source[i].scopes, source[i].rsname)];
      i := i + 1;
    }
    if rpt.roles.None? {
      return None;
    }
    r := Some(Entitlements(rpt.preferredUsername, rpt.roles.value, permissions));
  }
}
