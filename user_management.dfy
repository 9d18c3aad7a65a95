/** Model of the pure helpers and the client cache of
    plugins/live-delphi-user-management/index.js: the display name of a
    Keycloak user, the shape check of user ids, the admin-client cache flag,
    and the de-duplicated group and member id lists built from lookups that
    may fail. The Keycloak admin calls themselves are parameters. */
module UserManagement {
  import opened Base

  // ---------------------------------------------------------------------
  // Display name

  /** The fields of a Keycloak user the display name reads. */
  datatype User = User(firstName: Option<string>, lastName: Option<string>, email: Option<string>)

  /** `getUserDisplayName`: "first last" when both names are given, else the
      one that is given, else the e-mail address in angle brackets. */
  function DisplayName(user: User): (name: string)
    ensures |name| > 0
    ensures TruthyStr(user.firstName) && TruthyStr(user.lastName) ==>
      name == user.firstName.value + " " + user.lastName.value
    ensures TruthyStr(user.firstName) != TruthyStr(user.lastName) ==>
      name == (if TruthyStr(user.firstName) then user.firstName.value else user.lastName.value)
    ensures !TruthyStr(user.firstName) && !TruthyStr(user.lastName) ==>
      name == "<" + StrOrUndefined(user.email) + ">"
  {
    var name: Option<string> :=
      if TruthyStr(user.firstName) && TruthyStr(user.lastName) then Some(user.firstName.value + " " + user.lastName.value)
      else if TruthyStr(user.firstName) then user.firstName
      else user.lastName;
    if TruthyStr(name) then name.value else "<" + StrOrUndefined(user.email) + ">"
  }

  /** A user with a name never shows the e-mail address: the display name
      starts with the first name when there is one, else it is the last name. */
  lemma DisplayNameStartsWithGivenName(user: User)
    requires TruthyStr(user.firstName) || TruthyStr(user.lastName)
    ensures TruthyStr(user.firstName) ==> user.firstName.value <= DisplayName(user)
    ensures !TruthyStr(user.firstName) ==> DisplayName(user) == user.lastName.value
    ensures DisplayName(user)[0] != '<' || (TruthyStr(user.firstName) && user.firstName.value[0] == '<')
      || (!TruthyStr(user.firstName) && user.lastName.value[0] == '<')
  {
  }

  // ---------------------------------------------------------------------
  // User id shape

  /** The value passed to `isValidUserId`: a string or anything else. */
  datatype Input = StrInput(s: string) | OtherInput

  predicate IsAlnum(c: char) {
    ('0' <= c <= '9') || ('a' <= c <= 'z') || ('A' <= c <= 'Z')
  }

  /** The positions of the four dashes in `xxxxxxxx-xxxx-xxxx-xxxx-xxxxxxxxxxxx`. */
  predicate IsDashPosition(i: int) {
    i == 8 || i == 13 || i == 18 || i == 23
  }

  /** `t` matches `[0-9a-zA-Z]{8}-[0-9a-zA-Z]{4}-[0-9a-zA-Z]{4}-[0-9a-zA-Z]{4}-[0-9a-zA-Z]{12}`
      as a whole. */
  predicate MatchesIdPattern(t: string) {
    |t| == 36 && forall i :: 0 <= i < 36 ==> if IsDashPosition(i) then t[i] == '-' else IsAlnum(t[i])
  }

  /** The regular expression ends in `$` but has no `^`: a search succeeds
      when the pattern matches from some position to the end of the string. */
  ghost predicate RegexFinds(s: string) {
    exists i :: 0 <= i <= |s| && MatchesIdPattern(s[i..])
  }

  /** `isValidUserId`: false for a non-string; for a string, whether its last
      36 characters have the id shape. */
  function IsValidUserId(userId: Input): (valid: bool)
    ensures userId.OtherInput? ==> !valid
    ensures userId.StrInput? ==> (valid <==> RegexFinds(userId.s))
  {
    match userId
    case OtherInput => false
    case StrInput(s) =>
      var valid := |s| >= 36 && MatchesIdPattern(s[|s| - 36..]);
      assert valid ==> RegexFinds(s) by {
        if valid {
          assert 0 <= |s| - 36 <= |s| && MatchesIdPattern(s[|s| - 36..]);
        }
      }
      assert RegexFinds(s) ==> valid by {
        if RegexFinds(s) {
          var i :| 0 <= i <= |s| && MatchesIdPattern(s[i..]);
          assert i == |s| - 36;
        }
      }
      valid
  }

  /** Because the pattern is not anchored at the start, any prefix in front
      of a valid id is accepted too. */
  lemma PrefixedIdStaysValid(prefix: string, id: string)
    requires IsValidUserId(StrInput(id))
    ensures IsValidUserId(StrInput(prefix + id))
  {
    var s := prefix + id;
    assert s[|s| - 36..] == id[|id| - 36..];
  }

  /** An id one character short of the shape is rejected. */
  lemma ShortIdRejected(s: string)
    requires |s| < 36
    ensures !IsValidUserId(StrInput(s))
  {
  }

  // ---------------------------------------------------------------------
  // Admin client cache

  /** The admin-client cache of the UserManagement object. Clients are
      numbered in creation order; `created` counts them. */
  class ClientCache {
    var client: Option<nat>
    var requireFreshClient: bool
    var created: nat

    /** A new cache has no client and asks for a fresh one. */
    constructor ()
      ensures client == None && requireFreshClient && created == 0
    {
      client := None;
      requireFreshClient := true;
      created := 0;
    }

    /** The 45-second interval: the next `getClient` creates a new client. */
    method OnRefreshInterval()
      modifies this
      ensures requireFreshClient
      ensures client == old(client) && created == old(created)
    {
      requireFreshClient := true;
    }

    /** `getClient`: a new client exactly when there is none or a fresh one
        is required; the flag is always cleared. */
    method GetClient() returns (c: nat)
      modifies this
      ensures !requireFreshClient
      ensures client == Some(c)
      ensures old(client).None? || old(requireFreshClient) ==> c == old(created) && created == old(created) + 1
      ensures old(client).Some? && !old(requireFreshClient) ==> c == old(client).value && created == old(created)
    {
      if client.None? || requireFreshClient {
        client := Some(created);
        created := created + 1;
        requireFreshClient := false;
      }
      c := client.value;
    }
  }

  // ---------------------------------------------------------------------
  // Group and member ids

  datatype Group = Group(id: string, name: string)

  datatype Member = Member(id: string, username: string)

  /** `listUserGroupIds`: the ids of the user's groups without duplicates. */
  function UserGroupIds(groups: seq<Group>): (ids: seq<string>)
    ensures NoDuplicates(ids)
    ensures forall id :: id in ids <==> exists k :: 0 <= k < |groups| && groups[k].id == id
  {
    var all := seq(|groups|, k requires 0 <= k < |groups| => groups[k].id);
    assert forall id :: id in all <==> exists k :: 0 <= k < |groups| && groups[k].id == id by {
      forall id | id in all
        ensures exists k :: 0 <= k < |groups| && groups[k].id == id
      {
        var k :| 0 <= k < |all| && all[k] == id;
        assert groups[k].id == id;
      }
      forall id | exists k :: 0 <= k < |groups| && groups[k].id == id
        ensures id in all
      {
        var k :| 0 <= k < |groups| && groups[k].id == id;
        assert all[k] == id;
      }
    }
    Uniq(all)
  }

  /** `listGroupMembers`: a failed lookup (None) resolves to no members. */
  function GroupMembers(lookup: Option<seq<Option<Member>>>): (members: seq<Option<Member>>)
    ensures lookup.None? ==> members == []
    ensures lookup.Some? ==> members == lookup.value
  {
    lookup.GetOr([])
  }

  /** `_.compact(_.flatten(results))`: the members of all groups in order,
      without the empty entries. */
  function FlattenMembers(results: seq<seq<Option<Member>>>): (members: seq<Member>)
    ensures forall m :: m in members <==> exists k :: 0 <= k < |results| && Some(m) in results[k]
    decreases |results|
  {
    if |results| == 0 then []
    else
      var init := FlattenMembers(results[..|results| - 1]);
      var last := results[|results| - 1];
      init + Compact(last)
  }

  /** `_.compact` of one list: drops the empty entries and keeps the order. */
  function Compact(entries: seq<Option<Member>>): (members: seq<Member>)
    ensures forall m :: m in members <==> Some(m) in entries
    ensures |members| <= |entries|
    decreases |entries|
  {
    if |entries| == 0 then []
    else
      var init := Compact(entries[..|entries| - 1]);
      assert forall e :: e in entries <==> e in entries[..|entries| - 1] || e == entries[|entries| - 1];
      match entries[|entries| - 1]
      case Some(m) => init + [m]
      case None => init
  }

  /** `listGroupsMemberIds`: the distinct ids of the members of the groups
      whose lookup succeeded; a failed lookup contributes nothing. */
  function GroupsMemberIds(lookups: seq<Option<seq<Option<Member>>>>): (ids: seq<string>)
    ensures NoDuplicates(ids)
    ensures forall id :: id in ids <==>
      exists k, m :: 0 <= k < |lookups| && lookups[k].Some? && Some(m) in lookups[k].value && m.id == id
  {
    var results := seq(|lookups|, k requires 0 <= k < |lookups| => GroupMembers(lookups[k]));
    var members := FlattenMembers(results);
    var all := seq(|members|, k requires 0 <= k < |members| => members[k].id);
    forall id | id in all
      ensures exists k, m :: 0 <= k < |lookups| && lookups[k].Some? && Some(m) in lookups[k].value && m.id == id
    {
      var j :| 0 <= j < |all| && all[j] == id;
      var k :| 0 <= k < |results| && Some(members[j]) in results[k];
      assert lookups[k].Some? && Some(members[j]) in lookups[k].value;
    }
    forall id | exists k, m :: 0 <= k < |lookups| && lookups[k].Some? && Some(m) in lookups[k].value && m.id == id
      ensures id in all
    {
      var k, m :| 0 <= k < |lookups| && lookups[k].Some? && Some(m) in lookups[k].value && m.id == id;
      assert Some(m) in results[k];
      assert m in members;
      var j :| 0 <= j < |members| && members[j] == m;
      assert all[j] == id;
    }
    Uniq(all)
  }
}
