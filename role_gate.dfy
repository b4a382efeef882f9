/** The authorization middleware of the back end: `requireAdmin` and
    `requirePermission(key)`. Each looks up the caller's user record together with its
    attached roles (and their permissions), then answers 401, 403 or passes the request
    on, attaching the user (and, for a permission check, the collected keys). */
module RoleGate {
  import opened Wrappers

  /** A populated permission document; its `key` may be missing. */
  datatype Permission = Permission(key: Option<string>)

  /** A populated role document. `permissions` may be missing, and an entry may be a
      null reference (`None`), which `permission?.key` tolerates. */
  datatype Role = Role(name: Option<string>, permissions: Option<seq<Option<Permission>>>)

  /** A user record: the coarse `role` string and the attached `roles`, either of which
      may be missing. */
  datatype User = User(role: Option<string>, roles: Option<seq<Role>>)

  /** What the middleware does with the request. `Next` hands it on with the user (and,
      for `requirePermission` of a non-admin, the list of keys) attached. */
  datatype Outcome =
    | Unauthorized
    | UserNotFound
    | Forbidden(message: string)
    | Next(user: User, permissions: Option<seq<string>>)

  /** The HTTP status of a refused request; a passed one has none. */
  function Status(o: Outcome): (code: Option<nat>)
    ensures code.None? <==> o.Next?
    ensures code == Some(401) <==> o.Unauthorized? || o.UserNotFound?
    ensures o.Forbidden? ==> code == Some(403)
  {
    match o
    case Unauthorized => Some(401)
    case UserNotFound => Some(401)
    case Forbidden(_) => Some(403)
    case Next(_, _) => None
  }

  /** The `message` of a refused request. */
  function Message(o: Outcome): (m: string)
    ensures o.Unauthorized? ==> m == "Unauthorized"
    ensures o.UserNotFound? ==> m == "User not found"
    ensures o.Forbidden? ==> m == o.message
  {
    match o
    case Unauthorized => "Unauthorized"
    case UserNotFound => "User not found"
    case Forbidden(msg) => msg
    case Next(_, _) => ""
  }

  /** `user.roles || []`. */
  function RolesOf(u: User): seq<Role> {
    u.roles.GetOr([])
  }

  /** `role.permissions || []`. */
  function PermsOf(r: Role): seq<Option<Permission>> {
    r.permissions.GetOr([])
  }

  /** `user.role === "admin" || (user.roles || []).some(role => role.name === "admin")`. */
  predicate IsAdmin(u: User) {
    u.role == Some("admin") || exists i | 0 <= i < |RolesOf(u)| :: RolesOf(u)[i].name == Some("admin")
  }

  /** The key a permission contributes: `permission?.key` when it is truthy. */
  function KeyOf(p: Option<Permission>): (k: Option<string>)
    ensures k.Some? ==> k.value != "" && p.Some? && k == p.value.key
  {
    if p.Some? && p.value.key.Some? && p.value.key.value != "" then p.value.key else None
  }

  // ------------------------------------------------------------ the key collection

  /** `set.add(k)` on a set kept in insertion order (`Array.from(set)`). */
  function AddKey(acc: seq<string>, k: string): seq<string> {
    if k in acc then acc else acc + [k]
  }

  /** The inner `forEach`: adds the truthy keys of `ps`, first to last. */
  function AddPerms(acc: seq<string>, ps: seq<Option<Permission>>): seq<string> {
    if ps == [] then acc
    else
      var before := AddPerms(acc, ps[..|ps| - 1]);
      var k := KeyOf(ps[|ps| - 1]);
      if k.Some? then AddKey(before, k.value) else before
  }

  /** The outer `forEach`: the inner one over each role's permissions, first to last. */
  function AddRoles(acc: seq<string>, roles: seq<Role>): seq<string> {
    if roles == [] then acc
    else AddPerms(AddRoles(acc, roles[..|roles| - 1]), PermsOf(roles[|roles| - 1]))
  }

  /** `Array.from(permissionSet)` after the loops. */
  function CollectedKeys(roles: seq<Role>): seq<string> {
    AddRoles([], roles)
  }

  /** Some permission of `ps` carries the truthy key `k`. */
  predicate CarriesIn(ps: seq<Option<Permission>>, k: string) {
    exists j | 0 <= j < |ps| :: KeyOf(ps[j]) == Some(k)
  }

  /** Some permission of some role of `roles` carries the truthy key `k`: the union. */
  predicate Carries(roles: seq<Role>, k: string) {
    exists i | 0 <= i < |roles| :: CarriesIn(PermsOf(roles[i]), k)
  }

  predicate Distinct(s: seq<string>) {
    forall i, j | 0 <= i < j < |s| :: s[i] != s[j]
  }

  // ------------------------------------------------------------ the decisions

  /** The caller's user record, or the first refusal. */
  function Lookup(userId: Option<string>, users: map<string, User>): (r: Outcome)
    ensures r.Unauthorized? || r.UserNotFound? || (r.Next? && r.permissions.None?)
  {
    if userId.None? || userId.value == "" then Unauthorized
    else if userId.value !in users then UserNotFound
    else Next(users[userId.value], None)
  }

  /** What `requireAdmin` decides. */
  function AdminDecision(userId: Option<string>, users: map<string, User>): Outcome {
    var found := Lookup(userId, users);
    if !found.Next? then found
    else if !IsAdmin(found.user) then Forbidden("Admin access required")
    else Next(found.user, None)
  }

  /** What `requirePermission(key)` decides. */
  function PermissionDecision(key: string, userId: Option<string>, users: map<string, User>): Outcome {
    var found := Lookup(userId, users);
    if !found.Next? then found
    else if IsAdmin(found.user) then Next(found.user, None)
    else
      var keys := CollectedKeys(RolesOf(found.user));
      if key !in keys then Forbidden("Permission denied") else Next(found.user, Some(keys))
  }

  /** The two nested `forEach` loops that fill the permission set. */
  method CollectPermissions(roles: seq<Role>) returns (keys: seq<string>)
    ensures keys == CollectedKeys(roles)
  {
    keys := [];
    var i := 0;
    while i < |roles|
      invariant 0 <= i <= |roles|
      invariant keys == AddRoles([], roles[..i])
    {
      var ps := PermsOf(roles[i]);
      var j := 0;
      while j < |ps|
        invariant 0 <= j <= |ps|
        invariant keys == AddPerms(AddRoles([], roles[..i]), ps[..j])
      {
        var k := KeyOf(ps[j]);
        if k.Some? && k.value !in keys {
          keys := keys + [k.value];
        }
        assert ps[..j + 1][..j] == ps[..j];
        j := j + 1;
      }
      assert ps[..j] == ps;
      assert roles[..i + 1][..i] == roles[..i];
      i := i + 1;
    }
    assert roles[..i] == roles;
  }

  /** The request object the middleware reads `userId` from and attaches `user` and
      `permissions` to. */
  class Request {
    var userId: Option<string>
    var user: Option<User>
    var permissions: Option<seq<string>>

    constructor (userId: Option<string>)
      ensures this.userId == userId && user == None && permissions == None
    {
      this.userId := userId;
      user := None;
      permissions := None;
    }

    /** `requireAdmin`: attaches the user when it passes the request on. */
    method RequireAdmin(users: map<string, User>) returns (o: Outcome)
      modifies this
      ensures o == AdminDecision(old(userId), users)
      ensures userId == old(userId) && permissions == old(permissions)
      ensures user == if o.Next? then Some(o.user) else old(user)
    {
      if userId.None? || userId.value == "" {
        return Unauthorized;
      }
      if userId.value !in users {
        return UserNotFound;
      }
      var u := users[userId.value];
      if !IsAdmin(u) {
        return Forbidden("Admin access required");
      }
      user := Some(u);
      o := Next(u, None);
    }

    /** `requirePermission(key)`: an admin passes with only the user attached; anyone
        else passes with the user and the collected keys attached. */
    method RequirePermission(key: string, users: map<string, User>) returns (o: Outcome)
      modifies this
      ensures o == PermissionDecision(key, old(userId), users)
      ensures userId == old(userId)
      ensures user == if o.Next? then Some(o.user) else old(user)
      ensures permissions == if o.Next? && o.permissions.Some? then o.permissions else old(permissions)
    {
      if userId.None? || userId.value == "" {
        return Unauthorized;
      }
      if userId.value !in users {
        return UserNotFound;
      }
      var u := users[userId.value];
      if IsAdmin(u) {
        user := Some(u);
        return Next(u, None);
      }
      var keys := CollectPermissions(RolesOf(u));
      if key !in keys {
        return Forbidden("Permission denied");
      }
      user := Some(u);
      permissions := Some(keys);
      o := Next(u, Some(keys));
    }
  }

  // ------------------------------------------------------------ properties of the fold

  lemma CarriesInSnoc(ps: seq<Option<Permission>>, k: string)
    requires ps != []
    ensures CarriesIn(ps, k) <==> CarriesIn(ps[..|ps| - 1], k) || KeyOf(ps[|ps| - 1]) == Some(k)
  {
    var n := |ps| - 1;
    if CarriesIn(ps, k) && KeyOf(ps[n]) != Some(k) {
      var j :| 0 <= j < |ps| && KeyOf(ps[j]) == Some(k);
      assert ps[..n][j] == ps[j];
    }
    if CarriesIn(ps[..n], k) {
      var j :| 0 <= j < n && KeyOf(ps[..n][j]) == Some(k);
      assert ps[j] == ps[..n][j];
    }
  }

  lemma CarriesSnoc(roles: seq<Role>, k: string)
    requires roles != []
    ensures Carries(roles, k) <==>
            Carries(roles[..|roles| - 1], k) || CarriesIn(PermsOf(roles[|roles| - 1]), k)
  {
    var n := |roles| - 1;
    if Carries(roles, k) && !CarriesIn(PermsOf(roles[n]), k) {
      var i :| 0 <= i < |roles| && CarriesIn(PermsOf(roles[i]), k);
      assert roles[..n][i] == roles[i];
    }
    if Carries(roles[..n], k) {
      var i :| 0 <= i < n && CarriesIn(PermsOf(roles[..n][i]), k);
      assert roles[i] == roles[..n][i];
    }
  }

  /** The inner loop adds exactly the truthy keys of `ps`, keeps what was there in its
      place, and never adds a key twice. */
  lemma {:induction false} AddPermsSpec(acc: seq<string>, ps: seq<Option<Permission>>)
    ensures acc <= AddPerms(acc, ps)
    ensures forall k :: k in AddPerms(acc, ps) <==> k in acc || CarriesIn(ps, k)
    ensures Distinct(acc) ==> Distinct(AddPerms(acc, ps))
  {
    if ps != [] {
      var n := |ps| - 1;
      AddPermsSpec(acc, ps[..n]);
      forall k ensures CarriesIn(ps, k) <==> CarriesIn(ps[..n], k) || KeyOf(ps[n]) == Some(k) {
        CarriesInSnoc(ps, k);
      }
    }
  }

  /** The same for the outer loop over the roles. */
  lemma {:induction false} AddRolesSpec(acc: seq<string>, roles: seq<Role>)
    ensures acc <= AddRoles(acc, roles)
    ensures forall k :: k in AddRoles(acc, roles) <==> k in acc || Carries(roles, k)
    ensures Distinct(acc) ==> Distinct(AddRoles(acc, roles))
  {
    if roles != [] {
      var n := |roles| - 1;
      AddRolesSpec(acc, roles[..n]);
      AddPermsSpec(AddRoles(acc, roles[..n]), PermsOf(roles[n]));
      forall k ensures Carries(roles, k) <==> Carries(roles[..n], k) || CarriesIn(PermsOf(roles[n]), k) {
        CarriesSnoc(roles, k);
      }
    }
  }

  /** The collected list has no repeats and holds exactly the truthy keys of all the
      roles' permissions. */
  lemma CollectedKeysSpec(roles: seq<Role>)
    ensures Distinct(CollectedKeys(roles))
    ensures forall k :: k in CollectedKeys(roles) <==> Carries(roles, k)
  {
    AddRolesSpec([], roles);
  }

  /** Collecting over two lists of roles gives the union of the two collections, with the
      keys of the first list first. */
  lemma CollectedKeysAppend(r1: seq<Role>, r2: seq<Role>)
    ensures CollectedKeys(r1) <= CollectedKeys(r1 + r2)
    ensures forall k :: k in CollectedKeys(r1 + r2) <==> k in CollectedKeys(r1) || k in CollectedKeys(r2)
  {
    CollectedKeysSpec(r1);
    CollectedKeysSpec(r2);
    CollectedKeysSpec(r1 + r2);
    forall k ensures Carries(r1 + r2, k) <==> Carries(r1, k) || Carries(r2, k) {
      if Carries(r1 + r2, k) {
        var i :| 0 <= i < |r1 + r2| && CarriesIn(PermsOf((r1 + r2)[i]), k);
        if i < |r1| {
          assert (r1 + r2)[i] == r1[i];
        } else {
          assert (r1 + r2)[i] == r2[i - |r1|];
        }
      }
      if Carries(r1, k) {
        var i :| 0 <= i < |r1| && CarriesIn(PermsOf(r1[i]), k);
        assert (r1 + r2)[i] == r1[i];
      }
      if Carries(r2, k) {
        var i :| 0 <= i < |r2| && CarriesIn(PermsOf(r2[i]), k);
        assert (r1 + r2)[|r1| + i] == r2[i];
      }
    }
    AddRolesAppend(r1, r2);
    AddRolesSpec(CollectedKeys(r1), r2);
  }

  lemma {:induction false} AddRolesAppend(r1: seq<Role>, r2: seq<Role>)
    ensures CollectedKeys(r1 + r2) == AddRoles(CollectedKeys(r1), r2)
  {
    if r2 != [] {
      var n := |r2| - 1;
      assert (r1 + r2)[..|r1 + r2| - 1] == r1 + r2[..n];
      assert (r1 + r2)[|r1 + r2| - 1] == r2[n];
      AddRolesAppend(r1, r2[..n]);
    } else {
      assert r1 + r2 == r1;
    }
  }

  // ------------------------------------------------------------ properties of the gates

  /** With no user id on the request, both gates answer 401 "Unauthorized" before any
      lookup; an id with no record gets the distinct 401 "User not found". */
  lemma RefusalsBeforeRoles(key: string, userId: Option<string>, users: map<string, User>)
    ensures (userId.None? || userId == Some("")) ==>
              AdminDecision(userId, users) == Unauthorized && PermissionDecision(key, userId, users) == Unauthorized
    ensures userId.Some? && userId.value != "" && userId.value !in users ==>
              AdminDecision(userId, users) == UserNotFound && PermissionDecision(key, userId, users) == UserNotFound
    ensures Message(Unauthorized) != Message(UserNotFound)
  {
  }

  /** `requireAdmin` passes a found user on iff that user is an admin, and otherwise
      answers 403. */
  lemma AdminGate(userId: string, users: map<string, User>)
    requires userId != "" && userId in users
    ensures AdminDecision(Some(userId), users).Next? <==> IsAdmin(users[userId])
    ensures !IsAdmin(users[userId]) ==> Status(AdminDecision(Some(userId), users)) == Some(403)
    ensures AdminDecision(Some(userId), users).Next? ==> AdminDecision(Some(userId), users).user == users[userId]
  {
  }

  /** An admin is let through for every key, whatever the permissions, and no key list is
      attached. */
  lemma AdminBypass(key: string, userId: string, users: map<string, User>)
    requires userId != "" && userId in users && IsAdmin(users[userId])
    ensures PermissionDecision(key, Some(userId), users) == Next(users[userId], None)
  {
  }

  /** A non-admin is let through iff some permission of some attached role carries the
      key; on that path the attached list holds exactly the carried keys, once each. */
  lemma PermissionGate(key: string, userId: string, users: map<string, User>)
    requires userId != "" && userId in users && !IsAdmin(users[userId])
    ensures PermissionDecision(key, Some(userId), users).Next? <==> Carries(RolesOf(users[userId]), key)
    ensures !Carries(RolesOf(users[userId]), key) ==>
              PermissionDecision(key, Some(userId), users) == Forbidden("Permission denied")
    ensures PermissionDecision(key, Some(userId), users).Next? ==>
              var ks := PermissionDecision(key, Some(userId), users).permissions;
              ks.Some? && Distinct(ks.value)
              && forall k :: k in ks.value <==> Carries(RolesOf(users[userId]), k)
  {
    CollectedKeysSpec(RolesOf(users[userId]));
  }

  /** A non-admin with no roles, and any non-admin asked for the empty key, is refused. */
  lemma NoRolesNoAccess(key: string, userId: string, users: map<string, User>)
    requires userId != "" && userId in users && !IsAdmin(users[userId])
    requires RolesOf(users[userId]) == [] || key == ""
    ensures PermissionDecision(key, Some(userId), users) == Forbidden("Permission denied")
  {
    CollectedKeysSpec(RolesOf(users[userId]));
  }
}
