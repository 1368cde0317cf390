/** What each operation on roles and permissions answers and leaves, stated on the stored records and entitlements. */
module AccessOutcomes {
  import opened Prelude
  import opened InPlace
  import opened Scopes
  import opened AccessStore
  import opened AccessTheorems

  // ---- Roles and permissions ----

  predicate SameRoles(s: Access, t: Access) { t.roles == s.roles && t.mappings == s.mappings }

  predicate OtherRole(roles: map<Id, Role>, r: Role, id: Id) {
    id in roles && id != r.id && roles[id].client == r.client && roles[id].code == r.code
  }

  /** A role is stored exactly when no role of its client has its code. */
  lemma CreateRoleOutcome(s: Access, r: Role)
    requires r.id !in s.roles
    ensures var (t, answer) := CreateRole(s, r);
            if exists id :: OtherRole(s.roles, r, id) then answer == Err(Conflict) && t == s
            else answer == Ok(()) && t == s.(roles := s.roles[r.id := r])
  {
    forall id | OtherRole(s.roles, r, id) ensures RoleCodeTaken(s, r.client, r.code, None) {
      assert id in s.roles;
    }
    if RoleCodeTaken(s, r.client, r.code, None) {
      var id :| id in s.roles && s.roles[id].client == r.client && s.roles[id].code == r.code;
      assert OtherRole(s.roles, r, id);
    }
  }

  /** It is changed only as its own client's, and only if no other role of the client has the new code. */
  lemma ReplaceRoleOutcome(s: Access, r: Role)
    ensures var (t, answer) := ReplaceRole(s, r);
            if !(r.id in s.roles && s.roles[r.id].client == r.client) then answer == Err(NotFound) && t == s
            else if exists id :: OtherRole(s.roles, r, id) then answer == Err(Conflict) && t == s
            else answer == Ok(()) && t == s.(roles := s.roles[r.id := r])
  {
    forall id | OtherRole(s.roles, r, id) ensures RoleCodeTaken(s, r.client, r.code, Some(r.id)) {
      assert id in s.roles;
    }
    if RoleCodeTaken(s, r.client, r.code, Some(r.id)) {
      var id :| id in s.roles && id != r.id && s.roles[id].client == r.client && s.roles[id].code == r.code;
      assert OtherRole(s.roles, r, id);
    }
  }

  /** It goes, with its mapping and nothing else, exactly when nobody has it, expired assignments included. */
  lemma DeleteRoleOutcome(s: Access, client: Id, role: Id)
    ensures var (t, answer) := DeleteRole(s, client, role);
            if !(role in s.roles && s.roles[role].client == client) then answer == Err(NotFound) && t == s
            else if exists a :: a in s.assignments && a.role == role then answer == Err(InUse) && t == s
            else answer == Ok(()) && t.permissions == s.permissions && t.assignments == s.assignments
                 && t.roles.Keys == s.roles.Keys - {role} && (forall r :: r in t.roles ==> t.roles[r] == s.roles[r])
                 && t.mappings.Keys == s.mappings.Keys - {role}
                 && (forall r :: r in t.mappings ==> t.mappings[r] == s.mappings[r])
  {
  }

  predicate OtherPermission(permissions: map<Id, Permission>, p: Permission, id: Id) {
    id in permissions && id != p.id && permissions[id].client == p.client && permissions[id].code == p.code
  }

  lemma CreatePermissionOutcome(s: Access, p: Permission)
    requires p.id !in s.permissions
    ensures var (t, answer) := CreatePermission(s, p);
            if exists id :: OtherPermission(s.permissions, p, id) then answer == Err(Conflict) && t == s
            else answer == Ok(()) && t == s.(permissions := s.permissions[p.id := p])
  {
    forall id | OtherPermission(s.permissions, p, id) ensures PermissionCodeTaken(s, p.client, p.code, None) {
      assert id in s.permissions;
    }
    if PermissionCodeTaken(s, p.client, p.code, None) {
      var id :| id in s.permissions && s.permissions[id].client == p.client && s.permissions[id].code == p.code;
      assert OtherPermission(s.permissions, p, id);
    }
  }

  lemma ReplacePermissionOutcome(s: Access, p: Permission)
    ensures var (t, answer) := ReplacePermission(s, p);
            if !(p.id in s.permissions && s.permissions[p.id].client == p.client) then answer == Err(NotFound) && t == s
            else if exists id :: OtherPermission(s.permissions, p, id) then answer == Err(Conflict) && t == s
            else answer == Ok(()) && t == s.(permissions := s.permissions[p.id := p])
  {
    forall id | OtherPermission(s.permissions, p, id) ensures PermissionCodeTaken(s, p.client, p.code, Some(p.id)) {
      assert id in s.permissions;
    }
    if PermissionCodeTaken(s, p.client, p.code, Some(p.id)) {
      var id :| id in s.permissions && id != p.id && s.permissions[id].client == p.client &&
        s.permissions[id].code == p.code;
      assert OtherPermission(s.permissions, p, id);
    }
  }

  /** A permission goes exactly when no role maps it, so no entitlement changes. */
  lemma DeletePermissionOutcome(s: Access, client: Id, permission: Id)
    ensures var (t, answer) := DeletePermission(s, client, permission);
            if !(permission in s.permissions && s.permissions[permission].client == client)
            then answer == Err(NotFound) && t == s
            else if exists r :: r in s.mappings && permission in s.mappings[r] then answer == Err(InUse) && t == s
            else answer == Ok(()) && SameRoles(s, t) && t.assignments == s.assignments
                 && t.permissions.Keys == s.permissions.Keys - {permission}
                 && (forall p :: p in t.permissions ==> t.permissions[p] == s.permissions[p])
                 && (forall user, at, now, code ::
                       Entitled(t, user, at, now, code) <==> Entitled(s, user, at, now, code))
  {
  }

  // ---- Mappings ----

  /** The user has the role at this moment. */
  predicate Holds(s: Access, user: Id, role: Id, now: Time) {
    exists a :: a in s.assignments && a.user == user && a.role == role &&
                (a.expiresAt.Some? ==> now < a.expiresAt.value)
  }

  /** The code reaches the user through this very role. */
  predicate Through(s: Access, user: Id, role: Id, now: Time, code: string) {
    Holds(s, user, role, now) && role in s.mappings
    && exists p :: p in s.mappings[role] && p in s.permissions && s.permissions[p].code == code
  }

  predicate AmongCodes(s: Access, permissions: seq<Id>, code: string) {
    exists p :: p in permissions && p in s.permissions && s.permissions[p].code == code
  }

  /**
   A mapping is replaced, not widened: it succeeds exactly for a role and permissions of the client, and from then on
   the codes that reach the role's users through it are exactly the listed permissions', and all else is as before.
   */
  lemma SetRolePermissionsOutcome(s: Access, client: Id, role: Id, permissions: seq<Id>)
    ensures var (t, answer) := SetRolePermissions(s, client, role, permissions);
            && (answer.Ok? <==>
                  && role in s.roles && s.roles[role].client == client
                  && forall p :: p in permissions ==> p in s.permissions && s.permissions[p].client == client)
            && (answer.Err? ==> answer == Err(NotFound) && t == s)
            && t.roles == s.roles && t.permissions == s.permissions && t.assignments == s.assignments
            && (forall r :: r != role ==>
                  (r in t.mappings <==> r in s.mappings) && (r in s.mappings ==> t.mappings[r] == s.mappings[r]))
            && (answer.Ok? ==>
                  && role in t.mappings && (forall p :: p in t.mappings[role] <==> p in permissions)
                  && forall user, now, code ::
                       Through(t, user, role, now, code) <==>
                       Holds(s, user, role, now) && AmongCodes(s, permissions, code))
  {
  }

  /** In every reachable state the codes Effective collects are those that reach the user through some role. */
  lemma EntitlementsAreThroughRoles(es: seq<Event>, user: Id, client: Id, now: Time, code: string)
    requires LegalRun(NO_ACCESS, es) && client != ""
    ensures var s := Run(NO_ACCESS, es);
            CollectsCode(s, user, client, now, code) <==>
            exists role :: role in s.roles && s.roles[role].client == client && Through(s, user, role, now, code)
  {
    AlwaysIntegrity(NO_ACCESS, es);
    var s := Run(NO_ACCESS, es);
    hide Run, LegalRun;
    if CollectsCode(s, user, client, now, code) {
      var a, p :| a in s.assignments && p in s.permissions && Collects(s, user, client, now, a, p) &&
        s.permissions[p].code == code;
      assert Holds(s, user, a.role, now) && Through(s, user, a.role, now, code);
    }
    if role :| role in s.roles && s.roles[role].client == client && Through(s, user, role, now, code) {
      var a :| a in s.assignments && a.user == user && a.role == role &&
        (a.expiresAt.Some? ==> now < a.expiresAt.value);
      var p :| p in s.mappings[role] && p in s.permissions && s.permissions[p].code == code;
      assert MappingOk(s, role, p) && Collects(s, user, client, now, a, p);
    }
  }

  // ---- Assignments ----

  /** A user's roles are replaced as a whole, exactly when every role exists. */
  lemma ReplaceUserRolesOutcome(s: Access, user: Id, grants: seq<RoleGrant>, grantedBy: string, now: Time)
    ensures var (t, answer) := ReplaceUserRoles(s, user, grants, grantedBy, now);
            && SameRoles(s, t) && t.permissions == s.permissions
            && (answer.Ok? <==> forall g :: g in grants ==> g.role in s.roles)
            && (answer.Err? ==> answer == Err(NotFound) && t == s)
            && (answer.Ok? ==>
                  forall a :: a in t.assignments <==>
                    if a.user == user
                    then exists g :: g in grants && a == Assignment(user, g.role, now, grantedBy, g.expiresAt)
                    else a in s.assignments)
  {
  }

  /** A listing shows exactly the user's assignments, of one client or of all, expired ones only when asked. */
  lemma ListingOutcome(s: Access, user: Id, client: Id, includeExpired: bool, now: Time, u: UserRole)
    ensures u in Shown(s, s.assignments, user, client, includeExpired, now) <==>
            exists a ::
              && a in s.assignments && a.user == user && a.role in s.roles
              && u == UserRole(user, s.roles[a.role], a.grantedAt, a.grantedBy, a.expiresAt)
              && (client != "" ==> s.roles[a.role].client == client)
              && (a.expiresAt.Some? && a.expiresAt.value <= now ==> includeExpired)
  {
  }

  /** The order of a listing is by client and within a client by code, compared character by character. */
  lemma ListingOrder(a: UserRole, b: UserRole)
    ensures RoleOrder()(a, b) <==>
            if a.role.client == b.role.client then Before(a.role.code, b.role.code)
            else Before(a.role.client, b.role.client)
  {
    StrLeIsBefore(a.role.code, b.role.code);
    StrLeIsBefore(a.role.client, b.role.client);
  }

  /** One is a prefix of the other, or smaller at the first difference. */
  predicate Before(a: string, b: string) {
    a <= b || exists n :: 0 <= n < |a| && n < |b| && a[..n] == b[..n] && a[n] < b[n]
  }

  lemma {:induction false} StrLeIsBefore(a: string, b: string)
    ensures StrLe(a, b) <==> Before(a, b)
  {
    if a != [] && b != [] && a[0] == b[0] {
      StrLeIsBefore(a[1..], b[1..]);
      assert a <= b <==> a[1..] <= b[1..];
      if n :| 0 <= n < |a| && n < |b| && a[..n] == b[..n] && a[n] < b[n] {
        assert n > 0 && a[1..][..n - 1] == a[..n][1..] == b[..n][1..] == b[1..][..n - 1];
        assert a[1..][n - 1] < b[1..][n - 1];
      }
      if n :| 0 <= n < |a[1..]| && n < |b[1..]| && a[1..][..n] == b[1..][..n] && a[1..][n] < b[1..][n] {
        assert a[..n + 1] == [a[0]] + a[1..][..n] == [b[0]] + b[1..][..n] == b[..n + 1] && a[n + 1] < b[n + 1];
      }
    } else if a != [] && b != [] {
      assert a[..0] == b[..0];
    }
  }
}
