/** Referential integrity of the access store over every run, and what it makes of the effective entitlements. */
module AccessTheorems {
  import opened Prelude
  import opened InPlace
  import opened Scopes
  import opened AccessStore

  datatype Event =
    | NewRole(role: Role)
    | EditRole(role: Role)
    | RemoveRole(client: Id, roleId: Id)
    | NewPermission(permission: Permission)
    | EditPermission(permission: Permission)
    | RemovePermission(client: Id, permissionId: Id)
    | MapRole(client: Id, roleId: Id, permissions: seq<Id>)
    | AssignRoles(user: Id, grants: seq<RoleGrant>, grantedBy: string, now: Time)

  function Next(s: Access, e: Event): Access {
    match e
    case NewRole(role) => CreateRole(s, role).0
    case EditRole(role) => ReplaceRole(s, role).0
    case RemoveRole(client, role) => DeleteRole(s, client, role).0
    case NewPermission(permission) => CreatePermission(s, permission).0
    case EditPermission(permission) => ReplacePermission(s, permission).0
    case RemovePermission(client, permission) => DeletePermission(s, client, permission).0
    case MapRole(client, role, permissions) => SetRolePermissions(s, client, role, permissions).0
    case AssignRoles(user, grants, grantedBy, now) => ReplaceUserRoles(s, user, grants, grantedBy, now).0
  }

  /** The check the handler makes before it replaces a user's roles. */
  predicate ValidGrants(grants: seq<RoleGrant>, now: Time) {
    && (forall i :: 0 <= i < |grants| ==>
          grants[i].role != "" && (grants[i].expiresAt.Some? ==> now < grants[i].expiresAt.value))
    && (forall i, j :: 0 <= i < j < |grants| ==> grants[i].role != grants[j].role)
  }

  /** New identifiers are fresh draws, and handlers validate the grants. */
  predicate Legal(s: Access, e: Event) {
    match e
    case NewRole(role) => role.id !in s.roles
    case NewPermission(permission) => permission.id !in s.permissions
    case AssignRoles(_, grants, _, now) => ValidGrants(grants, now)
    case _ => true
  }

  function Run(s: Access, es: seq<Event>): Access
    decreases |es|
  {
    if es == [] then s else Run(Next(s, es[0]), es[1..])
  }

  predicate LegalRun(s: Access, es: seq<Event>)
    decreases |es|
  {
    es == [] || (Legal(s, es[0]) && LegalRun(Next(s, es[0]), es[1..]))
  }

  // ---- Integrity ----

  predicate RolesOk(roles: map<Id, Role>) {
    && (forall id :: id in roles ==> roles[id].id == id)
    && (forall a, b :: a in roles && b in roles && a != b ==>
          roles[a].client != roles[b].client || roles[a].code != roles[b].code)
  }

  predicate PermissionsOk(permissions: map<Id, Permission>) {
    && (forall id :: id in permissions ==> permissions[id].id == id)
    && (forall a, b :: a in permissions && b in permissions && a != b ==>
          permissions[a].client != permissions[b].client || permissions[a].code != permissions[b].code)
  }

  predicate MappingOk(s: Access, role: Id, permission: Id) {
    role in s.roles && permission in s.permissions && s.permissions[permission].client == s.roles[role].client
  }

  /** Mappings stay within one client. */
  predicate MappingsOk(s: Access) {
    && (forall r :: r in s.mappings ==> r in s.roles)
    && (forall r, p :: r in s.mappings && p in s.mappings[r] ==> MappingOk(s, r, p))
  }

  predicate DistinctRoles(as_: seq<Assignment>) {
    forall i, j :: 0 <= i < j < |as_| && as_[i].user == as_[j].user ==> as_[i].role != as_[j].role
  }

  /** Assignments refer to roles that exist, and no user has the same role twice. */
  predicate AssignmentsOk(s: Access) {
    && (forall i :: 0 <= i < |s.assignments| ==> s.assignments[i].role in s.roles)
    && DistinctRoles(s.assignments)
  }

  predicate Integrity(s: Access) {
    RolesOk(s.roles) && PermissionsOk(s.permissions) && MappingsOk(s) && AssignmentsOk(s)
  }

  lemma RoleEventKeeps(s: Access, e: Event)
    requires Integrity(s) && Legal(s, e) && (e.NewRole? || e.EditRole? || e.RemoveRole?)
    ensures Integrity(Next(s, e))
  {
    hide PermissionsOk, RolesOk, MappingsOk, AssignmentsOk, RoleAssigned, RoleCodeTaken;
    RolesStayOk(s, e);
    RoleReferencesStayOk(s, e);
  }

  lemma RoleReferencesStayOk(s: Access, e: Event)
    requires MappingsOk(s) && AssignmentsOk(s) && Legal(s, e) && (e.NewRole? || e.EditRole? || e.RemoveRole?)
    ensures MappingsOk(Next(s, e)) && AssignmentsOk(Next(s, e))
  {
    hide RoleCodeTaken;
  }

  lemma RolesStayOk(s: Access, e: Event)
    requires RolesOk(s.roles) && Legal(s, e) && (e.NewRole? || e.EditRole? || e.RemoveRole?)
    ensures RolesOk(Next(s, e).roles)
  {
    hide RoleAssigned;
  }

  lemma PermissionEventKeeps(s: Access, e: Event)
    requires Integrity(s) && Legal(s, e) && (e.NewPermission? || e.EditPermission? || e.RemovePermission?)
    ensures Integrity(Next(s, e))
  {
    hide RolesOk;
    var t := Next(s, e);
    assert AssignmentsOk(t);
    assert PermissionsOk(t.permissions) by {
      hide MappingsOk, AssignmentsOk, PermissionMapped;
      PermissionsStayOk(s, e);
    }
    hide PermissionsOk, PermissionCodeTaken, AssignmentsOk;
    assert MappingsOk(t);
  }

  lemma PermissionsStayOk(s: Access, e: Event)
    requires PermissionsOk(s.permissions) && Legal(s, e) &&
               (e.NewPermission? || e.EditPermission? || e.RemovePermission?)
    ensures PermissionsOk(Next(s, e).permissions)
  {
    hide PermissionMapped;
  }

  lemma MapEventKeeps(s: Access, e: Event)
    requires Integrity(s) && e.MapRole?
    ensures Integrity(Next(s, e))
  {
  }

  lemma {:induction false} OthersStayDistinct(as_: seq<Assignment>, user: Id)
    requires DistinctRoles(as_)
    ensures DistinctRoles(Filter(as_, NotUser(user)))
  {
    if as_ != [] {
      var n := |as_| - 1;
      OthersStayDistinct(as_[..n], user);
      var head := Filter(as_[..n], NotUser(user));
      forall i | 0 <= i < |head| && head[i].user == as_[n].user ensures head[i].role != as_[n].role {
        var k :| 0 <= k < n && as_[..n][k] == head[i];
      }
      assert DistinctRoles(head + [as_[n]]);
    }
  }

  lemma AssignEventKeeps(s: Access, e: Event)
    requires Integrity(s) && Legal(s, e) && e.AssignRoles?
    ensures Integrity(Next(s, e))
  {
    hide RolesOk, PermissionsOk;
    var t := Next(s, e);
    OthersStayDistinct(s.assignments, e.user);
    var others := Filter(s.assignments, NotUser(e.user));
    forall i | 0 <= i < |others| ensures others[i].role in s.roles && others[i].user != e.user {
      var k :| 0 <= k < |s.assignments| && s.assignments[k] == others[i];
      assert NotUser(e.user)(others[i]);
    }
  }

  lemma EventKeepsIntegrity(s: Access, e: Event)
    requires Integrity(s) && Legal(s, e)
    ensures Integrity(Next(s, e))
  {
    hide Integrity, Next;
    match e
    case NewRole(_) => RoleEventKeeps(s, e);
    case EditRole(_) => RoleEventKeeps(s, e);
    case RemoveRole(_, _) => RoleEventKeeps(s, e);
    case NewPermission(_) => PermissionEventKeeps(s, e);
    case EditPermission(_) => PermissionEventKeeps(s, e);
    case RemovePermission(_, _) => PermissionEventKeeps(s, e);
    case MapRole(_, _, _) => MapEventKeeps(s, e);
    case AssignRoles(_, _, _, _) => AssignEventKeeps(s, e);
  }

  /** Integrity holds in every reachable state. */
  lemma {:induction false} AlwaysIntegrity(s: Access, es: seq<Event>)
    requires Integrity(s) && LegalRun(s, es)
    ensures Integrity(Run(s, es))
    decreases |es|
  {
    hide Integrity, Next, Legal;
    if es != [] {
      EventKeepsIntegrity(s, es[0]);
      AlwaysIntegrity(Next(s, es[0]), es[1..]);
    }
  }

  // ---- Entitlements ----

  /** The plain relational join: an unexpired assignment, a role of the client, a mapping, a permission. */
  predicate Entitled(s: Access, user: Id, client: Id, now: Time, code: string) {
    exists a, p :: a in s.assignments && p in s.permissions && Joins(s, user, client, now, a, p) &&
        s.permissions[p].code == code
  }

  predicate Joins(s: Access, user: Id, client: Id, now: Time, a: Assignment, p: Id) {
    && a.user == user && (a.expiresAt.Some? ==> now < a.expiresAt.value)
    && a.role in s.roles && s.roles[a.role].client == client
    && a.role in s.mappings && p in s.mappings[a.role]
  }

  /**
   With integrity the checks in the loops change nothing: the permissions a user gets at a client are exactly the
   join's, and so never another client's.
   */
  lemma EffectiveIsTheJoin(s: Access, user: Id, client: Id, now: Time, code: string)
    requires Integrity(s) && client != ""
    ensures CollectsCode(s, user, client, now, code) <==> Entitled(s, user, client, now, code)
  {
  }

  /** The role codes are free of duplicates as well, because a client's codes are unique and grants are not repeated. */
  lemma {:induction false} RoleCodesAreDistinct(s: Access, n: nat, user: Id, client: Id, now: Time)
    requires Integrity(s) && client != "" && n <= |s.assignments|
    ensures NoDup(Codes(Shown(s, s.assignments[..n], user, client, false, now)))
  {
    hide Integrity, Shown, Listed, NoDup;
    if n == 0 {
      assert s.assignments[..0] == [];
      NothingShown(s, user, client, now);
    } else {
      var before, a := s.assignments[..n - 1], s.assignments[n - 1];
      assert s.assignments[..n] == before + [a];
      RoleCodesAreDistinct(s, n - 1, user, client, now);
      ShownSnoc(s, before, a, user, client, now);
      if Listed(s, user, client, false, now, a) {
        NewCode(s, n - 1, user, client, now);
        ListedHasRole(s, a, user, client, now);
        NoDupSnoc(Codes(Shown(s, before, user, client, false, now)), s.roles[a.role].code);
      }
    }
  }

  lemma NothingShown(s: Access, user: Id, client: Id, now: Time)
    ensures NoDup(Codes(Shown(s, [], user, client, false, now)))
  {
  }

  lemma ListedHasRole(s: Access, a: Assignment, user: Id, client: Id, now: Time)
    requires Listed(s, user, client, false, now, a)
    ensures a.role in s.roles
  {
  }

  lemma NoDupSnoc(codes: seq<string>, c: string)
    requires NoDup(codes) && forall i :: 0 <= i < |codes| ==> codes[i] != c
    ensures NoDup(codes + [c])
  {
  }

  lemma ShownSnoc(s: Access, before: seq<Assignment>, a: Assignment, user: Id, client: Id, now: Time)
    ensures var codes := Codes(Shown(s, before, user, client, false, now));
            Codes(Shown(s, before + [a], user, client, false, now))
            == if Listed(s, user, client, false, now, a) then codes + [s.roles[a.role].code] else codes
  {
  }

  lemma NewCode(s: Access, n: nat, user: Id, client: Id, now: Time)
    requires Integrity(s) && client != "" && n < |s.assignments| &&
               Listed(s, user, client, false, now, s.assignments[n])
    ensures var codes := Codes(Shown(s, s.assignments[..n], user, client, false, now));
            forall i :: 0 <= i < |codes| ==> codes[i] != s.roles[s.assignments[n].role].code
  {
  }

  predicate ClientCode(s: Access, client: Id, code: string) {
    exists p :: p in s.permissions && s.permissions[p].client == client && s.permissions[p].code == code
  }

  /** In every reachable state: the join and nothing else, only the client's own codes, and no role twice. */
  lemma EntitlementsInEveryRun(es: seq<Event>, user: Id, client: Id, now: Time, code: string)
    requires LegalRun(NO_ACCESS, es) && client != ""
    ensures var s := Run(NO_ACCESS, es);
            && (CollectsCode(s, user, client, now, code) <==> Entitled(s, user, client, now, code))
            && (Entitled(s, user, client, now, code) ==> ClientCode(s, client, code))
            && NoDup(Codes(Shown(s, s.assignments, user, client, false, now)))
  {
    var s := Run(NO_ACCESS, es);
    AlwaysIntegrity(NO_ACCESS, es);
    EffectiveIsTheJoin(s, user, client, now, code);
    RoleCodesAreDistinct(s, |s.assignments|, user, client, now);
    assert s.assignments[..|s.assignments|] == s.assignments;
    if Entitled(s, user, client, now, code) {
      var a, p :| a in s.assignments && p in s.permissions && Joins(s, user, client, now, a, p) &&
          s.permissions[p].code == code;
      assert MappingOk(s, a.role, p);
    }
  }

  function OfUser(user: Id): Assignment -> bool { (a: Assignment) => a.user == user }

  lemma {:induction false} FilterConcat(a: seq<Assignment>, b: seq<Assignment>, keep: Assignment -> bool)
    ensures Filter(a + b, keep) == Filter(a, keep) + Filter(b, keep)
  {
    hide Filter;
    FilterEmpty(keep);
    if b == [] {
      assert a + b == a;
    } else {
      var n := |b| - 1;
      FilterConcat(a, b[..n], keep);
      assert a + b == (a + b[..n]) + [b[n]] && b == b[..n] + [b[n]];
      FilterSnoc(a + b[..n], b[n], keep);
      FilterSnoc(b[..n], b[n], keep);
    }
  }

  lemma {:induction false} FilterOthers(as_: seq<Assignment>, user: Id, other: Id)
    requires user != other
    ensures Filter(Filter(as_, NotUser(user)), OfUser(other)) == Filter(as_, OfUser(other))
    ensures Filter(Filter(as_, NotUser(user)), OfUser(user)) == []
  {
    hide Filter;
    FilterEmpty(NotUser(user));
    FilterEmpty(OfUser(other));
    FilterEmpty(OfUser(user));
    if as_ != [] {
      var before, a := as_[..|as_| - 1], as_[|as_| - 1];
      assert as_ == before + [a];
      FilterOthers(before, user, other);
      FilterSnoc(before, a, NotUser(user));
      FilterSnoc(before, a, OfUser(other));
      assert NotUser(user)(a) <==> a.user != user;
      assert OfUser(other)(a) <==> a.user == other;
      if a.user == user {
        assert Filter(before, NotUser(user)) + [] == Filter(before, NotUser(user));
        assert Filter(before, OfUser(other)) + [] == Filter(before, OfUser(other));
      } else {
        assert !OfUser(user)(a);
        FilterSnoc(Filter(before, NotUser(user)), a, OfUser(other));
        FilterSnoc(Filter(before, NotUser(user)), a, OfUser(user));
      }
    }
  }

  lemma {:induction false} FilterAll(as_: seq<Assignment>, keep: Assignment -> bool)
    requires (forall i :: 0 <= i < |as_| ==> keep(as_[i])) || (forall i :: 0 <= i < |as_| ==> !keep(as_[i]))
    ensures Filter(as_, keep) == if as_ == [] || !keep(as_[0]) then [] else as_
  {
    if as_ != [] {
      FilterAll(as_[..|as_| - 1], keep);
      assert as_ == as_[..|as_| - 1] + [as_[|as_| - 1]];
    }
  }

  /** Replacing a user's roles leaves everyone else's as they were, in order, and gives the user exactly the grants. */
  lemma ReplaceTouchesOneUser(s: Access, user: Id, grants: seq<RoleGrant>, grantedBy: string, now: Time, other: Id)
    requires other != user && ReplaceUserRoles(s, user, grants, grantedBy, now).1.Ok?
    ensures var t := ReplaceUserRoles(s, user, grants, grantedBy, now).0;
            && Filter(t.assignments, OfUser(other)) == Filter(s.assignments, OfUser(other))
            && Filter(t.assignments, OfUser(user)) == NewAssignments(user, grants, grantedBy, now)
  {
    var new_ := NewAssignments(user, grants, grantedBy, now);
    hide Filter, NewAssignments;
    FilterOthers(s.assignments, user, other);
    FilterConcat(Filter(s.assignments, NotUser(user)), new_, OfUser(other));
    FilterConcat(Filter(s.assignments, NotUser(user)), new_, OfUser(user));
    FilterAll(new_, OfUser(other));
    FilterAll(new_, OfUser(user));
  }
}
