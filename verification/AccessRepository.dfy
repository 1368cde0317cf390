/** The in-memory access repository: the loops and updates that carry out the operations of AccessStore. */
module AccessRepository {
  import opened Prelude
  import opened InPlace
  import opened Scopes
  import opened Sorting
  import opened AccessStore

  class MemoryRepository {
    var roles: map<Id, Role>
    var permissions: map<Id, Permission>
    var rolePermissions: map<Id, set<Id>>
    var userRoles: seq<Assignment>

    ghost function View(): Access
      reads this
    {
      Access(roles, permissions, rolePermissions, userRoles)
    }

    constructor ()
      ensures View() == NO_ACCESS
    {
      roles, permissions, rolePermissions, userRoles := map[], map[], map[], [];
    }

    method RoleCodeInUse(client: Id, code: string, exceptId: Option<Id>) returns (taken: bool)
      ensures taken <==> RoleCodeTaken(View(), client, code, exceptId)
    {
      var keys := roles.Keys;
      while keys != {}
        invariant keys <= roles.Keys
        invariant forall id :: id in roles && id !in keys ==>
                    !(Some(id) != exceptId && roles[id].client == client && roles[id].code == code)
        decreases |keys|
      {
        var id :| id in keys;
        keys := keys - {id};
        if Some(id) != exceptId && roles[id].client == client && roles[id].code == code { return true; }
      }
      return false;
    }

    method PermissionCodeInUse(client: Id, code: string, exceptId: Option<Id>) returns (taken: bool)
      ensures taken <==> PermissionCodeTaken(View(), client, code, exceptId)
    {
      var keys := permissions.Keys;
      while keys != {}
        invariant keys <= permissions.Keys
        invariant forall id :: id in permissions && id !in keys ==>
                    !(Some(id) != exceptId && permissions[id].client == client && permissions[id].code == code)
        decreases |keys|
      {
        var id :| id in keys;
        keys := keys - {id};
        if Some(id) != exceptId && permissions[id].client == client && permissions[id].code == code { return true; }
      }
      return false;
    }

    method CreateRole(value: Role) returns (res: Result<(), AccessError>)
      modifies `roles
      ensures (View(), res) == AccessStore.CreateRole(old(View()), value)
    {
      var taken := RoleCodeInUse(value.client, value.code, None);
      if taken { return Err(Conflict); }
      roles := roles[value.id := value];
      return Ok(());
    }

    method ReplaceRole(value: Role) returns (res: Result<(), AccessError>)
      modifies `roles
      ensures (View(), res) == AccessStore.ReplaceRole(old(View()), value)
    {
      if value.id !in roles || roles[value.id].client != value.client { return Err(NotFound); }
      var taken := RoleCodeInUse(value.client, value.code, Some(value.id));
      if taken { return Err(Conflict); }
      roles := roles[value.id := value];
      return Ok(());
    }

    method DeleteRole(client: Id, role: Id) returns (res: Result<(), AccessError>)
      modifies `roles, `rolePermissions
      ensures (View(), res) == AccessStore.DeleteRole(old(View()), client, role)
    {
      if role !in roles || roles[role].client != client { return Err(NotFound); }
      for i := 0 to |userRoles|
        invariant View() == old(View())
        invariant forall j :: 0 <= j < i ==> userRoles[j].role != role
      {
        if userRoles[i].role == role { return Err(InUse); }
      }
      roles := roles - {role};
      rolePermissions := rolePermissions - {role};
      return Ok(());
    }

    method CreatePermission(value: Permission) returns (res: Result<(), AccessError>)
      modifies `permissions
      ensures (View(), res) == AccessStore.CreatePermission(old(View()), value)
    {
      var taken := PermissionCodeInUse(value.client, value.code, None);
      if taken { return Err(Conflict); }
      permissions := permissions[value.id := value];
      return Ok(());
    }

    method ReplacePermission(value: Permission) returns (res: Result<(), AccessError>)
      modifies `permissions
      ensures (View(), res) == AccessStore.ReplacePermission(old(View()), value)
    {
      if value.id !in permissions || permissions[value.id].client != value.client { return Err(NotFound); }
      var taken := PermissionCodeInUse(value.client, value.code, Some(value.id));
      if taken { return Err(Conflict); }
      permissions := permissions[value.id := value];
      return Ok(());
    }

    method DeletePermission(client: Id, permission: Id) returns (res: Result<(), AccessError>)
      modifies `permissions
      ensures (View(), res) == AccessStore.DeletePermission(old(View()), client, permission)
    {
      if permission !in permissions || permissions[permission].client != client { return Err(NotFound); }
      var keys := rolePermissions.Keys;
      while keys != {}
        invariant keys <= rolePermissions.Keys && View() == old(View())
        invariant forall r :: r in rolePermissions && r !in keys ==> permission !in rolePermissions[r]
        decreases |keys|
      {
        var r :| r in keys;
        keys := keys - {r};
        if permission in rolePermissions[r] { return Err(InUse); }
      }
      permissions := permissions - {permission};
      return Ok(());
    }

    method SetRolePermissions(client: Id, role: Id, ids: seq<Id>) returns (res: Result<(), AccessError>)
      modifies `rolePermissions
      ensures (View(), res) == AccessStore.SetRolePermissions(old(View()), client, role, ids)
    {
      if role !in roles || roles[role].client != client { return Err(NotFound); }
      var values: set<Id> := {};
      for i := 0 to |ids|
        invariant View() == old(View())
        invariant AllOfClient(View(), client, ids[..i]) && values == set p | p in ids[..i]
      {
        assert ids[..i + 1] == ids[..i] + [ids[i]];
        if ids[i] !in permissions || permissions[ids[i]].client != client { return Err(NotFound); }
        values := values + {ids[i]};
      }
      assert ids[..|ids|] == ids;
      rolePermissions := rolePermissions[role := values];
      return Ok(());
    }

    /** The filter reuses the list's own buffer; InPlace shows that this is safe. */
    method ReplaceUserRoles(user: Id, grants: seq<RoleGrant>, grantedBy: string, now: Time)
      returns (res: Result<(), AccessError>)
      modifies `userRoles
      ensures (View(), res) == AccessStore.ReplaceUserRoles(old(View()), user, grants, grantedBy, now)
    {
      for i := 0 to |grants|
        invariant View() == old(View())
        invariant forall j :: 0 <= j < i ==> grants[j].role in roles
      {
        if grants[i].role !in roles { return Err(NotFound); }
      }
      var buffer := new Assignment[|userRoles|](i requires 0 <= i < |userRoles| reads this => userRoles[i]);
      assert buffer[..] == userRoles;
      var m := FilterInPlace(buffer, NotUser(user));
      var result := buffer[..m];
      ghost var others := result;
      for i := 0 to |grants|
        invariant View() == old(View())
        invariant result == others + NewAssignments(user, grants[..i], grantedBy, now)
      {
        assert grants[..i + 1][..i] == grants[..i];
        result := result + [Assignment(user, grants[i].role, now, grantedBy, grants[i].expiresAt)];
      }
      assert grants[..|grants|] == grants;
      userRoles := result;
      return Ok(());
    }

    method ListUserRoles(user: Id, client: Id, includeExpired: bool, now: Time) returns (result: seq<UserRole>)
      ensures multiset(result) == multiset(Shown(View(), userRoles, user, client, includeExpired, now))
      ensures Ordered(result, RoleOrder())
    {
      hide TotalOrder, Ordered, RoleOrder, Shown;
      result := [];
      ShownNone(View(), user, client, includeExpired, now);
      for i := 0 to |userRoles|
        invariant result == Shown(View(), userRoles[..i], user, client, includeExpired, now)
      {
        assert userRoles[..i + 1] == userRoles[..i] + [userRoles[i]];
        ShownOneMore(View(), userRoles[..i], userRoles[i], user, client, includeExpired, now);
        var value := userRoles[i];
        if value.role !in roles || value.user != user || (client != "" && roles[value.role].client != client) {
          continue;
        }
        if !includeExpired && value.expiresAt.Some? && value.expiresAt.value <= now { continue; }
        result := result + [UserRole(user, roles[value.role], value.grantedAt, value.grantedBy, value.expiresAt)];
      }
      assert userRoles[..|userRoles|] == userRoles;
      RoleOrderIsTotal();
      result := SortBy(result, RoleOrder());
    }

    /**
     The codes of the user's live roles, and the codes their mappings lead to, both sorted and the latter without
     duplicates.
     */
    method Effective(user: Id, client: Id, now: Time) returns (e: Entitlements)
      ensures Scopes.Sorted(e.roles) &&
                multiset(e.roles) == multiset(Codes(Shown(View(), userRoles, user, client, false, now)))
      ensures Scopes.Sorted(e.permissions) && NoDup(e.permissions)
      ensures forall code :: code in e.permissions <==> CollectsCode(View(), user, client, now, code)
    {
      hide CollectsCode, CollectedFrom, MappedCode, Shown, Ordered, Scopes.Sorted, NoDup;
      var assignments := ListUserRoles(user, client, false, now);
      CollectedFromNone(client);
      var roleCodes: seq<string> := [];
      var permissionSet: set<string> := {};
      for i := 0 to |assignments|
        invariant roleCodes == Codes(assignments[..i])
        invariant forall code :: code in permissionSet <==> CollectedFrom(assignments[..i], client, code)
      {
        assert assignments[..i + 1] == assignments[..i] + [assignments[i]];
        roleCodes := roleCodes + [assignments[i].role.code];
        var found := CodesOf(assignments[i].role.id, client);
        CollectedSnoc(assignments[..i], assignments[i], client);
        permissionSet := permissionSet + found;
      }
      assert assignments[..|assignments|] == assignments;
      var codes := ListOf(permissionSet);
      e := Entitlements(Sort(roleCodes), Sort(codes));
      SortIsSorted(roleCodes);
      CodesOfPermutation(assignments, Shown(View(), userRoles, user, client, false, now));
      SortIsCanonical(codes);
      forall code ensures CollectedFrom(assignments, client, code) <==> CollectsCode(View(), user, client, now, code) {
        CollectedIsCollects(assignments, user, client, now, code);
      }
    }

    ghost predicate MappedCode(role: Id, client: Id, code: string)
      reads this
    {
      && role in rolePermissions
      && exists p ::
           && p in rolePermissions[role] && p in permissions
           && permissions[p].client == client && permissions[p].code == code
    }

    ghost predicate CollectedFrom(shown: seq<UserRole>, client: Id, code: string)
      reads this
    {
      exists i :: 0 <= i < |shown| && MappedCode(shown[i].role.id, client, code)
    }

    lemma CollectedSnoc(shown: seq<UserRole>, x: UserRole, client: Id)
      ensures forall code :: CollectedFrom(shown + [x], client, code) <==>
                CollectedFrom(shown, client, code) || MappedCode(x.role.id, client, code)
    {
      var all := shown + [x];
      forall code ensures CollectedFrom(all, client, code) <==>
          CollectedFrom(shown, client, code) || MappedCode(x.role.id, client, code) {
        if CollectedFrom(shown, client, code) {
          var i :| 0 <= i < |shown| && MappedCode(shown[i].role.id, client, code);
          assert all[i] == shown[i];
        }
        assert all[|shown|] == x;
      }
    }

    static predicate ListedIn(a: seq<UserRole>, b: seq<UserRole>) { forall i :: 0 <= i < |a| ==> a[i] in b }

    lemma CollectedFromNone(client: Id)
      ensures forall code :: !CollectedFrom([], client, code)
    {
    }

    /** What Effective collects is what the join of assignments and mappings gives. */
    lemma CollectedIsCollects(shown: seq<UserRole>, user: Id, client: Id, now: Time, code: string)
      requires multiset(shown) == multiset(Shown(View(), userRoles, user, client, false, now))
      ensures CollectedFrom(shown, client, code) <==> CollectsCode(View(), user, client, now, code)
    {
      SameElements(shown, Shown(View(), userRoles, user, client, false, now));
      if CollectedFrom(shown, client, code) { CollectedCollects(shown, user, client, now, code); }
      if CollectsCode(View(), user, client, now, code) { CollectsCollected(shown, user, client, now, code); }
    }

    static lemma ShownFrom(s: Access, as_: seq<Assignment>, user: Id, client: Id, now: Time, u: UserRole)
      returns (k: nat)
      requires u in Shown(s, as_, user, client, false, now)
      ensures k < |as_| && Listed(s, user, client, false, now, as_[k]) && as_[k].role in s.roles &&
                u == AsUserRole(s, as_[k])
    {
      var all := Shown(s, as_, user, client, false, now);
      var j :| 0 <= j < |all| && all[j] == u;
      k :| 0 <= k < |as_| && Listed(s, user, client, false, now, as_[k]) && all[j] == AsUserRole(s, as_[k]);
    }

    lemma CollectedCollects(shown: seq<UserRole>, user: Id, client: Id, now: Time, code: string)
      requires ListedIn(shown, Shown(View(), userRoles, user, client, false, now))
      requires CollectedFrom(shown, client, code)
      ensures CollectsCode(View(), user, client, now, code)
    {
      var s := View();
      var i :| 0 <= i < |shown| && MappedCode(shown[i].role.id, client, code);
      var k := ShownFrom(s, userRoles, user, client, now, shown[i]);
      hide Shown, Listed;
      var p :| p in rolePermissions[shown[i].role.id] && p in permissions && permissions[p].client == client &&
          permissions[p].code == code;
      hide MappedCode, CollectedFrom;
      assert Collects(s, user, client, now, userRoles[k], p);
      assert userRoles[k] in s.assignments;
    }

    lemma CollectsCollected(shown: seq<UserRole>, user: Id, client: Id, now: Time, code: string)
      requires ListedIn(Shown(View(), userRoles, user, client, false, now), shown)
      requires CollectsCode(View(), user, client, now, code)
      ensures CollectedFrom(shown, client, code)
    {
    }

    method CodesOf(role: Id, client: Id) returns (codes: set<string>)
      ensures forall code :: code in codes <==> MappedCode(role, client, code)
    {
      codes := {};
      if role !in rolePermissions { return; }
      var ids := rolePermissions[role];
      while ids != {}
        invariant ids <= rolePermissions[role]
        invariant forall code :: code in codes <==>
                    exists p :: p in rolePermissions[role] && p !in ids && p in permissions &&
                        permissions[p].client == client && permissions[p].code == code
        decreases |ids|
      {
        var p :| p in ids;
        ids := ids - {p};
        if p in permissions && permissions[p].client == client { codes := codes + {permissions[p].code}; }
      }
    }

    static method ListOf(codes: set<string>) returns (list: seq<string>)
      ensures NoDup(list) && forall c :: c in list <==> c in codes
    {
      list := [];
      var rest := codes;
      while rest != {}
        invariant rest <= codes && NoDup(list)
        invariant forall c :: c in list <==> c in codes && c !in rest
        decreases |rest|
      {
        var c :| c in rest;
        rest := rest - {c};
        list := list + [c];
      }
    }
  }
}
