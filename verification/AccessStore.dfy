/** Roles, permissions and assignments as values, and what each repository operation returns and leaves behind. */
module AccessStore {
  import opened Prelude
  import opened InPlace
  import opened Scopes
  import opened Sorting

  datatype Role = Role(id: Id, client: Id, code: string, name: string, description: string)

  datatype Permission = Permission(id: Id, client: Id, code: string, name: string, description: string)

  datatype Assignment = Assignment(user: Id, role: Id, grantedAt: Time, grantedBy: string, expiresAt: Option<Time>)

  datatype RoleGrant = RoleGrant(role: Id, expiresAt: Option<Time>)

  datatype UserRole = UserRole(user: Id, role: Role, grantedAt: Time, grantedBy: string, expiresAt: Option<Time>)

  datatype Entitlements = Entitlements(roles: seq<string>, permissions: seq<string>)

  datatype Access = Access(
    roles: map<Id, Role>, permissions: map<Id, Permission>, mappings: map<Id, set<Id>>, assignments: seq<Assignment>)

  const NO_ACCESS: Access := Access(map[], map[], map[], [])

  datatype AccessError = NotFound | Conflict | InUse

  // ---- Operations as values ----

  predicate RoleCodeTaken(s: Access, client: Id, code: string, exceptId: Option<Id>) {
    exists id :: id in s.roles && Some(id) != exceptId && s.roles[id].client == client && s.roles[id].code == code
  }

  predicate PermissionCodeTaken(s: Access, client: Id, code: string, exceptId: Option<Id>) {
    exists id :: id in s.permissions && Some(id) != exceptId && s.permissions[id].client == client &&
        s.permissions[id].code == code
  }

  function CreateRole(s: Access, r: Role): (Access, Result<(), AccessError>) {
    if RoleCodeTaken(s, r.client, r.code, None) then (s, Err(Conflict)) else (s.(roles := s.roles[r.id := r]), Ok(()))
  }

  function ReplaceRole(s: Access, r: Role): (Access, Result<(), AccessError>) {
    if r.id !in s.roles || s.roles[r.id].client != r.client then (s, Err(NotFound))
    else if RoleCodeTaken(s, r.client, r.code, Some(r.id)) then (s, Err(Conflict))
    else (s.(roles := s.roles[r.id := r]), Ok(()))
  }

  predicate RoleAssigned(s: Access, role: Id) { exists i :: 0 <= i < |s.assignments| && s.assignments[i].role == role }

  function DeleteRole(s: Access, client: Id, role: Id): (Access, Result<(), AccessError>) {
    if role !in s.roles || s.roles[role].client != client then (s, Err(NotFound))
    else if RoleAssigned(s, role) then (s, Err(InUse))
    else (s.(roles := s.roles - {role}, mappings := s.mappings - {role}), Ok(()))
  }

  function CreatePermission(s: Access, p: Permission): (Access, Result<(), AccessError>) {
    if PermissionCodeTaken(s, p.client, p.code, None) then (s, Err(Conflict))
    else (s.(permissions := s.permissions[p.id := p]), Ok(()))
  }

  function ReplacePermission(s: Access, p: Permission): (Access, Result<(), AccessError>) {
    if p.id !in s.permissions || s.permissions[p.id].client != p.client then (s, Err(NotFound))
    else if PermissionCodeTaken(s, p.client, p.code, Some(p.id)) then (s, Err(Conflict))
    else (s.(permissions := s.permissions[p.id := p]), Ok(()))
  }

  predicate PermissionMapped(s: Access, permission: Id) { exists r :: r in s.mappings && permission in s.mappings[r] }

  function DeletePermission(s: Access, client: Id, permission: Id): (Access, Result<(), AccessError>) {
    if permission !in s.permissions || s.permissions[permission].client != client then (s, Err(NotFound))
    else if PermissionMapped(s, permission) then (s, Err(InUse))
    else (s.(permissions := s.permissions - {permission}), Ok(()))
  }

  predicate AllOfClient(s: Access, client: Id, permissions: seq<Id>) {
    forall i :: 0 <= i < |permissions| ==>
        permissions[i] in s.permissions && s.permissions[permissions[i]].client == client
  }

  function SetRolePermissions(s: Access, client: Id, role: Id, permissions: seq<Id>): (Access,
      Result<(), AccessError>) {
    if role !in s.roles || s.roles[role].client != client ||
        !AllOfClient(s, client, permissions) then (s, Err(NotFound))
    else (s.(mappings := s.mappings[role := set p | p in permissions]), Ok(()))
  }

  function NotUser(user: Id): Assignment -> bool { (a: Assignment) => a.user != user }

  function Granted(user: Id, g: RoleGrant, grantedBy: string, now: Time): Assignment {
    Assignment(user, g.role, now, grantedBy, g.expiresAt)
  }

  function NewAssignments(user: Id, grants: seq<RoleGrant>, grantedBy: string, now: Time): (r: seq<Assignment>)
    ensures |r| == |grants| && forall i :: 0 <= i < |r| ==> r[i] == Granted(user, grants[i], grantedBy, now)
  {
    if grants == [] then []
    else
      var n := |grants| - 1;
      NewAssignments(user, grants[..n], grantedBy, now) + [Granted(user, grants[n], grantedBy, now)]
  }

  function ReplaceUserRoles(s: Access, user: Id, grants: seq<RoleGrant>, grantedBy: string, now: Time): (Access,
      Result<(), AccessError>) {
    if exists i :: 0 <= i < |grants| && grants[i].role !in s.roles then (s, Err(NotFound))
    else
      (s.(assignments := Filter(s.assignments, NotUser(user))
                         + NewAssignments(user, grants, grantedBy, now)), Ok(()))
  }

  predicate Listed(s: Access, user: Id, client: Id, includeExpired: bool, now: Time, a: Assignment) {
    && a.role in s.roles && a.user == user && (client == "" || s.roles[a.role].client == client)
    && (includeExpired || a.expiresAt.None? || now < a.expiresAt.value)
  }

  function AsUserRole(s: Access, a: Assignment): UserRole
    requires a.role in s.roles
  {
    UserRole(a.user, s.roles[a.role], a.grantedAt, a.grantedBy, a.expiresAt)
  }

  /** The assignments a listing shows, in the order they were made. */
  function Shown(s: Access, as_: seq<Assignment>, user: Id, client: Id, includeExpired: bool,
                 now: Time): (r: seq<UserRole>)
    ensures forall i :: 0 <= i < |r| ==>
              exists k ::
                0 <= k < |as_| && Listed(s, user, client, includeExpired, now, as_[k]) && r[i] == AsUserRole(s, as_[k])
    ensures forall k :: 0 <= k < |as_| && Listed(s, user, client, includeExpired, now, as_[k]) ==>
              AsUserRole(s, as_[k]) in r
  {
    if as_ == [] then []
    else
      var n := |as_| - 1;
      Shown(s, as_[..n], user, client, includeExpired, now)
      + if Listed(s, user, client, includeExpired, now, as_[n]) then [AsUserRole(s, as_[n])] else []
  }

  lemma ShownNone(s: Access, user: Id, client: Id, includeExpired: bool, now: Time)
    ensures Shown(s, [], user, client, includeExpired, now) == []
  {
  }

  lemma ShownOneMore(s: Access, before: seq<Assignment>, a: Assignment, user: Id, client: Id, includeExpired: bool,
                     now: Time)
    ensures Shown(s, before + [a], user, client, includeExpired, now)
            == Shown(s, before, user, client, includeExpired, now)
               + if Listed(s, user, client, includeExpired, now, a) then [AsUserRole(s, a)] else []
  {
    assert (before + [a])[..|before|] == before;
  }

  /** By client, then by code. */
  function RoleOrder(): (UserRole, UserRole) -> bool {
    (a: UserRole, b: UserRole) =>
      if a.role.client == b.role.client then StrLe(a.role.code, b.role.code) else StrLe(a.role.client, b.role.client)
  }

  lemma RoleOrderIsTotal()
    ensures TotalOrder(RoleOrder())
  {
    var le := RoleOrder();
    forall a, b ensures le(a, b) || le(b, a) {
      StrLeTotal(a.role.code, b.role.code);
      StrLeTotal(a.role.client, b.role.client);
    }
    forall a, b, c | le(a, b) && le(b, c) ensures le(a, c) {
      if a.role.client == c.role.client {
        if a.role.client == b.role.client {
          StrLeTransitive(a.role.code, b.role.code, c.role.code);
        } else {
          StrLeAntisymmetric(a.role.client, b.role.client);
        }
      } else if a.role.client != b.role.client && b.role.client != c.role.client {
        StrLeTransitive(a.role.client, b.role.client, c.role.client);
      }
    }
  }

  /** The permission codes the loops of Effective collect, with every check they make. */
  predicate Collects(s: Access, user: Id, client: Id, now: Time, a: Assignment, p: Id) {
    && Listed(s, user, client, false, now, a)
    && s.roles[a.role].id in s.mappings && p in s.mappings[s.roles[a.role].id]
    && p in s.permissions && s.permissions[p].client == client
  }

  predicate CollectsCode(s: Access, user: Id, client: Id, now: Time, code: string) {
    exists a, p :: a in s.assignments && p in s.permissions && Collects(s, user, client, now, a, p) &&
        s.permissions[p].code == code
  }

  function Codes(shown: seq<UserRole>): seq<string> {
    seq(|shown|, i requires 0 <= i < |shown| => shown[i].role.code)
  }

  lemma CodesConcat(a: seq<UserRole>, b: seq<UserRole>)
    ensures Codes(a + b) == Codes(a) + Codes(b)
  {
  }

  lemma TakenOut(x: UserRole, rest: seq<UserRole>, front: seq<UserRole>, back: seq<UserRole>)
    requires multiset([x] + rest) == multiset(front + ([x] + back))
    ensures multiset(rest) == multiset(front + back)
  {
    assert multiset([x] + rest) == multiset{x} + multiset(rest);
    assert multiset(front + ([x] + back)) == multiset(front) + (multiset{x} + multiset(back));
    assert multiset(rest) == multiset([x] + rest) - multiset{x};
    assert multiset(front + back) == multiset(front + ([x] + back)) - multiset{x};
  }

  lemma {:induction false} CodesOfPermutation(a: seq<UserRole>, b: seq<UserRole>)
    requires multiset(a) == multiset(b)
    ensures multiset(Codes(a)) == multiset(Codes(b))
  {
    SameElements(a, b);
    if a != [] {
      var x := a[0];
      var j :| 0 <= j < |b| && b[j] == x;
      var front, back := b[..j], b[j + 1..];
      assert a == [x] + a[1..] && b == front + ([x] + back);
      TakenOut(x, a[1..], front, back);
      CodesOfPermutation(a[1..], front + back);
      CodesConcat([x], a[1..]);
      CodesConcat(front, [x] + back);
      CodesConcat([x], back);
      CodesConcat(front, back);
    }
  }
}
