/** The invariants of the authorization server, and that every step keeps them. */
module ProtocolInvariants {
  import opened Prelude
  import opened Scopes
  import opened GrantStore
  import opened GrantInvariants
  import opened Sessions
  import opened Protocol

  // ---- Sessions ----

  predicate CodeBound(t: Table, r: CodeRecord) {
    r.code.session != "" && (r.revokedAt.None? ==> Standing(t, r.code.user, r.code.session))
  }
  predicate AccessBound(t: Table, r: AccessRecord) {
    r.revokedAt.None? && r.token.session != "" ==> Standing(t, r.token.user, r.token.session)
  }
  predicate RefreshBound(t: Table, r: RefreshRecord) {
    r.revokedAt.None? && r.token.session != "" ==> Standing(t, r.token.user, r.token.session)
  }

  /** Every live grant with a session belongs to a standing session of its own user. */
  ghost predicate Bound(s: Store, t: Table) {
    && (forall i :: 0 <= i < |s.codes| ==> CodeBound(t, s.codes[i]))
    && (forall i :: 0 <= i < |s.access| ==> AccessBound(t, s.access[i]))
    && (forall i :: 0 <= i < |s.refresh| ==> RefreshBound(t, s.refresh[i]))
  }

  /** A signed ID token names a session of its own subject. */
  ghost predicate HintsHonest(y: System) {
    forall h :: h in y.idTokens && h.session != "" && h.session in y.sessions ==>
        y.sessions[h.session].user == h.subject
  }

  /** Every authorization code names a user. */
  ghost predicate CodesOwned(s: Store) {
    forall i :: 0 <= i < |s.codes| ==> s.codes[i].code.user != ""
  }

  // ---- Provenance ----

  /** The root is a used-up grant of the same owner whose scope covers the token's. */
  predicate RootOk(s: Store, root: Root, client: Id, user: Id, session: Id, scope: seq<string>) {
    match root
    case NoRoot => user == "" && session == ""
    case CodeRoot(i) =>
      i < |s.codes| && s.codes[i].consumedAt.Some? && user != "" &&
      var c := s.codes[i].code;
      c.client == client && c.user == user && c.session == session && ScopesCover(c.scope, scope)
    case DeviceRoot(i) =>
      i < |s.devices| && s.devices[i].status == DeviceConsumed && user != "" &&
      var d := s.devices[i];
      d.client == client && d.user == user && session == "" && ScopesCover(d.scope, scope)
  }

  predicate AccessRootOk(s: Store, root: Root, t: AccessToken) {
    RootOk(s, root, t.client, t.user, t.session, t.scope)
  }

  predicate RefreshRootOk(s: Store, root: Root, t: RefreshToken) {
    root != NoRoot && RootOk(s, root, t.client, t.user, t.session, t.scope)
  }

  /** Two access tokens of one grant are in one refresh family. */
  predicate SiblingAccess(a: AccessToken, ra: Root, b: AccessToken, rb: Root) {
    ra == rb && ra != NoRoot ==> a.family == b.family && a.family != ""
  }

  predicate SiblingRefresh(a: RefreshToken, ra: Root, b: RefreshToken, rb: Root) {
    a.family == b.family <==> ra == rb
  }

  predicate SiblingMixed(a: AccessToken, ra: Root, b: RefreshToken, rb: Root) {
    a.family == b.family <==> ra == rb
  }

  /** Every user token descends from exactly one used-up grant, and families correspond to grants one to one. */
  ghost predicate Traced(y: System) {
    var s := y.store;
    && |y.accessRoots| == |s.access| && |y.refreshRoots| == |s.refresh|
    && (forall i :: 0 <= i < |s.access| ==> AccessRootOk(s, y.accessRoots[i], s.access[i].token))
    && (forall i :: 0 <= i < |s.refresh| ==> RefreshRootOk(s, y.refreshRoots[i], s.refresh[i].token))
    && (forall i, j :: 0 <= i < j < |s.access| ==>
          SiblingAccess(s.access[i].token, y.accessRoots[i], s.access[j].token, y.accessRoots[j]))
    && (forall i, j :: 0 <= i < j < |s.refresh| ==>
          SiblingRefresh(s.refresh[i].token, y.refreshRoots[i], s.refresh[j].token, y.refreshRoots[j]))
    && (forall k, i :: 0 <= k < |s.access| && 0 <= i < |s.refresh| ==>
          SiblingMixed(s.access[k].token, y.accessRoots[k], s.refresh[i].token, y.refreshRoots[i]))
  }

  ghost predicate Inv(y: System) {
    match y
    case System(store, sessions, _, _, _, _) =>
      && WellFormed(sessions)
      && UniqueHashes(store)
      && ConsentsCanonical(store.consents)
      && Consented(store)
      && Families(store)
      && Bound(store, sessions)
      && HintsHonest(y)
      && Traced(y)
      && CodesOwned(store)
  }

  // ---- Frames ----

  ghost predicate TableEvolves(t: Table, u: Table) {
    forall id :: id in t ==> id in u && u[id].user == t[id].user && (t[id].revokedAt.Some? ==> u[id].revokedAt.Some?)
  }

  /** No session of t loses its standing in u. */
  ghost predicate TableKeeps(t: Table, u: Table) {
    forall id :: id in t ==> id in u && u[id].user == t[id].user && (t[id].revokedAt.None? ==> u[id].revokedAt.None?)
  }

  lemma RootOkEvolves(s: Store, t: Store, root: Root, client: Id, user: Id, session: Id, scope: seq<string>)
    requires Evolves(s, t) && RootOk(s, root, client, user, session, scope)
    ensures RootOk(t, root, client, user, session, scope)
  {
  }

  lemma BoundEvolves(s: Store, t: Store, a: Table, b: Table)
    requires Bound(s, a) && Evolves(s, t) && TableKeeps(a, b)
    requires forall i :: |s.codes| <= i < |t.codes| ==> CodeBound(b, t.codes[i])
    requires forall i :: |s.access| <= i < |t.access| ==> AccessBound(b, t.access[i])
    requires forall i :: |s.refresh| <= i < |t.refresh| ==> RefreshBound(b, t.refresh[i])
    ensures Bound(t, b)
  {
  }

  /** Marking grants keeps the provenance. */
  lemma TracedEvolves(y: System, z: System)
    requires Traced(y) && Evolves(y.store, z.store) && z.accessRoots == y.accessRoots &&
               z.refreshRoots == y.refreshRoots
    requires |z.store.access| == |y.store.access| && |z.store.refresh| == |y.store.refresh|
    ensures Traced(z)
  {
  }

  lemma UniqueEvolves(s: Store, t: Store)
    requires UniqueHashes(s) && Evolves(s, t) && SameSizes(s, t)
    ensures UniqueHashes(t)
  {
  }

  lemma UniqueAfterAccess(s: Store, t: AccessToken)
    requires UniqueHashes(s) && FreshAccess(s, t.hash)
    ensures UniqueHashes(SaveAccess(s, t))
  {
  }

  lemma UniqueAfterRefresh(s: Store, t: RefreshToken)
    requires UniqueHashes(s) && FreshRefresh(s, t.hash)
    ensures UniqueHashes(SaveRefresh(s, t))
  {
  }

  lemma UniqueAfterDevice(s: Store, d: Device)
    requires UniqueHashes(s) && FreshDevice(s, d.deviceHash)
    ensures UniqueHashes(SaveDevice(s, d))
  {
  }

  lemma UniqueAfterCode(s: Store, c: AuthorizationCode)
    requires UniqueHashes(s) && FreshCode(s, c.hash)
    ensures UniqueHashes(SaveCode(s, c))
  {
  }

  lemma TracedSizes(y: System)
    requires Traced(y)
    ensures |y.accessRoots| == |y.store.access| && |y.refreshRoots| == |y.store.refresh|
  {
  }

  lemma TracedAfterAccess(y: System, t: AccessToken, root: Root)
    requires Traced(y) && AccessRootOk(y.store, root, t)
    requires forall k :: 0 <= k < |y.store.access| ==> SiblingAccess(y.store.access[k].token, y.accessRoots[k], t, root)
    requires forall i :: 0 <= i < |y.store.refresh| ==>
               SiblingMixed(t, root, y.store.refresh[i].token, y.refreshRoots[i])
    ensures Traced(y.(store := SaveAccess(y.store, t), accessRoots := y.accessRoots + [root]))
  {
  }

  lemma TracedAfterRefresh(y: System, s: Store, t: RefreshToken, root: Root)
    requires Traced(y) && Evolves(y.store, s) && s.access == y.store.access && RefreshRootOk(s, root, t)
    requires |s.refresh| == |y.store.refresh| + 1 && s.refresh[|y.store.refresh|].token == t
    requires forall i :: 0 <= i < |y.store.refresh| ==>
               SiblingRefresh(y.store.refresh[i].token, y.refreshRoots[i], t, root)
    requires forall k :: 0 <= k < |y.store.access| ==> SiblingMixed(y.store.access[k].token, y.accessRoots[k], t, root)
    ensures Traced(y.(store := s, refreshRoots := y.refreshRoots + [root]))
  {
    var roots := y.refreshRoots + [root];
    var n := |y.store.refresh|;
    forall i | 0 <= i < n ensures s.refresh[i].token == y.store.refresh[i].token {
      assert RefreshEvolves(y.store.refresh[i], s.refresh[i]);
    }
    forall i | 0 <= i < |s.access| ensures AccessRootOk(s, y.accessRoots[i], s.access[i].token) {
      var a := y.store.access[i].token;
      assert AccessRootOk(y.store, y.accessRoots[i], a);
      RootOkEvolves(y.store, s, y.accessRoots[i], a.client, a.user, a.session, a.scope);
    }
    forall i | 0 <= i < |s.refresh| ensures RefreshRootOk(s, roots[i], s.refresh[i].token) {
      if i < n {
        var a := y.store.refresh[i].token;
        assert RefreshRootOk(y.store, y.refreshRoots[i], a);
        RootOkEvolves(y.store, s, y.refreshRoots[i], a.client, a.user, a.session, a.scope);
      }
    }
    forall i, j | 0 <= i < j < |s.refresh| ensures SiblingRefresh(s.refresh[i].token, roots[i], s.refresh[j].token,
                                                                  roots[j]) {
      if j < n {
        assert SiblingRefresh(y.store.refresh[i].token, y.refreshRoots[i], y.store.refresh[j].token, y.refreshRoots[j]);
      }
    }
    forall k, i | 0 <= k < |s.access| && 0 <= i < |s.refresh|
      ensures SiblingMixed(s.access[k].token, y.accessRoots[k], s.refresh[i].token, roots[i])
    {
      if i < n {
        assert SiblingMixed(y.store.access[k].token, y.accessRoots[k], y.store.refresh[i].token, y.refreshRoots[i]);
      }
    }
  }

  /** A step that only marks grants: what remains to check. */
  lemma MarkStep(y: System, z: System)
    requires Inv(y) && Evolves(y.store, z.store) && SameSizes(y.store, z.store)
    requires z == y.(store := z.store)
    requires ConsentsGrow(y.store.consents, z.store.consents) && ConsentsCanonical(z.store.consents)
    requires forall i :: 0 <= i < |y.store.devices| && y.store.devices[i].status == DevicePending ==>
               DeviceConsented(z.store.consents, z.store.devices[i])
    requires Families(z.store)
    ensures Inv(z)
  {
    UniqueEvolves(y.store, z.store);
    ConsentedEvolves(y.store, z.store);
    BoundEvolves(y.store, z.store, y.sessions, z.sessions);
    TracedEvolves(y, z);
    assert forall i :: 0 <= i < |y.store.codes| ==> CodeEvolves(y.store.codes[i], z.store.codes[i]);
  }

  /** Widening the consents changes nothing else. */
  lemma ConsentsStep(y: System, consents: seq<Consent>)
    requires Inv(y) && ConsentsGrow(y.store.consents, consents) && ConsentsCanonical(consents)
    ensures Inv(y.(store := y.store.(consents := consents)))
  {
    hide UniqueHashes, ConsentsCanonical, Consented, Bound, Traced;
    var z := y.(store := y.store.(consents := consents));
    assert Evolves(y.store, z.store);
    assert Families(z.store);
    MarkStep(y, z);
  }

  /** Changing session rows without ending any session. */
  lemma TableStep(y: System, table: Table)
    requires Inv(y) && WellFormed(table) && TableKeeps(y.sessions, table)
    requires forall h :: h in y.idTokens && h.session != "" && h.session in table ==> table[h.session].user == h.subject
    ensures Inv(y.(sessions := table))
  {
  }

  /** What the invariants say of one refresh token. */
  lemma RefreshFacts(y: System, i: nat)
    requires Inv(y) && i < |y.store.refresh|
    ensures |y.refreshRoots| == |y.store.refresh|
    ensures var r := y.store.refresh[i];
            && RefreshConsented(y.store.consents, r) && RefreshBound(y.sessions, r)
            && RefreshRootOk(y.store, y.refreshRoots[i], r.token)
  {
  }

  lemma UniqueAfterRotate(s: Store, hash: Digest, next: Replacement, now: Time)
    requires UniqueHashes(s) && FreshRefresh(s, next.hash)
    requires RotateRefresh(s, hash, next, now).res.Ok?
    ensures UniqueHashes(RotateRefresh(s, hash, next, now).store)
  {
  }
}
