/** Every step of the server keeps its invariants. */
module ProtocolSteps {
  import opened Prelude
  import opened Scopes
  import opened GrantStore
  import opened GrantInvariants
  import opened Sessions
  import opened Protocol
  import opened ProtocolInvariants

  // ---- Issuing ----

  ghost predicate RootUnused(y: System, root: Root) {
    && (forall k :: 0 <= k < |y.accessRoots| ==> y.accessRoots[k] != root)
    && (forall k :: 0 <= k < |y.refreshRoots| ==> y.refreshRoots[k] != root)
  }

  lemma IssueAccessKeeps(y: System, c: Client, user: Id, session: Id, family: Id, scopes: seq<string>, d: Draws,
                         root: Root, now: Time)
    requires Inv(y) && FreshAccess(y.store, d.access)
    requires RootOk(y.store, root, c.id, user, session, scopes)
    requires user != "" ==> Covered(y.store.consents, user, c.id, scopes)
    requires session != "" ==> Standing(y.sessions, user, session)
    requires var t := AccessToken(d.access, c.id, user, session, family, scopes, now, now + c.accessLifetime);
             && (forall i :: 0 <= i < |y.store.refresh| ==> FamilyAccess(AccessRecord(t, None), y.store.refresh[i]))
             && (forall k :: 0 <= k < |y.store.access| ==>
                   SiblingAccess(y.store.access[k].token, y.accessRoots[k], t, root))
             && (forall i :: 0 <= i < |y.store.refresh| ==>
                   SiblingMixed(t, root, y.store.refresh[i].token, y.refreshRoots[i]))
    ensures Inv(IssueAccess(y, c, user, session, family, scopes, d, root, now))
  {
    hide UniqueHashes, ConsentsCanonical, Consented, Families, Bound, Traced;
    var z := IssueAccess(y, c, user, session, family, scopes, d, root, now);
    var t := AccessToken(d.access, c.id, user, session, family, scopes, now, now + c.accessLifetime);
    assert Evolves(y.store, z.store);
    assert Consented(z.store) by { ConsentedEvolves(y.store, z.store); }
    assert Families(z.store) by { SaveAccessKeepsFamilies(y.store, t); }
    assert Bound(z.store, z.sessions) by { BoundEvolves(y.store, z.store, y.sessions, z.sessions); }
    assert UniqueHashes(z.store) by { UniqueAfterAccess(y.store, t); }
    assert Traced(z) by { TracedAfterAccess(y, t, root); }
  }

  lemma IssueRefreshKeeps(y: System, c: Client, user: Id, session: Id, scopes: seq<string>, d: Draws, root: Root,
                          now: Time)
    requires Inv(y) && FreshRefresh(y.store, d.refresh) && d.family != ""
    requires root != NoRoot && RootOk(y.store, root, c.id, user, session, scopes)
    requires Covered(y.store.consents, user, c.id, scopes)
    requires session != "" ==> Standing(y.sessions, user, session)
    requires forall i :: 0 <= i < |y.store.refresh| ==> y.store.refresh[i].token.family != d.family
    requires forall i :: 0 <= i < |y.refreshRoots| ==> y.refreshRoots[i] != root
    requires var t := RefreshToken(d.refresh, d.family, c.id, user, session, scopes, now, now + c.refreshLifetime);
             && (forall k :: 0 <= k < |y.store.access| ==>
                   FamilyAccess(y.store.access[k], RefreshRecord(t, None, None)))
             && (forall k :: 0 <= k < |y.store.access| ==>
                   SiblingMixed(y.store.access[k].token, y.accessRoots[k], t, root))
    ensures Inv(IssueRefresh(y, c, user, session, scopes, d, root, now))
  {
    hide UniqueHashes, ConsentsCanonical, Consented, Families, Bound, Traced;
    var z := IssueRefresh(y, c, user, session, scopes, d, root, now);
    var t := RefreshToken(d.refresh, d.family, c.id, user, session, scopes, now, now + c.refreshLifetime);
    assert Evolves(y.store, z.store);
    assert Consented(z.store) by { ConsentedEvolves(y.store, z.store); }
    assert Families(z.store) by { SaveRefreshKeepsFamilies(y.store, t); }
    assert Bound(z.store, z.sessions) by { BoundEvolves(y.store, z.store, y.sessions, z.sessions); }
    assert UniqueHashes(z.store) by { UniqueAfterRefresh(y.store, t); }
    assert Traced(z) by {
      TracedSizes(y);
      TracedAfterRefresh(y, z.store, t, root);
    }
  }

  ghost predicate FreshDraws(s: Store, d: Draws) {
    FreshAccess(s, d.access) && FreshRefresh(s, d.refresh) && FreshFamily(s, d.family)
  }

  /** A token of a family no refresh token has, with a root no token has, fits beside every other token. */
  lemma NewTokenFits(y: System, t: AccessToken, root: Root)
    requires Inv(y) && RootUnused(y, root)
    requires t.family == "" || FreshFamily(y.store, t.family)
    ensures forall i :: 0 <= i < |y.store.refresh| ==> FamilyAccess(AccessRecord(t, None), y.store.refresh[i])
    ensures |y.accessRoots| == |y.store.access| && |y.refreshRoots| == |y.store.refresh|
    ensures forall k :: 0 <= k < |y.store.access| ==> SiblingAccess(y.store.access[k].token, y.accessRoots[k], t, root)
    ensures forall i :: 0 <= i < |y.store.refresh| ==>
              SiblingMixed(t, root, y.store.refresh[i].token, y.refreshRoots[i])
  {
  }

  lemma IssueUserTokensKeeps(y: System, c: Client, user: Id, session: Id, scopes: seq<string>, d: Draws, root: Root,
                             now: Time)
    requires Inv(y) && FreshDraws(y.store, d)
    requires root != NoRoot && RootUnused(y, root) && RootOk(y.store, root, c.id, user, session, scopes)
    ensures Inv(IssueUserTokens(y, c, user, session, scopes, d, root, now).sys)
  {
    hide UniqueHashes, ConsentsCanonical, Consented, Families, Bound, Traced;
    if GrantValid(y, user, c.id, session, scopes, now) && !((c.refreshGrant && !d.refreshDrawn) || !d.accessDrawn) {
      FindConsentIsCovered(y.store, user, c.id, scopes);
      var family := if c.refreshGrant then d.family else "";
      var t := AccessToken(d.access, c.id, user, session, family, scopes, now, now + c.accessLifetime);
      NewTokenFits(y, t, root);
      IssueAccessKeeps(y, c, user, session, family, scopes, d, root, now);
      var y1 := IssueAccess(y, c, user, session, family, scopes, d, root, now);
      if c.refreshGrant {
        IssueRefreshKeeps(y1, c, user, session, scopes, d, root, now);
        IDTokenKeeps(IssueRefresh(y1, c, user, session, scopes, d, root, now), user, session);
      } else {
        IDTokenKeeps(y1, user, session);
      }
    }
  }

  lemma IDTokenKeeps(y: System, user: Id, session: Id)
    requires Inv(y) && (session != "" ==> Standing(y.sessions, user, session))
    ensures Inv(y.(idTokens := y.idTokens + {IDToken(user, session)}))
  {
  }

  // ---- Authorization endpoint ----

  lemma IssueCodeKeeps(y: System, q: AuthorizationRequest, session: Id, hash: Digest, drawn: bool, now: Time)
    requires Inv(y) && FreshCode(y.store, hash) && session in y.sessions && y.sessions[session].revokedAt.None?
    requires Covered(y.store.consents, y.sessions[session].user, q.client, q.scope)
    ensures Inv(IssueCode(y, q, session, hash, drawn, now).sys)
  {
    if drawn {
      hide UniqueHashes, ConsentsCanonical, Consented, Bound, Traced;
      var z := IssueCode(y, q, session, hash, drawn, now).sys;
      assert Evolves(y.store, z.store);
      assert Consented(z.store) by { ConsentedEvolves(y.store, z.store); }
      assert Bound(z.store, z.sessions) by { BoundEvolves(y.store, z.store, y.sessions, z.sessions); }
      assert Traced(z) by { TracedEvolves(y, z); }
      assert UniqueHashes(z.store) by { UniqueAfterCode(y.store, z.store.codes[|y.store.codes|].code); }
      assert Families(z.store);
    }
  }

  lemma SeenKeeps(y: System, cookie: Digest, now: Time)
    requires Inv(y)
    ensures Inv(Seen(y, cookie, now)) && TableKeeps(y.sessions, Seen(y, cookie, now).sessions)
  {
    TableStep(y, Seen(y, cookie, now).sessions);
  }

  lemma GrantConsentKeeps(y: System, user: Id, client: Id, scopes: seq<string>, now: Time)
    requires Inv(y)
    ensures Inv(y.(store := GrantConsent(y.store, user, client, scopes, now)))
    ensures Covered(GrantConsent(y.store, user, client, scopes, now).consents, user, client, scopes)
  {
    GrantConsentEffect(y.store, user, client, scopes, now);
    ConsentsStep(y, GrantConsent(y.store, user, client, scopes, now).consents);
  }

  lemma AuthorizeKeeps(y: System, cookie: Digest, q: AuthorizationRequest, hash: Digest, drawn: bool, now: Time)
    requires Inv(y) && FreshCode(y.store, hash)
    ensures Inv(AuthorizeStep(y, cookie, q, hash, drawn, now).sys)
  {
    SeenKeeps(y, cookie, now);
    var current := CurrentSession(y, cookie, now);
    if current.Some? {
      var y1 := Seen(y, cookie, now);
      var user := y.sessions[current.value].user;
      FindConsentIsCovered(y1.store, user, q.client, q.scope);
      if !q.promptConsent && HasConsent(y1.store, user, q.client, q.scope) {
        IssueCodeKeeps(y1, q, current.value, hash, drawn, now);
      }
    }
  }

  lemma ConsentKeeps(y: System, cookie: Digest, q: AuthorizationRequest, allow: bool, hash: Digest, drawn: bool,
                     now: Time)
    requires Inv(y) && FreshCode(y.store, hash)
    ensures Inv(ConsentStep(y, cookie, q, allow, hash, drawn, now).sys)
  {
    SeenKeeps(y, cookie, now);
    var current := CurrentSession(y, cookie, now);
    if current.Some? && allow {
      var y1 := Seen(y, cookie, now);
      var user := y.sessions[current.value].user;
      GrantConsentKeeps(y1, user, q.client, q.scope, now);
      GrantConsentEffect(y1.store, user, q.client, q.scope, now);
      IssueCodeKeeps(y1.(store := GrantConsent(y1.store, user, q.client, q.scope, now)), q, current.value, hash, drawn,
                     now);
    }
  }

  // ---- Token endpoint ----

  lemma ExchangeKeeps(y: System, c: Client, hash: Digest, uri: string, challenge: string, d: Draws, now: Time)
    requires Inv(y) && FreshDraws(y.store, d)
    ensures Inv(ExchangeStep(y, c, hash, uri, challenge, d, now).sys)
  {
    var out := ConsumeCode(y.store, hash, c.id, uri, challenge, now);
    var y1 := y.(store := out.store);
    ConsumeCodeEvolves(y.store, hash, c.id, uri, challenge, now);
    assert Families(y1.store);
    MarkStep(y, y1);
    if c.codeGrant && out.res.Ok? {
      var i := CodeIndex(y.store.codes, hash);
      var root := CodeRoot(i);
      assert RootUnused(y1, root) by {
        forall k | 0 <= k < |y.accessRoots| ensures y.accessRoots[k] != root {
          assert AccessRootOk(y.store, y.accessRoots[k], y.store.access[k].token);
        }
        forall k | 0 <= k < |y.refreshRoots| ensures y.refreshRoots[k] != root {
          assert RefreshRootOk(y.store, y.refreshRoots[k], y.store.refresh[k].token);
        }
      }
      var code := out.res.value;
      IssueUserTokensKeeps(y1, c, code.user, code.session, code.scope, d, root, now);
    }
  }

  /** The rotated chain, before the access token is issued. */
  lemma RotatedKeeps(y: System, hash: Digest, next: Replacement, now: Time)
    requires Inv(y) && FreshRefresh(y.store, next.hash)
    requires RotateRefresh(y.store, hash, next, now).res.Ok?
    ensures var i := RefreshIndex(y.store.refresh, hash);
            && i < |y.refreshRoots| == |y.store.refresh|
            && Inv(y.(store := RotateRefresh(y.store, hash, next, now).store,
                      refreshRoots := y.refreshRoots + [y.refreshRoots[i]]))
  {
    hide UniqueHashes, ConsentsCanonical, Consented, Families, Bound;
    var i := RefreshIndex(y.store.refresh, hash);
    var z := y.(store := RotateRefresh(y.store, hash, next, now).store,
                refreshRoots := y.refreshRoots + [y.refreshRoots[i]]);
    var s, t := y.store, z.store;
    var r := s.refresh[i];
    var n := |s.refresh|;
    var new_ := t.refresh[n].token;
    RotateEvolves(s, hash, next, now);
    assert Consented(t) by {
      RefreshFacts(y, i);
      CoveredNarrower(s.consents, r.token.user, r.token.client, r.token.scope, new_.scope);
      ConsentedEvolves(s, t);
    }
    assert Families(t) by { RotateKeepsFamilies(s, hash, next, now); }
    assert UniqueHashes(t) by { UniqueAfterRotate(s, hash, next, now); }
    assert Bound(t, z.sessions) by {
      RefreshFacts(y, i);
      BoundEvolves(s, t, y.sessions, z.sessions);
    }
    assert Traced(z) by {
      forall a | 0 <= a < n ensures SiblingRefresh(s.refresh[a].token, y.refreshRoots[a], new_, y.refreshRoots[i]) {
        if a < i {
          assert SiblingRefresh(s.refresh[a].token, y.refreshRoots[a], r.token, y.refreshRoots[i]);
        } else if a > i {
          assert SiblingRefresh(r.token, y.refreshRoots[i], s.refresh[a].token, y.refreshRoots[a]);
        }
      }
      forall k | 0 <= k < |s.access| ensures SiblingMixed(s.access[k].token, y.accessRoots[k], new_,
                                                          y.refreshRoots[i]) {
        assert SiblingMixed(s.access[k].token, y.accessRoots[k], r.token, y.refreshRoots[i]);
      }
      assert RefreshRootOk(s, y.refreshRoots[i], r.token);
      TracedAfterRefresh(y, t, new_, y.refreshRoots[i]);
    }
  }

  lemma RevokeRefreshTokenKeeps(y: System, hash: Digest, client: Id, now: Time)
    requires Inv(y)
    ensures Inv(y.(store := RevokeRefreshToken(y.store, hash, client, now).store))
  {
    var i := ClientRefreshIndex(y.store.refresh, hash, client);
    if i < |y.store.refresh| {
      RevokeFamilyKeeps(y, y.store.refresh[i].token.family, now);
    }
  }

  lemma RevokeFamilyKeeps(y: System, family: Id, now: Time)
    requires Inv(y)
    ensures Inv(y.(store := RevokeFamily(y.store, family, now)))
  {
    RevokeFamilyEvolves(y.store, family, now);
    RevokeFamilyKeepsFamilies(y.store, family, now);
    MarkStep(y, y.(store := RevokeFamily(y.store, family, now)));
  }

  lemma RefreshKeeps(y: System, c: Client, hash: Digest, words: seq<string>, d: Draws, now: Time)
    requires Inv(y) && FreshAccess(y.store, d.access) && FreshRefresh(y.store, d.refresh)
    ensures Inv(RefreshStep(y, c, hash, words, d, now).sys)
  {
    hide Inv, UniqueHashes, ConsentsCanonical, Consented, Families, Bound, Traced, ParseScopes, ScopesCover,
         RevokeFamily;
    var parsed := ParseScopes(words, c.allowedScopes, false);
    if c.refreshGrant && !(words != [] && parsed.None?) && d.refreshDrawn {
      var asked := if words == [] then None else parsed;
      var next := Replacement(d.refresh, c.id, asked, now, now + c.refreshLifetime);
      var out := RotateRefresh(y.store, hash, next, now);
      var i := RefreshIndex(y.store.refresh, hash);
      hide FinishRefresh;
      if out.res.Ok? {
        RotatedRefreshKeeps(y, c, hash, next, d, now);
      } else if out.res == Err(Reuse) {
        RevokeFamilyKeeps(y, y.store.refresh[i].token.family, now);
      }
    }
  }

  lemma RotatedRefreshKeeps(y: System, c: Client, hash: Digest, next: Replacement, d: Draws, now: Time)
    requires Inv(y) && FreshAccess(y.store, d.access) && FreshRefresh(y.store, d.refresh)
    requires next == Replacement(d.refresh, c.id, next.scope, now, now + c.refreshLifetime)
    requires RotateRefresh(y.store, hash, next, now).res.Ok?
    ensures var out, i := RotateRefresh(y.store, hash, next, now), RefreshIndex(y.store.refresh, hash);
            && i < |y.refreshRoots|
            && var y1 := y.(store := out.store, refreshRoots := y.refreshRoots + [y.refreshRoots[i]]);
               var scopes := if next.scope.None? then out.res.value.scope else next.scope.value;
               Inv(FinishRefresh(y1, c, out.res.value, scopes, d, y.refreshRoots[i], now).sys)
  {
    hide Inv, UniqueHashes, ConsentsCanonical, Consented, Families, Bound, Traced, ScopesCover, RevokeFamily;
    var out, i := RotateRefresh(y.store, hash, next, now), RefreshIndex(y.store.refresh, hash);
    RotatedKeeps(y, hash, next, now);
    var y1 := y.(store := out.store, refreshRoots := y.refreshRoots + [y.refreshRoots[i]]);
    var current := out.res.value;
    var scopes := if next.scope.None? then current.scope else next.scope.value;
    hide FinishRefresh, IssueAccess, RevokeRefreshToken, GrantValid;
    RevokeRefreshTokenKeeps(y1, d.refresh, c.id, now);
    RefreshedAccessKeeps(y, y1, c, i, scopes, d, now);
    FinishRefreshKeeps(y1, c, current, scopes, d, y.refreshRoots[i], now);
  }

  lemma FinishRefreshKeeps(y: System, c: Client, current: RefreshToken, scopes: seq<string>, d: Draws, root: Root,
                           now: Time)
    requires Inv(y.(store := RevokeRefreshToken(y.store, d.refresh, c.id, now).store))
    requires Inv(IssueAccess(y, c, current.user, current.session, current.family, scopes, d, root, now))
    ensures Inv(FinishRefresh(y, c, current, scopes, d, root, now).sys)
  {
  }

  /** The access token issued for a rotated refresh token joins its family. */
  lemma RefreshedAccessKeeps(y: System, y1: System, c: Client, i: nat, scopes: seq<string>, d: Draws, now: Time)
    requires Inv(y1) && FreshAccess(y1.store, d.access)
    requires i < |y.store.refresh| == |y.refreshRoots| == |y1.store.refresh| - 1
    requires y1.refreshRoots == y.refreshRoots + [y.refreshRoots[i]]
    requires var r := y1.store.refresh[|y.store.refresh|];
             r.revokedAt.None? && r.token.client == c.id && r.token.scope == scopes &&
                 SameOwner(r.token, y.store.refresh[i].token)
             && r.token.family == y.store.refresh[i].token.family
    ensures var current := y.store.refresh[i].token;
            Inv(IssueAccess(y1, c, current.user, current.session, current.family, scopes, d, y.refreshRoots[i], now))
  {
    var s := y1.store;
    var n := |y.store.refresh|;
    var r := s.refresh[n];
    var root := y1.refreshRoots[n];
    var t := AccessToken(d.access, c.id, r.token.user, r.token.session, r.token.family, scopes, now,
                         now + c.accessLifetime);
    assert RefreshRootOk(s, root, r.token);
    assert RefreshConsented(s.consents, r) && RefreshBound(y1.sessions, r);
    forall k | 0 <= k < |s.refresh| ensures FamilyAccess(AccessRecord(t, None), s.refresh[k]) {
      if k < n { assert FamilyPair(s.refresh[k], r); }
    }
    forall k | 0 <= k < |s.access| ensures SiblingAccess(s.access[k].token, y1.accessRoots[k], t, root) {
      assert SiblingMixed(s.access[k].token, y1.accessRoots[k], r.token, root);
    }
    forall k | 0 <= k < |s.refresh| ensures SiblingMixed(t, root, s.refresh[k].token, y1.refreshRoots[k]) {
      if k < n {
        assert SiblingRefresh(s.refresh[k].token, y1.refreshRoots[k], r.token, root);
      }
    }
    IssueAccessKeeps(y1, c, r.token.user, r.token.session, r.token.family, scopes, d, root, now);
  }

  lemma ClientCredentialsKeeps(y: System, c: Client, words: seq<string>, d: Draws, now: Time)
    requires Inv(y) && FreshAccess(y.store, d.access)
    ensures Inv(ClientCredentialsStep(y, c, words, d, now).sys)
  {
    var parsed := ParseScopes(if words == [] then WithoutOpenID(c.allowedScopes) else words, c.allowedScopes, false);
    if parsed.Some? {
      forall k | 0 <= k < |y.refreshRoots| ensures y.refreshRoots[k] != NoRoot {
        assert RefreshRootOk(y.store, y.refreshRoots[k], y.store.refresh[k].token);
      }
      IssueAccessKeeps(y, c, "", "", "", parsed.value, d, NoRoot, now);
    }
  }

  lemma RevokeAccessTokenKeeps(y: System, hash: Digest, client: Id, now: Time)
    requires Inv(y)
    ensures Inv(y.(store := RevokeAccessToken(y.store, hash, client, now).store))
  {
    RevokeAccessTokenEvolves(y.store, hash, client, now);
    RevokeAccessTokenKeepsFamilies(y.store, hash, client, now);
    MarkStep(y, y.(store := RevokeAccessToken(y.store, hash, client, now).store));
  }

  lemma RevokeTokenKeeps(y: System, c: Client, hash: Digest, refreshHint: bool, now: Time)
    requires Inv(y)
    ensures Inv(RevokeTokenStep(y, c, hash, refreshHint, now))
  {
    RevokeRefreshTokenKeeps(y, hash, c.id, now);
    RevokeAccessTokenKeeps(y, hash, c.id, now);
  }

  // ---- Device flow ----

  lemma DeviceStartKeeps(y: System, c: Client, words: seq<string>, deviceHash: Digest, userHash: Digest, drawn: bool,
                         now: Time)
    requires Inv(y) && FreshDevice(y.store, deviceHash)
    ensures Inv(DeviceStartStep(y, c, words, deviceHash, userHash, drawn, now).sys)
  {
    hide UniqueHashes, ConsentsCanonical, Consented, Families, Bound, Traced;
    var parsed := ParseScopes(words, c.allowedScopes, false);
    if c.deviceGrant && parsed.Some? && drawn {
      var device := Device(deviceHash, userHash, c.id, "", parsed.value, DevicePending, NO_AUTH,
                           now, now + DEVICE_LIFETIME, DEVICE_INTERVAL, None);
      NewDeviceKeeps(y, device);
    }
  }

  lemma NewDeviceKeeps(y: System, device: Device)
    requires Inv(y) && FreshDevice(y.store, device.deviceHash) && device.status == DevicePending
    ensures Inv(y.(store := SaveDevice(y.store, device)))
  {
    hide UniqueHashes, ConsentsCanonical, Bound, Traced;
    var z := y.(store := SaveDevice(y.store, device));
    assert Evolves(y.store, z.store);
    assert Consented(z.store) by { ConsentedEvolves(y.store, z.store); }
    assert Bound(z.store, z.sessions) by { BoundEvolves(y.store, z.store, y.sessions, z.sessions); }
    assert Traced(z) by { TracedEvolves(y, z); }
    assert UniqueHashes(z.store) by { UniqueAfterDevice(y.store, device); }
    assert Families(z.store);
  }

  lemma DeviceDecisionKeeps(y: System, cookie: Digest, userHash: Digest, approve: bool, now: Time)
    requires Inv(y)
    ensures Inv(DeviceDecisionStep(y, cookie, userHash, approve, now).sys)
  {
    hide UniqueHashes, ConsentsCanonical, Consented, Families, Bound, Traced;
    SeenKeeps(y, cookie, now);
    var current := CurrentSession(y, cookie, now);
    if current.Some? {
      var s := y.sessions[current.value];
      DecideDeviceKeeps(Seen(y, cookie, now), userHash, s.user, s.auth, approve, now);
    }
  }

  lemma DecideDeviceKeeps(y: System, userHash: Digest, user: Id, auth: AuthContext, approve: bool, now: Time)
    requires Inv(y) && user != ""
    ensures Inv(y.(store := DecideDevice(y.store, userHash, user, auth, approve, now).store))
  {
    var i := PendingDeviceIndex(y.store.devices, userHash, now);
    if i < |y.store.devices| {
      var d := y.store.devices[i].(user := user, auth := auth, status := if approve then DeviceApproved
          else DeviceDenied);
      if approve {
        GrantConsentEffect(y.store, user, d.client, d.scope, now);
        GrantConsentKeeps(y, user, d.client, d.scope, now);
        DecidedKeeps(y.(store := GrantConsent(y.store, user, d.client, d.scope, now)), i, d);
      } else {
        DecidedKeeps(y, i, d);
      }
    }
  }

  lemma DecidedKeeps(y: System, i: nat, d: Device)
    requires Inv(y) && i < |y.store.devices| && DeviceEvolves(y.store.devices[i], d) &&
               y.store.devices[i].status == DevicePending
    requires DeviceConsented(y.store.consents, d)
    ensures Inv(y.(store := y.store.(devices := y.store.devices[i := d])))
  {
    hide UniqueHashes, ConsentsCanonical, Bound, Traced;
    var z := y.(store := y.store.(devices := y.store.devices[i := d]));
    assert Evolves(y.store, z.store);
    assert Families(z.store);
    MarkStep(y, z);
  }

  lemma DeviceTokenKeeps(y: System, c: Client, deviceHash: Digest, d: Draws, now: Time)
    requires Inv(y) && FreshDraws(y.store, d)
    ensures Inv(DeviceTokenStep(y, c, deviceHash, d, now).sys)
  {
    hide Inv, RootUnused, FreshDraws;
    var out := PollDevice(y.store, deviceHash, c.id, now);
    PolledKeeps(y, deviceHash, c.id, now);
    if c.deviceGrant && out.res.Ok? {
      var i := DeviceIndex(y.store.devices, deviceHash, c.id);
      ApprovedDevice(y, i);
      DeviceStillUnused(y, i);
      assert FreshDraws(out.store, d) by { SameDraws(y.store, out.store, d); }
      assert RootUnused(y.(store := out.store), DeviceRoot(i)) by { SameRoots(y, out.store, DeviceRoot(i)); }
      IssueUserTokensKeeps(y.(store := out.store), c, out.res.value.user, "", out.res.value.scope, d, DeviceRoot(i),
                           now);
    }
  }

  lemma PolledKeeps(y: System, deviceHash: Digest, client: Id, now: Time)
    requires Inv(y)
    ensures Inv(y.(store := PollDevice(y.store, deviceHash, client, now).store))
  {
    hide UniqueHashes, ConsentsCanonical, Bound, Traced;
    var y1 := y.(store := PollDevice(y.store, deviceHash, client, now).store);
    PollDeviceEvolves(y.store, deviceHash, client, now);
    assert Families(y1.store);
    MarkStep(y, y1);
  }

  lemma ApprovedDevice(y: System, i: nat)
    requires Inv(y) && i < |y.store.devices| && y.store.devices[i].status == DeviceApproved
    ensures y.store.devices[i].user != ""
  {
    hide UniqueHashes, ConsentsCanonical, Families, Bound, Traced;
    assert DeviceConsented(y.store.consents, y.store.devices[i]);
  }

  /** A device that was not consumed is no token's root. */
  lemma DeviceStillUnused(y: System, i: nat)
    requires Inv(y) && i < |y.store.devices| && y.store.devices[i].status != DeviceConsumed
    ensures RootUnused(y, DeviceRoot(i))
  {
    hide UniqueHashes, ConsentsCanonical, Families, Bound, Consented;
    forall k | 0 <= k < |y.accessRoots| ensures y.accessRoots[k] != DeviceRoot(i) {
      assert AccessRootOk(y.store, y.accessRoots[k], y.store.access[k].token);
    }
    forall k | 0 <= k < |y.refreshRoots| ensures y.refreshRoots[k] != DeviceRoot(i) {
      assert RefreshRootOk(y.store, y.refreshRoots[k], y.store.refresh[k].token);
    }
  }

  lemma SameDraws(s: Store, t: Store, d: Draws)
    requires FreshDraws(s, d) && t.access == s.access && t.refresh == s.refresh
    ensures FreshDraws(t, d)
  {
  }

  lemma SameRoots(y: System, t: Store, root: Root)
    requires RootUnused(y, root)
    ensures RootUnused(y.(store := t), root)
  {
  }

  // ---- Sessions, sign-out and administration ----

  lemma LoginKeeps(y: System, id: Id, s: Session)
    requires Inv(y) && id !in y.sessions && id != "" && s.user != ""
    requires forall other :: other in y.sessions ==> y.sessions[other].hash != s.hash
    requires forall h :: h in y.idTokens ==> h.session != id
    ensures Inv(LoginStep(y, id, s))
  {
    var z := LoginStep(y, id, s);
    BoundEvolves(y.store, z.store, y.sessions, z.sessions);
    TracedEvolves(y, z);
  }

  lemma RevokeMatchingKeeps(y: System, m: Matcher, now: Time)
    requires Inv(y)
    ensures Inv(y.(store := RevokeMatching(y.store, m, now)))
    ensures Inv(y.(store := DenyDevices(RevokeMatching(y.store, m, now), m)))
  {
    RevokeMatchingEvolves(y.store, m, now);
    RevokeMatchingKeepsFamilies(y.store, m, now);
    MarkStep(y, y.(store := RevokeMatching(y.store, m, now)));
    MarkStep(y, y.(store := DenyDevices(RevokeMatching(y.store, m, now), m)));
  }

  /** No live grant is bound to the session. */
  ghost predicate SessionCleared(s: Store, user: Id, id: Id) {
    && (forall i :: 0 <= i < |s.codes| && s.codes[i].code.user == user && s.codes[i].code.session == id ==>
          s.codes[i].revokedAt.Some?)
    && (forall i :: 0 <= i < |s.access| && s.access[i].token.user == user && s.access[i].token.session == id ==>
          s.access[i].revokedAt.Some?)
    && (forall i :: 0 <= i < |s.refresh| && s.refresh[i].token.user == user && s.refresh[i].token.session == id ==>
          s.refresh[i].revokedAt.Some?)
  }

  lemma ClearedEvolves(s: Store, t: Store, user: Id, id: Id)
    requires SessionCleared(s, user, id) && Evolves(s, t) && SameSizes(s, t)
    ensures SessionCleared(t, user, id)
  {
  }

  /** Revoking sessions whose grants are cleared keeps the invariants. */
  lemma RevokeSessionsKeeps(y: System, table: Table)
    requires Inv(y) && WellFormed(table)
    requires forall id :: id in y.sessions <==> id in table
    requires forall id :: id in table ==> table[id].user == y.sessions[id].user
    requires forall id :: id in table && table[id].revokedAt.Some? && y.sessions[id].revokedAt.None? ==>
               SessionCleared(y.store, table[id].user, id)
    ensures Inv(y.(sessions := table))
  {
    var z := y.(sessions := table);
    forall i | 0 <= i < |y.store.codes| ensures CodeBound(table, y.store.codes[i]) {
      assert CodeBound(y.sessions, y.store.codes[i]);
    }
    forall i | 0 <= i < |y.store.access| ensures AccessBound(table, y.store.access[i]) {
      assert AccessBound(y.sessions, y.store.access[i]);
    }
    forall i | 0 <= i < |y.store.refresh| ensures RefreshBound(table, y.store.refresh[i]) {
      assert RefreshBound(y.sessions, y.store.refresh[i]);
    }
    TracedEvolves(y, z);
  }

  lemma RevokeSessionTokensClears(s: Store, user: Id, id: Id, now: Time)
    ensures SessionCleared(RevokeSessionTokens(s, user, id, now), user, id)
  {
  }

  lemma {:induction false} CleanUpKeeps(y: System, user: Id, ids: seq<Id>, now: Time)
    requires Inv(y)
    ensures Inv(y.(store := CleanUp(y.store, user, ids, now)))
    ensures forall k :: 0 <= k < |ids| ==> SessionCleared(CleanUp(y.store, user, ids, now), user, ids[k])
  {
    hide Inv, SessionCleared, RevokeMatching;
    if ids != [] {
      var n := |ids| - 1;
      var before := CleanUp(y.store, user, ids[..n], now);
      CleanUpKeeps(y, user, ids[..n], now);
      RevokeMatchingKeeps(y.(store := before), OfSession(user, ids[n]), now);
      RevokeMatchingEvolves(before, OfSession(user, ids[n]), now);
      RevokeSessionTokensClears(before, user, ids[n], now);
      forall k | 0 <= k < |ids| ensures SessionCleared(CleanUp(y.store, user, ids, now), user, ids[k]) {
        if k < n {
          assert ids[k] == ids[..n][k];
          ClearedEvolves(before, CleanUp(y.store, user, ids, now), user, ids[k]);
        }
      }
    }
  }

  lemma SignOutKeeps(y: System, user: Id, session: Id, now: Time)
    requires Inv(y)
    ensures Inv(SignOutStep(y, user, session, now))
  {
    RevokeMatchingKeeps(y, OfSession(user, session), now);
    RevokeSessionTokensClears(y.store, user, session, now);
    if session in y.sessions && y.sessions[session].user == user {
      EndSessionKeeps(y.(store := RevokeSessionTokens(y.store, user, session, now)), user, session, now);
    }
  }

  lemma OidcLogoutKeeps(y: System, hint: IDToken, cookie: Digest, now: Time)
    requires Inv(y)
    ensures Inv(OidcLogoutStep(y, hint, cookie, now).sys)
  {
    hide UniqueHashes, ConsentsCanonical, Consented, Families, Bound, Traced;
    SeenKeeps(y, cookie, now);
    var current := CurrentSession(y, cookie, now);
    var y1 := Seen(y, cookie, now);
    var r := OidcLogoutStep(y, hint, cookie, now);
    if r.res.Ok? {
      var ids := LogoutSessions(hint, current);
      CleanUpKeeps(y1, hint.subject, ids, now);
      var y2 := y1.(store := CleanUp(y1.store, hint.subject, ids, now));
      if hint.session != "" {
        assert ids[0] == hint.session;
        EndSessionKeeps(y2, hint.subject, hint.session, now);
      }
      var y3 := if hint.session == "" then y2 else y2.(sessions := RevokeOne(y2.sessions, hint.session, now));
      if current.Some? && current.value != hint.session {
        assert ids[|ids| - 1] == current.value;
        EndSessionKeeps(y3, hint.subject, current.value, now);
      }
    }
  }

  lemma EndSessionKeeps(y: System, user: Id, id: Id, now: Time)
    requires Inv(y) && (id in y.sessions ==> y.sessions[id].user == user && SessionCleared(y.store, user, id))
    ensures Inv(y.(sessions := RevokeOne(y.sessions, id, now)))
  {
    hide UniqueHashes, ConsentsCanonical, Consented, Families, Bound, Traced;
    RevokeSessionsKeeps(y, RevokeOne(y.sessions, id, now));
  }

  lemma SignOutOthersKeeps(y: System, user: Id, exceptSession: Id, ids: seq<Id>, now: Time)
    requires Inv(y)
    ensures Inv(SignOutOthersStep(y, user, exceptSession, ids, now))
  {
    hide Inv, SessionCleared, CleanUp;
    var m := OfUser(user, exceptSession);
    CleanUpKeeps(y, user, ids, now);
    var y1 := y.(store := CleanUp(y.store, user, ids, now));
    RevokeMatchingKeeps(y1, m, now);
    RevokeMatchingEvolves(y1.store, m, now);
    var y2 := y1.(store := RevokeUserTokens(y1.store, user, exceptSession, now));
    var table := RevokeSet(y.sessions, Others(y.sessions, user, exceptSession, now), now);
    forall id | id in table && table[id].revokedAt.Some? && y.sessions[id].revokedAt.None?
      ensures SessionCleared(y2.store, table[id].user, id)
    {
      RevokeUserTokensClears(y1.store, user, exceptSession, id, now);
    }
    RevokeSetWellFormed(y, Others(y.sessions, user, exceptSession, now), now);
    RevokeSessionsKeeps(y2, table);
  }

  /** The user's other sessions have no live grant left, whichever of them were listed. */
  lemma RevokeUserTokensClears(s: Store, user: Id, exceptSession: Id, id: Id, now: Time)
    requires id != exceptSession
    ensures SessionCleared(RevokeUserTokens(s, user, exceptSession, now), user, id)
  {
  }

  lemma RevokeSetWellFormed(y: System, ids: set<Id>, now: Time)
    requires Inv(y)
    ensures WellFormed(RevokeSet(y.sessions, ids, now))
  {
  }

  lemma RevokeClientKeeps(y: System, client: Id, now: Time)
    requires Inv(y)
    ensures Inv(y.(store := RevokeClientTokens(y.store, client, now)))
  {
    RevokeMatchingKeeps(y, OfClient(client), now);
  }

  lemma DeleteConsentKeeps(y: System, user: Id, client: Id, now: Time)
    requires Inv(y)
    ensures Inv(y.(store := DeleteConsent(y.store, user, client, now).store))
  {
    var z := y.(store := DeleteConsent(y.store, user, client, now).store);
    DeleteConsentEvolves(y.store, user, client, now);
    DeleteConsentKeepsConsented(y.store, user, client, now);
    var i := ConsentIndex(y.store.consents, user, client);
    if i < |y.store.consents| {
      var without := y.store.(consents := y.store.consents[..i] + y.store.consents[i + 1..]);
      assert Families(without);
      RevokeMatchingKeepsFamilies(without, OfConsent(user, client), now);
    }
    UniqueEvolves(y.store, z.store);
    BoundEvolves(y.store, z.store, y.sessions, z.sessions);
    TracedEvolves(y, z);
    assert forall i :: 0 <= i < |y.store.codes| ==> CodeEvolves(y.store.codes[i], z.store.codes[i]);
  }

  lemma UserStatusKeeps(y: System, user: Id, active: bool)
    requires Inv(y)
    ensures Inv(UserStatusStep(y, user, active))
  {
  }
}
