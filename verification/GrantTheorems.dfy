/** What the invariants mean for the endpoints, over every run. */
module GrantTheorems {
  import opened Prelude
  import opened Scopes
  import opened GrantStore
  import opened GrantInvariants
  import opened Sessions
  import opened Protocol
  import opened ProtocolInvariants
  import opened Runs

  // ---- Consent and session rechecks ----

  /** What a recheck still has to test for a live grant: the user's status and the session's expiry. */
  predicate StillWelcome(y: System, user: Id, session: Id, now: Time) {
    user in y.activeUsers && (session != "" ==> session in y.sessions && now < y.sessions[session].expiresAt)
  }

  /** The consent and revocation parts of the recheck never fail on a live access token of a user. */
  lemma LiveAccessTokenRecheck(es: seq<Event>, i: nat, now: Time)
    requires LegalRun(INIT, es)
    requires i < |Run(INIT, es).store.access|
    requires var r := Run(INIT, es).store.access[i]; r.revokedAt.None? && r.token.user != ""
    ensures var y := Run(INIT, es); var t := y.store.access[i].token;
            GrantValid(y, t.user, t.client, t.session, t.scope, now) <==> StillWelcome(y, t.user, t.session, now)
  {
    var y := Run(INIT, es);
    var r := y.store.access[i];
    ReachableInv(es);
    hide Run, UniqueHashes, Families, Traced;
    assert AccessConsented(y.store.consents, r) && AccessBound(y.sessions, r);
    FindConsentIsCovered(y.store, r.token.user, r.token.client, r.token.scope);
  }

  /** The same for a live refresh token and any scope a refresh may ask of it. */
  lemma LiveRefreshTokenRecheck(es: seq<Event>, i: nat, scopes: seq<string>, now: Time)
    requires LegalRun(INIT, es)
    requires i < |Run(INIT, es).store.refresh|
    requires var r := Run(INIT, es).store.refresh[i]; r.revokedAt.None? && ScopesCover(r.token.scope, scopes)
    ensures var y := Run(INIT, es); var t := y.store.refresh[i].token;
            GrantValid(y, t.user, t.client, t.session, scopes, now) <==> StillWelcome(y, t.user, t.session, now)
  {
    ReachableInv(es);
    RefreshRecheck(Run(INIT, es), i, scopes, now);
  }

  lemma RefreshRecheck(y: System, i: nat, scopes: seq<string>, now: Time)
    requires Inv(y) && i < |y.store.refresh| && y.store.refresh[i].revokedAt.None?
    requires ScopesCover(y.store.refresh[i].token.scope, scopes)
    ensures var t := y.store.refresh[i].token;
            GrantValid(y, t.user, t.client, t.session, scopes, now) <==> StillWelcome(y, t.user, t.session, now)
  {
  }

  /** Once a session is revoked, no grant bound to it is live in any later state of any run. */
  lemma RevokedSessionStaysDead(y: System, es: seq<Event>, id: Id)
    requires Inv(y) && LegalRun(y, es)
    requires id in y.sessions && y.sessions[id].revokedAt.Some?
    ensures var z := Run(y, es).store;
            && (forall i :: 0 <= i < |z.codes| && z.codes[i].code.session == id ==> z.codes[i].revokedAt.Some?)
            && (forall i :: 0 <= i < |z.access| && z.access[i].token.session == id ==> z.access[i].revokedAt.Some?)
            && (forall i :: 0 <= i < |z.refresh| && z.refresh[i].token.session == id ==> z.refresh[i].revokedAt.Some?)
  {
    assert id != "";
    RunKeepsInv(y, es);
    RunEvolves(y, es);
    hide Run, UniqueHashes, Families, Traced, Consented, Evolves;
    var z := Run(y, es);
    assert forall i :: 0 <= i < |z.store.codes| ==> CodeBound(z.sessions, z.store.codes[i]);
    assert forall i :: 0 <= i < |z.store.access| ==> AccessBound(z.sessions, z.store.access[i]);
    assert forall i :: 0 <= i < |z.store.refresh| ==> RefreshBound(z.sessions, z.store.refresh[i]);
  }

  predicate ApprovedFor(d: Device, user: Id, client: Id) {
    d.status == DeviceApproved && d.user == user && d.client == client
  }

  /** All that the user gave the client in s is still there in z, and dead; approved devices are denied. */
  ghost predicate AllDead(s: Store, z: Store, user: Id, client: Id) {
    && (forall i :: 0 <= i < |s.codes| && s.codes[i].code.user == user && s.codes[i].code.client == client ==>
          i < |z.codes| && z.codes[i].code == s.codes[i].code && z.codes[i].revokedAt.Some?)
    && (forall i :: 0 <= i < |s.access| && s.access[i].token.user == user && s.access[i].token.client == client ==>
          i < |z.access| && z.access[i].token == s.access[i].token && z.access[i].revokedAt.Some?)
    && (forall i :: 0 <= i < |s.refresh| && s.refresh[i].token.user == user && s.refresh[i].token.client == client ==>
          i < |z.refresh| && z.refresh[i].token == s.refresh[i].token && z.refresh[i].revokedAt.Some?)
    && (forall i :: 0 <= i < |s.devices| && ApprovedFor(s.devices[i], user, client) ==>
          i < |z.devices| && z.devices[i].deviceHash == s.devices[i].deviceHash && z.devices[i].status == DeviceDenied)
  }

  /** Withdrawing a consent ends every grant the user ever gave the client, for good, approved devices included. */
  lemma WithdrawnConsentKillsGrants(y: System, user: Id, client: Id, now: Time, es: seq<Event>)
    requires Inv(y) && DeleteConsent(y.store, user, client, now).res.Ok?
    requires LegalRun(Next(y, WithdrawConsent(user, client, now)), es)
    ensures AllDead(y.store, Run(Next(y, WithdrawConsent(user, client, now)), es).store, user, client)
  {
    var y1 := Next(y, WithdrawConsent(user, client, now));
    hide Run, DeleteConsent, Inv, AllDead, Evolves;
    RunEvolves(y1, es);
    DeleteConsentKills(y.store, user, client, now);
    DeadStaysDead(y.store, y1.store, Run(y1, es).store, user, client);
  }

  lemma DeleteConsentKills(s: Store, user: Id, client: Id, now: Time)
    requires DeleteConsent(s, user, client, now).res.Ok?
    ensures AllDead(s, DeleteConsent(s, user, client, now).store, user, client)
  {
  }

  lemma DeadStaysDead(s: Store, t: Store, z: Store, user: Id, client: Id)
    requires AllDead(s, t, user, client) && Evolves(t, z)
    ensures AllDead(s, z, user, client)
  {
  }

  // ---- Refresh families ----

  predicate Usable(r: RefreshRecord) { r.consumedAt.None? && r.revokedAt.None? }

  /** In every reachable state only a family's newest member is unconsumed, and its members live and die together. */
  lemma FamilyIsAChain(es: seq<Event>, i: nat, j: nat)
    requires LegalRun(INIT, es)
    requires var refresh := Run(INIT, es).store.refresh;
             i < |refresh| && j < |refresh| && refresh[i].token.family == refresh[j].token.family
    ensures var refresh := Run(INIT, es).store.refresh;
            && (Usable(refresh[i]) && Usable(refresh[j]) ==> i == j)
            && (refresh[i].consumedAt.Some? <==> HasSuccessor(refresh, i))
            && (refresh[i].revokedAt.Some? <==> refresh[j].revokedAt.Some?)
            && SameOwner(refresh[i].token, refresh[j].token)
            && (i <= j ==> ScopesCover(refresh[i].token.scope, refresh[j].token.scope))
  {
    ReachableInv(es);
    hide Run;
  }

  /** Every refresh and access token of the family is revoked. */
  ghost predicate FamilyDead(s: Store, family: Id) {
    && (forall i :: 0 <= i < |s.refresh| && s.refresh[i].token.family == family ==> s.refresh[i].revokedAt.Some?)
    && (forall i :: 0 <= i < |s.access| && s.access[i].token.family == family ==> s.access[i].revokedAt.Some?)
  }

  /** A family with one revoked refresh token is dead. */
  lemma RevokedFamilyIsDead(y: System, i: nat)
    requires Inv(y) && i < |y.store.refresh| && y.store.refresh[i].revokedAt.Some?
    ensures FamilyDead(y.store, y.store.refresh[i].token.family)
  {
  }

  /** It stays dead in every run: no later rotation or issuance revives it. */
  lemma DeadFamilyStaysDead(y: System, es: seq<Event>, i: nat)
    requires Inv(y) && LegalRun(y, es)
    requires i < |y.store.refresh| && y.store.refresh[i].revokedAt.Some?
    ensures FamilyDead(Run(y, es).store, y.store.refresh[i].token.family)
  {
    RunKeepsInv(y, es);
    RunEvolves(y, es);
    hide Run, Inv, FamilyDead;
    assert RefreshEvolves(y.store.refresh[i], Run(y, es).store.refresh[i]);
    RevokedFamilyIsDead(Run(y, es), i);
  }

  /** Reuse detection is final: after a spent token is presented, nothing of its family is ever live again. */
  lemma ReuseIsFinal(y: System, c: Client, hash: Digest, words: seq<string>, d: Draws, now: Time, es: seq<Event>)
    requires Inv(y) && Legal(y, Refresh(c, hash, words, d, now)) &&
               LegalRun(Next(y, Refresh(c, hash, words, d, now)), es)
    requires Presented(y, c, hash, words, d) && Spent(y.store.refresh[RefreshIndex(y.store.refresh, hash)])
    ensures FamilyDead(Run(Next(y, Refresh(c, hash, words, d, now)), es).store,
                       y.store.refresh[RefreshIndex(y.store.refresh, hash)].token.family)
  {
    var e := Refresh(c, hash, words, d, now);
    var i := RefreshIndex(y.store.refresh, hash);
    StepKeepsInv(y, e);
    StepEvolves(y, e);
    ReuseKillsFamily(y, c, hash, words, d, now);
    var z := Next(y, e);
    assert z == RefreshStep(y, c, hash, words, d, now).sys;
    hide Inv, Run, RefreshStep, Next;
    assert RefreshEvolves(y.store.refresh[i], z.store.refresh[i]);
    DeadFamilyStaysDead(z, es, i);
  }

  /**
   Revoking a refresh token at the revocation endpoint ends its family for good, with the hint or, unless it is also
   an access token, without.
   */
  lemma RevocationEndsFamily(y: System, c: Client, hash: Digest, hint: bool, now: Time, es: seq<Event>, i: nat)
    requires Inv(y) && LegalRun(Next(y, RevokeToken(c, hash, hint, now)), es)
    requires var refresh := y.store.refresh;
             i < |refresh| && refresh[i].token.hash == hash && refresh[i].token.client == c.id
    requires hint || forall k :: 0 <= k < |y.store.access| ==>
               !(y.store.access[k].token.hash == hash && y.store.access[k].token.client == c.id)
    ensures FamilyDead(Run(Next(y, RevokeToken(c, hash, hint, now)), es).store, y.store.refresh[i].token.family)
  {
    var e := RevokeToken(c, hash, hint, now);
    RevocationReachesFamily(y, c, hash, hint, now, i);
    hide Inv, Run, LegalRun, FamilyDead, RevokeFamily, RevokeTokenStep;
    StepKeepsInv(y, e);
    var z := Next(y, e);
    assert z.store == RevokeFamily(y.store, y.store.refresh[i].token.family, now);
    FamilyRevoked(y.store, i, now);
    hide Next;
    DeadFamilyStaysDead(z, es, i);
  }

  lemma RevocationReachesFamily(y: System, c: Client, hash: Digest, hint: bool, now: Time, i: nat)
    requires var refresh := y.store.refresh;
             Inv(y) && i < |refresh| && refresh[i].token.hash == hash && refresh[i].token.client == c.id
    requires hint || forall k :: 0 <= k < |y.store.access| ==>
               !(y.store.access[k].token.hash == hash && y.store.access[k].token.client == c.id)
    ensures RevokeTokenStep(y, c, hash, hint, now).store == RevokeFamily(y.store, y.store.refresh[i].token.family, now)
  {
    ClientRefreshIndexIs(y, hash, c.id, i);
    hide Inv, RevokeFamily;
  }

  lemma ClientRefreshIndexIs(y: System, hash: Digest, client: Id, i: nat)
    requires Inv(y) && i < |y.store.refresh|
    requires y.store.refresh[i].token.hash == hash && y.store.refresh[i].token.client == client
    ensures ClientRefreshIndex(y.store.refresh, hash, client) == i
  {
  }

  lemma FamilyRevoked(s: Store, i: nat, now: Time)
    requires i < |s.refresh|
    ensures var t := RevokeFamily(s, s.refresh[i].token.family, now);
            i < |t.refresh| && t.refresh[i].token == s.refresh[i].token && t.refresh[i].revokedAt.Some?
  {
  }

  // ---- The refresh endpoint ----

  /** Nothing outside the family changes. */
  ghost predicate OnlyFamily(s: Store, t: Store, family: Id) {
    && t.codes == s.codes && t.devices == s.devices && t.consents == s.consents
    && |s.access| <= |t.access| && |s.refresh| <= |t.refresh|
    && (forall i :: 0 <= i < |s.access| && s.access[i].token.family != family ==> t.access[i] == s.access[i])
    && (forall i :: 0 <= i < |s.refresh| && s.refresh[i].token.family != family ==> t.refresh[i] == s.refresh[i])
    && (forall i :: |s.refresh| <= i < |t.refresh| ==> t.refresh[i].token.family == family)
  }

  /** The family is dead and no access token was issued. */
  ghost predicate Killed(s: Store, t: Store, family: Id) {
    OnlyFamily(s, t, family) && FamilyDead(t, family) && |t.access| == |s.access|
  }

  /**
   One member consumed, one refresh and one access token added to its family with the client's lifetimes, everything
   else as it was.
   */
  ghost predicate Extended(s: Store, t: Store, i: nat, c: Client, d: Draws, scopes: seq<string>, now: Time)
    requires i < |s.refresh|
  {
    var r := s.refresh[i].token;
    && t.codes == s.codes && t.devices == s.devices && t.consents == s.consents
    && |t.refresh| == |s.refresh| + 1 && |t.access| == |s.access| + 1
    && (forall k :: 0 <= k < |s.refresh| && k != i ==> t.refresh[k] == s.refresh[k])
    && t.refresh[i].token == r && t.refresh[i].consumedAt == Some(now) && t.refresh[i].revokedAt.None?
    && (forall k :: 0 <= k < |s.access| ==> t.access[k] == s.access[k])
    && (var n := t.refresh[|s.refresh|];
        Usable(n) && n.token.hash == d.refresh && n.token.family == r.family && SameOwner(n.token, r) &&
            n.token.scope == scopes && n.token.issuedAt == now && n.token.expiresAt == now + c.refreshLifetime)
    && (var a := t.access[|s.access|];
        a.revokedAt.None? && a.token.hash == d.access && a.token.family == r.family && a.token.scope == scopes
        && a.token.user == r.user && a.token.client == r.client && a.token.session == r.session
        && a.token.issuedAt == now && a.token.expiresAt == now + c.accessLifetime)
  }

  /** The client may refresh, its scope parameter parses, and the presented token is one of its own. */
  predicate Presented(y: System, c: Client, hash: Digest, words: seq<string>, d: Draws) {
    var i := RefreshIndex(y.store.refresh, hash);
    && c.refreshGrant && d.refreshDrawn
    && (words != [] ==> ParseScopes(words, c.allowedScopes, false).Some?)
    && i < |y.store.refresh| && y.store.refresh[i].token.client == c.id
  }

  predicate Spent(r: RefreshRecord) { r.consumedAt.Some? || r.revokedAt.Some? }

  /** The scope a refresh asks for: the current one when it names none. */
  function Wanted(y: System, c: Client, hash: Digest, words: seq<string>, d: Draws): seq<string>
    requires Presented(y, c, hash, words, d)
  {
    if words == [] then y.store.refresh[RefreshIndex(y.store.refresh, hash)].token.scope
    else ParseScopes(words, c.allowedScopes, false).value
  }

  predicate Rotatable(y: System, c: Client, hash: Digest, words: seq<string>, d: Draws, now: Time) {
    Presented(y, c, hash, words, d) &&
    var r := y.store.refresh[RefreshIndex(y.store.refresh, hash)];
    !Spent(r) && now < r.token.expiresAt && ScopesCover(r.token.scope, Wanted(y, c, hash, words, d))
  }

  function NextToken(y: System, c: Client, hash: Digest, words: seq<string>, d: Draws, now: Time): Replacement {
    Replacement(d.refresh, c.id, if words == [] then None else ParseScopes(words, c.allowedScopes, false),
                now, now + c.refreshLifetime)
  }

  /** A rotatable token is rotated, and the rest is the recheck. */
  lemma RotatableStep(y: System, c: Client, hash: Digest, words: seq<string>, d: Draws, now: Time)
    requires Rotatable(y, c, hash, words, d, now) && |y.refreshRoots| == |y.store.refresh|
    ensures var i := RefreshIndex(y.store.refresh, hash);
            var out := RotateRefresh(y.store, hash, NextToken(y, c, hash, words, d, now), now);
            && out.res == Ok(y.store.refresh[i].token)
            && RefreshStep(y, c, hash, words, d, now) ==
               FinishRefresh(y.(store := out.store, refreshRoots := y.refreshRoots + [y.refreshRoots[i]]), c,
                             y.store.refresh[i].token, Wanted(y, c, hash, words, d), d, y.refreshRoots[i], now)
  {
  }

  /** Presenting a spent token is reuse: the family dies. */
  lemma ReuseKillsFamily(y: System, c: Client, hash: Digest, words: seq<string>, d: Draws, now: Time)
    requires Presented(y, c, hash, words, d) && Spent(y.store.refresh[RefreshIndex(y.store.refresh, hash)])
    ensures var r := RefreshStep(y, c, hash, words, d, now);
            var family := y.store.refresh[RefreshIndex(y.store.refresh, hash)].token.family;
            r.res == Err(InvalidGrant) && Killed(y.store, r.sys.store, family)
  {
  }

  /** Without a spent or a rotatable token the endpoint answers an error and changes nothing. */
  lemma RefusedRefreshChangesNothing(y: System, c: Client, hash: Digest, words: seq<string>, d: Draws, now: Time)
    requires !Rotatable(y, c, hash, words, d, now)
    requires !(Presented(y, c, hash, words, d) && Spent(y.store.refresh[RefreshIndex(y.store.refresh, hash)]))
    ensures var r := RefreshStep(y, c, hash, words, d, now); r.res.Err? && r.sys == y
  {
  }

  /** A rotation that passes the recheck extends the family by one refresh and one access token. */
  lemma RotationExtends(y: System, c: Client, hash: Digest, words: seq<string>, d: Draws, now: Time)
    requires Inv(y) && Rotatable(y, c, hash, words, d, now) && d.accessDrawn
    requires var t := y.store.refresh[RefreshIndex(y.store.refresh, hash)].token;
             StillWelcome(y, t.user, t.session, now)
    ensures var r := RefreshStep(y, c, hash, words, d, now);
            && r.res == Ok(TokenResponse(d.access, Some(d.refresh), Wanted(y, c, hash, words, d), None))
            && Extended(y.store, r.sys.store, RefreshIndex(y.store.refresh, hash), c, d,
                        Wanted(y, c, hash, words, d), now)
  {
    hide Inv, RefreshStep, ParseScopes, ScopesCover, StillWelcome;
    RefreshRecheck(y, RefreshIndex(y.store.refresh, hash), Wanted(y, c, hash, words, d), now);
    RefreshFacts(y, RefreshIndex(y.store.refresh, hash));
    RotatableStep(y, c, hash, words, d, now);
  }

  /** A rotation that fails the recheck, or whose access token cannot be drawn, takes the family with it. */
  lemma FailedRotationKills(y: System, c: Client, hash: Digest, words: seq<string>, d: Draws, now: Time)
    requires Inv(y) && Rotatable(y, c, hash, words, d, now) && FreshRefresh(y.store, d.refresh)
    requires var t := y.store.refresh[RefreshIndex(y.store.refresh, hash)].token;
             !(StillWelcome(y, t.user, t.session, now) && d.accessDrawn)
    ensures var r := RefreshStep(y, c, hash, words, d, now);
            r.res.Err? && Killed(y.store, r.sys.store,
                                 y.store.refresh[RefreshIndex(y.store.refresh, hash)].token.family)
  {
    var i := RefreshIndex(y.store.refresh, hash);
    RefreshRecheck(y, i, Wanted(y, c, hash, words, d), now);
    RefreshFacts(y, i);
    RotatableStep(y, c, hash, words, d, now);
    RevokedRotationKills(y.store, hash, NextToken(y, c, hash, words, d, now), now);
    hide Inv, RefreshStep, ParseScopes, ScopesCover, Killed, RevokeRefreshToken;
  }

  /** Revoking the token a rotation has just appended revokes the whole family it belongs to. */
  lemma RevokedRotationKills(s: Store, hash: Digest, next: Replacement, now: Time)
    requires FreshRefresh(s, next.hash) && RotateRefresh(s, hash, next, now).res.Ok?
    ensures var i := RefreshIndex(s.refresh, hash);
            Killed(s, RevokeRefreshToken(RotateRefresh(s, hash, next, now).store, next.hash, next.client, now).store,
                   s.refresh[i].token.family)
  {
    var rotated := RotateRefresh(s, hash, next, now).store;
    hide ScopesCover;
    LastRefreshIndex(s.refresh, rotated.refresh, next.hash, next.client);
    assert rotated.refresh[|s.refresh|].token.family == s.refresh[RefreshIndex(s.refresh, hash)].token.family;
  }

  lemma LastRefreshIndex(before: seq<RefreshRecord>, after: seq<RefreshRecord>, hash: Digest, client: Id)
    requires |after| == |before| + 1
    requires forall i :: 0 <= i < |before| ==> after[i].token == before[i].token && before[i].token.hash != hash
    requires after[|before|].token.hash == hash && after[|before|].token.client == client
    ensures ClientRefreshIndex(after, hash, client) == |before|
  {
  }

  lemma RefreshIndexIsUnique(y: System, hash: Digest)
    requires Inv(y)
    ensures forall k :: 0 <= k < |y.store.refresh| ==>
              (y.store.refresh[k].token.hash == hash <==> k == RefreshIndex(y.store.refresh, hash))
  {
  }

  /** Three outcomes and no others, and which one it is can be read off the state before the call. */
  lemma RefreshOutcomes(y: System, c: Client, hash: Digest, words: seq<string>, d: Draws, now: Time)
    requires Inv(y) && FreshRefresh(y.store, d.refresh)
    ensures forall k :: 0 <= k < |y.store.refresh| ==>
              (y.store.refresh[k].token.hash == hash <==> k == RefreshIndex(y.store.refresh, hash))
    ensures var r := RefreshStep(y, c, hash, words, d, now);
            var i := RefreshIndex(y.store.refresh, hash);
            var rotatable := Rotatable(y, c, hash, words, d, now);
            var reuse := Presented(y, c, hash, words, d) && Spent(y.store.refresh[i]);
            if rotatable && StillWelcome(y, y.store.refresh[i].token.user, y.store.refresh[i].token.session, now) &&
                d.accessDrawn
            then
              && r.res.Ok? && r.res.value == TokenResponse(d.access, Some(d.refresh), r.res.value.scope, None)
              && (if words == [] then r.res.value.scope == y.store.refresh[i].token.scope
                  else Elems(r.res.value.scope) == Elems(words))
              && Elems(r.res.value.scope) <= Elems(y.store.refresh[i].token.scope)
              && Extended(y.store, r.sys.store, i, c, d, r.res.value.scope, now)
            else if rotatable || reuse then r.res.Err? && Killed(y.store, r.sys.store, y.store.refresh[i].token.family)
            else r.res.Err? && r.sys == y
  {
    var i := RefreshIndex(y.store.refresh, hash);
    RefreshIndexIsUnique(y, hash);
    ParsedScopesAreAllowed(words, c.allowedScopes, false);
    if Rotatable(y, c, hash, words, d, now) {
      CoverIsSubset(y.store.refresh[i].token.scope, Wanted(y, c, hash, words, d));
    }
    hide Inv, RefreshStep, Extended, Killed, ParseScopes, StillWelcome;
    if Presented(y, c, hash, words, d) && Spent(y.store.refresh[i]) {
      ReuseKillsFamily(y, c, hash, words, d, now);
    } else if !Rotatable(y, c, hash, words, d, now) {
      RefusedRefreshChangesNothing(y, c, hash, words, d, now);
    } else if StillWelcome(y, y.store.refresh[i].token.user, y.store.refresh[i].token.session, now) && d.accessDrawn {
      RotationExtends(y, c, hash, words, d, now);
    } else {
      FailedRotationKills(y, c, hash, words, d, now);
    }
  }

  // ---- Single use and provenance ----

  /** A code is exchanged at most once in any run, whatever happens after. */
  lemma CodeIsSingleUse(y: System, c: Client, hash: Digest, uri: string, challenge: string, d: Draws, now: Time,
                        es: seq<Event>, client: Id, uri': string, challenge': string, later: Time)
    requires Inv(y) && c.codeGrant && ConsumeCode(y.store, hash, c.id, uri, challenge, now).res.Ok?
    requires Legal(y, Exchange(c, hash, uri, challenge, d, now))
    requires LegalRun(Next(y, Exchange(c, hash, uri, challenge, d, now)), es)
    ensures ConsumeCode(Run(Next(y, Exchange(c, hash, uri, challenge, d, now)), es).store, hash, client, uri',
                        challenge', later).res.Err?
  {
    var e := Exchange(c, hash, uri, challenge, d, now);
    var i := CodeIndex(y.store.codes, hash);
    StepKeepsInv(y, e);
    ExchangeConsumes(y, c, hash, uri, challenge, d, now);
    hide Inv, Next;
    ConsumedCodeIsRefused(Next(y, e), es, i, client, uri', challenge', later);
  }

  lemma ExchangeConsumes(y: System, c: Client, hash: Digest, uri: string, challenge: string, d: Draws, now: Time)
    requires c.codeGrant && ConsumeCode(y.store, hash, c.id, uri, challenge, now).res.Ok?
    ensures var z := ExchangeStep(y, c, hash, uri, challenge, d, now).sys.store;
            var i := CodeIndex(y.store.codes, hash);
            i < |z.codes| && z.codes[i].consumedAt.Some? && z.codes[i].code.hash == hash
  {
  }

  lemma ConsumedCodeIsRefused(y: System, es: seq<Event>, i: nat, client: Id, uri: string, challenge: string, now: Time)
    requires Inv(y) && LegalRun(y, es) && i < |y.store.codes| && y.store.codes[i].consumedAt.Some?
    ensures ConsumeCode(Run(y, es).store, y.store.codes[i].code.hash, client, uri, challenge, now).res.Err?
  {
    RunKeepsInv(y, es);
    RunEvolves(y, es);
    var z := Run(y, es).store;
    hide Run, Next, Families, Consented, Bound, Traced, ConsentsCanonical;
    assert CodeEvolves(y.store.codes[i], z.codes[i]);
    assert CodeIndex(z.codes, y.store.codes[i].code.hash) == i;
  }

  /** A device code yields tokens at most once in any run, whichever client polls with it later. */
  lemma DeviceIsSingleUse(y: System, c: Client, deviceHash: Digest, d: Draws, now: Time, es: seq<Event>, client: Id,
                          later: Time)
    requires Inv(y) && c.deviceGrant && PollDevice(y.store, deviceHash, c.id, now).res.Ok?
    requires Legal(y, DeviceToken(c, deviceHash, d, now))
    requires LegalRun(Next(y, DeviceToken(c, deviceHash, d, now)), es)
    ensures PollDevice(Run(Next(y, DeviceToken(c, deviceHash, d, now)), es).store, deviceHash, client, later).res.Err?
  {
    var e := DeviceToken(c, deviceHash, d, now);
    StepKeepsInv(y, e);
    DeviceTokenConsumes(y, c, deviceHash, d, now);
    hide Inv, Next;
    ConsumedDeviceIsRefused(Next(y, e), es, DeviceIndex(y.store.devices, deviceHash, c.id), client, later);
  }

  lemma DeviceTokenConsumes(y: System, c: Client, deviceHash: Digest, d: Draws, now: Time)
    requires c.deviceGrant && PollDevice(y.store, deviceHash, c.id, now).res.Ok?
    ensures var z := DeviceTokenStep(y, c, deviceHash, d, now).sys.store;
            var i := DeviceIndex(y.store.devices, deviceHash, c.id);
            i < |z.devices| && z.devices[i].status == DeviceConsumed && z.devices[i].deviceHash == deviceHash &&
                z.devices[i].client == c.id
  {
  }

  lemma ConsumedDeviceIsRefused(y: System, es: seq<Event>, i: nat, client: Id, now: Time)
    requires Inv(y) && LegalRun(y, es) && i < |y.store.devices| && y.store.devices[i].status == DeviceConsumed
    ensures PollDevice(Run(y, es).store, y.store.devices[i].deviceHash, client, now).res.Err?
  {
    RunKeepsInv(y, es);
    RunEvolves(y, es);
    var z := Run(y, es).store;
    hide Run, Next, Families, Consented, Bound, Traced, ConsentsCanonical;
    assert DeviceEvolves(y.store.devices[i], z.devices[i]);
    var n := DeviceIndex(z.devices, z.devices[i].deviceHash, client);
    assert n == i || n == |z.devices|;
  }

  /** The used-up grant a user's access token descends from: same owner, and a scope that covers the token's. */
  lemma AccessTokenHasOneRoot(es: seq<Event>, i: nat)
    requires LegalRun(INIT, es)
    requires i < |Run(INIT, es).store.access| && Run(INIT, es).store.access[i].token.user != ""
    ensures var y := Run(INIT, es); var t := y.store.access[i].token;
            i < |y.accessRoots| &&
            match y.accessRoots[i]
            case NoRoot => false
            case CodeRoot(k) =>
              && k < |y.store.codes| && y.store.codes[k].consumedAt.Some?
              && var g := y.store.codes[k].code;
                 g.user == t.user && g.client == t.client && g.session == t.session && ScopesCover(g.scope, t.scope)
            case DeviceRoot(k) =>
              && k < |y.store.devices| && y.store.devices[k].status == DeviceConsumed
              && var g := y.store.devices[k];
                 g.user == t.user && g.client == t.client && t.session == "" && ScopesCover(g.scope, t.scope)
  {
    ReachableInv(es);
    var y := Run(INIT, es);
    hide Run, UniqueHashes, Families, Consented, Bound, ConsentsCanonical;
    assert AccessRootOk(y.store, y.accessRoots[i], y.store.access[i].token);
  }

  /** Families and grants correspond one to one. */
  lemma FamiliesAreGrants(es: seq<Event>, i: nat, j: nat)
    requires LegalRun(INIT, es)
    requires i < |Run(INIT, es).store.refresh| && j < |Run(INIT, es).store.refresh|
    ensures var y := Run(INIT, es);
            && |y.refreshRoots| == |y.store.refresh|
            && (y.store.refresh[i].token.family == y.store.refresh[j].token.family <==>
                  y.refreshRoots[i] == y.refreshRoots[j])
            && RefreshRootOk(y.store, y.refreshRoots[i], y.store.refresh[i].token)
  {
    ReachableInv(es);
    var y := Run(INIT, es);
    hide Run, UniqueHashes, Families, Consented, Bound, ConsentsCanonical;
    if i < j {
      assert SiblingRefresh(y.store.refresh[i].token, y.refreshRoots[i], y.store.refresh[j].token, y.refreshRoots[j]);
    } else if j < i {
      assert SiblingRefresh(y.store.refresh[j].token, y.refreshRoots[j], y.store.refresh[i].token, y.refreshRoots[i]);
    }
  }

  /** A grant gives one family of tokens, or a single access token outside any family. */
  lemma OneFamilyPerGrant(es: seq<Event>, i: nat, j: nat)
    requires LegalRun(INIT, es)
    requires i < j < |Run(INIT, es).store.access| && Run(INIT, es).store.access[i].token.user != ""
    requires |Run(INIT, es).accessRoots| > j && Run(INIT, es).accessRoots[i] == Run(INIT, es).accessRoots[j]
    ensures var y := Run(INIT, es);
            y.store.access[i].token.family == y.store.access[j].token.family && y.store.access[i].token.family != ""
  {
    AccessTokenHasOneRoot(es, i);
    ReachableInv(es);
    var y := Run(INIT, es);
    hide Run, UniqueHashes, Families, Consented, Bound, ConsentsCanonical;
    assert SiblingAccess(y.store.access[i].token, y.accessRoots[i], y.store.access[j].token, y.accessRoots[j]);
  }

  // ---- What atomicity is for ----

  /** Storing an access token after its family was revoked in between leaves a live token in a dead family. */
  lemma InterleavedRevocationBreaksFamily()
    ensures exists s: Store, token: AccessToken, now: Time ::
              Families(s) && !Families(SaveAccess(RevokeFamily(s, token.family, now), token)) &&
                  Families(SaveAccess(s, token))
  {
    var r := RefreshRecord(RefreshToken(1, "family", "client", "user", "", [], 0, 10), None, None);
    var s := EMPTY_STORE.(refresh := [r]);
    var token := AccessToken(2, "client", "user", "", "family", [], 0, 10);
    assert Families(s);
    assert FamilyAccess(AccessRecord(token, None), r);
    SaveAccessKeepsFamilies(s, token);
    var dead := RevokeFamily(s, "family", 0);
    RevokeFamilyKeepsFamilies(s, "family", 0);
    SaveAccessKeepsFamilies(dead, token);
    assert !FamilyAccess(AccessRecord(token, None), dead.refresh[0]);
    assert !Families(SaveAccess(RevokeFamily(s, token.family, 0), token));
  }

  /** Storing a code after its session was ended in between leaves a live code on a dead session. */
  lemma InterleavedSignOutBreaksBound()
    ensures exists y: System, code: AuthorizationCode, now: Time ::
              Bound(y.store, y.sessions) && Bound(SaveCode(y.store, code), y.sessions) &&
                  var z := SignOutStep(y, code.user, code.session, now);
                  Bound(z.store, z.sessions) && !Bound(SaveCode(z.store, code), z.sessions)
  {
    var y := INIT.(sessions := map["session" := Session("user", 1, NO_AUTH, 0, 10, None)]);
    var code := AuthorizationCode(1, "client", "user", "session", "", [], "", "", NO_AUTH, 0, 10);
    var z := SignOutStep(y, "user", "session", 0);
    assert Bound(y.store, y.sessions) && Bound(SaveCode(y.store, code), y.sessions);
    assert z.store == INIT.store && z.sessions["session"].revokedAt == Some(0);
    assert !CodeBound(z.sessions, SaveCode(z.store, code).codes[0]);
    assert !Bound(SaveCode(SignOutStep(y, code.user, code.session, 0).store, code),
                  SignOutStep(y, code.user, code.session, 0).sessions);
  }
}
