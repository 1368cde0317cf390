/** What ends grants and sessions: exactly which of them, and for good. */
module RevocationOutcomes {
  import opened Prelude
  import opened GrantStore
  import opened GrantInvariants
  import opened Sessions
  import opened Protocol
  import opened ProtocolInvariants
  import opened ProtocolSteps
  import opened Runs
  import opened GrantTheorems
  import opened ProtocolOutcomes

  // ---- The revocation endpoint ----

  predicate AccessOf(r: AccessRecord, hash: Digest, client: Id) { r.token.hash == hash && r.token.client == client }

  predicate RefreshOf(r: RefreshRecord, hash: Digest, client: Id) { r.token.hash == hash && r.token.client == client }

  /** The caller's access token is dead afterwards; without a refresh token of that digest nothing else changes. */
  lemma AccessRevocationOutcome(y: System, c: Client, hash: Digest, hint: bool, now: Time, i: nat)
    requires Inv(y) && i < |y.store.access| && AccessOf(y.store.access[i], hash, c.id)
    requires hint ==> forall k :: 0 <= k < |y.store.refresh| ==> !RefreshOf(y.store.refresh[k], hash, c.id)
    ensures var r := y.store.access[i];
            var dead := if r.revokedAt.Some? then r else r.(revokedAt := Some(now));
            RevokeTokenStep(y, c, hash, hint, now) == y.(store := y.store.(access := y.store.access[i := dead]))
  {
  }

  /** Once revoked at the endpoint, with either hint, an access token is found live in no later state of any run. */
  lemma AccessRevocationIsFinal(y: System, c: Client, hash: Digest, hint: bool, now: Time, i: nat, es: seq<Event>,
                                later: Time)
    requires Inv(y) && i < |y.store.access| && AccessOf(y.store.access[i], hash, c.id)
    requires hint ==> forall k :: 0 <= k < |y.store.refresh| ==> !RefreshOf(y.store.refresh[k], hash, c.id)
    requires LegalRun(Next(y, RevokeToken(c, hash, hint, now)), es)
    ensures var z := Run(Next(y, RevokeToken(c, hash, hint, now)), es).store;
            && (forall k :: 0 <= k < |z.access| && z.access[k].token.hash == hash ==> z.access[k].revokedAt.Some?)
            && FindAccess(z, hash, later) == Err(NotFound)
  {
    var e := RevokeToken(c, hash, hint, now);
    AccessRevocationOutcome(y, c, hash, hint, now, i);
    StepKeepsInv(y, e);
    var y1 := Next(y, e);
    assert y1.store.access[i].token.hash == hash && y1.store.access[i].revokedAt.Some?;
    hide Next, Inv;
    RunKeepsInv(y1, es);
    RunEvolves(y1, es);
    DeadAccessIsNotFound(Run(y1, es), y1.store.access[i], i, later);
  }

  lemma DeadAccessIsNotFound(z: System, r: AccessRecord, i: nat, later: Time)
    requires Inv(z) && i < |z.store.access| && AccessEvolves(r, z.store.access[i]) && r.revokedAt.Some?
    ensures forall k :: 0 <= k < |z.store.access| && z.store.access[k].token.hash == r.token.hash ==>
              z.store.access[k].revokedAt.Some?
    ensures FindAccess(z.store, r.token.hash, later) == Err(NotFound)
  {
  }

  /** The caller's refresh token takes its family with it, and nothing else. */
  lemma RefreshRevocationOutcome(y: System, c: Client, hash: Digest, hint: bool, now: Time, i: nat)
    requires Inv(y) && i < |y.store.refresh| && RefreshOf(y.store.refresh[i], hash, c.id)
    requires hint || forall k :: 0 <= k < |y.store.access| ==> !AccessOf(y.store.access[k], hash, c.id)
    ensures var z, family := RevokeTokenStep(y, c, hash, hint, now), y.store.refresh[i].token.family;
            && Killed(y.store, z.store, family) && |z.store.refresh| == |y.store.refresh|
            && z == y.(store := z.store)
  {
    RevocationReachesFamily(y, c, hash, hint, now, i);
    hide Inv;
    RevokedFamilyIsKilled(y.store, y.store.refresh[i].token.family, now);
    hide Killed, RevokeFamily;
  }

  lemma RevokedFamilyIsKilled(s: Store, family: Id, now: Time)
    ensures Killed(s, RevokeFamily(s, family, now), family) && |RevokeFamily(s, family, now).refresh| == |s.refresh|
  {
  }

  /** A digest that is no token of the caller's changes nothing. */
  lemma ForeignRevocationChangesNothing(y: System, c: Client, hash: Digest, hint: bool, now: Time)
    requires forall k :: 0 <= k < |y.store.access| ==> !AccessOf(y.store.access[k], hash, c.id)
    requires forall k :: 0 <= k < |y.store.refresh| ==> !RefreshOf(y.store.refresh[k], hash, c.id)
    ensures RevokeTokenStep(y, c, hash, hint, now) == y
  {
  }

  // ---- Bulk revocations ----

  /** Exactly the grants that are hit have ended, with this time unless they had before. */
  ghost predicate Ended(s: Store, t: Store, hit: (Id, Id, Id) -> bool, now: Time) {
    && |t.codes| == |s.codes| && |t.access| == |s.access| && |t.refresh| == |s.refresh|
    && (forall i :: 0 <= i < |s.codes| ==>
          var r := s.codes[i];
          t.codes[i] == if hit(r.code.user, r.code.session, r.code.client) && r.revokedAt.None?
                        then r.(revokedAt := Some(now)) else r)
    && (forall i :: 0 <= i < |s.access| ==>
          var r := s.access[i];
          t.access[i] == if hit(r.token.user, r.token.session, r.token.client) && r.revokedAt.None?
                         then r.(revokedAt := Some(now)) else r)
    && (forall i :: 0 <= i < |s.refresh| ==>
          var r := s.refresh[i];
          t.refresh[i] == if hit(r.token.user, r.token.session, r.token.client) && r.revokedAt.None?
                          then r.(revokedAt := Some(now)) else r)
  }

  ghost predicate Denied(s: Store, t: Store, hit: Device -> bool) {
    |t.devices| == |s.devices| && forall i :: 0 <= i < |s.devices| ==>
      t.devices[i] == if hit(s.devices[i]) then s.devices[i].(status := DeviceDenied) else s.devices[i]
  }

  lemma RevokeMatchingEnds(s: Store, m: Matcher, hit: (Id, Id, Id) -> bool, now: Time)
    requires forall u, x, c :: hit(u, x, c) <==> m.Matches(u, x, c)
    ensures Ended(s, RevokeMatching(s, m, now), hit, now)
    ensures RevokeMatching(s, m, now).consents == s.consents && RevokeMatching(s, m, now).devices == s.devices
  {
  }

  lemma EndedTwice(s: Store, t: Store, u: Store, a: (Id, Id, Id) -> bool, b: (Id, Id, Id) -> bool,
                   both: (Id, Id, Id) -> bool, now: Time)
    requires Ended(s, t, a, now) && Ended(t, u, b, now)
    requires forall x, y, z :: both(x, y, z) <==> a(x, y, z) || b(x, y, z)
    ensures Ended(s, u, both, now)
  {
  }

  function OfSessions(user: Id, ids: seq<Id>): (Id, Id, Id) -> bool { (u: Id, x: Id, c: Id) => u == user && x in ids }

  lemma {:induction false} CleanUpEnds(s: Store, user: Id, ids: seq<Id>, now: Time)
    ensures Ended(s, CleanUp(s, user, ids, now), OfSessions(user, ids), now)
    ensures CleanUp(s, user, ids, now).consents == s.consents && CleanUp(s, user, ids, now).devices == s.devices
  {
    hide Ended, RevokeMatching;
    if ids == [] {
      NothingEnded(s, OfSessions(user, ids), now);
    } else {
      var n := |ids| - 1;
      var before, one := CleanUp(s, user, ids[..n], now), (u: Id, x: Id, c: Id) => u == user && x == ids[n];
      CleanUpEnds(s, user, ids[..n], now);
      RevokeMatchingEnds(before, OfSession(user, ids[n]), one, now);
      assert ids == ids[..n] + [ids[n]];
      EndedTwice(s, before, CleanUp(s, user, ids, now), OfSessions(user, ids[..n]), one, OfSessions(user, ids), now);
    }
  }

  lemma NothingEnded(s: Store, hit: (Id, Id, Id) -> bool, now: Time)
    requires forall u, x, c :: !hit(u, x, c)
    ensures Ended(s, s, hit, now)
  {
  }

  // ---- Sign-out ----

  /** Signing out ends the session and its grants, and nothing of anyone else's. */
  lemma SignOutOutcome(y: System, user: Id, session: Id, now: Time)
    ensures var z := SignOutStep(y, user, session, now);
            if session in y.sessions && y.sessions[session].user == user then
              && z.sessions == y.sessions[session := y.sessions[session].(revokedAt := Some(now))]
              && Ended(y.store, z.store, (u: Id, x: Id, c: Id) => u == user && x == session, now)
              && z.store.devices == y.store.devices && z.store.consents == y.store.consents
              && z.activeUsers == y.activeUsers && z.idTokens == y.idTokens
            else z == y
  {
  }

  /** Which of a user's grants end with all sessions but one: those of listed and of other sessions. */
  function OfOthers(user: Id, exceptSession: Id, ids: seq<Id>): (Id, Id, Id) -> bool {
    (u: Id, x: Id, c: Id) => u == user && (x in ids || exceptSession == "" || x != exceptSession)
  }

  /** Ending all sessions but one revokes exactly the user's other live sessions, their grants and approved devices. */
  lemma SignOutOthersOutcome(y: System, user: Id, exceptSession: Id, ids: seq<Id>, now: Time)
    ensures var z := SignOutOthersStep(y, user, exceptSession, ids, now);
            && z.sessions.Keys == y.sessions.Keys
            && (forall id :: id in y.sessions ==>
                  var s := y.sessions[id];
                  z.sessions[id] == if s.user == user && id != exceptSession && s.revokedAt.None? && now < s.expiresAt
                                    then s.(revokedAt := Some(now)) else s)
            && Ended(y.store, z.store, OfOthers(user, exceptSession, ids), now)
            && Denied(y.store, z.store, (v: Device) => v.user == user && v.status == DeviceApproved)
            && z.store.consents == y.store.consents && z.activeUsers == y.activeUsers && z.idTokens == y.idTokens
  {
    var s1 := CleanUp(y.store, user, ids, now);
    CleanUpEnds(y.store, user, ids, now);
    var rest := (u: Id, x: Id, c: Id) => u == user && (exceptSession == "" || x != exceptSession);
    RevokeMatchingEnds(s1, OfUser(user, exceptSession), rest, now);
    EndedTwice(y.store, s1, RevokeMatching(s1, OfUser(user, exceptSession), now), OfSessions(user, ids), rest,
               OfOthers(user, exceptSession, ids), now);
    DenyingKeepsEnded(y.store, RevokeMatching(s1, OfUser(user, exceptSession), now), OfUser(user, exceptSession),
                      OfOthers(user, exceptSession, ids), now);
    hide Ended, RevokeMatching, CleanUp;
  }

  lemma DenyingKeepsEnded(s: Store, t: Store, m: Matcher, hit: (Id, Id, Id) -> bool, now: Time)
    requires Ended(s, t, hit, now)
    ensures Ended(s, DenyDevices(t, m), hit, now)
  {
  }

  /** Disabling a client ends exactly its grants and denies its pending and approved devices. */
  lemma DisableClientOutcome(y: System, client: Id, now: Time)
    ensures var z := Next(y, DisableClient(client, now));
            && Ended(y.store, z.store, (u: Id, x: Id, c: Id) => c == client, now)
            && Denied(y.store, z.store,
                      (v: Device) => v.client == client && (v.status == DevicePending || v.status == DeviceApproved))
            && z.store.consents == y.store.consents && z.sessions == y.sessions
  {
  }

  /** Withdrawing a consent takes exactly that consent away, and exactly the grants and approved devices under it. */
  lemma WithdrawalOutcome(y: System, user: Id, client: Id, now: Time)
    requires Inv(y)
    ensures var z := Next(y, WithdrawConsent(user, client, now));
            if forall c :: c in y.store.consents ==> !(c.user == user && c.client == client) then z == y
            else
              && (forall u, c, x :: Allowed(z.store.consents, u, c, x) <==>
                    Allowed(y.store.consents, u, c, x) && !(u == user && c == client))
              && Ended(y.store, z.store, (u: Id, x: Id, c: Id) => u == user && c == client, now)
              && Denied(y.store, z.store,
                        (v: Device) => v.user == user && v.client == client && v.status == DeviceApproved)
              && z == y.(store := z.store)
  {
    assert ConsentsCanonical(y.store.consents);
    hide Inv;
    var i := ConsentIndex(y.store.consents, user, client);
    var p := (c: Consent) => c.user == user && c.client == client;
    if i < |y.store.consents| {
      DeletionEnds(y.store, i, user, client, now);
      WithdrawnConsents(y.store.consents, i, user, client);
      assert y.store.consents[i] in y.store.consents && p(y.store.consents[i]);
      hide *;
    } else {
      forall c | c in y.store.consents ensures !p(c) {}
    }
  }

  lemma DeletionEnds(s: Store, i: nat, user: Id, client: Id, now: Time)
    requires i == ConsentIndex(s.consents, user, client) < |s.consents|
    ensures var t := DeleteConsent(s, user, client, now).store;
            && Ended(s, t, (u: Id, x: Id, c: Id) => u == user && c == client, now)
            && Denied(s, t, (v: Device) => v.user == user && v.client == client && v.status == DeviceApproved)
            && t.consents == s.consents[..i] + s.consents[i + 1..]
  {
  }

  lemma WithdrawnConsents(a: seq<Consent>, i: nat, user: Id, client: Id)
    requires ConsentsCanonical(a) && i < |a| && a[i].user == user && a[i].client == client
    ensures forall u, c, x :: Allowed(a[..i] + a[i + 1..], u, c, x) <==>
              Allowed(a, u, c, x) && !(u == user && c == client)
  {
  }

  // ---- OIDC logout ----

  /** The sessions a logout ends: the one its hint names, and the caller's own. */
  predicate LoggedOut(y: System, hint: IDToken, cookie: Digest, now: Time, id: Id) {
    (hint.session != "" && id == hint.session) || SignedIn(y, cookie, now, id)
  }

  /** The logout is the subject's own: the hint was signed for someone, and whoever is signed in is that someone. */
  ghost predicate OwnLogout(y: System, hint: IDToken, cookie: Digest, now: Time) {
    && hint in y.idTokens && hint.subject != ""
    && forall id :: SignedIn(y, cookie, now, id) ==> y.sessions[id].user == hint.subject
  }

  ghost predicate SessionsEnded(y: System, z: System, hint: IDToken, cookie: Digest, now: Time) {
    && z.sessions.Keys == y.sessions.Keys
    && forall id :: id in y.sessions ==>
         z.sessions[id] == y.sessions[id].(
             lastSeenAt := z.sessions[id].lastSeenAt,
             revokedAt := if LoggedOut(y, hint, cookie, now, id) then Some(now) else y.sessions[id].revokedAt)
  }

  lemma LogoutAccepted(y: System, hint: IDToken, cookie: Digest, now: Time)
    requires Inv(y)
    ensures var r := OidcLogoutStep(y, hint, cookie, now);
            && (r.res.Ok? <==> OwnLogout(y, hint, cookie, now))
            && (r.res.Err? ==>
                  && r.res == Err(BadRequest) && r.sys.store == y.store
                  && if hint in y.idTokens && hint.subject != "" then Browsed(y, r.sys, cookie, now) else r.sys == y)
  {
    SignedInIs(y, cookie, now);
    SeenIsBrowsed(y, cookie, now);
    hide Inv, CurrentSession, Seen, SignedIn, CleanUp, LogoutSessions, Browsed;
  }

  predicate Names(hint: IDToken, current: Option<Id>, id: Id) {
    (hint.session != "" && id == hint.session) || current == Some(id)
  }

  function OfNamed(hint: IDToken, current: Option<Id>): (Id, Id, Id) -> bool {
    (u: Id, x: Id, c: Id) => u == hint.subject && Names(hint, current, x)
  }

  lemma RevokeNamed(t: Table, hint: IDToken, current: Option<Id>, now: Time)
    requires current.Some? ==> current.value in t
    requires current != Some("")
    ensures var t1 := if hint.session == "" then t else RevokeOne(t, hint.session, now);
            var t2 := if current.Some? && current.value != hint.session then RevokeOne(t1, current.value, now) else t1;
            && t2.Keys == t.Keys
            && forall id :: id in t ==>
                 t2[id] == if Names(hint, current, id) then t[id].(revokedAt := Some(now)) else t[id]
  {
  }

  lemma LogoutSessionsAreNamed(hint: IDToken, current: Option<Id>, id: Id)
    requires current != Some("")
    ensures id in LogoutSessions(hint, current) <==> Names(hint, current, id)
  {
  }

  lemma LogoutEndsGrants(s: Store, hint: IDToken, current: Option<Id>, now: Time)
    requires current != Some("")
    ensures var t := CleanUp(s, hint.subject, LogoutSessions(hint, current), now);
            Ended(s, t, OfNamed(hint, current), now) && t.devices == s.devices && t.consents == s.consents
  {
    hide *;
    var ids := LogoutSessions(hint, current);
    forall u: Id, x: Id, c: Id ensures OfSessions(hint.subject, ids)(u, x, c) <==> OfNamed(hint, current)(u, x, c) {
      LogoutSessionsAreNamed(hint, current, x);
      HitsAre(hint, current, ids, u, x, c);
    }
    CleanUpEnds(s, hint.subject, ids, now);
    SameHits(s, CleanUp(s, hint.subject, ids, now), OfSessions(hint.subject, ids), OfNamed(hint, current), now);
  }

  lemma HitsAre(hint: IDToken, current: Option<Id>, ids: seq<Id>, u: Id, x: Id, c: Id)
    ensures OfSessions(hint.subject, ids)(u, x, c) <==> u == hint.subject && x in ids
    ensures OfNamed(hint, current)(u, x, c) <==> u == hint.subject && Names(hint, current, x)
  {
  }

  lemma NamedAreLoggedOut(y: System, hint: IDToken, cookie: Digest, now: Time)
    requires WellFormed(y.sessions)
    ensures var current := CurrentSession(y, cookie, now);
            && (current.Some? ==> current.value in y.sessions && current.value != "")
            && forall id :: Names(hint, current, id) <==> LoggedOut(y, hint, cookie, now, id)
  {
    SignedInIs(y, cookie, now);
    hide CurrentSession;
  }

  /** Exactly the sessions logged out of have a new revocation time. */
  ghost predicate NamedRevoked(y: System, t: Table, u: Table, hint: IDToken, cookie: Digest, now: Time) {
    && u.Keys == t.Keys
    && forall id :: id in t ==>
         u[id] == if LoggedOut(y, hint, cookie, now, id) then t[id].(revokedAt := Some(now)) else t[id]
  }

  lemma LogoutTable(y: System, hint: IDToken, cookie: Digest, now: Time)
    requires Inv(y) && OidcLogoutStep(y, hint, cookie, now).res.Ok?
    ensures NamedRevoked(y, Seen(y, cookie, now).sessions, OidcLogoutStep(y, hint, cookie, now).sys.sessions,
                         hint, cookie, now)
  {
    NamedAreLoggedOut(y, hint, cookie, now);
    SeenIsBrowsed(y, cookie, now);
    RevokeNamed(Seen(y, cookie, now).sessions, hint, CurrentSession(y, cookie, now), now);
    hide Inv, CurrentSession, Seen, CleanUp, LogoutSessions, LoggedOut, Names, WellFormed, RevokeOne;
  }

  lemma LogoutEndsSessions(y: System, hint: IDToken, cookie: Digest, now: Time)
    requires Inv(y) && OidcLogoutStep(y, hint, cookie, now).res.Ok?
    ensures SessionsEnded(y, OidcLogoutStep(y, hint, cookie, now).sys, hint, cookie, now)
  {
    LogoutTable(y, hint, cookie, now);
    SeenIsBrowsed(y, cookie, now);
    hide Inv, Seen, OidcLogoutStep, LoggedOut;
  }

  /** A logout is accepted exactly as one's own, and then ends exactly those sessions and the subject's grants there. */
  lemma OidcLogoutOutcome(y: System, hint: IDToken, cookie: Digest, now: Time)
    requires Inv(y)
    ensures var r := OidcLogoutStep(y, hint, cookie, now);
            && (r.res.Ok? <==> OwnLogout(y, hint, cookie, now))
            && (r.res.Err? ==>
                  && r.res == Err(BadRequest) && r.sys.store == y.store
                  && if hint in y.idTokens && hint.subject != "" then Browsed(y, r.sys, cookie, now) else r.sys == y)
            && (r.res.Ok? ==>
                  && SessionsEnded(y, r.sys, hint, cookie, now)
                  && Ended(y.store, r.sys.store,
                           (u: Id, x: Id, c: Id) => u == hint.subject && LoggedOut(y, hint, cookie, now, x), now)
                  && r.sys.store.devices == y.store.devices && r.sys.store.consents == y.store.consents)
  {
    LogoutAccepted(y, hint, cookie, now);
    if OidcLogoutStep(y, hint, cookie, now).res.Ok? {
      LogoutEndsSessions(y, hint, cookie, now);
      LogoutEndsTheGrants(y, hint, cookie, now);
    }
    hide *;
  }

  lemma LogoutEndsTheGrants(y: System, hint: IDToken, cookie: Digest, now: Time)
    requires Inv(y) && OidcLogoutStep(y, hint, cookie, now).res.Ok?
    ensures var z := OidcLogoutStep(y, hint, cookie, now).sys.store;
            && Ended(y.store, z, (u: Id, x: Id, c: Id) => u == hint.subject && LoggedOut(y, hint, cookie, now, x), now)
            && z.devices == y.store.devices && z.consents == y.store.consents
  {
    assert WellFormed(y.sessions);
    NamedAreLoggedOut(y, hint, cookie, now);
    SeenIsBrowsed(y, cookie, now);
    var current := CurrentSession(y, cookie, now);
    LogoutEndsGrants(y.store, hint, current, now);
    hide Inv, CurrentSession, Seen, CleanUp, LogoutSessions, Ended, LoggedOut, Names, WellFormed, Browsed, RevokeOne;
    SameHits(y.store, OidcLogoutStep(y, hint, cookie, now).sys.store, OfNamed(hint, current),
             (u: Id, x: Id, c: Id) => u == hint.subject && LoggedOut(y, hint, cookie, now, x), now);
  }

  lemma SameHits(s: Store, t: Store, a: (Id, Id, Id) -> bool, b: (Id, Id, Id) -> bool, now: Time)
    requires Ended(s, t, a, now) && forall u, x, c :: a(u, x, c) <==> b(u, x, c)
    ensures Ended(s, t, b, now)
  {
  }

  // ---- Suspension ----

  /** A suspended user is signed in nowhere; a reinstated one where the sessions stand. */
  lemma SuspensionOutcome(y: System, user: Id, active: bool, cookie: Digest, now: Time, id: Id)
    ensures var z := Next(y, SetUserStatus(user, active));
            && z.store == y.store && z.sessions == y.sessions
            && (SignedIn(z, cookie, now, id) <==>
                  if id in y.sessions && y.sessions[id].user == user
                  then active && y.sessions[id].hash == cookie && y.sessions[id].revokedAt.None? &&
                       now < y.sessions[id].expiresAt
                  else SignedIn(y, cookie, now, id))
  {
  }
}
