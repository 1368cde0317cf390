/** Runs of the authorization server: any sequence of handler calls, in any order and at any times. */
module Runs {
  import opened Prelude
  import opened Scopes
  import opened GrantStore
  import opened GrantInvariants
  import opened Sessions
  import opened Protocol
  import opened ProtocolInvariants
  import opened ProtocolSteps

  datatype Event =
    | Login(id: Id, row: Session)
    | Authorize(cookie: Digest, request: AuthorizationRequest, code: Digest, drawn: bool, now: Time)
    | DecideConsent(cookie: Digest, request: AuthorizationRequest, allow: bool, code: Digest, drawn: bool, now: Time)
    | Exchange(client: Client, hash: Digest, redirectURI: string, challenge: string, draws: Draws, now: Time)
    | Refresh(client: Client, hash: Digest, words: seq<string>, draws: Draws, now: Time)
    | ClientCredentials(client: Client, words: seq<string>, draws: Draws, now: Time)
    | RevokeToken(client: Client, hash: Digest, refreshHint: bool, now: Time)
    | DeviceStart(client: Client, words: seq<string>, deviceHash: Digest, userHash: Digest, drawn: bool, now: Time)
    | DeviceDecision(cookie: Digest, userHash: Digest, approve: bool, now: Time)
    | DeviceToken(client: Client, deviceHash: Digest, draws: Draws, now: Time)
    | SignOut(user: Id, session: Id, now: Time)
    | OidcLogout(hint: IDToken, cookie: Digest, now: Time)
    | SignOutOthers(user: Id, exceptSession: Id, ids: seq<Id>, now: Time)
    | WithdrawConsent(user: Id, clientID: Id, now: Time)
    | DisableClient(clientID: Id, now: Time)
    | SetUserStatus(user: Id, active: bool)

  /** What the randomness guarantees: fresh draws. */
  ghost predicate Legal(y: System, e: Event) {
    match e
    case Login(id, s) =>
      && id !in y.sessions && id != "" && s.user != ""
      && (forall other :: other in y.sessions ==> y.sessions[other].hash != s.hash)
      && (forall h :: h in y.idTokens ==> h.session != id)
    case Authorize(_, _, code, _, _) => FreshCode(y.store, code)
    case DecideConsent(_, _, _, code, _, _) => FreshCode(y.store, code)
    case Exchange(_, _, _, _, d, _) => FreshDraws(y.store, d)
    case Refresh(_, _, _, d, _) => FreshAccess(y.store, d.access) && FreshRefresh(y.store, d.refresh)
    case ClientCredentials(_, _, d, _) => FreshAccess(y.store, d.access)
    case DeviceStart(_, _, deviceHash, _, _, _) => FreshDevice(y.store, deviceHash)
    case DeviceToken(_, _, d, _) => FreshDraws(y.store, d)
    case _ => true
  }

  ghost function Next(y: System, e: Event): System {
    match e
    case Login(id, s) => LoginStep(y, id, s)
    case Authorize(cookie, q, code, drawn, now) => AuthorizeStep(y, cookie, q, code, drawn, now).sys
    case DecideConsent(cookie, q, allow, code, drawn, now) => ConsentStep(y, cookie, q, allow, code, drawn, now).sys
    case Exchange(c, hash, uri, challenge, d, now) => ExchangeStep(y, c, hash, uri, challenge, d, now).sys
    case Refresh(c, hash, words, d, now) => RefreshStep(y, c, hash, words, d, now).sys
    case ClientCredentials(c, words, d, now) => ClientCredentialsStep(y, c, words, d, now).sys
    case RevokeToken(c, hash, hint, now) => RevokeTokenStep(y, c, hash, hint, now)
    case DeviceStart(c, words, deviceHash, userHash, drawn, now) =>
      DeviceStartStep(y, c, words, deviceHash, userHash, drawn, now).sys
    case DeviceDecision(cookie, userHash, approve, now) => DeviceDecisionStep(y, cookie, userHash, approve, now).sys
    case DeviceToken(c, deviceHash, d, now) => DeviceTokenStep(y, c, deviceHash, d, now).sys
    case SignOut(user, session, now) => SignOutStep(y, user, session, now)
    case OidcLogout(hint, cookie, now) => OidcLogoutStep(y, hint, cookie, now).sys
    case SignOutOthers(user, exceptSession, ids, now) => SignOutOthersStep(y, user, exceptSession, ids, now)
    case WithdrawConsent(user, client, now) => y.(store := DeleteConsent(y.store, user, client, now).store)
    case DisableClient(client, now) => y.(store := RevokeClientTokens(y.store, client, now))
    case SetUserStatus(user, active) => UserStatusStep(y, user, active)
  }

  ghost function Run(y: System, es: seq<Event>): System
    decreases |es|
  {
    if es == [] then y else Run(Next(y, es[0]), es[1..])
  }

  ghost predicate LegalRun(y: System, es: seq<Event>)
    decreases |es|
  {
    es == [] || (Legal(y, es[0]) && LegalRun(Next(y, es[0]), es[1..]))
  }

  lemma StepKeepsInv(y: System, e: Event)
    requires Inv(y) && Legal(y, e)
    ensures Inv(Next(y, e))
  {
    hide Inv, LoginStep, AuthorizeStep, ConsentStep, ExchangeStep, RefreshStep, ClientCredentialsStep, RevokeTokenStep,
         DeviceStartStep, DeviceDecisionStep, DeviceTokenStep, SignOutStep, OidcLogoutStep, SignOutOthersStep,
         UserStatusStep, DeleteConsent, RevokeClientTokens, Others, FreshDraws, FreshCode, FreshAccess, FreshRefresh,
         FreshDevice;
    match e
    case Login(id, s) => LoginKeeps(y, id, s);
    case Authorize(cookie, q, code, drawn, now) => AuthorizeKeeps(y, cookie, q, code, drawn, now);
    case DecideConsent(cookie, q, allow, code, drawn, now) => ConsentKeeps(y, cookie, q, allow, code, drawn, now);
    case Exchange(c, hash, uri, challenge, d, now) => ExchangeKeeps(y, c, hash, uri, challenge, d, now);
    case Refresh(c, hash, words, d, now) => RefreshKeeps(y, c, hash, words, d, now);
    case ClientCredentials(c, words, d, now) => ClientCredentialsKeeps(y, c, words, d, now);
    case RevokeToken(c, hash, hint, now) => RevokeTokenKeeps(y, c, hash, hint, now);
    case DeviceStart(c, words, deviceHash, userHash, drawn, now) =>
      DeviceStartKeeps(y, c, words, deviceHash, userHash, drawn, now);
    case DeviceDecision(cookie, userHash, approve, now) => DeviceDecisionKeeps(y, cookie, userHash, approve, now);
    case DeviceToken(c, deviceHash, d, now) => DeviceTokenKeeps(y, c, deviceHash, d, now);
    case SignOut(user, session, now) => SignOutKeeps(y, user, session, now);
    case OidcLogout(hint, cookie, now) => OidcLogoutKeeps(y, hint, cookie, now);
    case SignOutOthers(user, exceptSession, ids, now) => SignOutOthersKeeps(y, user, exceptSession, ids, now);
    case WithdrawConsent(user, client, now) => DeleteConsentKeeps(y, user, client, now);
    case DisableClient(client, now) => RevokeClientKeeps(y, client, now);
    case SetUserStatus(user, active) => UserStatusKeeps(y, user, active);
  }

  /** The invariants hold in every state every run reaches. */
  lemma {:induction false} RunKeepsInv(y: System, es: seq<Event>)
    requires Inv(y) && LegalRun(y, es)
    ensures Inv(Run(y, es))
    decreases |es|
  {
    hide Inv;
    if es != [] {
      StepKeepsInv(y, es[0]);
      RunKeepsInv(Next(y, es[0]), es[1..]);
    }
  }

  lemma ReachableInv(es: seq<Event>)
    requires LegalRun(INIT, es)
    ensures Inv(Run(INIT, es))
  {
    hide Run, LegalRun;
    InitInv();
    hide Inv;
    RunKeepsInv(INIT, es);
  }

  lemma InitInv()
    ensures Inv(INIT)
  {
  }

  // ---- Evolution along runs ----

  lemma IssueEvolves(y: System, c: Client, user: Id, session: Id, scopes: seq<string>, d: Draws, root: Root, now: Time)
    ensures Evolves(y.store, IssueUserTokens(y, c, user, session, scopes, d, root, now).sys.store)
    ensures IssueUserTokens(y, c, user, session, scopes, d, root, now).sys.sessions == y.sessions
  {
    assert Evolves(y.store, y.store);
    hide CodesEvolve, DevicesEvolve;
  }

  lemma {:induction false} CleanUpEvolves(s: Store, user: Id, ids: seq<Id>, now: Time)
    ensures Evolves(s, CleanUp(s, user, ids, now)) && SameSizes(s, CleanUp(s, user, ids, now))
  {
    if ids != [] {
      var n := |ids| - 1;
      CleanUpEvolves(s, user, ids[..n], now);
      var before := CleanUp(s, user, ids[..n], now);
      RevokeMatchingEvolves(before, OfSession(user, ids[n]), now);
      EvolvesTransitive(s, before, CleanUp(s, user, ids, now));
    }
  }

  lemma RefreshStepEvolves(y: System, c: Client, hash: Digest, words: seq<string>, d: Draws, now: Time)
    ensures Evolved(y, RefreshStep(y, c, hash, words, d, now).sys)
  {
    SameEvolved(y);
    hide Evolved, ParseScopes, RotateRefresh, FinishRefresh;
    var parsed := ParseScopes(words, c.allowedScopes, false);
    var asked := if words == [] then None else parsed;
    var next := Replacement(d.refresh, c.id, asked, now, now + c.refreshLifetime);
    var out := RotateRefresh(y.store, hash, next, now);
    RotateEvolves(y.store, hash, next, now);
    StoreEvolved(y, out.store);
    if out.res.Ok? {
      var current := out.res.value;
      var i := RefreshIndex(y.store.refresh, hash);
      var root := if i < |y.refreshRoots| then y.refreshRoots[i] else NoRoot;
      FinishedEvolves(y, y.(store := out.store, refreshRoots := y.refreshRoots + [root]), c, current,
                      if asked.None? then current.scope else asked.value, d, root, now);
    }
  }

  lemma SameEvolved(y: System)
    ensures Evolved(y, y)
  {
  }

  lemma StoreEvolved(y: System, s: Store)
    requires Evolves(y.store, s)
    ensures Evolved(y, y.(store := s))
  {
  }

  lemma FinishedEvolves(y: System, y1: System, c: Client, current: RefreshToken, scopes: seq<string>, d: Draws,
                        root: Root, now: Time)
    requires Evolves(y.store, y1.store) && y1.sessions == y.sessions
    ensures Evolved(y, FinishRefresh(y1, c, current, scopes, d, root, now).sys)
  {
  }

  lemma AuthorizeStepEvolves(y: System, cookie: Digest, q: AuthorizationRequest, hash: Digest, drawn: bool, now: Time)
    ensures Evolved(y, AuthorizeStep(y, cookie, q, hash, drawn, now).sys)
  {
  }

  lemma ClientCredentialsStepEvolves(y: System, c: Client, words: seq<string>, d: Draws, now: Time)
    ensures Evolved(y, ClientCredentialsStep(y, c, words, d, now).sys)
  {
  }

  lemma RevokeTokenStepEvolves(y: System, c: Client, hash: Digest, refreshHint: bool, now: Time)
    ensures Evolved(y, RevokeTokenStep(y, c, hash, refreshHint, now))
  {
    assert Evolved(y, y);
    hide Evolves, TableEvolves, RevokeRefreshToken, RevokeAccessToken;
    RevokeRefreshTokenEvolves(y.store, hash, c.id, now);
    RevokeAccessTokenEvolves(y.store, hash, c.id, now);
  }

  lemma DeviceStartStepEvolves(y: System, c: Client, words: seq<string>, deviceHash: Digest, userHash: Digest,
                               drawn: bool, now: Time)
    ensures Evolved(y, DeviceStartStep(y, c, words, deviceHash, userHash, drawn, now).sys)
  {
  }

  lemma DeviceDecisionStepEvolves(y: System, cookie: Digest, userHash: Digest, approve: bool, now: Time)
    ensures Evolved(y, DeviceDecisionStep(y, cookie, userHash, approve, now).sys)
  {
    assert Evolved(y, y);
    var current := CurrentSession(y, cookie, now);
    if current.Some? {
      var s := y.sessions[current.value];
      DecideDeviceEvolves(y.store, userHash, s.user, s.auth, approve, now);
    }
    hide Evolves, DecideDevice;
  }

  lemma SignOutStepEvolves(y: System, user: Id, session: Id, now: Time)
    ensures Evolved(y, SignOutStep(y, user, session, now))
  {
  }

  lemma OidcLogoutStepEvolves(y: System, hint: IDToken, cookie: Digest, now: Time)
    ensures Evolved(y, OidcLogoutStep(y, hint, cookie, now).sys)
  {
    SameEvolved(y);
    hide Evolves, CleanUp, LogoutSessions;
    CleanUpEvolves(y.store, hint.subject, LogoutSessions(hint, CurrentSession(y, cookie, now)), now);
  }

  lemma SignOutOthersStepEvolves(y: System, user: Id, exceptSession: Id, ids: seq<Id>, now: Time)
    ensures Evolved(y, SignOutOthersStep(y, user, exceptSession, ids, now))
  {
    var before := CleanUp(y.store, user, ids, now);
    CleanUpEvolves(y.store, user, ids, now);
    RevokeMatchingEvolves(before, OfUser(user, exceptSession), now);
    EvolvesTransitive(y.store, before, RevokeUserTokens(before, user, exceptSession, now));
    hide Evolves, CleanUp, RevokeMatching;
  }

  /** No grant is lost or un-marked, and no session comes back to life. */
  ghost predicate Evolved(y: System, z: System) {
    Evolves(y.store, z.store) && TableEvolves(y.sessions, z.sessions)
  }

  lemma StepEvolves(y: System, e: Event)
    requires Legal(y, e)
    ensures Evolved(y, Next(y, e))
  {
    assert Evolved(y, y);
    match e
    case Login(id, s) =>
    case Authorize(cookie, q, code, drawn, now) => AuthorizeStepEvolves(y, cookie, q, code, drawn, now);
    case DecideConsent(cookie, q, allow, code, drawn, now) => ConsentStepEvolves(y, cookie, q, allow, code, drawn, now);
    case Exchange(c, hash, uri, challenge, d, now) => ExchangeStepEvolves(y, c, hash, uri, challenge, d, now);
    case Refresh(c, hash, words, d, now) => RefreshStepEvolves(y, c, hash, words, d, now);
    case ClientCredentials(c, words, d, now) => ClientCredentialsStepEvolves(y, c, words, d, now);
    case RevokeToken(c, hash, hint, now) => RevokeTokenStepEvolves(y, c, hash, hint, now);
    case DeviceStart(c, words, deviceHash, userHash, drawn, now) =>
      DeviceStartStepEvolves(y, c, words, deviceHash, userHash, drawn, now);
    case DeviceDecision(cookie, userHash, approve, now) => DeviceDecisionStepEvolves(y, cookie, userHash, approve, now);
    case DeviceToken(c, deviceHash, d, now) => DeviceTokenStepEvolves(y, c, deviceHash, d, now);
    case SignOut(user, session, now) => SignOutStepEvolves(y, user, session, now);
    case OidcLogout(hint, cookie, now) => OidcLogoutStepEvolves(y, hint, cookie, now);
    case SignOutOthers(user, exceptSession, ids, now) => SignOutOthersStepEvolves(y, user, exceptSession, ids, now);
    case WithdrawConsent(user, client, now) => DeleteConsentEvolves(y.store, user, client, now);
    case DisableClient(client, now) => RevokeMatchingEvolves(y.store, OfClient(client), now);
    case SetUserStatus(user, active) =>
  }

  lemma ConsentStepEvolves(y: System, cookie: Digest, q: AuthorizationRequest, allow: bool, hash: Digest, drawn: bool,
                           now: Time)
    ensures Evolved(y, ConsentStep(y, cookie, q, allow, hash, drawn, now).sys)
  {
    hide DevicesEvolve, AccessesEvolve, RefreshesEvolve, GrantConsent;
    var current := CurrentSession(y, cookie, now);
    if current.Some? {
      GrantConsentEvolves(y.store, y.sessions[current.value].user, q.client, q.scope, now);
    }
    EvolvesSelf(y.store);
  }

  lemma ExchangeStepEvolves(y: System, c: Client, hash: Digest, uri: string, challenge: string, d: Draws, now: Time)
    ensures Evolved(y, ExchangeStep(y, c, hash, uri, challenge, d, now).sys)
  {
    assert Evolved(y, y);
    var out := ConsumeCode(y.store, hash, c.id, uri, challenge, now);
    ConsumeCodeEvolves(y.store, hash, c.id, uri, challenge, now);
    hide Evolves, IssueUserTokens, TableEvolves;
    if c.codeGrant && out.res.Ok? {
      var code := out.res.value;
      var root := CodeRoot(CodeIndex(y.store.codes, hash));
      IssueEvolves(y.(store := out.store), c, code.user, code.session, code.scope, d, root, now);
      EvolvesTransitive(y.store, out.store, ExchangeStep(y, c, hash, uri, challenge, d, now).sys.store);
    }
  }

  lemma DeviceTokenStepEvolves(y: System, c: Client, deviceHash: Digest, d: Draws, now: Time)
    ensures Evolved(y, DeviceTokenStep(y, c, deviceHash, d, now).sys)
  {
    assert Evolved(y, y);
    var out := PollDevice(y.store, deviceHash, c.id, now);
    PollDeviceEvolves(y.store, deviceHash, c.id, now);
    hide Evolves, IssueUserTokens, TableEvolves;
    if c.deviceGrant && out.res.Ok? {
      var device := out.res.value;
      var root := DeviceRoot(DeviceIndex(y.store.devices, deviceHash, c.id));
      IssueEvolves(y.(store := out.store), c, device.user, "", device.scope, d, root, now);
      EvolvesTransitive(y.store, out.store, DeviceTokenStep(y, c, deviceHash, d, now).sys.store);
    }
  }

  lemma {:induction false} RunEvolves(y: System, es: seq<Event>)
    requires LegalRun(y, es)
    ensures Evolved(y, Run(y, es))
    decreases |es|
  {
    if es != [] {
      var z := Next(y, es[0]);
      StepEvolves(y, es[0]);
      RunEvolves(z, es[1..]);
      EvolvesTransitive(y.store, z.store, Run(y, es).store);
      hide Evolves;
    } else {
      assert Evolved(y, y);
    }
  }
}
