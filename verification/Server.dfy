/** The handlers: sequences of repository calls, each proved to take exactly its step of the protocol. */
module Server {
  import opened Prelude
  import opened Scopes
  import opened GrantStore
  import opened GrantRepository
  import opened Sessions
  import opened Protocol

  class AuthorizationServer {
    const grants: MemoryRepository
    const sessions: SessionRepository
    var activeUsers: set<Id>
    var idTokens: set<IDToken>
    ghost var accessRoots: seq<Root>
    ghost var refreshRoots: seq<Root>

    ghost function View(): System
      reads this, grants, sessions
    {
      System(grants.View(), sessions.records, activeUsers, accessRoots, refreshRoots, idTokens)
    }

    ghost predicate Valid()
      reads this, sessions
    {
      WellFormed(sessions.records)
    }

    constructor ()
      ensures Valid() && View() == INIT
      ensures fresh(grants) && fresh(sessions)
    {
      grants := new MemoryRepository();
      sessions := new SessionRepository();
      activeUsers, idTokens, accessRoots, refreshRoots := {}, {}, [], [];
    }

    // ---- Shared checks ----

    method ValidateGrant(user: Id, client: Id, session: Id, scopes: seq<string>, now: Time) returns (valid: bool)
      ensures valid <==> GrantValid(View(), user, client, session, scopes, now)
    {
      if user !in activeUsers { return false; }
      if session != "" {
        if user == "" { return false; }
        var active := sessions.IsActive(user, session, now);
        if !active { return false; }
      }
      var consent := grants.FindConsent(user, client);
      return consent.Ok? && ScopesCover(consent.value.scopes, scopes);
    }

    method CurrentSession(cookie: Digest, now: Time) returns (current: Option<Id>)
      requires Valid()
      modifies sessions
      ensures Valid()
      ensures current == Protocol.CurrentSession(old(View()), cookie, now)
      ensures View() == Seen(old(View()), cookie, now)
    {
      var found := sessions.Find(cookie, now);
      if found.None? || sessions.records[found.value].user !in activeUsers { return None; }
      return found;
    }

    // ---- Issuing ----

    method IssueAccessToken(c: Client, user: Id, session: Id, family: Id, scopes: seq<string>, d: Draws,
                            ghost root: Root, now: Time)
      returns (issued: bool)
      modifies this`accessRoots, grants`accessTokens
      ensures issued == d.accessDrawn
      ensures View() == if issued then IssueAccess(old(View()), c, user, session, family, scopes, d, root, now)
                else old(View())
    {
      if !d.accessDrawn { return false; }
      grants.SaveAccessToken(AccessToken(d.access, c.id, user, session, family, scopes, now, now + c.accessLifetime));
      accessRoots := accessRoots + [root];
      return true;
    }

    method IssueUserTokens(c: Client, user: Id, session: Id, scopes: seq<string>, d: Draws, ghost root: Root, now: Time)
      returns (res: Result<TokenResponse, Failure>)
      modifies this`accessRoots, this`refreshRoots, this`idTokens, grants`accessTokens, grants`refresh
      ensures Reply(View(), res) == Protocol.IssueUserTokens(old(View()), c, user, session, scopes, d, root, now)
    {
      var valid := ValidateGrant(user, c.id, session, scopes, now);
      if !valid { return Err(ServerError); }
      var refresh: Option<Digest> := None;
      var family: Id := "";
      if c.refreshGrant {
        if !d.refreshDrawn { return Err(ServerError); }
        refresh, family := Some(d.refresh), d.family;
      }
      var issued := IssueAccessToken(c, user, session, family, scopes, d, root, now);
      if !issued { return Err(ServerError); }
      if refresh.Some? {
        grants.SaveRefreshToken(RefreshToken(d.refresh, family, c.id, user, session, scopes, now,
                                             now + c.refreshLifetime));
        refreshRoots := refreshRoots + [root];
      }
      var signed: Option<IDToken> := None;
      if "openid" in scopes {
        if !d.signed { return Err(ServerError); }
        signed := Some(IDToken(user, session));
        idTokens := idTokens + {signed.value};
      }
      return Ok(TokenResponse(d.access, refresh, scopes, signed));
    }

    // ---- Authorization endpoint ----

    method IssueAuthorizationCode(q: AuthorizationRequest, session: Id, code: Digest, drawn: bool, now: Time)
      returns (res: Result<Digest, Failure>)
      requires session in sessions.records
      modifies grants`codes
      ensures Reply(View(), res) == IssueCode(old(View()), q, session, code, drawn, now)
    {
      if !drawn { return Err(ServerError); }
      var current := sessions.records[session];
      grants.SaveAuthorizationCode(
        AuthorizationCode(code, q.client, current.user, session, q.redirectURI, q.scope, q.nonce, q.challenge,
                          current.auth, now, now + CODE_LIFETIME));
      return Ok(code);
    }

    method Authorize(cookie: Digest, q: AuthorizationRequest, code: Digest, drawn: bool, now: Time)
      returns (res: Result<Digest, Failure>)
      requires Valid()
      modifies sessions, grants`codes
      ensures Valid()
      ensures Reply(View(), res) == AuthorizeStep(old(View()), cookie, q, code, drawn, now)
    {
      var current := CurrentSession(cookie, now);
      if current.None? { return Err(Unauthorized); }
      if q.promptConsent { return Err(ConsentRequired); }
      var consent := grants.FindConsent(sessions.records[current.value].user, q.client);
      if consent.Err? || !ScopesCover(consent.value.scopes, q.scope) { return Err(ConsentRequired); }
      res := IssueAuthorizationCode(q, current.value, code, drawn, now);
    }

    method ConsentDecision(cookie: Digest, q: AuthorizationRequest, allow: bool, code: Digest, drawn: bool, now: Time)
      returns (res: Result<Digest, Failure>)
      requires Valid()
      modifies sessions, grants`codes, grants`consents
      ensures Valid()
      ensures Reply(View(), res) == ConsentStep(old(View()), cookie, q, allow, code, drawn, now)
    {
      var current := CurrentSession(cookie, now);
      if current.None? { return Err(Unauthorized); }
      if !allow { return Err(ConsentRequired); }
      var _ := grants.GrantConsent(sessions.records[current.value].user, q.client, q.scope, now);
      res := IssueAuthorizationCode(q, current.value, code, drawn, now);
    }

    // ---- Token endpoint ----

    method AuthorizationCodeToken(c: Client, hash: Digest, redirectURI: string, challenge: string, d: Draws, now: Time)
      returns (res: Result<TokenResponse, Failure>)
      modifies this`accessRoots, this`refreshRoots, this`idTokens, grants
      ensures Reply(View(), res) == ExchangeStep(old(View()), c, hash, redirectURI, challenge, d, now)
    {
      if !c.codeGrant { return Err(UnauthorizedClient); }
      ghost var root := CodeRoot(CodeIndex(grants.codes, hash));
      var record := grants.ConsumeAuthorizationCode(hash, c.id, redirectURI, challenge, now);
      if record.Err? { return Err(InvalidGrant); }
      res := IssueUserTokens(c, record.value.user, record.value.session, record.value.scope, d, root, now);
    }

    method RefreshTokenGrant(c: Client, hash: Digest, words: seq<string>, d: Draws, now: Time)
      returns (res: Result<TokenResponse, Failure>)
      modifies this`accessRoots, this`refreshRoots, grants`accessTokens, grants`refresh
      ensures Reply(View(), res) == RefreshStep(old(View()), c, hash, words, d, now)
    {
      hide RotateRefresh, Protocol.FinishRefresh, ParseScopes;
      if !c.refreshGrant { return Err(UnauthorizedClient); }
      var scopes: Option<seq<string>> := None;
      if words != [] {
        scopes := RequestedScopes(words, c.allowedScopes, false);
        if scopes.None? { return Err(BadScope); }
      }
      if !d.refreshDrawn { return Err(ServerError); }
      ghost var i := RefreshIndex(grants.refresh, hash);
      ghost var root := if i < |refreshRoots| then refreshRoots[i] else NoRoot;
      var current := grants.RotateRefreshToken(hash, Replacement(d.refresh, c.id, scopes, now, now + c.refreshLifetime),
                                               now);
      if current.Err? {
        return Err(if current.error == InvalidScope then BadScope else InvalidGrant);
      }
      refreshRoots := refreshRoots + [root];
      var token := current.value;
      res := FinishRefresh(c, token, if scopes.None? then token.scope else scopes.value, d, root, now);
    }

    /** The rest of the refresh handler once the rotation has happened. */
    method FinishRefresh(c: Client, token: RefreshToken, scopes: seq<string>, d: Draws, ghost root: Root, now: Time)
      returns (res: Result<TokenResponse, Failure>)
      modifies this`accessRoots, grants`accessTokens, grants`refresh
      ensures Reply(View(), res) == Protocol.FinishRefresh(old(View()), c, token, scopes, d, root, now)
    {
      var valid := ValidateGrant(token.user, token.client, token.session, scopes, now);
      if !valid {
        var _ := grants.RevokeRefreshToken(d.refresh, c.id, now);
        return Err(InvalidGrant);
      }
      var issued := IssueAccessToken(c, token.user, token.session, token.family, scopes, d, root, now);
      if !issued {
        var _ := grants.RevokeRefreshToken(d.refresh, c.id, now);
        return Err(ServerError);
      }
      return Ok(TokenResponse(d.access, Some(d.refresh), scopes, None));
    }

    /** The scopes a client gets when it asks for none: its own without openid. */
    method DefaultScopes(c: Client) returns (asked: seq<string>)
      ensures asked == WithoutOpenID(c.allowedScopes)
    {
      asked := [];
      for k := 0 to |c.allowedScopes|
        invariant asked + WithoutOpenID(c.allowedScopes[k..]) == WithoutOpenID(c.allowedScopes)
      {
        ghost var rest := c.allowedScopes[k..];
        assert rest[1..] == c.allowedScopes[k + 1..] && rest[0] == c.allowedScopes[k];
        assert WithoutOpenID(rest) == (if rest[0] != "openid" then [rest[0]] else []) + WithoutOpenID(rest[1..]);
        if c.allowedScopes[k] != "openid" { asked := asked + [c.allowedScopes[k]]; }
      }
      assert c.allowedScopes[|c.allowedScopes|..] == [];
    }

    method ClientCredentialsToken(c: Client, words: seq<string>, d: Draws, now: Time)
      returns (res: Result<TokenResponse, Failure>)
      modifies this`accessRoots, grants`accessTokens
      ensures Reply(View(), res) == ClientCredentialsStep(old(View()), c, words, d, now)
    {
      if !c.credentialsGrant || !c.confidential { return Err(UnauthorizedClient); }
      var asked := words;
      if words == [] {
        asked := DefaultScopes(c);
      }
      var scopes := RequestedScopes(asked, c.allowedScopes, false);
      if scopes.None? { return Err(BadScope); }
      if "openid" in scopes.value { return Err(BadScope); }
      if "roles" in scopes.value { return Err(BadScope); }
      var issued := IssueAccessToken(c, "", "", "", scopes.value, d, NoRoot, now);
      if !issued { return Err(ServerError); }
      return Ok(TokenResponse(d.access, None, scopes.value, None));
    }

    method RevokeToken(c: Client, hash: Digest, refreshHint: bool, now: Time)
      modifies grants`accessTokens, grants`refresh
      ensures View() == RevokeTokenStep(old(View()), c, hash, refreshHint, now)
    {
      if refreshHint {
        var first := grants.RevokeRefreshToken(hash, c.id, now);
        if first.Ok? { return; }
        var _ := grants.RevokeAccessToken(hash, c.id, now);
        return;
      }
      var first := grants.RevokeAccessToken(hash, c.id, now);
      if first.Ok? { return; }
      var _ := grants.RevokeRefreshToken(hash, c.id, now);
    }

    // ---- Device flow ----

    method DeviceAuthorization(c: Client, words: seq<string>, deviceHash: Digest, userHash: Digest, drawn: bool,
                               now: Time)
      returns (res: Result<Digest, Failure>)
      modifies grants`devices
      ensures Reply(View(), res) == DeviceStartStep(old(View()), c, words, deviceHash, userHash, drawn, now)
    {
      if !c.deviceGrant { return Err(UnauthorizedClient); }
      var scopes := RequestedScopes(words, c.allowedScopes, false);
      if scopes.None? { return Err(BadScope); }
      if !drawn { return Err(ServerError); }
      grants.SaveDeviceAuthorization(
        Device(deviceHash, userHash, c.id, "", scopes.value, DevicePending, NO_AUTH,
               now, now + DEVICE_LIFETIME, DEVICE_INTERVAL, None));
      return Ok(deviceHash);
    }

    method DeviceDecision(cookie: Digest, userHash: Digest, approve: bool, now: Time)
      returns (res: Result<(), Failure>)
      requires Valid()
      modifies sessions, grants`devices, grants`consents
      ensures Valid()
      ensures Reply(View(), res) == DeviceDecisionStep(old(View()), cookie, userHash, approve, now)
    {
      var current := CurrentSession(cookie, now);
      if current.None? { return Err(Unauthorized); }
      var session := sessions.records[current.value];
      var decided := grants.DecideDeviceAuthorization(userHash, session.user, session.auth, approve, now);
      return if decided.Ok? then Ok(()) else Err(InvalidGrant);
    }

    method DeviceCodeToken(c: Client, deviceHash: Digest, d: Draws, now: Time)
      returns (res: Result<TokenResponse, Failure>)
      modifies this`accessRoots, this`refreshRoots, this`idTokens, grants
      ensures Reply(View(), res) == DeviceTokenStep(old(View()), c, deviceHash, d, now)
    {
      if !c.deviceGrant { return Err(UnauthorizedClient); }
      ghost var root := DeviceRoot(DeviceIndex(grants.devices, deviceHash, c.id));
      var record := grants.PollDeviceAuthorization(deviceHash, c.id, now);
      if record.Err? { return Err(DeviceError(record.error)); }
      res := IssueUserTokens(c, record.value.user, "", record.value.scope, d, root, now);
    }

    // ---- Sign-out ----

    method CleanupRevokedSessions(user: Id, ids: seq<Id>, now: Time)
      modifies grants`codes, grants`accessTokens, grants`refresh
      ensures grants.View() == CleanUp(old(grants.View()), user, ids, now)
    {
      for k := 0 to |ids|
        invariant grants.View() == CleanUp(old(grants.View()), user, ids[..k], now)
      {
        assert ids[..k + 1][..k] == ids[..k];
        grants.RevokeSessionTokens(user, ids[k], now);
      }
      assert ids[..|ids|] == ids;
    }

    method SignOut(user: Id, session: Id, now: Time) returns (found: bool)
      modifies sessions, grants`codes, grants`accessTokens, grants`refresh
      ensures View() == SignOutStep(old(View()), user, session, now)
    {
      found := sessions.RevokeForUser(user, session, now);
      if found {
        CleanupRevokedSessions(user, [session], now);
      }
    }

    method OidcLogout(hint: IDToken, cookie: Digest, now: Time) returns (res: Result<(), Failure>)
      requires Valid()
      modifies sessions, grants`codes, grants`accessTokens, grants`refresh
      ensures Reply(View(), res) == OidcLogoutStep(old(View()), hint, cookie, now)
    {
      if hint !in idTokens || hint.subject == "" { return Err(BadRequest); }
      var current := CurrentSession(cookie, now);
      if current.Some? && sessions.records[current.value].user != hint.subject { return Err(BadRequest); }
      var ended: seq<Id> := [];
      if hint.session != "" {
        var _ := sessions.Revoke(hint.session, now);
        ended := ended + [hint.session];
      }
      if current.Some? && current.value !in ended {
        var _ := sessions.Revoke(current.value, now);
        ended := ended + [current.value];
      }
      CleanupRevokedSessions(hint.subject, ended, now);
      return Ok(());
    }

    /** The user's live sessions except one. */
    /** listed says that the session store answered; without its answer the list is empty. */
    method SessionsForRevocation(user: Id, exceptSession: Id, listed: bool, now: Time) returns (ids: seq<Id>)
      ensures forall id :: id in ids <==> listed && id in Others(sessions.records, user, exceptSession, now)
    {
      if !listed { return []; }
      var all := sessions.ListByUser(user, now);
      ids := [];
      for k := 0 to |all|
        invariant forall id :: id in ids <==> id in all[..k] && id != exceptSession
      {
        if all[k] != exceptSession { ids := ids + [all[k]]; }
      }
      assert all[..|all|] == all;
    }

    method SignOutOthers(user: Id, exceptSession: Id, listed: bool, now: Time) returns (ids: seq<Id>, count: nat)
      modifies sessions, grants
      ensures forall id :: id in ids <==> listed && id in Others(old(sessions.records), user, exceptSession, now)
      ensures View() == SignOutOthersStep(old(View()), user, exceptSession, ids, now)
    {
      ids := SessionsForRevocation(user, exceptSession, listed, now);
      count := sessions.RevokeAll(user, exceptSession, now);
      CleanupRevokedSessions(user, ids, now);
      grants.RevokeUserTokens(user, exceptSession, now);
    }
  }
}
