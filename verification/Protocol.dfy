/**
 The authorization server as a state machine: each HTTP handler is one atomic step over the grant
 store, the sessions and the user directory. Random draws and the clock reading are inputs.
 */
module Protocol {
  import opened Prelude
  import opened Scopes
  import opened GrantStore
  import opened Sessions

  /** The grant a token descends from, by its position in the store. */
  datatype Root = NoRoot | CodeRoot(index: nat) | DeviceRoot(index: nat)

  /** What a signed ID token says: its subject and, when bound to one, its session. */
  datatype IDToken = IDToken(subject: Id, session: Id)

  /**
   The server's state. accessRoots and refreshRoots run in parallel with the two token collections and
   idTokens collects what was signed; the three are history and no step reads the roots.
   */
  datatype System = System(
    store: Store,
    sessions: Table,
    activeUsers: set<Id>,
    accessRoots: seq<Root>,
    refreshRoots: seq<Root>,
    idTokens: set<IDToken>)

  const INIT: System := System(EMPTY_STORE, map[], {}, [], [], {})

  datatype Client = Client(
    id: Id, allowedScopes: seq<string>, codeGrant: bool, refreshGrant: bool, deviceGrant: bool,
    credentialsGrant: bool, confidential: bool, accessLifetime: Time, refreshLifetime: Time)

  /** Random material a step may draw; a draw can fail, and so can signing. */
  datatype Draws = Draws(
    access: Digest, refresh: Digest, family: Id, refreshDrawn: bool, accessDrawn: bool, signed: bool)

  datatype AuthorizationRequest = AuthorizationRequest(
    client: Id, redirectURI: string, scope: seq<string>, nonce: string, challenge: string, promptConsent: bool)

  datatype Failure =
    | Unauthorized
    | UnauthorizedClient
    | InvalidGrant
    | BadScope
    | ServerError
    | ConsentRequired
    | DeviceError(error: GrantError)
    | BadRequest

  datatype TokenResponse = TokenResponse(access: Digest, refresh: Option<Digest>, scope: seq<string>,
                                         idToken: Option<IDToken>)

  datatype Reply<T> = Reply(sys: System, res: Result<T, Failure>)

  const CODE_LIFETIME: Time := 5 * MINUTE
  const DEVICE_LIFETIME: Time := 15 * MINUTE
  const DEVICE_INTERVAL: Time := 5 * SECOND

  // ---- Shared checks ----

  predicate HasConsent(s: Store, user: Id, client: Id, scopes: seq<string>) {
    var c := FindConsent(s, user, client);
    c.Ok? && ScopesCover(c.value.scopes, scopes)
  }

  /** The recheck every token use and every issuance makes. */
  predicate GrantValid(y: System, user: Id, client: Id, session: Id, scopes: seq<string>, now: Time) {
    && user in y.activeUsers
    && (session != "" ==> user != "" && Active(y.sessions, user, session, now))
    && HasConsent(y.store, user, client, scopes)
  }

  /** The session behind a cookie, if its user may still sign in. */
  ghost function CurrentSession(y: System, cookie: Digest, now: Time): Option<Id> {
    var found := Lookup(y.sessions, cookie, now);
    if found.Some? && y.sessions[found.value].user in y.activeUsers then found else None
  }

  /** Looking a cookie up touches the session it finds. */
  ghost function Seen(y: System, cookie: Digest, now: Time): System {
    var found := Lookup(y.sessions, cookie, now);
    if found.Some? then y.(sessions := Touch(y.sessions, found.value, now)) else y
  }

  // ---- Issuing ----

  function IssueAccess(y: System, c: Client, user: Id, session: Id, family: Id, scopes: seq<string>, d: Draws,
                       root: Root, now: Time): System {
    y.(store := SaveAccess(y.store,
                           AccessToken(d.access, c.id, user, session, family, scopes, now, now + c.accessLifetime)),
       accessRoots := y.accessRoots + [root])
  }

  function IssueRefresh(y: System, c: Client, user: Id, session: Id, scopes: seq<string>, d: Draws, root: Root,
                        now: Time): System {
    y.(store := SaveRefresh(y.store,
                            RefreshToken(d.refresh, d.family, c.id, user, session, scopes, now,
                                         now + c.refreshLifetime)),
       refreshRoots := y.refreshRoots + [root])
  }

  function IssueUserTokens(y: System, c: Client, user: Id, session: Id, scopes: seq<string>, d: Draws, root: Root,
                           now: Time)
    : Reply<TokenResponse>
  {
    if !GrantValid(y, user, c.id, session, scopes, now) then Reply(y, Err(ServerError))
    else if (c.refreshGrant && !d.refreshDrawn) || !d.accessDrawn then Reply(y, Err(ServerError))
    else
      var y1 := IssueAccess(y, c, user, session, if c.refreshGrant then d.family else "", scopes, d, root, now);
      var y2 := if c.refreshGrant then IssueRefresh(y1, c, user, session, scopes, d, root, now) else y1;
      var refresh := if c.refreshGrant then Some(d.refresh) else None;
      if "openid" !in scopes then Reply(y2, Ok(TokenResponse(d.access, refresh, scopes, None)))
      else if !d.signed then Reply(y2, Err(ServerError))
      else
        var id := IDToken(user, session);
        Reply(y2.(idTokens := y2.idTokens + {id}), Ok(TokenResponse(d.access, refresh, scopes, Some(id))))
  }

  // ---- Authorization endpoint ----

  function IssueCode(y: System, q: AuthorizationRequest, session: Id, hash: Digest, drawn: bool,
                     now: Time): Reply<Digest>
    requires session in y.sessions
  {
    if !drawn then Reply(y, Err(ServerError))
    else
      var s := y.sessions[session];
      var code := AuthorizationCode(hash, q.client, s.user, session, q.redirectURI, q.scope, q.nonce, q.challenge,
                                    s.auth, now, now + CODE_LIFETIME);
      Reply(y.(store := SaveCode(y.store, code)), Ok(hash))
  }

  ghost function AuthorizeStep(y: System, cookie: Digest, q: AuthorizationRequest, hash: Digest, drawn: bool,
                               now: Time): Reply<Digest> {
    var current := CurrentSession(y, cookie, now);
    var y1 := Seen(y, cookie, now);
    if current.None? then Reply(y1, Err(Unauthorized))
    else if q.promptConsent || !HasConsent(y1.store, y.sessions[current.value].user, q.client, q.scope) then
        Reply(y1, Err(ConsentRequired))
    else IssueCode(y1, q, current.value, hash, drawn, now)
  }

  ghost function ConsentStep(y: System, cookie: Digest, q: AuthorizationRequest, allow: bool, hash: Digest, drawn: bool,
                             now: Time): Reply<Digest> {
    var current := CurrentSession(y, cookie, now);
    var y1 := Seen(y, cookie, now);
    if current.None? then Reply(y1, Err(Unauthorized))
    else if !allow then Reply(y1, Err(ConsentRequired))
    else
      var y2 := y1.(store := GrantConsent(y1.store, y.sessions[current.value].user, q.client, q.scope, now));
      IssueCode(y2, q, current.value, hash, drawn, now)
  }

  // ---- Token endpoint ----

  function ExchangeStep(y: System, c: Client, hash: Digest, redirectURI: string, challenge: string, d: Draws,
                        now: Time): Reply<TokenResponse> {
    if !c.codeGrant then Reply(y, Err(UnauthorizedClient))
    else
      var out := ConsumeCode(y.store, hash, c.id, redirectURI, challenge, now);
      var y1 := y.(store := out.store);
      if out.res.Err? then Reply(y1, Err(InvalidGrant))
      else
        var code := out.res.value;
        IssueUserTokens(y1, c, code.user, code.session, code.scope, d, CodeRoot(CodeIndex(y.store.codes, hash)), now)
  }

  /** After a rotation: the recheck and the access token, or the end of the family just extended. */
  function FinishRefresh(y: System, c: Client, current: RefreshToken, scopes: seq<string>, d: Draws, root: Root,
                         now: Time)
    : Reply<TokenResponse>
  {
    if !GrantValid(y, current.user, current.client, current.session, scopes, now) then
      Reply(y.(store := RevokeRefreshToken(y.store, d.refresh, c.id, now).store), Err(InvalidGrant))
    else if !d.accessDrawn then
      Reply(y.(store := RevokeRefreshToken(y.store, d.refresh, c.id, now).store), Err(ServerError))
    else
      Reply(IssueAccess(y, c, current.user, current.session, current.family, scopes, d, root, now),
            Ok(TokenResponse(d.access, Some(d.refresh), scopes, None)))
  }

  function RefreshStep(y: System, c: Client, hash: Digest, words: seq<string>, d: Draws,
                       now: Time): Reply<TokenResponse> {
    var parsed := ParseScopes(words, c.allowedScopes, false);
    if !c.refreshGrant then Reply(y, Err(UnauthorizedClient))
    else if words != [] && parsed.None? then Reply(y, Err(BadScope))
    else if !d.refreshDrawn then Reply(y, Err(ServerError))
    else
      var asked := if words == [] then None else parsed;
      var out := RotateRefresh(y.store, hash, Replacement(d.refresh, c.id, asked, now, now + c.refreshLifetime), now);
      if out.res.Err? then Reply(y.(store := out.store),
                                 Err(if out.res.error == InvalidScope then BadScope else InvalidGrant))
      else
        var current := out.res.value;
        var scopes := if asked.None? then current.scope else asked.value;
        var i := RefreshIndex(y.store.refresh, hash);
        var root := if i < |y.refreshRoots| then y.refreshRoots[i] else NoRoot;
        var y1 := y.(store := out.store, refreshRoots := y.refreshRoots + [root]);
        FinishRefresh(y1, c, current, scopes, d, root, now)
  }

  function WithoutOpenID(s: seq<string>): seq<string> {
    if s == [] then [] else (if s[0] != "openid" then [s[0]] else []) + WithoutOpenID(s[1..])
  }

  function ClientCredentialsStep(y: System, c: Client, words: seq<string>, d: Draws, now: Time): Reply<TokenResponse> {
    if !c.credentialsGrant || !c.confidential then Reply(y, Err(UnauthorizedClient))
    else
      var parsed := ParseScopes(if words == [] then WithoutOpenID(c.allowedScopes) else words, c.allowedScopes, false);
      if parsed.None? || "openid" in parsed.value || "roles" in parsed.value then Reply(y, Err(BadScope))
      else if !d.accessDrawn then Reply(y, Err(ServerError))
      else
        Reply(IssueAccess(y, c, "", "", "", parsed.value, d, NoRoot, now),
              Ok(TokenResponse(d.access, None, parsed.value, None)))
  }

  function RevokeTokenStep(y: System, c: Client, hash: Digest, refreshHint: bool, now: Time): System {
    var asRefresh := RevokeRefreshToken(y.store, hash, c.id, now);
    var asAccess := RevokeAccessToken(y.store, hash, c.id, now);
    y.(store :=
      if refreshHint then (if asRefresh.res.Ok? then asRefresh.store else asAccess.store)
      else (if asAccess.res.Ok? then asAccess.store else asRefresh.store))
  }

  // ---- Device flow ----

  function DeviceStartStep(y: System, c: Client, words: seq<string>, deviceHash: Digest, userHash: Digest, drawn: bool,
                           now: Time): Reply<Digest> {
    if !c.deviceGrant then Reply(y, Err(UnauthorizedClient))
    else
      var parsed := ParseScopes(words, c.allowedScopes, false);
      if parsed.None? then Reply(y, Err(BadScope))
      else if !drawn then Reply(y, Err(ServerError))
      else
        var device := Device(deviceHash, userHash, c.id, "", parsed.value, DevicePending, NO_AUTH,
                             now, now + DEVICE_LIFETIME, DEVICE_INTERVAL, None);
        Reply(y.(store := SaveDevice(y.store, device)), Ok(deviceHash))
  }

  ghost function DeviceDecisionStep(y: System, cookie: Digest, userHash: Digest, approve: bool, now: Time): Reply<()> {
    var current := CurrentSession(y, cookie, now);
    var y1 := Seen(y, cookie, now);
    if current.None? then Reply(y1, Err(Unauthorized))
    else
      var s := y.sessions[current.value];
      var out := DecideDevice(y1.store, userHash, s.user, s.auth, approve, now);
      Reply(y1.(store := out.store), if out.res.Ok? then Ok(()) else Err(InvalidGrant))
  }

  function DeviceTokenStep(y: System, c: Client, deviceHash: Digest, d: Draws, now: Time): Reply<TokenResponse> {
    if !c.deviceGrant then Reply(y, Err(UnauthorizedClient))
    else
      var out := PollDevice(y.store, deviceHash, c.id, now);
      var y1 := y.(store := out.store);
      if out.res.Err? then Reply(y1, Err(DeviceError(out.res.error)))
      else
        var device := out.res.value;
        IssueUserTokens(y1, c, device.user, "", device.scope, d,
                        DeviceRoot(DeviceIndex(y.store.devices, deviceHash, c.id)), now)
  }

  // ---- Sessions, sign-out and administration ----

  function LoginStep(y: System, id: Id, s: Session): System { y.(sessions := y.sessions[id := s]) }

  /** Revokes the grants of the given sessions of one user. */
  function CleanUp(s: Store, user: Id, ids: seq<Id>, now: Time): Store {
    if ids == [] then s else RevokeSessionTokens(CleanUp(s, user, ids[..|ids| - 1], now), user, ids[|ids| - 1], now)
  }

  /** Signing one session out, from the account page, the administration or the logout form. */
  function SignOutStep(y: System, user: Id, session: Id, now: Time): System {
    if session in y.sessions && y.sessions[session].user == user then
      y.(sessions := RevokeOne(y.sessions, session, now), store := RevokeSessionTokens(y.store, user, session, now))
    else y
  }

  /** The sessions an OIDC logout ends: the one its hint names and the caller's own. */
  function LogoutSessions(hint: IDToken, current: Option<Id>): seq<Id> {
    (if hint.session == "" then [] else [hint.session]) +
    (if current.Some? && current.value != hint.session then [current.value] else [])
  }

  ghost function OidcLogoutStep(y: System, hint: IDToken, cookie: Digest, now: Time): Reply<()> {
    var current := CurrentSession(y, cookie, now);
    var y1 := Seen(y, cookie, now);
    if hint !in y.idTokens || hint.subject == "" then Reply(y, Err(BadRequest))
    else if current.Some? && y.sessions[current.value].user != hint.subject then Reply(y1, Err(BadRequest))
    else
      var t1 := if hint.session == "" then y1.sessions else RevokeOne(y1.sessions, hint.session, now);
      var t2 := if current.Some? && current.value != hint.session then RevokeOne(t1, current.value, now) else t1;
      Reply(y1.(sessions := t2, store := CleanUp(y1.store, hint.subject, LogoutSessions(hint, current), now)), Ok(()))
  }

  /** Ending every session of a user but one, as a password change or an administrator does. */
  function SignOutOthersStep(y: System, user: Id, exceptSession: Id, ids: seq<Id>, now: Time): System {
    y.(sessions := RevokeSet(y.sessions, Others(y.sessions, user, exceptSession, now), now),
       store := RevokeUserTokens(CleanUp(y.store, user, ids, now), user, exceptSession, now))
  }

  function UserStatusStep(y: System, user: Id, active: bool): System {
    y.(activeUsers := if active then y.activeUsers + {user} else y.activeUsers - {user})
  }
}
