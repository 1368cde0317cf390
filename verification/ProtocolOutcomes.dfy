/** What each handler answers and leaves, read off the stored grants, sessions and consents before the call. */
module ProtocolOutcomes {
  import opened Prelude
  import opened Scopes
  import opened GrantStore
  import opened GrantInvariants
  import opened Sessions
  import opened Protocol
  import opened ProtocolInvariants
  import opened Runs
  import opened GrantTheorems

  // ---- Sign-in ----

  /** The cookie opens this session: it is the session's own, unrevoked, unexpired, and its user may sign in. */
  predicate SignedIn(y: System, cookie: Digest, now: Time, id: Id) {
    && id in y.sessions && y.sessions[id].hash == cookie && y.sessions[id].revokedAt.None?
    && now < y.sessions[id].expiresAt && y.sessions[id].user in y.activeUsers
  }

  /** No cookie opens a session past its expiry, a revoked one or a suspended user's; any other it opens. */
  lemma CookieOpens(es: seq<Event>, cookie: Digest, now: Time, id: Id)
    requires LegalRun(INIT, es)
    ensures CurrentSession(Run(INIT, es), cookie, now) == Some(id) <==> SignedIn(Run(INIT, es), cookie, now, id)
  {
    ReachableInv(es);
    hide Run, LegalRun;
    SignedInIs(Run(INIT, es), cookie, now);
  }

  lemma SignedInIs(y: System, cookie: Digest, now: Time)
    requires WellFormed(y.sessions)
    ensures forall id :: CurrentSession(y, cookie, now) == Some(id) <==> SignedIn(y, cookie, now, id)
    ensures CurrentSession(y, cookie, now) == None <==> forall id :: !SignedIn(y, cookie, now, id)
  {
    forall id | SignedIn(y, cookie, now, id) ensures CurrentSession(y, cookie, now) == Some(id) {
      assert Found(y.sessions, id, cookie, now);
    }
    var current := CurrentSession(y, cookie, now);
    assert current.Some? ==> Found(y.sessions, current.value, cookie, now) && SignedIn(y, cookie, now, current.value);
  }

  /** What the recheck of a grant asks for: an active user, their live session if there is one, and their consent. */
  lemma RecheckIs(y: System, user: Id, client: Id, session: Id, scopes: seq<string>, now: Time)
    requires Inv(y)
    ensures GrantValid(y, user, client, session, scopes, now) <==>
            && user in y.activeUsers && Covered(y.store.consents, user, client, scopes)
            && (session != "" ==>
                  && user != "" && session in y.sessions && y.sessions[session].user == user
                  && y.sessions[session].revokedAt.None? && now < y.sessions[session].expiresAt)
  {
  }

  /** An access token is found exactly when it is stored, unrevoked and unexpired. */
  lemma FoundAccess(y: System, hash: Digest, now: Time)
    requires Inv(y)
    ensures forall i :: 0 <= i < |y.store.access| && y.store.access[i].token.hash == hash ==>
              var r := y.store.access[i];
              FindAccess(y.store, hash, now) ==
              if r.revokedAt.None? && now < r.token.expiresAt then Ok(r.token) else Err(NotFound)
    ensures FindAccess(y.store, hash, now).Ok? ==>
              exists i :: 0 <= i < |y.store.access| && y.store.access[i].token.hash == hash
  {
  }

  /** A refresh token exactly when it is stored, unspent and unexpired. */
  lemma FoundRefresh(y: System, hash: Digest, now: Time)
    requires Inv(y)
    ensures forall i :: 0 <= i < |y.store.refresh| && y.store.refresh[i].token.hash == hash ==>
              var r := y.store.refresh[i];
              FindRefresh(y.store, hash, now) ==
              if Usable(r) && now < r.token.expiresAt then Ok(r.token) else Err(NotFound)
    ensures FindRefresh(y.store, hash, now).Ok? ==>
              exists i :: 0 <= i < |y.store.refresh| && y.store.refresh[i].token.hash == hash
  {
  }

  /** Only the last use of the cookie's live session has moved. */
  predicate Browsed(y: System, z: System, cookie: Digest, now: Time) {
    && z.activeUsers == y.activeUsers && z.idTokens == y.idTokens && z.sessions.Keys == y.sessions.Keys
    && forall id :: id in y.sessions ==>
         var s := y.sessions[id];
         z.sessions[id] == if s.hash == cookie && s.revokedAt.None? && now < s.expiresAt
                           then s.(lastSeenAt := now) else s
  }

  lemma SeenIsBrowsed(y: System, cookie: Digest, now: Time)
    requires WellFormed(y.sessions)
    ensures Browsed(y, Seen(y, cookie, now), cookie, now) && Seen(y, cookie, now).store == y.store
  {
    forall id | id in y.sessions && y.sessions[id].hash == cookie && y.sessions[id].revokedAt.None? &&
        now < y.sessions[id].expiresAt
      ensures Lookup(y.sessions, cookie, now) == Some(id)
    {
      assert Found(y.sessions, id, cookie, now);
    }
  }

  // ---- The authorization endpoint ----

  /** The code carries the request and the session it was issued under, for five minutes. */
  predicate CodeFor(r: CodeRecord, hash: Digest, q: AuthorizationRequest, id: Id, s: Session, now: Time) {
    && r.consumedAt == None && r.revokedAt == None
    && r.code.hash == hash && r.code.client == q.client && r.code.redirectURI == q.redirectURI
    && r.code.scope == q.scope && r.code.nonce == q.nonce && r.code.challenge == q.challenge
    && r.code.user == s.user && r.code.session == id && r.code.auth == s.auth
    && r.code.createdAt == now && r.code.expiresAt == now + 5 * MINUTE
  }

  /** Exactly this code was added. */
  predicate CodeAdded(s: Store, t: Store, hash: Digest, q: AuthorizationRequest, id: Id, session: Session, now: Time) {
    && |t.codes| == |s.codes| + 1 && t.codes[..|s.codes|] == s.codes
    && CodeFor(t.codes[|s.codes|], hash, q, id, session, now)
    && t.access == s.access && t.refresh == s.refresh && t.devices == s.devices
  }

  /** A code is issued exactly to a signed-in user who has consented, unless the client asks for the prompt again. */
  lemma AuthorizeOutcomes(y: System, cookie: Digest, q: AuthorizationRequest, hash: Digest, drawn: bool, now: Time)
    requires Inv(y)
    ensures var r := AuthorizeStep(y, cookie, q, hash, drawn, now);
            var z := r.sys.store;
            && Browsed(y, r.sys, cookie, now) && z.consents == y.store.consents
            && ((forall id :: !SignedIn(y, cookie, now, id)) ==> r.res == Err(Unauthorized) && z == y.store)
            && forall id :: SignedIn(y, cookie, now, id) ==>
                 var s := y.sessions[id];
                 if q.promptConsent || !Covered(y.store.consents, s.user, q.client, q.scope)
                 then r.res == Err(ConsentRequired) && z == y.store
                 else if !drawn then r.res == Err(ServerError) && z == y.store
                 else r.res == Ok(hash) && CodeAdded(y.store, z, hash, q, id, s, now)
  {
    SignedInIs(y, cookie, now);
    SeenIsBrowsed(y, cookie, now);
    var current := CurrentSession(y, cookie, now);
    if current.Some? { FindConsentIsCovered(y.store, y.sessions[current.value].user, q.client, q.scope); }
    hide Inv, CurrentSession, Seen, SignedIn, FindConsent, Covered;
  }

  /** The user has allowed the client this scope. */
  predicate Allowed(consents: seq<Consent>, user: Id, client: Id, scope: string) {
    exists c :: c in consents && c.user == user && c.client == client && scope in c.scopes
  }

  /** Exactly these scopes were added, for this user and this client. */
  ghost predicate Widened(a: seq<Consent>, b: seq<Consent>, user: Id, client: Id, scopes: seq<string>) {
    forall u, c, x :: Allowed(b, u, c, x) <==> Allowed(a, u, c, x) || (u == user && c == client && x in scopes)
  }

  lemma GrantWidens(s: Store, user: Id, client: Id, scopes: seq<string>, now: Time)
    ensures var t := GrantConsent(s, user, client, scopes, now);
            Widened(s.consents, t.consents, user, client, scopes) && t == s.(consents := t.consents)
  {
    var i := ConsentIndex(s.consents, user, client);
    var t := GrantConsent(s, user, client, scopes, now);
    var before := if i < |s.consents| then s.consents[i].scopes else [];
    MergeIsSortedUnion(before, scopes);
    assert forall x :: x in Elems(before) + Elems(scopes) <==> x in before || x in scopes;
    forall u, c, x ensures Allowed(t.consents, u, c, x) <==>
        Allowed(s.consents, u, c, x) || (u == user && c == client && x in scopes)
    {
      WidenedAt(s.consents, t.consents, i, scopes, user, client, u, c, x);
    }
  }

  lemma WidenedAt(a: seq<Consent>, b: seq<Consent>, i: nat, scopes: seq<string>, user: Id, client: Id, u: Id, c: Id,
                  x: string)
    requires i <= |a| && |b| == (if i == |a| then |a| + 1 else |a|)
    requires b[i].user == user && b[i].client == client
    requires i < |a| ==> a[i].user == user && a[i].client == client
    requires forall j :: 0 <= j < |a| && j != i ==> b[j] == a[j]
    requires forall w :: w in b[i].scopes <==> (i < |a| && w in a[i].scopes) || w in scopes
    ensures Allowed(b, u, c, x) <==> Allowed(a, u, c, x) || (u == user && c == client && x in scopes)
  {
  }

  /** The answer decides: a denial changes nothing, and only an approval widens the consent and issues a code. */
  lemma ConsentOutcomes(y: System, cookie: Digest, q: AuthorizationRequest, allow: bool, hash: Digest, drawn: bool,
                        now: Time)
    requires Inv(y)
    ensures var r := ConsentStep(y, cookie, q, allow, hash, drawn, now);
            var z := r.sys.store;
            && Browsed(y, r.sys, cookie, now)
            && ((forall id :: !SignedIn(y, cookie, now, id)) ==> r.res == Err(Unauthorized) && z == y.store)
            && forall id :: SignedIn(y, cookie, now, id) ==>
                 var s := y.sessions[id];
                 if !allow then r.res == Err(ConsentRequired) && z == y.store
                 else
                   && Widened(y.store.consents, z.consents, s.user, q.client, q.scope)
                   && if drawn then r.res == Ok(hash) && CodeAdded(y.store, z, hash, q, id, s, now)
                      else r.res == Err(ServerError) && z == y.store.(consents := z.consents)
  {
    SignedInIs(y, cookie, now);
    SeenIsBrowsed(y, cookie, now);
    var current := CurrentSession(y, cookie, now);
    if current.Some? { GrantWidens(y.store, y.sessions[current.value].user, q.client, q.scope, now); }
    hide Inv, CurrentSession, Seen, SignedIn, GrantConsent, Widened;
  }

  // ---- Tokens ----

  predicate AccessFor(r: AccessRecord, d: Draws, c: Client, user: Id, session: Id, family: Id, scope: seq<string>,
                      now: Time) {
    && r.revokedAt == None && r.token.hash == d.access && r.token.client == c.id && r.token.user == user
    && r.token.session == session && r.token.family == family && r.token.scope == scope
    && r.token.issuedAt == now && r.token.expiresAt == now + c.accessLifetime
  }

  predicate RefreshFor(r: RefreshRecord, d: Draws, c: Client, user: Id, session: Id, scope: seq<string>, now: Time) {
    && r.consumedAt == None && r.revokedAt == None && r.token.hash == d.refresh && r.token.family == d.family
    && r.token.client == c.id && r.token.user == user && r.token.session == session && r.token.scope == scope
    && r.token.issuedAt == now && r.token.expiresAt == now + c.refreshLifetime
  }

  /** Exactly one access token was added, and one refresh token of the same new family if the client may refresh. */
  predicate TokensAdded(s: Store, t: Store, d: Draws, c: Client, user: Id, session: Id, scope: seq<string>, now: Time) {
    && |t.access| == |s.access| + 1 && t.access[..|s.access|] == s.access
    && AccessFor(t.access[|s.access|], d, c, user, session, if c.refreshGrant then d.family else "", scope, now)
    && if c.refreshGrant then
         && |t.refresh| == |s.refresh| + 1 && t.refresh[..|s.refresh|] == s.refresh
         && RefreshFor(t.refresh[|s.refresh|], d, c, user, session, scope, now)
       else t.refresh == s.refresh
  }

  /** An ID token goes with the answer exactly when openid was granted; if it cannot be signed there is no answer. */
  predicate Answered(y: System, r: Reply<TokenResponse>, d: Draws, c: Client, user: Id, session: Id,
                     scope: seq<string>) {
    var refresh := if c.refreshGrant then Some(d.refresh) else None;
    if "openid" !in scope
    then r.res == Ok(TokenResponse(d.access, refresh, scope, None)) && r.sys.idTokens == y.idTokens
    else if d.signed
    then r.res == Ok(TokenResponse(d.access, refresh, scope, Some(IDToken(user, session)))) &&
         r.sys.idTokens == y.idTokens + {IDToken(user, session)}
    else r.res == Err(ServerError) && r.sys.idTokens == y.idTokens
  }

  predicate Drawn(c: Client, d: Draws) { d.accessDrawn && (c.refreshGrant ==> d.refreshDrawn) }

  /** Tokens are issued exactly if the user is still welcome and everything was drawn; else nothing is. */
  predicate Issued(y: System, r: Reply<TokenResponse>, c: Client, user: Id, session: Id, scope: seq<string>, d: Draws,
                   now: Time) {
    && r.sys.sessions == y.sessions && r.sys.activeUsers == y.activeUsers
    && if StillWelcome(y, user, session, now) && Drawn(c, d)
       then
         TokensAdded(y.store, r.sys.store, d, c, user, session, scope, now) &&
         Answered(y, r, d, c, user, session, scope)
       else r.res == Err(ServerError) && r.sys.store.access == y.store.access && r.sys.store.refresh == y.store.refresh
            && r.sys.idTokens == y.idTokens
  }

  lemma IssueOutcomes(y: System, c: Client, user: Id, session: Id, scope: seq<string>, d: Draws, root: Root, now: Time)
    requires GrantValid(y, user, c.id, session, scope, now) <==> StillWelcome(y, user, session, now)
    ensures var r := IssueUserTokens(y, c, user, session, scope, d, root, now);
            && Issued(y, r, c, user, session, scope, d, now)
            && r.sys.store.codes == y.store.codes && r.sys.store.devices == y.store.devices
            && r.sys.store.consents == y.store.consents
  {
  }

  /** This code may be exchanged: by its client, with its redirect URI and challenge, once and in time. */
  predicate GoodCode(r: CodeRecord, hash: Digest, client: Id, uri: string, challenge: string, now: Time) {
    && r.code.hash == hash && r.code.client == client && r.code.redirectURI == uri && r.code.challenge == challenge
    && r.consumedAt == None && r.revokedAt == None && now < r.code.expiresAt
  }

  /** An exchange uses up exactly a good code and issues its user's tokens for its scope; else nothing changes. */
  lemma ExchangeOutcomes(y: System, c: Client, hash: Digest, uri: string, challenge: string, d: Draws, now: Time)
    requires Inv(y)
    ensures var r := ExchangeStep(y, c, hash, uri, challenge, d, now);
            && (!c.codeGrant ==> r.res == Err(UnauthorizedClient) && r.sys == y)
            && (c.codeGrant && (forall k :: 0 <= k < |y.store.codes| ==>
                                  !GoodCode(y.store.codes[k], hash, c.id, uri, challenge, now)) ==>
                  r.res == Err(InvalidGrant) && r.sys == y)
            && forall k :: c.codeGrant && 0 <= k < |y.store.codes| &&
                           GoodCode(y.store.codes[k], hash, c.id, uri, challenge, now) ==>
                 var code := y.store.codes[k].code;
                 && r.sys.store.codes == y.store.codes[k := y.store.codes[k].(consumedAt := Some(now))]
                 && r.sys.store.devices == y.store.devices && r.sys.store.consents == y.store.consents
                 && Issued(y, r, c, code.user, code.session, code.scope, d, now)
  {
    var k := CodeIndex(y.store.codes, hash);
    GoodCodeIsFound(y, hash, c.id, uri, challenge, now);
    if c.codeGrant && k < |y.store.codes| && GoodCode(y.store.codes[k], hash, c.id, uri, challenge, now) {
      var y1 := y.(store := ConsumeCode(y.store, hash, c.id, uri, challenge, now).store);
      var code := y.store.codes[k].code;
      CodeRecheck(y, k, now);
      assert GrantValid(y1, code.user, c.id, code.session, code.scope, now)
             <==> StillWelcome(y1, code.user, code.session, now);
      hide Inv, GrantValid, StillWelcome, IssueUserTokens, Issued;
      IssueOutcomes(y1, c, code.user, code.session, code.scope, d, CodeRoot(k), now);
      var r := ExchangeStep(y, c, hash, uri, challenge, d, now);
      SameIssued(y, y1, r, c, code.user, code.session, code.scope, d, now);
    }
    hide Inv, GrantValid, StillWelcome, IssueUserTokens, Issued;
  }

  lemma SameIssued(y: System, y1: System, r: Reply<TokenResponse>, c: Client, user: Id, session: Id, scope: seq<string>,
                   d: Draws, now: Time)
    requires Issued(y1, r, c, user, session, scope, d, now)
    requires y1.sessions == y.sessions && y1.activeUsers == y.activeUsers && y1.idTokens == y.idTokens
    requires y1.store.access == y.store.access && y1.store.refresh == y.store.refresh
    ensures Issued(y, r, c, user, session, scope, d, now)
  {
  }

  lemma GoodCodeIsFound(y: System, hash: Digest, client: Id, uri: string, challenge: string, now: Time)
    requires Inv(y)
    ensures var out := ConsumeCode(y.store, hash, client, uri, challenge, now);
            && (forall k :: 0 <= k < |y.store.codes| &&
                            GoodCode(y.store.codes[k], hash, client, uri, challenge, now) ==>
                  && CodeIndex(y.store.codes, hash) == k && out.res == Ok(y.store.codes[k].code)
                  && out.store == y.store.(codes := y.store.codes[k := y.store.codes[k].(consumedAt := Some(now))]))
            && (out.res.Ok? ==> exists k :: 0 <= k < |y.store.codes| &&
                                  GoodCode(y.store.codes[k], hash, client, uri, challenge, now))
            && (out.res.Err? ==> out.store == y.store)
  {
  }

  /** The recheck of a live code can only fail on the user's status or the session's expiry. */
  lemma CodeRecheck(y: System, k: nat, now: Time)
    requires Inv(y) && k < |y.store.codes| && y.store.codes[k].revokedAt.None?
    ensures var code := y.store.codes[k].code;
            GrantValid(y, code.user, code.client, code.session, code.scope, now)
            <==> StillWelcome(y, code.user, code.session, now)
  {
  }

  // ---- Client credentials ----

  /** What a client may ask for itself: some of its scopes, but neither openid nor roles; by default all but openid. */
  predicate OwnScope(words: seq<string>, allowed: seq<string>, scope: set<string>) {
    && "openid" !in scope && "roles" !in scope && scope <= Elems(allowed)
    && if words != [] then scope == Elems(words)
       else scope == Elems(allowed) - {"openid"} && (scope != {} || allowed == [])
  }

  lemma {:induction false} WithoutOpenIDIs(s: seq<string>)
    ensures Elems(WithoutOpenID(s)) == Elems(s) - {"openid"} && (WithoutOpenID(s) == [] <==> Elems(s) <= {"openid"})
  {
    if s != [] {
      WithoutOpenIDIs(s[1..]);
      var rest, r := WithoutOpenID(s[1..]), WithoutOpenID(s);
      assert s == [s[0]] + s[1..] && r == (if s[0] != "openid" then [s[0]] else []) + rest;
      assert Elems(s) == {s[0]} + Elems(s[1..]) && s[0] in Elems(s);
      assert Elems(r) == (if s[0] != "openid" then {s[0]} else {}) + Elems(rest);
    }
  }

  /** A confidential client gets a token of its own, of nobody's session and family, exactly for a scope it may ask. */
  lemma ClientCredentialsOutcomes(y: System, c: Client, words: seq<string>, d: Draws, now: Time)
    ensures var r := ClientCredentialsStep(y, c, words, d, now);
            && (r.res.Ok? <==>
                  && c.credentialsGrant && c.confidential && d.accessDrawn
                  && exists scope :: OwnScope(words, c.allowedScopes, scope))
            && (r.res.Err? ==> r.sys == y)
            && (r.res.Ok? ==>
                  && r.res.value.access == d.access && r.res.value.refresh == None && r.res.value.idToken == None
                  && OwnScope(words, c.allowedScopes, Elems(r.res.value.scope))
                  && |r.sys.store.access| == |y.store.access| + 1
                  && r.sys.store.access[..|y.store.access|] == y.store.access
                  && AccessFor(r.sys.store.access[|y.store.access|], d, c, "", "", "", r.res.value.scope, now)
                  && r.sys.store.codes == y.store.codes && r.sys.store.refresh == y.store.refresh
                  && r.sys.store.devices == y.store.devices && r.sys.store.consents == y.store.consents
                  && r.sys.sessions == y.sessions && r.sys.idTokens == y.idTokens)
  {
    var asked := if words == [] then WithoutOpenID(c.allowedScopes) else words;
    WithoutOpenIDIs(c.allowedScopes);
    ParsedScopesAreAllowed(asked, c.allowedScopes, false);
    assert forall x :: x in Elems(c.allowedScopes) <==> x in c.allowedScopes;
    var parsed := ParseScopes(asked, c.allowedScopes, false);
    if parsed.Some? {
      assert forall x :: x in parsed.value <==> x in Elems(parsed.value);
      OwnScopeIs(words, c.allowedScopes, Elems(parsed.value));
    }
    hide ParseScopes, WithoutOpenID;
  }

  lemma OwnScopeIs(words: seq<string>, allowed: seq<string>, parsed: set<string>)
    requires var asked := if words != [] then Elems(words) else Elems(allowed) - {"openid"};
             parsed == if words == [] && asked == {} then Elems(allowed) else asked
    requires parsed <= Elems(allowed)
    ensures (exists scope :: OwnScope(words, allowed, scope)) <==> "openid" !in parsed && "roles" !in parsed
    ensures OwnScope(words, allowed, parsed) <==> "openid" !in parsed && "roles" !in parsed
  {
    assert allowed != [] ==> allowed[0] in Elems(allowed);
    if words != [] { assert words[0] in Elems(words); }
    assert OwnScope(words, allowed, parsed) <==> "openid" !in parsed && "roles" !in parsed;
  }

  // ---- Starting a device ----

  /** A device grant starts pending, unowned, for fifteen minutes and five seconds between polls. */
  lemma DeviceStartOutcomes(y: System, c: Client, words: seq<string>, deviceHash: Digest, userHash: Digest, drawn: bool,
                            now: Time)
    ensures var r := DeviceStartStep(y, c, words, deviceHash, userHash, drawn, now);
            var asked := Elems(if words == [] then c.allowedScopes else words);
            && (r.res.Ok? <==> c.deviceGrant && asked <= Elems(c.allowedScopes) && drawn)
            && (r.res.Err? ==> r.sys == y)
            && (r.res.Ok? ==>
                  && r.res.value == deviceHash
                  && |r.sys.store.devices| == |y.store.devices| + 1
                  && r.sys == y.(store := y.store.(devices := r.sys.store.devices))
                  && r.sys.store.devices[..|y.store.devices|] == y.store.devices
                  && var v := r.sys.store.devices[|y.store.devices|];
                     && v.deviceHash == deviceHash && v.userHash == userHash && v.client == c.id && v.user == ""
                     && Elems(v.scope) == asked && v.status == DevicePending && v.auth == NO_AUTH && v.createdAt == now
                     && v.expiresAt == now + 15 * MINUTE && v.interval == 5 * SECOND && v.lastPollAt == None)
  {
    ParsedScopesAreAllowed(words, c.allowedScopes, false);
    hide ParseScopes;
  }

  // ---- Deciding on a device ----

  predicate Waiting(v: Device, userHash: Digest, now: Time) {
    v.userHash == userHash && v.status == DevicePending && now < v.expiresAt
  }

  /** Exactly this device got this user's decision. */
  predicate Decided(s: Store, t: Store, k: nat, user: Id, auth: AuthContext, approve: bool) {
    && k < |s.devices| == |t.devices| && (forall j :: 0 <= j < |s.devices| && j != k ==> t.devices[j] == s.devices[j])
    && t.devices[k] == s.devices[k].(user := user, auth := auth,
                                     status := if approve then DeviceApproved else DeviceDenied)
    && t.codes == s.codes && t.access == s.access && t.refresh == s.refresh
  }

  /** A signed-in user decides on a waiting device: denied for good, or approved with the consent it needs. */
  lemma DeviceDecisionOutcomes(y: System, cookie: Digest, userHash: Digest, approve: bool, now: Time)
    requires Inv(y)
    ensures var r := DeviceDecisionStep(y, cookie, userHash, approve, now);
            var z := r.sys.store;
            && Browsed(y, r.sys, cookie, now)
            && ((forall id :: !SignedIn(y, cookie, now, id)) ==> r.res == Err(Unauthorized) && z == y.store)
            && forall id :: SignedIn(y, cookie, now, id) ==>
                 var s := y.sessions[id];
                 if forall v :: v in y.store.devices ==> !Waiting(v, userHash, now)
                 then r.res == Err(InvalidGrant) && z == y.store
                 else
                   && r.res == Ok(())
                   && exists k :: 0 <= k < |y.store.devices| && Waiting(y.store.devices[k], userHash, now) &&
                        Decided(y.store, z, k, s.user, s.auth, approve) &&
                        if approve
                        then Widened(y.store.consents, z.consents, s.user, y.store.devices[k].client,
                                     y.store.devices[k].scope)
                        else z.consents == y.store.consents
  {
    SignedInIs(y, cookie, now);
    SeenIsBrowsed(y, cookie, now);
    var current := CurrentSession(y, cookie, now);
    if current.Some? {
      var s := y.sessions[current.value];
      DecisionOutcome(y.store, userHash, s.user, s.auth, approve, now);
    }
    hide Inv, CurrentSession, Seen, SignedIn, DecideDevice, Widened, Decided, Waiting;
  }

  lemma DecisionOutcome(s: Store, userHash: Digest, user: Id, auth: AuthContext, approve: bool, now: Time)
    ensures var (z, answer) := (DecideDevice(s, userHash, user, auth, approve, now).store,
                                DecideDevice(s, userHash, user, auth, approve, now).res);
            if forall v :: v in s.devices ==> !Waiting(v, userHash, now) then answer.Err? && z == s
            else
              && answer.Ok?
              && exists k :: 0 <= k < |s.devices| && Waiting(s.devices[k], userHash, now) &&
                   Decided(s, z, k, user, auth, approve) &&
                   if approve then Widened(s.consents, z.consents, user, s.devices[k].client, s.devices[k].scope)
                   else z.consents == s.consents
  {
    var k := PendingDeviceIndex(s.devices, userHash, now);
    var p := (d: Device) => d.userHash == userHash && now < d.expiresAt && d.status == DevicePending;
    if k < |s.devices| {
      assert s.devices[k] in s.devices && Waiting(s.devices[k], userHash, now);
      var d := s.devices[k].(user := user, auth := auth, status := if approve then DeviceApproved else DeviceDenied);
      var decided := s.(devices := s.devices[k := d]);
      GrantWidens(decided, user, d.client, d.scope, now);
      hide GrantConsent, Widened;
      assert Decided(s, DecideDevice(s, userHash, user, auth, approve, now).store, k, user, auth, approve);
    } else {
      forall v | v in s.devices ensures !Waiting(v, userHash, now) {
        var j :| 0 <= j < |s.devices| && s.devices[j] == v;
        assert !p(s.devices[j]);
      }
    }
  }

  // ---- Polling ----

  /** The client polls for this device. */
  predicate Polls(v: Device, deviceHash: Digest, client: Id) { v.deviceHash == deviceHash && v.client == client }

  predicate Ready(v: Device, now: Time) {
    && v.status == DeviceApproved && now < v.expiresAt
    && (v.lastPollAt.Some? ==> v.lastPollAt.value + v.interval <= now)
  }

  /** An expired device stays as it is, a hasty poll costs five seconds more, any other learns how the device stands. */
  predicate Refused(v: Device, w: Device, error: GrantError, now: Time) {
    if v.expiresAt <= now then error == Expired && w == v
    else if v.lastPollAt.Some? && now < v.lastPollAt.value + v.interval
    then error == SlowDown && w == v.(interval := v.interval + 5 * SECOND, lastPollAt := Some(now))
    else
      && w == v.(lastPollAt := Some(now))
      && error == if v.status == DevicePending then Pending else if v.status == DeviceDenied then Denied else Consumed
  }

  lemma PollOutcome(s: Store, deviceHash: Digest, client: Id, now: Time)
    ensures var out, k := PollDevice(s, deviceHash, client, now), DeviceIndex(s.devices, deviceHash, client);
            && out.store == s.(devices := out.store.devices) && |out.store.devices| == |s.devices|
            && (k == |s.devices| ==> out == Out(s, Err(NotFound)))
            && (k < |s.devices| ==>
                  var v, w := s.devices[k], out.store.devices[k];
                  && (forall j :: 0 <= j < |s.devices| && j != k ==> out.store.devices[j] == s.devices[j])
                  && if Ready(v, now)
                     then out.res == Ok(w) && w == v.(status := DeviceConsumed, lastPollAt := Some(now))
                     else out.res.Err? && Refused(v, w, out.res.error, now))
  {
  }

  /**
   Tokens are issued exactly on an approved device of this client that is unexpired and not polled too soon, to the user
   who approved it and for its scope; every other poll issues nothing.
   */
  lemma DeviceTokenOutcomes(y: System, c: Client, deviceHash: Digest, d: Draws, now: Time)
    requires Inv(y)
    ensures var r := DeviceTokenStep(y, c, deviceHash, d, now);
            && r.sys.store.codes == y.store.codes && r.sys.store.consents == y.store.consents
            && r.sys.sessions == y.sessions && |r.sys.store.devices| == |y.store.devices|
            && (!c.deviceGrant ==> r.res == Err(UnauthorizedClient) && r.sys == y)
            && (c.deviceGrant && (forall v :: v in y.store.devices ==> !Polls(v, deviceHash, c.id)) ==>
                  r.res == Err(DeviceError(NotFound)) && r.sys == y)
            && forall k ::
                 c.deviceGrant && 0 <= k < |y.store.devices| && Polls(y.store.devices[k], deviceHash, c.id) ==>
                 var v, w := y.store.devices[k], r.sys.store.devices[k];
                 && (forall j :: 0 <= j < |y.store.devices| && j != k ==> r.sys.store.devices[j] == y.store.devices[j])
                 && if Ready(v, now)
                    then w == v.(status := DeviceConsumed, lastPollAt := Some(now)) &&
                         Issued(y, r, c, v.user, "", v.scope, d, now)
                    else r.res.Err? && r.res.error.DeviceError? && Refused(v, w, r.res.error.error, now) &&
                         r.sys.store.access == y.store.access && r.sys.store.refresh == y.store.refresh &&
                         r.sys.idTokens == y.idTokens
  {
    var k := DeviceIndex(y.store.devices, deviceHash, c.id);
    DeviceIsFound(y, deviceHash, c.id);
    PollOutcome(y.store, deviceHash, c.id, now);
    hide PollDevice, Refused, DeviceIndex;
    if c.deviceGrant && PollDevice(y.store, deviceHash, c.id, now).res.Ok? {
      var v := y.store.devices[k];
      var y1 := y.(store := PollDevice(y.store, deviceHash, c.id, now).store);
      DeviceRecheck(y, k, now);
      assert GrantValid(y1, v.user, c.id, "", v.scope, now) <==> StillWelcome(y1, v.user, "", now);
      hide Inv, GrantValid, StillWelcome, IssueUserTokens, Issued;
      IssueOutcomes(y1, c, v.user, "", v.scope, d, DeviceRoot(k), now);
      SameIssued(y, y1, DeviceTokenStep(y, c, deviceHash, d, now), c, v.user, "", v.scope, d, now);
    }
    hide Inv, GrantValid, StillWelcome, IssueUserTokens, Issued;
  }

  lemma DeviceIsFound(y: System, deviceHash: Digest, client: Id)
    requires Inv(y)
    ensures var n := DeviceIndex(y.store.devices, deviceHash, client);
            && (forall k :: 0 <= k < |y.store.devices| && Polls(y.store.devices[k], deviceHash, client) ==> n == k)
            && (n < |y.store.devices| ==> y.store.devices[n] in y.store.devices)
  {
  }

  lemma DeviceRecheck(y: System, k: nat, now: Time)
    requires Inv(y) && k < |y.store.devices| && y.store.devices[k].status == DeviceApproved
    ensures var v := y.store.devices[k];
            GrantValid(y, v.user, v.client, "", v.scope, now) <==> StillWelcome(y, v.user, "", now)
  {
  }
}
