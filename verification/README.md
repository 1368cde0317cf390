# Certus, verified

A Dafny model of Certus, an OAuth 2.x / OpenID Connect / CAS authorization server, with proofs of what its stores and
handlers promise over every run. `dafny verify dfyconfig.toml` checks the whole project.

The in-memory repositories are classes whose loops and in-place updates are proved against functions on values. The
handlers are steps over those values, and the theorems are about arbitrary sequences of steps.

| area | files |
|---|---|
| grants, sessions, token endpoint | `Scopes`, `GrantStore`, `GrantRepository`, `Sessions`, `Protocol`, `Server`; invariants in `GrantInvariants`, `ProtocolInvariants`, `ProtocolSteps`, `Runs`; results in `GrantTheorems`, `ProtocolOutcomes`, `RevocationOutcomes`, `DeviceFlow`, `Interleaving` |
| the SQL form of the grant store | `GrantSql`, `GrantSimulation` |
| multi-factor authentication | `MfaStore`, `MfaRepository`, `MfaService`, `MfaTheorems`, `MfaAcceptance`, `MfaOverlap` |
| rate limiting, in memory and SQL | `RateLimit`, `RateLimitTheorems` |
| CAS delegation | `CasTickets`, `CasDelegation`, `CasServer`, `CasTheorems`, `CasOutcomes` |
| OIDC signing keys | `SigningKeys` |
| roles and permissions | `AccessStore`, `AccessRepository`, `AccessTheorems`, `AccessOutcomes` |
| re-encryption of stored secrets | `KeyRing`, `Rewrap`, `RewrapWrites`, `RewrapService` |
| shared | `Prelude`, `InPlace`, `Sorting` |

## Assumptions

- A handler of the OAuth and MFA parts is one atomic step with one reading of the clock. The stores lock each call on
  its own: `Interleaving` proves what holds without this, and `InterleavedRevocationBreaksFamily`,
  `InterleavedSignOutBreaksBound`, `InterleavedWithdrawalBreaksConsent` and `OverlapEscapesLockout` show what is lost.
  CAS handlers, re-encryption, the signer's rotation and the verifications of `MfaOverlap` are not atomic in the model:
  their calls interleave freely. A CAS handler's return is a step; whether its service admits the proxy callback is an
  input of the request, and a session that is gone is found by no new login.
- Nobody else stores secrets while `Rewrap` migrates; in `RewrapWrites` others do, with fresh nonces.
- Token digests, refresh families, session and key identifiers are fresh draws; families and session identifiers are
  not empty. Draws, signing and network callbacks may fail, and their outcome is an input.
- Times are integers in nanoseconds. A clock that never runs backwards is assumed only where a result says so.
- A signed ID token given as a logout hint is one the server has signed.
- One-way functions are arbitrary functions; the cipher is ideal (only the key and context that sealed a box open it);
  base64url texts round-trip and contain no dot; where a result says so, no raw ciphertext of the legacy key starts as an
  envelope does.
- SQL is modelled by the visible WHERE, SET, CASE, RETURNING and ON CONFLICT clauses; user codes are unique, scopes
  compare as sets, and error kinds a handler answers alike are one. Revocation times may differ between the stores: the
  slice store overwrites them on reuse, SQL keeps the first.

## Where the code differs from what one might expect

- A key identifier may contain a dot by its pattern, but the envelope parser cuts at the first dot
  (`internal/secrets/keyring.go:21`, `:134`). Under such a primary identifier re-encryption destroys every secret it
  moves and counts each as a success (`Rewrap.MovesDestroy`, `Rewrap.DottedExample`).
- A failed verification writes the failure count it read plus one, so wrong codes that overlap count once between them
  (`internal/mfa/mfa.go:277-287`, `MfaOverlap.OverlapExample`).
- Deleting a session's CAS tickets leaves its service tickets, and redeeming one does not look at the session
  (`internal/cas/ticket.go:214-239`, `internal/platform/http/cas.go:115-157`,
  `CasTheorems.DeletionExample`).
- A full rate-limit table evicts even when the caller's key is already in it, and can evict that very key
  (`internal/ratelimit/ratelimit.go:128-133`, `RateLimitTheorems.EvictionExample`).

## Model

| member | source | states |
|---|---|---|
| Scopes.CoverIsSubset | internal/oauth/store.go:106-113 | The scope check is set inclusion. |
| Scopes.MergeIsSortedUnion | internal/oauth/store.go:653-662 | Merging two scope lists gives the sorted list of their union, without duplicates if the first had none. |
| Scopes.SortedFormUnique | internal/oauth/store.go:653-662 | A set of scopes has one sorted, duplicate-free list, so the merged form is canonical. |
| Scopes.MergeCommutes | internal/oauth/store.go:653-662 | Two grants of consent give the same scopes in either order. |
| Scopes.MergeScopes | internal/oauth/store.go:653-662 | The loop that appends missing scopes and sorts computes the merge whose meaning the lemmas above give. |
| Scopes.ParsedScopesAreAllowed | internal/platform/http/oauth.go:1051-1075 | A scope parameter is accepted exactly when what it asks for (the client's scopes when nothing) stays within the client's scopes and has openid where required; it then names just that, without duplicates. |
| Scopes.RequestedScopes | internal/platform/http/oauth.go:1051-1075 | The loop with its seen-set returns that parsed list, and refuses exactly when a word is not allowed or openid is required and missing. |
| GrantRepository.MemoryRepository.ConsumeAuthorizationCode | internal/oauth/store.go:182-206 | Which error wins, and that success marks that one code consumed and changes nothing else. |
| GrantRepository.MemoryRepository.FindAccessToken | internal/oauth/store.go:217-229 | Finds a token exactly when one with the hash is unrevoked and unexpired. |
| GrantRepository.MemoryRepository.RevokeAccessToken | internal/oauth/store.go:231-244 | Marks the client's token, keeps an earlier revocation time, fails for another client's token. |
| GrantRepository.MemoryRepository.FindRefreshToken | internal/oauth/store.go:255-270 | Finds a token exactly when one with the hash is unconsumed, unrevoked and unexpired. |
| GrantRepository.MemoryRepository.RevokeFamilyTokens | internal/oauth/store.go:272-343 | The two marking loops shared by reuse handling and revocation reach every refresh and access token of the family and no other. |
| GrantRepository.MemoryRepository.RotateRefreshToken | internal/oauth/store.go:272-319 | Rotation in place: the outcome in the order of its checks, the consumed member, the appended successor with the inherited family, user, session and scope, or the dead family. |
| GrantRepository.MemoryRepository.RevokeRefreshToken | internal/oauth/store.go:321-343 | Revoking one of the client's tokens marks its family; another client's token is not found. |
| GrantRepository.MemoryRepository.FindDeviceByUserCode | internal/oauth/store.go:355-364 | Finds the pending, unexpired grant of a user code. |
| GrantRepository.MemoryRepository.DecideDeviceAuthorization | internal/oauth/store.go:366-395 | A decision records user, authentication and status on that grant, and an approval also widens the consent. |
| GrantRepository.MemoryRepository.PollDeviceAuthorization | internal/oauth/store.go:397-427 | The poll's answer, the interval and poll time it leaves, and the consumption of an approved grant. |
| GrantRepository.MemoryRepository.RevokeMatchingTokens | internal/oauth/store.go:617-642 | The three marking loops reach exactly the unrevoked codes, access and refresh tokens a bulk revocation names. |
| GrantRepository.MemoryRepository.RevokeUserTokens | internal/oauth/store.go:484-504 | As above for a user, sparing one session, and it denies the user's approved devices. |
| GrantRepository.MemoryRepository.RevokeClientTokens | internal/oauth/store.go:506-526 | As above for a client, denying its pending and approved devices. |
| GrantRepository.MemoryRepository.GrantConsent | internal/oauth/store.go:550-571 | Adds the scopes to the pair's consent or creates it, leaving the other consents in place. |
| GrantRepository.MemoryRepository.DeleteConsent | internal/oauth/store.go:588-615 | Splices the consent out, revokes the pair's grants and denies its approved devices, or reports that there is none. |
| Sessions.SessionRepository.Find | internal/session/memory_repository.go:42-53 | A lookup by digest finds the standing, unexpired session with it and only moves that session's last use. |
| Sessions.SessionRepository.IsActive | internal/session/memory_repository.go:55-63 | True exactly for an existing, unrevoked, unexpired session of that user. |
| Sessions.SessionRepository.ListByUser | internal/session/memory_repository.go:65-78 | Lists exactly the user's live sessions. |
| Sessions.SessionRepository.RevokeForUser | internal/session/memory_repository.go:93-104 | Revokes the session only if it is that user's. |
| Sessions.SessionRepository.RevokeAll | internal/session/memory_repository.go:106-121 | Revokes exactly the user's live sessions but one, and counts them. |
| GrantInvariants.GrantConsentEffect | internal/oauth/store.go:550-571 | A grant of consent narrows no consent, covers what was granted, and keeps one sorted, duplicate-free consent per user and client. |
| GrantInvariants.FindConsentIsCovered | internal/oauth/store.go:528-537 | The lookup finds a covering consent exactly when there is one. |
| GrantInvariants.DeleteConsentKeepsConsented | internal/oauth/store.go:588-642 | After a consent is deleted every grant still live is covered by some consent. |
| GrantInvariants.RevokeMatchingKeepsFamilies | internal/oauth/store.go:617-642 | A bulk revocation takes refresh families whole, because a family has one owner. |
| GrantInvariants.RotateKeepsFamilies | internal/oauth/store.go:272-319 | Rotation extends a chain at its live end, revokes the whole chain, or leaves it. |
| GrantInvariants.SaveAccessKeepsFamilies | internal/oauth/store.go:208-215 | Storing an access token keeps the families exactly when it fits the family it names: the write itself rechecks nothing. |
| GrantInvariants.SaveRefreshKeepsFamilies | internal/oauth/store.go:246-253 | A refresh token of a fresh family starts a chain. |
| ProtocolSteps.IssueUserTokensKeeps | internal/platform/http/oauth.go:425-519 | Issuing an access and a refresh token for a used-up grant keeps all invariants. |
| ProtocolSteps.AuthorizeKeeps | internal/platform/http/oauth.go:31-139 | A code is only issued under a covering consent and a standing session. |
| ProtocolSteps.ConsentKeeps | internal/platform/http/consent.go:100-174 | Allowing first widens the consent, so the code it issues is covered; what either answer does is `ConsentOutcomes`. |
| ProtocolSteps.ExchangeKeeps | internal/platform/http/oauth.go:286-322 | A code exchange keeps all invariants, and its code is no other token's root. |
| ProtocolSteps.RefreshKeeps | internal/platform/http/oauth.go:324-387 | A refresh keeps all invariants in each of its outcomes. |
| ProtocolSteps.ClientCredentialsKeeps | internal/platform/http/oauth.go:389-423 | A client's own token has no user, session, family or root. |
| ProtocolSteps.RevokeTokenKeeps | internal/platform/http/oauth.go:811-853 | The revocation endpoint keeps all invariants with either hint. |
| ProtocolSteps.DeviceStartKeeps | internal/platform/http/device.go:25-86 | A new device grant starts pending and needs no consent. |
| ProtocolSteps.DeviceDecisionKeeps | internal/platform/http/device.go:125-179 | An approved device has a user and a covering consent. |
| ProtocolSteps.DeviceTokenKeeps | internal/platform/http/device.go:181-224 | A poll, and the tokens it may issue, keep all invariants. |
| ProtocolSteps.CleanUpKeeps | internal/platform/http/oidc_backchannel.go:50-69 | Revoking the grants of sessions and the sessions together leaves no live grant on a dead session. |
| ProtocolSteps.SignOutKeeps | internal/platform/http/account.go:81-106 | Ending one session keeps all invariants. |
| ProtocolSteps.OidcLogoutKeeps | internal/platform/http/oauth.go:929-993 | OIDC logout keeps all invariants, although it revokes the hinted session by identifier alone: a signed hint names a session of its own subject. |
| ProtocolSteps.SignOutOthersKeeps | internal/platform/http/account.go:200-211 | Ending all sessions but one keeps all invariants, whichever of them were listed for clean-up: the revocation of the user's tokens reaches the rest. |
| ProtocolSteps.DeleteConsentKeeps | internal/platform/http/account.go:142-165 | Withdrawing a consent keeps all invariants. |
| Runs.ReachableInv | internal/platform/http/oauth.go:253-575 | In every state of every run: unique hashes, one canonical consent per pair covering every live grant, refresh families as linear chains, live grants on standing sessions of their own user, and one used-up grant behind every user token. |
| Runs.RunEvolves | internal/oauth/store.go:272-642 | Along every run no grant is lost or changes owner, no mark is taken back, and denied and consumed devices stay so. |
| Server.AuthorizationServer.ValidateGrant | internal/platform/http/oauth.go:552-575 | The recheck is the user's status, the session's standing and the consent, nothing else. |
| Server.AuthorizationServer.Authorize | internal/platform/http/oauth.go:31-139 | The handler's calls make exactly the authorization step, whose meaning `AuthorizeOutcomes` states. |
| Server.AuthorizationServer.ConsentDecision | internal/platform/http/consent.go:100-174 | The handler's calls make exactly the consent step, whose meaning `ConsentOutcomes` states. |
| Server.AuthorizationServer.IssueUserTokens | internal/platform/http/oauth.go:425-519 | Which tokens are stored at each point where issuing can fail. |
| Server.AuthorizationServer.AuthorizationCodeToken | internal/platform/http/oauth.go:286-322 | The handler's calls make exactly the exchange step. |
| Server.AuthorizationServer.RefreshTokenGrant | internal/platform/http/oauth.go:324-387 | The handler's calls, including the revocation after a failed recheck, make exactly the refresh step. |
| Server.AuthorizationServer.ClientCredentialsToken | internal/platform/http/oauth.go:389-423 | The handler's calls make exactly the client-credentials step. |
| Server.AuthorizationServer.RevokeToken | internal/platform/http/oauth.go:811-853 | The two attempts in the order of the hint make exactly the revocation step, whose meaning the three revocation outcomes below state. |
| Server.AuthorizationServer.DeviceCodeToken | internal/platform/http/device.go:181-224 | The handler's calls make exactly the device-token step. |
| Server.AuthorizationServer.OidcLogout | internal/platform/http/oauth.go:929-993 | The handler's calls make exactly the logout step. |
| Server.AuthorizationServer.SessionsForRevocation | internal/platform/http/oidc_backchannel.go:35-48 | Lists exactly the sessions that ending all but one revokes, or none when the listing fails. |
| Server.AuthorizationServer.SignOutOthers | internal/platform/http/account.go:200-211 | The handler revokes those sessions, their grants and the user's other grants, also when the listing fails. |
| GrantTheorems.LiveAccessTokenRecheck | internal/platform/http/oauth.go:552-575 | For a live access token of any run the recheck can only fail on the user's status or the session's expiry, never on consent or revocation. |
| GrantTheorems.LiveRefreshTokenRecheck | internal/platform/http/oauth.go:324-387 | In every run the same holds for a live refresh token and any scope it covers. |
| GrantTheorems.RevokedSessionStaysDead | internal/platform/http/oidc_backchannel.go:50-69 | Once a session is revoked, no grant bound to it is live in any later state of any run. |
| GrantTheorems.WithdrawnConsentKillsGrants | internal/oauth/store.go:588-642 | Every grant the user had given the client is revoked by the withdrawal and stays so in every run; a device the user had approved for the client stays denied. |
| GrantTheorems.FamilyIsAChain | internal/oauth/store.go:272-319 | In every reachable state a family has one owner, shrinking scopes, at most one usable member, consumed members exactly where a later one exists, and is revoked as a whole (RFC 9700 section 4.14.2). |
| GrantTheorems.ReuseIsFinal | internal/oauth/store.go:272-301 | After a spent refresh token is presented, no token of its family is live in any later state. |
| GrantTheorems.RevocationEndsFamily | internal/platform/http/oauth.go:811-853 | After the caller's refresh token is revoked at the endpoint (without the hint, unless an access token of the caller has the digest), no token of its family is live in any later state (RFC 7009 section 2.1). |
| GrantTheorems.RefreshOutcomes | internal/platform/http/oauth.go:324-387 | A refresh has exactly three outcomes, told apart by the state before it: extend the family by one refresh and one access token with the client's lifetimes; kill the family; or change nothing. The token it looks at is the one with the presented digest. |
| GrantTheorems.CodeIsSingleUse | internal/oauth/store.go:182-206 | A code that was exchanged is refused in every later state, whatever else is presented with it. |
| GrantTheorems.DeviceIsSingleUse | internal/oauth/store.go:397-427 | A device code that yielded tokens yields none in any later state, whichever client polls with it. |
| GrantTheorems.AccessTokenHasOneRoot | internal/platform/http/oauth.go:425-550 | Every user access token of any run descends from one used-up code or device of the same user, client and session whose scope covers its own. |
| GrantTheorems.FamiliesAreGrants | internal/platform/http/oauth.go:425-519 | Refresh families and used-up grants correspond one to one. |
| GrantTheorems.OneFamilyPerGrant | internal/platform/http/oauth.go:425-519 | Two access tokens of one grant are in one refresh family. |
| GrantTheorems.InterleavedRevocationBreaksFamily | internal/oauth/store.go:208-215 | The steps have to be atomic: with a revocation between check and write, a live access token ends up in a dead family. |
| GrantTheorems.InterleavedSignOutBreaksBound | internal/platform/http/oauth.go:31-139 | With a sign-out between check and write, a live code ends up on a dead session. |
| ProtocolOutcomes.CookieOpens | internal/session/memory_repository.go:42-53 | In every reachable state a cookie opens exactly the unrevoked, unexpired session of an active user whose digest it has: none past its expiry. |
| ProtocolOutcomes.RecheckIs | internal/platform/http/oauth.go:552-575 | The recheck holds exactly for an active user with a covering consent and, where the grant has a session, that user's unrevoked, unexpired session. |
| ProtocolOutcomes.FoundAccess | internal/oauth/store.go:217-229 | An access token is found exactly when the stored token with its digest is unrevoked and unexpired. |
| ProtocolOutcomes.FoundRefresh | internal/oauth/store.go:255-270 | A refresh token is found exactly when the stored token with its digest is unspent and unexpired. |
| ProtocolOutcomes.AuthorizeOutcomes | internal/platform/http/oauth.go:31-139 | A code is issued exactly to a signed-in user whose consent covers the scope, unless the prompt is asked for; exactly one code is stored, with the request's client, redirect URI, scope, nonce and challenge and the session's user and authentication, for five minutes. |
| ProtocolOutcomes.ConsentOutcomes | internal/platform/http/consent.go:100-174 | A denial, like a missing session, stores nothing; an approval adds exactly the asked scopes to what this user allows this client and issues exactly that code, or keeps the consent alone when none can be drawn. |
| ProtocolOutcomes.GrantWidens | internal/oauth/store.go:550-571 | Granting consent adds exactly the given scopes for this user and client and takes none from anyone. |
| ProtocolOutcomes.IssueOutcomes | internal/platform/http/oauth.go:425-519 | Issuing stores exactly one access token with the client's lifetime, and one refresh token of a new family if the client may refresh, or nothing; an ID token is answered exactly for openid. |
| ProtocolOutcomes.ExchangeOutcomes | internal/platform/http/oauth.go:286-322 | An exchange succeeds only on an unspent, unexpired code of this client with this redirect URI and challenge; it spends that code and issues its user's tokens for its scope and session, else nothing changes. |
| ProtocolOutcomes.ClientCredentialsOutcomes | internal/platform/http/oauth.go:389-423 | A client gets a token of its own exactly if it is confidential, may use the grant and asks for scopes of its own other than openid and roles; by default for all but openid. |
| ProtocolOutcomes.DeviceStartOutcomes | internal/platform/http/device.go:25-86 | A device grant is stored exactly for scopes of the client: pending, without user, for fifteen minutes, five seconds between polls. |
| ProtocolOutcomes.DeviceDecisionOutcomes | internal/platform/http/device.go:125-179 | A signed-in user's decision marks exactly one pending, unexpired device of that user code: denied with every consent unchanged, or approved by this user with exactly the device's scopes added. |
| ProtocolOutcomes.DeviceTokenOutcomes | internal/platform/http/device.go:181-224 | Tokens are issued exactly on an approved, unexpired device of this client that is not polled too soon, to the user who approved it and for its scope; every other poll issues nothing and is told why. |
| RevocationOutcomes.AccessRevocationOutcome | internal/platform/http/oauth.go:811-853 | With either hint the caller's access token is revoked and nothing else changes, unless the hint names a refresh token of the caller. |
| RevocationOutcomes.AccessRevocationIsFinal | internal/platform/http/oauth.go:811-853 | A digest so revoked is found live in no later state of any run. |
| RevocationOutcomes.RefreshRevocationOutcome | internal/platform/http/oauth.go:811-853 | Revoking the caller's refresh token revokes its family and nothing else. |
| RevocationOutcomes.ForeignRevocationChangesNothing | internal/platform/http/oauth.go:811-853 | A digest that is no token of the caller's leaves the whole state unchanged. |
| RevocationOutcomes.SignOutOutcome | internal/platform/http/account.go:81-106 | Ending one's own session revokes that session and exactly its grants; another user's session is untouched. |
| RevocationOutcomes.SignOutOthersOutcome | internal/platform/http/account.go:200-211 | Ending all sessions but one revokes exactly the user's other live sessions, exactly the grants outside the spared one, and denies the approved devices. |
| RevocationOutcomes.DisableClientOutcome | internal/oauth/store.go:506-526 | Disabling a client ends exactly its grants and its pending and approved devices. |
| RevocationOutcomes.WithdrawalOutcome | internal/platform/http/account.go:142-165 | Withdrawing a consent takes away exactly that consent, the grants under it and the approved devices; without one, nothing changes. |
| RevocationOutcomes.OidcLogoutOutcome | internal/platform/http/oauth.go:929-993 | A logout is accepted exactly for a signed hint of whoever is signed in, and then ends exactly the hinted and the current session and the subject's grants on them. |
| RevocationOutcomes.SuspensionOutcome | internal/platform/http/auth.go:712-726 | A suspended user is signed in nowhere; a reinstated one wherever the sessions still stand. |
| Interleaving.InterleavedWithdrawalBreaksConsent | internal/platform/http/oauth.go:31-139 | With a withdrawal between check and write, a live code ends up without a consent. |
| Interleaving.ChainsSurvive | internal/oauth/store.go:182-642 | However the repository calls of handlers interleave, digests stay unique, each pair keeps one canonical consent, and every refresh family is a chain revoked as a whole. |
| Interleaving.CodeOnce | internal/oauth/store.go:182-206 | In any interleaving a code is given out at most once. |
| Interleaving.RotationOnce | internal/oauth/store.go:272-319 | In any interleaving a refresh token is rotated at most once, and presenting it again leaves every refresh token of its family revoked in every later state, those of rotations under way included. |
| Interleaving.DeviceOnce | internal/oauth/store.go:397-427 | In any interleaving a device code is answered with its grant at most once. |
| DeviceFlow.IntervalCountsSlowDowns | internal/oauth/store.go:397-427 | In any run a device's interval is the initial one plus five seconds for each slow_down (RFC 8628 section 3.5). |
| DeviceFlow.AnswersAreSpaced | internal/oauth/store.go:397-427 | Under a clock that never runs backwards, answered polls are at least the initial interval apart, whatever happens in between. |
| DeviceFlow.AtMost180Answers | internal/platform/http/device.go:62-72 | A fresh device code is answered at most 180 times. |
| GrantSimulation.CallAgrees | internal/storage/postgres/oauth_repository.go:24-850 | From related states each of the 18 modelled calls gets the same answer from the slice store and the SQL statements, and leaves related states. |
| GrantSimulation.RotateAgrees | internal/storage/postgres/oauth_repository.go:192-287 | Rotation with its reuse branch agrees, column by column. |
| GrantSimulation.RevokeFamilyAgrees | internal/storage/postgres/oauth_repository.go:289-331 | The client filter of the SQL family update removes nothing, because a family has one client. |
| GrantSimulation.RevokeWhereAgrees | internal/storage/postgres/oauth_repository.go:588-725 | The WHERE clauses over nullable columns reach the rows the matching functions reach. |
| GrantSimulation.DecideAgrees | internal/storage/postgres/oauth_repository.go:369-428 | The UPDATE ... RETURNING decides the grant the loop finds, and both widen the same consent. |
| GrantSimulation.PollAgrees | internal/storage/postgres/oauth_repository.go:430-510 | Polls of a device that is not consumed agree in answer, interval and poll time. |
| GrantSimulation.GrantConsentAgrees | internal/storage/postgres/oauth_repository.go:744-769 | The upsert stores the same set of scopes, although the first insert keeps the list as given. |
| GrantSimulation.GrantConsentAnswersAgree | internal/storage/postgres/oauth_repository.go:744-769 | Both return the same consent: its set of scopes, when it was granted and when it was last widened. |
| GrantSimulation.DeleteConsentAgrees | internal/storage/postgres/oauth_repository.go:795-850 | Deleting a consent with its revocations agrees. |
| GrantSimulation.RepositoriesAreIndistinguishable | internal/storage/postgres/oauth_repository.go:24-850 | From empty repositories no sequence of calls that polls no consumed device tells the two apart by its answers. |
| GrantSimulation.ConsumedPollAgreement | internal/storage/postgres/oauth_repository.go:430-510 | For a consumed device the repositories stay related exactly when the poll is answered before its status is looked at, or repeats the recorded instant: SQL rolls the poll time back. |
| MfaRepository.MemoryRepository.UseTOTP | internal/mfa/memory_repository.go:124-139 | A step not above the last used one is a replay and changes nothing; otherwise it is recorded and clears the failures. |
| MfaRepository.MemoryRepository.UseRecoveryCode | internal/mfa/memory_repository.go:141-158 | Removes the first matching code and clears the failures, or refuses. |
| MfaRepository.MemoryRepository.Evict | internal/mfa/memory_repository.go:197-213 | Removes exactly the surplus devices of the user, none used after one that stays. |
| MfaRepository.MemoryRepository.StoreTrustedDevice | internal/mfa/memory_repository.go:178-214 | Drops the user's expired devices, adds the new one and evicts; refuses without an enabled credential. |
| MfaRepository.MemoryRepository.RotateTrustedDevice | internal/mfa/memory_repository.go:216-238 | Moves a device to its new digest with creation and expiry unchanged; an expired one is dropped. |
| MfaRepository.MemoryRepository.DropExpired | internal/mfa/memory_repository.go:240-255 | Drops exactly the user's expired devices and counts the rest. |
| MfaService.Service.MatchTOTP | internal/mfa/mfa.go:368-387 | The loop over the three steps finds what `VerifyOutcomes` states: the first whose code was given decides, even when it is used up. |
| MfaService.Service.Verify | internal/mfa/mfa.go:243-291 | The order of checks and the writes are the verdict and the state that `VerifyOutcomes` and `RecoveryOutcomes` pin down. |
| MfaService.Service.Enable | internal/mfa/mfa.go:228-241 | The checks and the write are those that `EnableOutcomes` pins down. |
| MfaService.Service.RememberDevice | internal/mfa/mfa.go:297-316 | Stores a device that expires in thirty days. |
| MfaService.Service.UseTrustedDevice | internal/mfa/mfa.go:318-344 | Honours and rotates a device exactly when digest, user and browser match and it has not expired. |
| MfaAcceptance.VerifyOutcomes | internal/mfa/mfa.go:243-291 | A six-digit code is accepted exactly if the user is enrolled and not locked out, the secret is readable, it is the secret's code of the current, previous or next step, and the first such step is later than the last one used; when it is a replay, when a failure, and what each leaves. |
| MfaAcceptance.RecoveryOutcomes | internal/mfa/mfa.go:243-291 | Any other code is accepted exactly if it has twenty characters or more and its digest is stored; one copy of the digest goes. |
| MfaAcceptance.EnableOutcomes | internal/mfa/mfa.go:228-241 | Enrolment completes exactly with the pending secret's code of such a step, and which error is given otherwise. |
| MfaAcceptance.ClockStepIs | internal/mfa/mfa.go:368-387 | The step of an instant is the thirty-second interval it lies in, counted towards zero before 1970. |
| MfaAcceptance.TrustOutcomes | internal/mfa/mfa.go:318-344 | A device is honoured exactly on its own token, user and browser before its expiry, which stays; the old token is gone. |
| MfaAcceptance.RememberOutcomes | internal/mfa/mfa.go:297-316 | A remembered device is stored for thirty days unless evicted; nobody else's device and no unexpired one goes but by eviction. |
| MfaAcceptance.EnrolmentOutcomes | internal/mfa/memory_repository.go:44-54 | Setting up and turning off start afresh: a new secret or none, and none of the user's devices. |
| MfaTheorems.LockoutBound | internal/mfa/mfa.go:277-287 | In any run, k recorded failures since the last reset put at least the sum of the locks, 5(k-5)(k-4)/2 minutes up to k = 17 and 60 more per failure after, between the fifth and the k-th. |
| MfaTheorems.GuessesPerDay | internal/mfa/mfa.go:277-287 | At most 34 wrong codes in a row are looked at before a day has passed since the fifth. |
| MfaTheorems.CodesAreOneTime | internal/mfa/mfa.go:228-291 | Every accepted code, enrolment included, is the stored secret's code of its step; the steps strictly increase and stay within one step of the clock, so a span accepts at most three more codes than it has steps (RFC 6238 section 5.2). |
| MfaTheorems.RecoveryCodesAreConserved | internal/mfa/memory_repository.go:141-158 | The codes issued are always the codes spent plus the codes stored. |
| MfaOverlap.VerifyIsReadThenWrite | internal/mfa/mfa.go:243-291 | A verification is a decision on the credential it read followed by a write to the store; with nothing in between the two are the service's call. |
| MfaOverlap.StaleReadsStayOneTime | internal/mfa/memory_repository.go:124-158 | Whatever stale credential each of any number of verifications has read, no time step is accepted twice, accepted steps increase, and recovery codes accepted plus stored are the ones stored before. |
| MfaOverlap.OverlappingFailuresCountOnce | internal/mfa/mfa.go:277-291 | However many wrong codes overlap, each is looked at and answered, and together they are recorded as one failure with the one lock of the last to write. |
| MfaOverlap.OverlapEscapesLockout | internal/mfa/mfa.go:277-291 | After any run, a batch of wrong codes that overlap at one instant keeps the pace of the lockout bound exactly when it is a single code or no lock is due yet. |
| MfaOverlap.OverlapExample | internal/mfa/mfa.go:277-291 | Six wrong codes at once on a new credential: all are looked at, one failure is recorded, and there is no lock. |
| MfaTheorems.DevicesAreCapped | internal/mfa/memory_repository.go:178-214 | In every reachable state a user has at most ten trusted devices, and none without an enabled credential. |
| MfaTheorems.DeviceHasOrigin | internal/mfa/memory_repository.go:216-238 | Every stored device, however often rotated, goes back to a login of that user on that browser, thirty days before its expiry. |
| MfaTheorems.TrustEnds | internal/mfa/mfa.go:297-344 | A device is honoured only within thirty days of that login and only if trust was not withdrawn since. |
| Sorting.SortBy | internal/mfa/memory_repository.go:208-209 | The sort yields an ordered permutation and promises nothing about ties. |
| RateLimit.KeysAreDistinct | internal/ratelimit/ratelimit.go:120-120 | Two attempts share a bucket exactly when scope and subject agree. |
| RateLimit.MemoryRepository.Prune | internal/ratelimit/ratelimit.go:150-156 | Drops exactly the expired buckets. |
| RateLimit.MemoryRepository.EvictOldest | internal/ratelimit/ratelimit.go:158-170 | Removes one bucket, touched no later than any other. |
| RateLimit.MemoryRepository.Take | internal/ratelimit/ratelimit.go:116-148 | The table stays within its size; the decision is the counter's on what pruning and eviction left. |
| RateLimitTheorems.TableIsBounded | internal/ratelimit/ratelimit.go:116-148 | In every run the table never exceeds its size. |
| RateLimitTheorems.PruneIsInvisible | internal/ratelimit/ratelimit.go:150-156 | Pruning at any moment changes no later decision, after any further attempts. |
| RateLimitTheorems.MemoryDecidesAsSql | internal/storage/postgres/rate_limit_repository.go:23-60 | As long as no eviction is needed, the table and the upsert decide every attempt alike, whatever the policies. |
| RateLimitTheorems.EvictionShows | internal/ratelimit/ratelimit.go:128-133 | An eviction always removes a live bucket. If it hits the caller's own key the two decide that attempt differently, else they differ on the evicted key's next attempt exactly when its window is still running. |
| RateLimitTheorems.EvictionShowsInRun | internal/ratelimit/ratelimit.go:128-133 | The same along a run, whatever attempts other keys make in between. |
| RateLimitTheorems.EvictionExample | internal/ratelimit/ratelimit.go:128-133 | A full table lets a second attempt through where the limit is one, because it evicts the caller's own bucket. |
| RateLimitTheorems.MemoryDecidesAsSurviving | internal/ratelimit/ratelimit.go:134-148 | For a key of a fixed policy the saturated counter decides as a counter that never saturates, started anew at every eviction of the key. |
| RateLimitTheorems.MemoryDecidesAsExact | internal/ratelimit/ratelimit.go:134-148 | So for a key that is never evicted it decides as a counter that never saturates and never forgets: allowed up to the limit, with what is left of it, until the window ends. |
| RateLimitTheorems.SaturationExact | internal/ratelimit/ratelimit.go:142-143 | When the limit changes, one step keeps the saturated count in step with the exact one exactly if the count was not above the old limit + 1 or the new limit is not above it. |
| RateLimitTheorems.RateBound | internal/ratelimit/ratelimit.go:116-148 | Any half-open interval of n windows sees at most n + 1 limits' worth of allowed attempts on a key of a fixed policy, and one limit more for each eviction of the key in it. |
| RateLimitTheorems.SqlRateBound | internal/storage/postgres/rate_limit_repository.go:23-60 | The SQL table keeps that bound for every key of a fixed policy. |
| InPlace.FilterInPlace | internal/cas/ticket.go:217-237 | Filtering into the front of the slice being read leaves exactly the kept elements, in order. |
| CasTickets.MemoryRepository.ConsumeServiceTicket | internal/cas/ticket.go:177-200 | Which refusal wins, and that success marks that ticket only. |
| CasTickets.MemoryRepository.ConsumeProxyTicket | internal/cas/ticket.go:137-161 | The same for proxy tickets; that a ticket is good at its own target only is `ProxyTicketsAreForTheirTarget`. |
| CasTickets.MemoryRepository.SaveProxyTicket | internal/cas/ticket.go:118-135 | Stores the ticket exactly when the granting ticket is still stored. |
| CasTickets.MemoryRepository.DeleteServiceSessions | internal/cas/ticket.go:214-239 | Removes exactly the session's service sessions, granting and proxy tickets, in place. |
| CasServer.Handlers.Login | internal/platform/http/cas.go:42-81 | A login that found its session is exactly that look and then the saved ticket, of the session's user and two minutes' life, or a return without one. |
| CasServer.Handlers.ServiceValidate | internal/platform/http/cas.go:115-157 | The handler is exactly the consumption and, if that succeeds, either the granting ticket or a return without one; it succeeds exactly when the user is active, the entitlements can be read and no callback fails, and leaves nothing running. |
| CasServer.Handlers.ProxyValidate | internal/platform/http/cas.go:159-232 | The same for proxy validation of either kind of ticket, with its exact condition on the consumption that the two theorems on tickets and their services state; it answers with the ticket's own proxy list. |
| CasServer.Handlers.IssueProxyTicket | internal/platform/http/cas.go:234-289 | The handler is exactly the lookup and then the proxy ticket or a return without one; it succeeds exactly when the granting ticket is valid and its client may proxy, and then that proxy ticket is stored. |
| CasServer.Handlers.IssueProxyGrantingTicket | internal/platform/http/cas.go:291-339 | A granting ticket is stored exactly when an admissible callback was given and answered; without a callback the validation succeeds without one. Either way the validation has ended. |
| CasDelegation.TicketsDescend | internal/platform/http/cas.go:115-339 | Under any interleaving of handlers, every stored granting and proxy ticket of a chain of any depth has its root login's user, session and primary flag, and its proxy list is the ancestors' callbacks, most recent first (CAS Protocol 3.0 section 2.6). |
| CasDelegation.Hop | internal/platform/http/cas.go:262-282 | One hop of the chain: a granting ticket keeps the list, a proxy ticket puts its grantor's callback in front. |
| CasTheorems.TicketsAreSingleUse | internal/cas/ticket.go:118-200 | Under any interleaving a ticket is validated at most once and grants at most one granting ticket, and the very granting ticket of every stored proxy ticket is stored. |
| CasOutcomes.ServiceTicketsAreForTheirService | internal/cas/ticket.go:177-200 | In every reachable state a service ticket is redeemed exactly if a stored one has this digest and this service, is unconsumed and unexpired, and was issued with primary credentials when renew is asked; exactly its consumption changes. |
| CasOutcomes.ProxyTicketsAreForTheirTarget | internal/cas/ticket.go:137-161 | The same for proxy tickets and their target service. |
| CasOutcomes.GrantingTicketsAreFound | internal/cas/ticket.go:101-116 | A granting ticket is found exactly by its digest before its expiry. |
| CasOutcomes.ServiceValidationOutcome | internal/platform/http/cas.go:115-157 | A validation goes on exactly with such a ticket, for its user and session. |
| CasOutcomes.ProxyValidationOutcome | internal/platform/http/cas.go:159-232 | The same for a proxy ticket, with its proxy list. |
| CasOutcomes.ProxyRequestOutcome | internal/platform/http/cas.go:234-289 | A proxy request goes on exactly with an unexpired granting ticket of its digest. |
| CasOutcomes.LoginOutcome | internal/platform/http/cas.go:42-81 | Exactly one service ticket is stored, for the service, user and session asked for, two minutes long. |
| CasOutcomes.GrantOutcome | internal/platform/http/cas.go:291-339 | Exactly one granting ticket is stored, for the validated user and session and the given callback, eight hours long, and only if a callback was given. |
| CasOutcomes.ProxyOutcome | internal/platform/http/cas.go:234-289 | Exactly one proxy ticket is stored, for the target, with the granting ticket's user and its callback in front of its list, two minutes long, and only if that granting ticket is still stored. |
| CasOutcomes.DeletionOutcome | internal/cas/ticket.go:214-239 | A deletion takes exactly the session's service sessions, granting and proxy tickets. |
| CasTheorems.DeletionIsFinal | internal/cas/ticket.go:214-239 | In every run and for every registration of services: deleting a session's tickets keeps its granting and proxy tickets away for good, as long as no new login finds the session, exactly when no service ticket of it is redeemable at a service that may proxy, no validation of it that was asked for a granting ticket is running, and no login handler that found it is still to save a ticket. |
| CasTheorems.DeletionExample | internal/platform/http/cas.go:115-157 | A reachable run in which a session's tickets are deleted and a service ticket saved before brings the session back. |
| SigningKeys.MemoryKeyRepository.LoadActiveSigningKey | internal/oidc/signer.go:46-55 | Finds an active key if there is one, the newest if that is active. |
| SigningKeys.MemoryKeyRepository.RotateSigningKey | internal/oidc/signer.go:96-107 | Retires exactly the active keys now and appends the new active one. |
| SigningKeys.MemoryKeyRepository.RotateSigningKeyIfOlderThan | internal/oidc/signer.go:78-94 | Rotates exactly when no active key is as young as the cut-off. |
| SigningKeys.MemoryKeyRepository.DeleteRetiredSigningKeys | internal/oidc/signer.go:119-133 | Drops exactly the keys retired before the cut-off and counts them. |
| SigningKeys.RotateIfOlderThan | internal/oidc/signer.go:348-383 | One signer undisturbed: the loop over its listing, then the repository's own check, come to one conditional rotation. |
| SigningKeys.EarlyLookIsHarmless | internal/oidc/signer.go:348-383 | Whatever other instances save, rotate and clean up between the signer's listing and its call, the outcome is the repository's decision at the call, as long as no clock is behind by more than the maximum age. |
| SigningKeys.RunOnce | internal/maintenance/maintenance.go:68-88 | Maintenance makes exactly the clean-up step, whose meaning `CleanUpOutcome` states. |
| SigningKeys.AlwaysOneActive | internal/oidc/signer.go:57-133 | From the first key on exactly the newest key is active, and inactive means retired, under any rotations and clean-ups. |
| SigningKeys.RunKeepsTimeline | internal/oidc/signer.go:57-133 | Under a clock that never runs backwards each listed key was retired when the next was created: no moment is without a key. |
| SigningKeys.RetainedAfterUse | internal/oidc/signer.go:119-133 | A key in use at t stays listed through t plus the configured time, or a day when less than an hour is configured, under any rotations and clean-ups. |
| SigningKeys.ActiveIsRetained | internal/oidc/signer.go:119-133 | So a key that is active now is listed for that long, under any rotations and clean-ups. |
| SigningKeys.CleanUpOutcome | internal/maintenance/maintenance.go:49-88 | A clean-up drops exactly the keys retired longer ago than the configured time, or than a day when less than an hour is configured, and they are the oldest ones. |
| SigningKeys.RotationOutcome | internal/oidc/signer.go:57-107 | With one active key: a rotation retires it now and appends the new one; a first save stores one; an automatic rotation happens exactly when the newest key is older than the maximum age. |
| SigningKeys.RotationsAreSpaced | internal/oidc/signer.go:348-383 | Two automatic rotations are more than the maximum age apart, however many instances try and whatever happens in between. |
| AccessRepository.MemoryRepository.CreateRole | internal/access/memory_repository.go:49-59 | Refuses exactly when another role of the client has the code. |
| AccessRepository.MemoryRepository.DeleteRole | internal/access/memory_repository.go:87-102 | Refuses while assigned; otherwise removes the role and its mapping. |
| AccessRepository.MemoryRepository.DeletePermission | internal/access/memory_repository.go:157-171 | Refuses while any role maps it. |
| AccessRepository.MemoryRepository.SetRolePermissions | internal/access/memory_repository.go:173-190 | The checks and the write are the operation that `SetRolePermissionsOutcome` pins down. |
| AccessRepository.MemoryRepository.ReplaceUserRoles | internal/access/memory_repository.go:209-239 | The in-place filter and the appends leave the others' assignments, then the grants. |
| AccessRepository.MemoryRepository.ListUserRoles | internal/access/memory_repository.go:241-268 | Lists exactly the matching assignments, ordered by client and code. |
| AccessRepository.MemoryRepository.Effective | internal/access/memory_repository.go:270-299 | Returns the sorted codes of the live roles, and a sorted, duplicate-free list of exactly the permission codes the loops reach. |
| AccessTheorems.AlwaysIntegrity | internal/access/memory_repository.go:49-239 | In every reachable state assignments name existing roles, once per user; mappings stay within one client; codes are unique per client. |
| AccessTheorems.EffectiveIsTheJoin | internal/access/memory_repository.go:270-299 | With integrity, what the loops reach is exactly the relational join. |
| AccessTheorems.EntitlementsInEveryRun | internal/access/memory_repository.go:270-299 | In every reachable state a user's permission codes at a client are the join's and the client's own, and no role code appears twice. |
| AccessOutcomes.SetRolePermissionsOutcome | internal/access/memory_repository.go:173-190 | It succeeds exactly if the role and every listed permission are the client's; then the codes that reach a user through this role are exactly those of the list, and every other mapping, role, permission and assignment is as before. |
| AccessOutcomes.EntitlementsAreThroughRoles | internal/access/memory_repository.go:270-299 | What a user is entitled to at a client is exactly what reaches them through roles of that client. |
| AccessOutcomes.CreateRoleOutcome | internal/access/memory_repository.go:49-59 | A role is stored exactly when no role of its client has its code. |
| AccessOutcomes.ReplaceRoleOutcome | internal/access/memory_repository.go:71-85 | A role is changed exactly as its own client's and when no other role of the client has the new code. |
| AccessOutcomes.DeleteRoleOutcome | internal/access/memory_repository.go:87-102 | A role goes, with its mapping and nothing else, exactly when it is the client's and nobody has it. |
| AccessOutcomes.CreatePermissionOutcome | internal/access/memory_repository.go:119-129 | A permission is stored exactly when none of its client has its code. |
| AccessOutcomes.ReplacePermissionOutcome | internal/access/memory_repository.go:141-155 | A permission is changed exactly as its own client's and when no other of the client has the new code. |
| AccessOutcomes.DeletePermissionOutcome | internal/access/memory_repository.go:157-171 | A permission goes exactly when it is the client's and no role maps it, so no entitlement changes. |
| AccessOutcomes.ReplaceUserRolesOutcome | internal/access/memory_repository.go:209-239 | Refused exactly when a role does not exist; otherwise the user has exactly the granted roles, with their expiry. |
| AccessOutcomes.ListingOutcome | internal/access/memory_repository.go:241-268 | A listing shows exactly the assignments of the user, at the client if one is named, and the expired ones only if asked. |
| AccessOutcomes.ListingOrder | internal/access/memory_repository.go:241-268 | It is ordered by client and then by role code, character by character. |
| AccessTheorems.ReplaceTouchesOneUser | internal/access/memory_repository.go:209-239 | Everyone else's assignments stay as they were, in order, and the user has exactly the grants. |
| KeyRing.EnvelopeRoundTrip | internal/secrets/keyring.go:129-143 | An envelope parses back to its key and ciphertext exactly when the key identifier has no dot, which the identifier pattern allows. |
| KeyRing.SealedOpens | internal/secrets/keyring.go:64-122 | What a ring seals it opens again exactly when its primary identifier has no dot. |
| KeyRing.ContextIsBinding | internal/secrets/keyring.go:145-147 | Two authenticated contexts are equal exactly when purpose, record and key are. |
| KeyRing.MovedSecretDoesNotOpen | internal/secrets/keyring.go:85-122 | A secret moved to another record or another purpose does not open there. |
| KeyRing.PurposesAreApart | internal/federation/source.go:28-28 | A TOTP secret never opens as an identity source's secret, nor the other way round. |
| Rewrap.DottedPrimaryLosesSecrets | internal/federation/source.go:424-476 | Every run of the migration, of source or of MFA secrets, keeps every secret exactly when the primary identifier has no dot or no stale record is readable to begin with. |
| Rewrap.MovesDestroy | internal/mfa/mfa.go:451-492 | In any run of any number of instances: without a dot no secret is destroyed; with one, exactly as many secrets become unreadable as moves were counted as done; no other secret changes. |
| Rewrap.SecretsSurvive | internal/mfa/mfa.go:451-492 | So a run keeps every secret exactly when the primary identifier has no dot or nothing was moved. |
| Rewrap.DottedExample | internal/secrets/keyring.go:21-21 | The identifier "k.1" is valid, and under it a secret of either kind that was readable is not after its move. |
| Rewrap.MigrationIsFaithful | internal/federation/source.go:424-476 | Without a dot, however many instances interleave: every secret reads the same, each stale record is counted once, and one instance getting through leaves all under the primary key. |
| Rewrap.EnvelopeReads | internal/secrets/keyring.go:85-122 | An envelope reads as its content exactly when its key is known, it was sealed with it for this purpose, record and key, and a key column does not disagree; it is left alone exactly when that key is the primary one. |
| Rewrap.RawReads | internal/mfa/mfa.go:451-492 | A ciphertext from before key rings reads as its content exactly when it is an MFA secret of this record under the legacy key, and is never left alone. |
| Rewrap.OldKeysCanGo | internal/mfa/mfa.go:451-492 | Once one instance got through its list, every secret reads the same with the primary key alone. |
| Rewrap.CompletionNeedsReadable | internal/mfa/mfa.go:451-492 | Once all instances have stopped, they all got through exactly when every stale record was readable to begin with. |
| Rewrap.FurtherRunIsIdle | internal/federation/source.go:424-476 | A further run changes and counts nothing. |
| Rewrap.SwapEffect | internal/federation/source.go:224-244 | A swap goes through exactly when the record is still as it was listed; it then reads the same, under the primary key, which its key column names. |
| RewrapWrites.GuardedSwap | internal/federation/source.go:224-244 | Also among other writers a swap goes through exactly against the very record that was listed, and keeps what it reads. |
| RewrapWrites.NoUpdateIsLost | internal/mfa/mfa.go:451-492 | However many instances migrate while others store secrets under any key or remove them, every secret reads in the end as if there had been no migration. |
| RewrapWrites.CompletionWithWrites | internal/mfa/mfa.go:451-492 | If the others store under the primary key, an instance that got through its list leaves every record under it. |
| RewrapService.RewrapSecrets | internal/mfa/mfa.go:451-492 | The loop, for any key ring, is a run of one instance until it stops; without a dot this fixes what it moves, what it counts and when it reaches the end, and otherwise a count above zero means lost secrets. |

## Left out

- GrantSimulation.CallAgrees: does not model `FindDeviceByUserCode`, listings and OIDC client sessions, which are single SELECT, INSERT and DELETE statements, nor polls of a consumed device, where the stores differ (`ConsumedPollAgreement`).
- GrantSimulation.RepositoriesAreIndistinguishable: does not model sequences that poll a consumed device, because there the stores differ (`ConsumedPollAgreement`).
- GrantTheorems.LiveAccessTokenRecheck: does not model introspection and userinfo themselves, because they only report the recheck.
- Server.AuthorizationServer.Authorize: does not model `prompt=none`, `prompt=login` and `max_age`, because a request they turn away issues nothing and does not reach the step.
- Server.AuthorizationServer.ConsentDecision: does not model the signed consent transaction bound to user and session, because its check is a signature and a comparison, and a request that fails it does not reach the step.
- MfaTheorems.CodesAreOneTime: does not model overlapping enrolments of one user, because the handler is one step.
- MfaService.Service.Verify: does not model the trimming and upper-casing of the typed code, because it starts from the normalised code.
- MfaService.Service.UseTrustedDevice: does not model the length check of the presented token, because it works on digests.
- Sessions.SessionRepository.ListByUser: does not model the order of the listing, because no caller depends on it.
- SigningKeys.RetainedAfterUse: does not model the signer's 30-second key cache, because retention is stated for the repository.
- RateLimit.MemoryRepository.Take: does not model a non-positive table size, which the constructor never sets.
- AccessRepository.MemoryRepository.Effective: does not model the gap between its two lock sections, because it is one step.
- HTTP parsing, cookies, CSRF, templates, redirects, logging and metrics: plumbing.
- PKCE is the equality of stored and derived challenge; its derivation and format checks are hashing and a regular expression.
- Client, user and source validation, listings, cloning and audit: independent branches without state.
- LDAP, upstream OIDC, mail, CAS callbacks and back-channel delivery: network clients; a callback is an arbitrary yes or no.
- Key ring parsing, key generation, JWKS and token signing: encoding and cryptography.
- PostgreSQL itself, migrations, foreign keys and isolation between transactions.
- Names, descriptions' validation and time stamps of roles and permissions: carried along unread.
