/**
 The OAuth grant store as values: what each repository operation returns and what it leaves behind.
 Records are only ever appended or marked; a position in a collection always holds the same grant.
 */
module GrantStore {
  import opened Prelude
  import opened Scopes

  datatype GrantError =
    | NotFound
    | Expired
    | Consumed
    | Reuse
    | Pending
    | SlowDown
    | Denied
    | ConsentNotFound
    | InvalidScope

  /** How the user proved who they are; carried from the session to the ID token. */
  datatype AuthContext = AuthContext(authenticatedAt: Time, methods: seq<string>, assurance: string)

  /** The zero value, which a device grant carries until someone decides on it. */
  const NO_AUTH: AuthContext := AuthContext(ZERO_TIME, [], "")

  datatype AuthorizationCode = AuthorizationCode(
    hash: Digest, client: Id, user: Id, session: Id, redirectURI: string, scope: seq<string>,
    nonce: string, challenge: string, auth: AuthContext, createdAt: Time, expiresAt: Time)

  datatype AccessToken = AccessToken(
    hash: Digest, client: Id, user: Id, session: Id, family: Id, scope: seq<string>,
    issuedAt: Time, expiresAt: Time)

  datatype RefreshToken = RefreshToken(
    hash: Digest, family: Id, client: Id, user: Id, session: Id, scope: seq<string>,
    issuedAt: Time, expiresAt: Time)

  datatype DeviceStatus = DevicePending | DeviceApproved | DeviceDenied | DeviceConsumed

  datatype Device = Device(
    deviceHash: Digest, userHash: Digest, client: Id, user: Id, scope: seq<string>,
    status: DeviceStatus, auth: AuthContext, createdAt: Time, expiresAt: Time,
    interval: Time, lastPollAt: Option<Time>)

  datatype Consent = Consent(user: Id, client: Id, scopes: seq<string>, grantedAt: Time, updatedAt: Time)

  datatype CodeRecord = CodeRecord(code: AuthorizationCode, consumedAt: Option<Time>, revokedAt: Option<Time>)

  datatype AccessRecord = AccessRecord(token: AccessToken, revokedAt: Option<Time>)

  datatype RefreshRecord = RefreshRecord(token: RefreshToken, consumedAt: Option<Time>, revokedAt: Option<Time>)

  datatype Store = Store(
    codes: seq<CodeRecord>,
    access: seq<AccessRecord>,
    refresh: seq<RefreshRecord>,
    devices: seq<Device>,
    consents: seq<Consent>)

  const EMPTY_STORE: Store := Store([], [], [], [], [])

  /** What an operation leaves in the store, and what it answers. */
  datatype Out<R> = Out(store: Store, res: Result<R, GrantError>)

  /** A rotation's new token; a missing scope means "as before". */
  datatype Replacement = Replacement(hash: Digest, client: Id, scope: Option<seq<string>>, issuedAt: Time,
                                     expiresAt: Time)

  /** Which grants a bulk revocation reaches. */
  datatype Matcher =
    | OfSession(user: Id, session: Id)
    | OfUser(user: Id, exceptSession: Id)
    | OfClient(client: Id)
    | OfConsent(user: Id, client: Id)
  {
    predicate Matches(u: Id, s: Id, c: Id) {
      match this
      case OfSession(user, session) => u == user && s == session
      case OfUser(user, exceptSession) => u == user && (exceptSession == "" || s != exceptSession)
      case OfClient(client) => c == client
      case OfConsent(user, client) => u == user && c == client
    }
  }

  // ---- Searches ----

  function CodeIndex(codes: seq<CodeRecord>, hash: Digest): nat {
    FirstIndex(codes, (r: CodeRecord) => r.code.hash == hash)
  }

  function LiveAccessIndex(access: seq<AccessRecord>, hash: Digest, now: Time): nat {
    FirstIndex(access, (r: AccessRecord) => r.token.hash == hash && r.revokedAt.None? && now < r.token.expiresAt)
  }

  function AccessIndex(access: seq<AccessRecord>, hash: Digest, client: Id): nat {
    FirstIndex(access, (r: AccessRecord) => r.token.hash == hash && r.token.client == client)
  }

  function LiveRefreshIndex(refresh: seq<RefreshRecord>, hash: Digest, now: Time): nat {
    FirstIndex(refresh, (r: RefreshRecord) =>
      r.token.hash == hash && r.consumedAt.None? && r.revokedAt.None? && now < r.token.expiresAt)
  }

  function RefreshIndex(refresh: seq<RefreshRecord>, hash: Digest): nat {
    FirstIndex(refresh, (r: RefreshRecord) => r.token.hash == hash)
  }

  function ClientRefreshIndex(refresh: seq<RefreshRecord>, hash: Digest, client: Id): nat {
    FirstIndex(refresh, (r: RefreshRecord) => r.token.hash == hash && r.token.client == client)
  }

  function PendingDeviceIndex(devices: seq<Device>, userHash: Digest, now: Time): nat {
    FirstIndex(devices, (d: Device) => d.userHash == userHash && now < d.expiresAt && d.status == DevicePending)
  }

  function DeviceIndex(devices: seq<Device>, deviceHash: Digest, client: Id): nat {
    FirstIndex(devices, (d: Device) => d.deviceHash == deviceHash && d.client == client)
  }

  function ConsentIndex(consents: seq<Consent>, user: Id, client: Id): nat {
    FirstIndex(consents, (c: Consent) => c.user == user && c.client == client)
  }

  lemma ConsentIndexIs(consents: seq<Consent>, user: Id, client: Id, i: nat)
    requires i < |consents| && consents[i].user == user && consents[i].client == client
    requires forall j :: 0 <= j < i ==> !(consents[j].user == user && consents[j].client == client)
    ensures ConsentIndex(consents, user, client) == i
  {
  }

  // ---- Marks ----

  function RevokeCode(r: CodeRecord, m: Matcher, now: Time): CodeRecord {
    if m.Matches(r.code.user, r.code.session, r.code.client) && r.revokedAt.None?
    then r.(revokedAt := Some(now)) else r
  }

  function RevokeAccess(r: AccessRecord, m: Matcher, now: Time): AccessRecord {
    if m.Matches(r.token.user, r.token.session, r.token.client) && r.revokedAt.None?
    then r.(revokedAt := Some(now)) else r
  }

  function RevokeRefresh(r: RefreshRecord, m: Matcher, now: Time): RefreshRecord {
    if m.Matches(r.token.user, r.token.session, r.token.client) && r.revokedAt.None?
    then r.(revokedAt := Some(now)) else r
  }

  function RevokeMatching(s: Store, m: Matcher, now: Time): Store {
    s.(codes := seq(|s.codes|, i requires 0 <= i < |s.codes| => RevokeCode(s.codes[i], m, now)),
       access := seq(|s.access|, i requires 0 <= i < |s.access| => RevokeAccess(s.access[i], m, now)),
       refresh := seq(|s.refresh|, i requires 0 <= i < |s.refresh| => RevokeRefresh(s.refresh[i], m, now)))
  }

  function KillRefresh(r: RefreshRecord, family: Id, now: Time): RefreshRecord {
    if r.token.family == family then r.(revokedAt := Some(now)) else r
  }

  function KillAccess(r: AccessRecord, family: Id, now: Time): AccessRecord {
    if r.token.family == family then r.(revokedAt := Some(now)) else r
  }

  /** Revokes a whole refresh family and its access tokens, overwriting earlier revocation times. */
  function RevokeFamily(s: Store, family: Id, now: Time): Store {
    s.(access := seq(|s.access|, i requires 0 <= i < |s.access| => KillAccess(s.access[i], family, now)),
       refresh := seq(|s.refresh|, i requires 0 <= i < |s.refresh| => KillRefresh(s.refresh[i], family, now)))
  }

  /** Which device grants a bulk revocation denies. */
  predicate DeviceLosesApproval(d: Device, m: Matcher) {
    match m
    case OfSession(_, _) => false
    case OfUser(user, _) => d.user == user && d.status == DeviceApproved
    case OfClient(client) => d.client == client && (d.status == DevicePending || d.status == DeviceApproved)
    case OfConsent(user, client) => d.user == user && d.client == client && d.status == DeviceApproved
  }

  function DenyDevice(d: Device, m: Matcher): Device {
    if DeviceLosesApproval(d, m) then d.(status := DeviceDenied) else d
  }

  function DenyDevices(s: Store, m: Matcher): Store {
    s.(devices := seq(|s.devices|, i requires 0 <= i < |s.devices| => DenyDevice(s.devices[i], m)))
  }

  // ---- Operations ----

  function SaveCode(s: Store, code: AuthorizationCode): Store {
    s.(codes := s.codes + [CodeRecord(code, None, None)])
  }

  function ConsumeCode(s: Store, hash: Digest, client: Id, redirectURI: string, challenge: string,
                       now: Time): Out<AuthorizationCode> {
    var i := CodeIndex(s.codes, hash);
    if i == |s.codes| then Out(s, Err(NotFound))
    else
      var r := s.codes[i];
      if r.code.client != client || r.code.redirectURI != redirectURI ||
          r.code.challenge != challenge then Out(s, Err(NotFound))
      else if r.consumedAt.Some? then Out(s, Err(Consumed))
      else if r.revokedAt.Some? then Out(s, Err(NotFound))
      else if r.code.expiresAt <= now then Out(s, Err(Expired))
      else Out(s.(codes := s.codes[i := r.(consumedAt := Some(now))]), Ok(r.code))
  }

  function SaveAccess(s: Store, token: AccessToken): Store {
    s.(access := s.access + [AccessRecord(token, None)])
  }

  function FindAccess(s: Store, hash: Digest, now: Time): Result<AccessToken, GrantError> {
    var i := LiveAccessIndex(s.access, hash, now);
    if i == |s.access| then Err(NotFound) else Ok(s.access[i].token)
  }

  function RevokeAccessToken(s: Store, hash: Digest, client: Id, now: Time): Out<()> {
    var i := AccessIndex(s.access, hash, client);
    if i == |s.access| then Out(s, Err(NotFound))
    else if s.access[i].revokedAt.Some? then Out(s, Ok(()))
    else Out(s.(access := s.access[i := s.access[i].(revokedAt := Some(now))]), Ok(()))
  }

  function SaveRefresh(s: Store, token: RefreshToken): Store {
    s.(refresh := s.refresh + [RefreshRecord(token, None, None)])
  }

  function FindRefresh(s: Store, hash: Digest, now: Time): Result<RefreshToken, GrantError> {
    var i := LiveRefreshIndex(s.refresh, hash, now);
    if i == |s.refresh| then Err(NotFound) else Ok(s.refresh[i].token)
  }

  /** The token a rotation appends after the token it consumes. */
  function Successor(current: RefreshToken, next: Replacement): RefreshToken {
    RefreshToken(next.hash, current.family, next.client, current.user, current.session,
                 if next.scope.None? then current.scope else next.scope.value,
                 next.issuedAt, next.expiresAt)
  }

  function RotateRefresh(s: Store, hash: Digest, next: Replacement, now: Time): Out<RefreshToken> {
    var i := RefreshIndex(s.refresh, hash);
    if i == |s.refresh| then Out(s, Err(NotFound))
    else
      var r := s.refresh[i];
      if r.token.client != next.client then Out(s, Err(NotFound))
      else if r.revokedAt.Some? || r.consumedAt.Some? then Out(RevokeFamily(s, r.token.family, now), Err(Reuse))
      else if r.token.expiresAt <= now then Out(s, Err(Expired))
      else if !ScopesCover(r.token.scope, Successor(r.token, next).scope) then Out(s, Err(InvalidScope))
      else
        Out(s.(refresh := s.refresh[i := r.(consumedAt := Some(now))] +
            [RefreshRecord(Successor(r.token, next), None, None)]),
            Ok(r.token))
  }

  function RevokeRefreshToken(s: Store, hash: Digest, client: Id, now: Time): Out<()> {
    var i := ClientRefreshIndex(s.refresh, hash, client);
    if i == |s.refresh| then Out(s, Err(NotFound))
    else Out(RevokeFamily(s, s.refresh[i].token.family, now), Ok(()))
  }

  function SaveDevice(s: Store, device: Device): Store {
    s.(devices := s.devices + [device])
  }

  function FindDeviceByUserCode(s: Store, userHash: Digest, now: Time): Result<Device, GrantError> {
    var i := PendingDeviceIndex(s.devices, userHash, now);
    if i == |s.devices| then Err(NotFound) else Ok(s.devices[i])
  }

  function DecideDevice(s: Store, userHash: Digest, user: Id, auth: AuthContext, approve: bool, now: Time): Out<()> {
    var i := PendingDeviceIndex(s.devices, userHash, now);
    if i == |s.devices| then Out(s, Err(NotFound))
    else
      var d := s.devices[i].(user := user, auth := auth, status := if approve then DeviceApproved else DeviceDenied);
      var decided := s.(devices := s.devices[i := d]);
      Out(if approve then GrantConsent(decided, user, d.client, d.scope, now) else decided, Ok(()))
  }

  function PollDevice(s: Store, deviceHash: Digest, client: Id, now: Time): Out<Device> {
    var i := DeviceIndex(s.devices, deviceHash, client);
    if i == |s.devices| then Out(s, Err(NotFound))
    else
      var d := s.devices[i];
      if d.expiresAt <= now then Out(s, Err(Expired))
      else if d.lastPollAt.Some? && now < d.lastPollAt.value + d.interval then
        Out(s.(devices := s.devices[i := d.(interval := d.interval + 5 * SECOND, lastPollAt := Some(now))]),
            Err(SlowDown))
      else
        var polled := d.(lastPollAt := Some(now));
        match d.status
        case DevicePending => Out(s.(devices := s.devices[i := polled]), Err(Pending))
        case DeviceDenied => Out(s.(devices := s.devices[i := polled]), Err(Denied))
        case DeviceConsumed => Out(s.(devices := s.devices[i := polled]), Err(Consumed))
        case DeviceApproved =>
          var done := polled.(status := DeviceConsumed);
          Out(s.(devices := s.devices[i := done]), Ok(done))
  }

  function RevokeSessionTokens(s: Store, user: Id, session: Id, now: Time): Store {
    RevokeMatching(s, OfSession(user, session), now)
  }

  function RevokeUserTokens(s: Store, user: Id, exceptSession: Id, now: Time): Store {
    DenyDevices(RevokeMatching(s, OfUser(user, exceptSession), now), OfUser(user, exceptSession))
  }

  function RevokeClientTokens(s: Store, client: Id, now: Time): Store {
    DenyDevices(RevokeMatching(s, OfClient(client), now), OfClient(client))
  }

  function FindConsent(s: Store, user: Id, client: Id): Result<Consent, GrantError> {
    var i := ConsentIndex(s.consents, user, client);
    if i == |s.consents| then Err(ConsentNotFound) else Ok(s.consents[i])
  }

  function GrantConsent(s: Store, user: Id, client: Id, scopes: seq<string>, now: Time): Store {
    var i := ConsentIndex(s.consents, user, client);
    if i == |s.consents| then s.(consents := s.consents + [Consent(user, client, Merge([], scopes), now, now)])
    else
      var c := s.consents[i];
      s.(consents := s.consents[i := c.(scopes := Merge(c.scopes, scopes), updatedAt := now)])
  }

  function DeleteConsent(s: Store, user: Id, client: Id, now: Time): Out<()> {
    var i := ConsentIndex(s.consents, user, client);
    if i == |s.consents| then Out(s, Err(ConsentNotFound))
    else
      var without := s.(consents := s.consents[..i] + s.consents[i + 1..]);
      Out(DenyDevices(RevokeMatching(without, OfConsent(user, client), now), OfConsent(user, client)), Ok(()))
  }
}
