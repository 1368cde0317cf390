/**
 The calls of both grant repositories, the PostgreSQL one as functions on its tables, and the relation between the
 two states. Only the visible WHERE, SET, CASE and ON CONFLICT clauses are modelled.
 */
module GrantSql {
  import opened Prelude
  import opened Scopes
  import opened GrantStore
  import opened GrantInvariants

  // ---- Tables ----

  datatype AccessRow = AccessRow(
    client: Id, user: Option<Id>, session: Option<Id>, family: Option<Id>, scope: seq<string>,
    issuedAt: Time, expiresAt: Time, revokedAt: Option<Time>)

  datatype RefreshRow = RefreshRow(
    family: Id, client: Id, user: Id, session: Option<Id>, scope: seq<string>, issuedAt: Time, expiresAt: Time,
    consumedAt: Option<Time>, replacedBy: Option<Digest>, revokedAt: Option<Time>)

  datatype DeviceRow = DeviceRow(
    userHash: Digest, client: Id, user: Option<Id>, scope: seq<string>, status: DeviceStatus, auth: AuthContext,
    createdAt: Time, expiresAt: Time, interval: Time, lastPollAt: Option<Time>)

  datatype ConsentRow = ConsentRow(scopes: seq<string>, grantedAt: Time, updatedAt: Time)

  datatype Tables = Tables(
    codes: map<Digest, CodeRecord>,
    access: map<Digest, AccessRow>,
    refresh: map<Digest, RefreshRow>,
    devices: map<Digest, DeviceRow>,
    consents: map<(Id, Id), ConsentRow>)

  function Nullable(value: Id): Option<Id> { if value == "" then None else Some(value) }

  function Text(value: Option<Id>): Id { if value.None? then "" else value.value }

  function Coalesce(old_: Option<Time>, now: Time): Option<Time> { if old_.Some? then old_ else Some(now) }

  // ---- Answers, with the error kinds a handler cannot tell apart collapsed ----

  datatype Answer =
    | Done
    | Refused
    | InvalidScopeAnswer
    | PendingAnswer
    | SlowDownAnswer
    | DeniedAnswer
    | ExpiredAnswer
    | ACode(code: AuthorizationCode)
    | AnAccess(access: AccessToken)
    | ARefresh(refresh: RefreshToken)
    | ADevice(user: Id, client: Id, scope: seq<string>, auth: AuthContext)
    | AConsent(scopes: set<string>, grantedAt: Time, updatedAt: Time)

  /** One repository call. */
  datatype Call =
    | SaveCodeCall(code: AuthorizationCode)
    | ConsumeCodeCall(hash: Digest, client: Id, redirectURI: string, challenge: string)
    | SaveAccessCall(access: AccessToken)
    | FindAccessCall(hash: Digest)
    | RevokeAccessCall(hash: Digest, client: Id)
    | SaveRefreshCall(refresh: RefreshToken)
    | FindRefreshCall(hash: Digest)
    | RotateCall(hash: Digest, next: Replacement)
    | RevokeRefreshCall(hash: Digest, client: Id)
    | SaveDeviceCall(device: Device)
    | DecideCall(userHash: Digest, user: Id, auth: AuthContext, approve: bool)
    | PollCall(hash: Digest, client: Id)
    | RevokeSessionCall(user: Id, session: Id)
    | RevokeUserCall(user: Id, exceptSession: Id)
    | RevokeClientCall(client: Id)
    | FindConsentCall(user: Id, client: Id)
    | GrantConsentCall(user: Id, client: Id, scopes: seq<string>)
    | DeleteConsentCall(user: Id, client: Id)

  datatype MemReply = MemReply(store: Store, answer: Answer)
  datatype SqlReply = SqlReply(tables: Tables, answer: Answer)

  // ---- The in-memory repository, by call ----

  function DoneAnswer(res: Result<(), GrantError>): Answer { if res.Ok? then Done else Refused }

  function CodeAnswer(res: Result<AuthorizationCode, GrantError>): Answer {
    if res.Ok? then ACode(res.value) else Refused
  }

  function RotateAnswer(res: Result<RefreshToken, GrantError>): Answer {
    if res.Ok? then ARefresh(res.value) else if res.error == InvalidScope then InvalidScopeAnswer else Refused
  }

  function AccessAnswer(res: Result<AccessToken, GrantError>): Answer {
    if res.Ok? then AnAccess(res.value) else Refused
  }

  function RefreshAnswer(res: Result<RefreshToken, GrantError>): Answer {
    if res.Ok? then ARefresh(res.value) else Refused
  }

  function ConsentAnswer(res: Result<Consent, GrantError>): Answer {
    if res.Ok? then AConsent(Elems(res.value.scopes), res.value.grantedAt, res.value.updatedAt) else Refused
  }

  function PollAnswer(res: Result<Device, GrantError>): Answer {
    match res
    case Ok(d) => ADevice(d.user, d.client, d.scope, d.auth)
    case Err(Pending) => PendingAnswer
    case Err(SlowDown) => SlowDownAnswer
    case Err(Denied) => DeniedAnswer
    case Err(Expired) => ExpiredAnswer
    case Err(_) => Refused
  }

  function MemCall(s: Store, call: Call, now: Time): MemReply {
    match call
    case SaveCodeCall(code) => MemReply(SaveCode(s, code), Done)
    case ConsumeCodeCall(hash, client, uri, challenge) =>
      var out := ConsumeCode(s, hash, client, uri, challenge, now);
      MemReply(out.store, CodeAnswer(out.res))
    case SaveAccessCall(token) => MemReply(SaveAccess(s, token), Done)
    case FindAccessCall(hash) =>
      MemReply(s, AccessAnswer(FindAccess(s, hash, now)))
    case RevokeAccessCall(hash, client) =>
      var out := RevokeAccessToken(s, hash, client, now);
      MemReply(out.store, DoneAnswer(out.res))
    case SaveRefreshCall(token) => MemReply(SaveRefresh(s, token), Done)
    case FindRefreshCall(hash) =>
      MemReply(s, RefreshAnswer(FindRefresh(s, hash, now)))
    case RotateCall(hash, next) =>
      var out := RotateRefresh(s, hash, next, now);
      MemReply(out.store, RotateAnswer(out.res))
    case RevokeRefreshCall(hash, client) =>
      var out := RevokeRefreshToken(s, hash, client, now);
      MemReply(out.store, DoneAnswer(out.res))
    case SaveDeviceCall(device) => MemReply(SaveDevice(s, device), Done)
    case DecideCall(userHash, user, auth, approve) =>
      var out := DecideDevice(s, userHash, user, auth, approve, now);
      MemReply(out.store, DoneAnswer(out.res))
    case PollCall(hash, client) =>
      var out := PollDevice(s, hash, client, now);
      MemReply(out.store, PollAnswer(out.res))
    case RevokeSessionCall(user, session) => MemReply(RevokeSessionTokens(s, user, session, now), Done)
    case RevokeUserCall(user, exceptSession) => MemReply(RevokeUserTokens(s, user, exceptSession, now), Done)
    case RevokeClientCall(client) => MemReply(RevokeClientTokens(s, client, now), Done)
    case FindConsentCall(user, client) =>
      MemReply(s, ConsentAnswer(FindConsent(s, user, client)))
    case GrantConsentCall(user, client, scopes) =>
      var t := GrantConsent(s, user, client, scopes, now);
      MemReply(t, ConsentAnswer(FindConsent(t, user, client)))
    case DeleteConsentCall(user, client) =>
      var out := DeleteConsent(s, user, client, now);
      MemReply(out.store, DoneAnswer(out.res))
  }

  // ---- The SQL statements, by call ----

  function AccessOf(hash: Digest, row: AccessRow): AccessToken {
    AccessToken(hash, row.client, Text(row.user), Text(row.session), Text(row.family), row.scope, row.issuedAt,
                row.expiresAt)
  }

  function RefreshOf(hash: Digest, row: RefreshRow): RefreshToken {
    RefreshToken(hash, row.family, row.client, row.user, Text(row.session), row.scope, row.issuedAt, row.expiresAt)
  }

  function RowOfAccess(t: AccessToken): AccessRow {
    AccessRow(t.client, Nullable(t.user), Nullable(t.session), Nullable(t.family), t.scope, t.issuedAt, t.expiresAt,
              None)
  }

  function RowOfRefresh(t: RefreshToken): RefreshRow {
    RefreshRow(t.family, t.client, t.user, Nullable(t.session), t.scope, t.issuedAt, t.expiresAt, None, None, None)
  }

  /** The INSERT names no user, no authentication and no poll time, and keeps the interval in whole seconds. */
  function RowOfDevice(d: Device): DeviceRow {
    DeviceRow(d.userHash, d.client, None, d.scope, d.status, NO_AUTH, d.createdAt, d.expiresAt,
              d.interval / SECOND * SECOND, None)
  }

  /** The WHERE clause of a bulk revocation, on a row's possibly null user and session. */
  predicate Where(m: Matcher, user: Option<Id>, session: Option<Id>, client: Id) {
    match m
    case OfSession(u, s) => user == Some(u) && session == Some(s)
    case OfUser(u, exceptSession) => user == Some(u) && (exceptSession == "" || session != Nullable(exceptSession))
    case OfClient(c) => client == c
    case OfConsent(u, c) => user == Some(u) && client == c
  }

  predicate WhereDevice(m: Matcher, row: DeviceRow) {
    match m
    case OfSession(_, _) => false
    case OfUser(u, _) => row.user == Some(u) && row.status == DeviceApproved
    case OfClient(c) => row.client == c && (row.status == DevicePending || row.status == DeviceApproved)
    case OfConsent(u, c) => row.user == Some(u) && row.client == c && row.status == DeviceApproved
  }

  function MarkCodeRow(r: CodeRecord, m: Matcher, now: Time): CodeRecord {
    if Where(m, Some(r.code.user), Some(r.code.session), r.code.client)
    then r.(revokedAt := Coalesce(r.revokedAt, now))
    else r
  }

  function MarkAccessRow(r: AccessRow, m: Matcher, now: Time): AccessRow {
    if Where(m, r.user, r.session, r.client) then r.(revokedAt := Coalesce(r.revokedAt, now)) else r
  }

  function MarkRefreshRow(r: RefreshRow, m: Matcher, now: Time): RefreshRow {
    if Where(m, Some(r.user), r.session, r.client) then r.(revokedAt := Coalesce(r.revokedAt, now)) else r
  }

  function DenyRow(r: DeviceRow, m: Matcher): DeviceRow {
    if WhereDevice(m, r) then r.(status := DeviceDenied) else r
  }

  function SqlRevokeWhere(q: Tables, m: Matcher, now: Time): Tables {
    q.(codes := map h | h in q.codes :: MarkCodeRow(q.codes[h], m, now),
       access := map h | h in q.access :: MarkAccessRow(q.access[h], m, now),
       refresh := map h | h in q.refresh :: MarkRefreshRow(q.refresh[h], m, now),
       devices := map h | h in q.devices :: DenyRow(q.devices[h], m))
  }

  function SqlConsumeCode(q: Tables, hash: Digest, client: Id, uri: string, challenge: string, now: Time): SqlReply {
    if hash in q.codes && q.codes[hash].code.client == client && q.codes[hash].code.redirectURI == uri
       && q.codes[hash].code.challenge == challenge && q.codes[hash].consumedAt.None? && q.codes[hash].revokedAt.None?
       && now < q.codes[hash].code.expiresAt
    then SqlReply(q.(codes := q.codes[hash := q.codes[hash].(consumedAt := Some(now))]), ACode(q.codes[hash].code))
    else SqlReply(q, Refused)
  }

  function SqlRevokeAccess(q: Tables, hash: Digest, client: Id, now: Time): SqlReply {
    if hash in q.access && q.access[hash].client == client
    then SqlReply(q.(access := q.access[hash := q.access[hash].(revokedAt := Coalesce(q.access[hash].revokedAt, now))]),
                  Done)
    else SqlReply(q, Refused)
  }

  /** The revocation statement also filters the refresh tokens by client; the reuse one does not. */
  function KillRefreshRow(r: RefreshRow, family: Id, client: Option<Id>, now: Time): RefreshRow {
    if r.family == family && (client.None? || r.client == client.value)
    then r.(revokedAt := Coalesce(r.revokedAt, now))
    else r
  }

  function KillAccessRow(r: AccessRow, family: Id, now: Time): AccessRow {
    if r.family == Some(family) then r.(revokedAt := Coalesce(r.revokedAt, now)) else r
  }

  function SqlRevokeFamily(q: Tables, family: Id, client: Option<Id>, now: Time): Tables {
    q.(refresh := map h | h in q.refresh :: KillRefreshRow(q.refresh[h], family, client, now),
       access := map h | h in q.access :: KillAccessRow(q.access[h], family, now))
  }

  function SqlFindAccess(q: Tables, hash: Digest, now: Time): SqlReply {
    SqlReply(q, if hash in q.access && q.access[hash].revokedAt.None? && now < q.access[hash].expiresAt
                then AnAccess(AccessOf(hash, q.access[hash])) else Refused)
  }

  function SqlFindRefresh(q: Tables, hash: Digest, now: Time): SqlReply {
    SqlReply(q, if hash in q.refresh && q.refresh[hash].consumedAt.None? && q.refresh[hash].revokedAt.None? &&
        now < q.refresh[hash].expiresAt
                then ARefresh(RefreshOf(hash, q.refresh[hash])) else Refused)
  }

  function ConsentRowAnswer(row: ConsentRow): Answer { AConsent(Elems(row.scopes), row.grantedAt, row.updatedAt) }

  function SqlFindConsent(q: Tables, user: Id, client: Id): SqlReply {
    SqlReply(q, if (user, client) in q.consents then ConsentRowAnswer(q.consents[(user, client)]) else Refused)
  }

  function SqlRevokeRefresh(q: Tables, hash: Digest, client: Id, now: Time): SqlReply {
    if hash in q.refresh && q.refresh[hash].client == client
    then SqlReply(SqlRevokeFamily(q, q.refresh[hash].family, Some(client), now), Done)
    else SqlReply(q, Refused)
  }

  function SqlRotate(q: Tables, hash: Digest, next: Replacement, now: Time): SqlReply {
    if hash !in q.refresh || q.refresh[hash].client != next.client then SqlReply(q, Refused)
    else
      var r := q.refresh[hash];
      if r.consumedAt.Some? || r.revokedAt.Some? then SqlReply(SqlRevokeFamily(q, r.family, None, now), Refused)
      else if r.expiresAt <= now then SqlReply(q, Refused)
      else
        var t := Successor(RefreshOf(hash, r), next);
        if !ScopesCover(r.scope, t.scope) then SqlReply(q, InvalidScopeAnswer)
        else
          SqlReply(q.(refresh := q.refresh[hash := r.(consumedAt := Some(now),
                                                      replacedBy := Some(next.hash))][next.hash := RowOfRefresh(t)]),
                   ARefresh(RefreshOf(hash, r)))
  }

  /** INSERT ... ON CONFLICT DO UPDATE: the first grant stores the list as given, a later one the sorted union. */
  function SqlGrantConsent(q: Tables, user: Id, client: Id, scopes: seq<string>, now: Time): Tables {
    q.(consents := q.consents[(user, client) :=
      if (user, client) in q.consents then
        q.consents[(user, client)].(scopes := Merge([], q.consents[(user, client)].scopes + scopes), updatedAt := now)
      else ConsentRow(scopes, now, now)])
  }

  function SqlDeleteConsent(q: Tables, user: Id, client: Id, now: Time): SqlReply {
    if (user, client) in q.consents
    then SqlReply(SqlRevokeWhere(q.(consents := q.consents - {(user, client)}), OfConsent(user, client), now), Done)
    else SqlReply(q, Refused)
  }

  predicate Deciding(row: DeviceRow, userHash: Digest, now: Time) {
    row.userHash == userHash && row.status == DevicePending && now < row.expiresAt
  }

  /** UPDATE ... RETURNING on the pending row of a user code, then the consent; user codes are unique. */
  ghost function SqlDecide(q: Tables, userHash: Digest, user: Id, auth: AuthContext, approve: bool,
                           now: Time): SqlReply {
    if exists h :: h in q.devices && Deciding(q.devices[h], userHash, now) then
      var h :| h in q.devices && Deciding(q.devices[h], userHash, now);
      var row := q.devices[h].(user := Some(user), auth := auth, status := if approve then DeviceApproved
          else DeviceDenied);
      var decided := q.(devices := q.devices[h := row]);
      SqlReply(if approve then SqlGrantConsent(decided, user, row.client, row.scope, now) else decided, Done)
    else SqlReply(q, Refused)
  }

  function SqlPoll(q: Tables, hash: Digest, client: Id, now: Time): SqlReply {
    if hash !in q.devices || q.devices[hash].client != client then SqlReply(q, Refused)
    else
      var r := q.devices[hash];
      if r.expiresAt <= now then SqlReply(q, ExpiredAnswer)
      else if r.lastPollAt.Some? && now < r.lastPollAt.value + r.interval then
        SqlReply(q.(devices := q.devices[hash := r.(interval := r.interval + 5 * SECOND, lastPollAt := Some(now))]),
                 SlowDownAnswer)
      else
        var polled := q.(devices := q.devices[hash := r.(lastPollAt := Some(now))]);
        match r.status
        case DevicePending => SqlReply(polled, PendingAnswer)
        case DeviceDenied => SqlReply(polled, DeniedAnswer)
        case DeviceConsumed => SqlReply(q, Refused)
        case DeviceApproved =>
          SqlReply(q.(devices := q.devices[hash := r.(lastPollAt := Some(now), status := DeviceConsumed)]),
                   ADevice(Text(r.user), r.client, r.scope, r.auth))
  }

  ghost function SqlCall(q: Tables, call: Call, now: Time): SqlReply {
    match call
    case SaveCodeCall(code) => SqlReply(q.(codes := q.codes[code.hash := CodeRecord(code, None, None)]), Done)
    case ConsumeCodeCall(hash, client, uri, challenge) => SqlConsumeCode(q, hash, client, uri, challenge, now)
    case SaveAccessCall(token) => SqlReply(q.(access := q.access[token.hash := RowOfAccess(token)]), Done)
    case FindAccessCall(hash) => SqlFindAccess(q, hash, now)
    case RevokeAccessCall(hash, client) => SqlRevokeAccess(q, hash, client, now)
    case SaveRefreshCall(token) => SqlReply(q.(refresh := q.refresh[token.hash := RowOfRefresh(token)]), Done)
    case FindRefreshCall(hash) => SqlFindRefresh(q, hash, now)
    case RotateCall(hash, next) => SqlRotate(q, hash, next, now)
    case RevokeRefreshCall(hash, client) => SqlRevokeRefresh(q, hash, client, now)
    case SaveDeviceCall(device) => SqlReply(q.(devices := q.devices[device.deviceHash := RowOfDevice(device)]), Done)
    case DecideCall(userHash, user, auth, approve) => SqlDecide(q, userHash, user, auth, approve, now)
    case PollCall(hash, client) => SqlPoll(q, hash, client, now)
    case RevokeSessionCall(user, session) => SqlReply(SqlRevokeWhere(q, OfSession(user, session), now), Done)
    case RevokeUserCall(user, exceptSession) => SqlReply(SqlRevokeWhere(q, OfUser(user, exceptSession), now), Done)
    case RevokeClientCall(client) => SqlReply(SqlRevokeWhere(q, OfClient(client), now), Done)
    case FindConsentCall(user, client) => SqlFindConsent(q, user, client)
    case GrantConsentCall(user, client, scopes) =>
      var p := SqlGrantConsent(q, user, client, scopes, now);
      SqlReply(p, ConsentRowAnswer(p.consents[(user, client)]))
    case DeleteConsentCall(user, client) => SqlDeleteConsent(q, user, client, now)
  }

  // ---- The simulation relation ----

  predicate SameMark(a: Option<Time>, b: Option<Time>) { a.Some? <==> b.Some? }

  predicate CodeSim(r: CodeRecord, row: CodeRecord) {
    row.code == r.code && SameMark(r.consumedAt, row.consumedAt) && SameMark(r.revokedAt, row.revokedAt)
  }

  predicate AccessSim(r: AccessRecord, row: AccessRow) {
    row.(revokedAt := None) == RowOfAccess(r.token) && SameMark(r.revokedAt, row.revokedAt)
  }

  predicate RefreshSim(r: RefreshRecord, row: RefreshRow) {
    row.(revokedAt := None, consumedAt := None, replacedBy := None) == RowOfRefresh(r.token)
    && SameMark(r.consumedAt, row.consumedAt) && SameMark(r.revokedAt, row.revokedAt)
  }

  predicate DeviceSim(d: Device, row: DeviceRow) {
    && row.userHash == d.userHash && row.client == d.client && row.user == Nullable(d.user) && row.scope == d.scope
    && row.status == d.status && row.auth == d.auth && row.createdAt == d.createdAt && row.expiresAt == d.expiresAt
    && row.interval == d.interval && row.lastPollAt == d.lastPollAt
  }

  predicate ConsentSim(c: Consent, row: ConsentRow) {
    Elems(row.scopes) == Elems(c.scopes) && row.grantedAt == c.grantedAt && row.updatedAt == c.updatedAt
  }

  predicate CodeAt(codes: seq<CodeRecord>, h: Digest) { exists i :: 0 <= i < |codes| && codes[i].code.hash == h }

  predicate AccessAt(access: seq<AccessRecord>, h: Digest) {
    exists i :: 0 <= i < |access| && access[i].token.hash == h
  }

  predicate RefreshAt(refresh: seq<RefreshRecord>, h: Digest) {
    exists i :: 0 <= i < |refresh| && refresh[i].token.hash == h
  }

  predicate DeviceAt(devices: seq<Device>, h: Digest) { exists i :: 0 <= i < |devices| && devices[i].deviceHash == h }

  ghost predicate SimCodes(codes: seq<CodeRecord>, table: map<Digest, CodeRecord>) {
    && (forall i :: 0 <= i < |codes| ==> codes[i].code.hash in table && CodeSim(codes[i], table[codes[i].code.hash]))
    && (forall h :: h in table ==> CodeAt(codes, h))
    && (forall i, j :: 0 <= i < j < |codes| ==> codes[i].code.hash != codes[j].code.hash)
  }

  ghost predicate SimAccess(access: seq<AccessRecord>, table: map<Digest, AccessRow>) {
    && (forall i :: 0 <= i < |access| ==>
          access[i].token.hash in table && AccessSim(access[i], table[access[i].token.hash]))
    && (forall h :: h in table ==> AccessAt(access, h))
    && (forall i, j :: 0 <= i < j < |access| ==> access[i].token.hash != access[j].token.hash)
  }

  ghost predicate SimRefresh(refresh: seq<RefreshRecord>, table: map<Digest, RefreshRow>) {
    && (forall i :: 0 <= i < |refresh| ==>
          refresh[i].token.hash in table && RefreshSim(refresh[i], table[refresh[i].token.hash]))
    && (forall h :: h in table ==> RefreshAt(refresh, h))
    && (forall i, j :: 0 <= i < j < |refresh| ==> refresh[i].token.hash != refresh[j].token.hash)
    && (forall i, j :: 0 <= i < j < |refresh| && refresh[i].token.family == refresh[j].token.family ==>
          refresh[i].token.client == refresh[j].token.client)
    && (forall i :: 0 <= i < |refresh| ==> refresh[i].token.user != "" && refresh[i].token.family != "")
  }

  ghost predicate SimDevices(devices: seq<Device>, table: map<Digest, DeviceRow>) {
    && (forall i :: 0 <= i < |devices| ==>
          devices[i].deviceHash in table && DeviceSim(devices[i], table[devices[i].deviceHash]))
    && (forall h :: h in table ==> DeviceAt(devices, h))
    && (forall i, j :: 0 <= i < j < |devices| ==> devices[i].deviceHash != devices[j].deviceHash)
    && (forall i, j :: 0 <= i < j < |devices| ==> devices[i].userHash != devices[j].userHash)
  }

  predicate HasRow(c: Consent, table: map<(Id, Id), ConsentRow>) {
    (c.user, c.client) in table && ConsentSim(c, table[(c.user, c.client)])
  }

  predicate ConsentOf(consents: seq<Consent>, key: (Id, Id)) {
    exists i :: 0 <= i < |consents| && (consents[i].user, consents[i].client) == key
  }

  ghost predicate SimConsents(consents: seq<Consent>, table: map<(Id, Id), ConsentRow>) {
    && (forall i :: 0 <= i < |consents| ==> HasRow(consents[i], table))
    && (forall k :: k in table ==> ConsentOf(consents, k))
    && ConsentsCanonical(consents)
  }

  /** The two repositories hold the same grants; only the revocation times may differ. */
  ghost predicate Sim(s: Store, q: Tables) {
    && SimCodes(s.codes, q.codes)
    && SimAccess(s.access, q.access)
    && SimRefresh(s.refresh, q.refresh)
    && SimDevices(s.devices, q.devices)
    && SimConsents(s.consents, q.consents)
  }

  /** What the callers keep to: fresh hashes, non-empty users and families, and no poll of a used device code. */
  ghost predicate CallOk(s: Store, call: Call) {
    match call
    case SaveCodeCall(code) => FreshCode(s, code.hash)
    case SaveAccessCall(token) => FreshAccess(s, token.hash)
    case SaveRefreshCall(token) =>
      FreshRefresh(s, token.hash) && FreshFamily(s.(access := []), token.family) && token.user != ""
    case RotateCall(_, next) => FreshRefresh(s, next.hash)
    case SaveDeviceCall(device) =>
      && FreshDevice(s, device.deviceHash) && device.user == "" && device.auth == NO_AUTH && device.lastPollAt.None?
      && device.interval % SECOND == 0
      && forall i :: 0 <= i < |s.devices| ==> s.devices[i].userHash != device.userHash
    case DecideCall(_, user, _, _) => user != ""
    case PollCall(hash, client) =>
      forall i :: 0 <= i < |s.devices| && s.devices[i].deviceHash == hash ==> s.devices[i].status != DeviceConsumed
    case RevokeSessionCall(user, session) => user != "" && session != ""
    case RevokeUserCall(user, _) => user != ""
    case DeleteConsentCall(user, _) => user != ""
    case _ => true
  }
}
