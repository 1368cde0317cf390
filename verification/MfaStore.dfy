/**
 Multi-factor credentials and trusted devices as values: what each repository operation and each service call
 returns and leaves behind. A code is given in its normalised form (no blanks or dashes, upper case).
 */
module MfaStore {
  import opened Prelude

  /** An enrolled secret, known only through the codes it yields. */
  type Secret = nat

  /** The two one-way functions: the code of a secret at a time step, and the digest of a recovery code. */
  datatype Crypto = Crypto(totp: (Secret, int) -> string, recoveryHash: string -> Digest)

  datatype Credential = Credential(
    secret: Secret, enabled: bool, verifiedAt: Option<Time>, lastUsedStep: int,
    failedAttempts: nat, lockedUntil: Option<Time>, recoveryCodes: seq<Digest>)

  datatype TrustedDevice = TrustedDevice(user: Id, agent: Digest, createdAt: Time, lastUsedAt: Time, expiresAt: Time)

  datatype Mfa = Mfa(credentials: map<Id, Credential>, devices: map<Digest, TrustedDevice>)

  const NO_MFA: Mfa := Mfa(map[], map[])

  datatype MfaError = NotFound | NotEnabled | AlreadyEnabled | Unavailable | InvalidCode | Replay | Locked
      | DeviceNotFound

  const TOTP_PERIOD: int := 30
  const DEVICE_TTL: Time := 30 * DAY
  const DEVICE_MAX: nat := 10

  // ---- Repository operations ----

  function DropDevices(s: Mfa, user: Id): Mfa {
    s.(devices := map k | k in s.devices && s.devices[k].user != user :: s.devices[k])
  }

  function ReplacePending(s: Mfa, user: Id, secret: Secret, recovery: seq<Digest>): Mfa {
    DropDevices(s.(credentials := s.credentials[user := Credential(secret, false, None, 0, 0, None, recovery)]), user)
  }

  /** A success clears the failures and the lock. */
  function Cleared(c: Credential): Credential { c.(failedAttempts := 0, lockedUntil := None) }

  function EnableCredential(s: Mfa, user: Id, step: int, now: Time): Mfa
    requires user in s.credentials
  {
    var c := s.credentials[user];
    s.(credentials := s.credentials[user := Cleared(c).(enabled := true, verifiedAt := Some(now),
                                                        lastUsedStep := step)])
  }

  function UseTotp(s: Mfa, user: Id, step: int): (Mfa, Result<(), MfaError>) {
    if user !in s.credentials || !s.credentials[user].enabled then (s, Err(InvalidCode))
    else if step <= s.credentials[user].lastUsedStep then (s, Err(Replay))
    else (s.(credentials := s.credentials[user := Cleared(s.credentials[user]).(lastUsedStep := step)]), Ok(()))
  }

  function Without(codes: seq<Digest>, hash: Digest): seq<Digest> {
    var i := FirstIndex(codes, (c: Digest) => c == hash);
    if i == |codes| then codes else codes[..i] + codes[i + 1..]
  }

  function UseRecoveryCode(s: Mfa, user: Id, hash: Digest): (Mfa, Result<(), MfaError>) {
    if user !in s.credentials || !s.credentials[user].enabled ||
        hash !in s.credentials[user].recoveryCodes then (s, Err(InvalidCode))
    else
      var c := s.credentials[user];
      (s.(credentials := s.credentials[user := Cleared(c).(recoveryCodes := Without(c.recoveryCodes, hash))]), Ok(()))
  }

  function RecordFailure(s: Mfa, user: Id, attempts: nat, lock: Option<Time>): Mfa
    requires user in s.credentials
  {
    s.(credentials := s.credentials[user := s.credentials[user].(failedAttempts := attempts, lockedUntil := lock)])
  }

  function ReplaceRecoveryCodes(s: Mfa, user: Id, recovery: seq<Digest>): Mfa
    requires user in s.credentials
  {
    s.(credentials := s.credentials[user := s.credentials[user].(recoveryCodes := recovery)])
  }

  function DeleteCredential(s: Mfa, user: Id): Mfa { DropDevices(s.(credentials := s.credentials - {user}), user) }

  function DevicesOf(devices: map<Digest, TrustedDevice>, user: Id): set<Digest> {
    set k | k in devices && devices[k].user == user
  }

  function Unexpired(devices: map<Digest, TrustedDevice>, user: Id, now: Time): map<Digest, TrustedDevice> {
    map k | k in devices && !(devices[k].user == user && devices[k].expiresAt <= now) :: devices[k]
  }

  /** The table after expired devices are dropped and the new one is in, before any eviction. */
  function Crowded(s: Mfa, token: Digest, d: TrustedDevice): map<Digest, TrustedDevice> {
    Unexpired(s.devices, d.user, d.createdAt)[token := d]
  }

  predicate Enrolled(s: Mfa, user: Id) { user in s.credentials && s.credentials[user].enabled }

  /**
   Which keys an eviction may remove: exactly the surplus, none of them used after one that stays. Among equal
   times the choice is free, as the source's sort leaves it.
   */
  ghost predicate EvictionOk(s: Mfa, token: Digest, d: TrustedDevice, evicted: set<Digest>) {
    var table := Crowded(s, token, d);
    var keys := DevicesOf(table, d.user);
    && evicted <= keys
    && |evicted| == Max(0, |keys| - DEVICE_MAX)
    && forall e, k :: e in evicted && k in keys - evicted ==> table[e].lastUsedAt <= table[k].lastUsedAt
  }

  function StoreDevice(s: Mfa, token: Digest, d: TrustedDevice, evicted: set<Digest>): (Mfa, Result<(), MfaError>) {
    if d.user !in s.credentials then (s, Err(NotFound))
    else if !s.credentials[d.user].enabled then (s, Err(NotEnabled))
    else (s.(devices := Crowded(s, token, d) - evicted), Ok(()))
  }

  function RotateDevice(s: Mfa, user: Id, token: Digest, replacement: Digest, agent: Digest, now: Time): (Mfa,
      Result<Time, MfaError>) {
    if token !in s.devices || s.devices[token].user != user ||
        s.devices[token].agent != agent then (s, Err(DeviceNotFound))
    else if s.devices[token].expiresAt <= now then (s.(devices := s.devices - {token}), Err(DeviceNotFound))
    else
      var d := s.devices[token].(lastUsedAt := now);
      (s.(devices := (s.devices - {token})[replacement := d]), Ok(d.expiresAt))
  }

  // ---- Service calls ----

  /** The time step of an instant; Go divides towards zero. */
  function ClockStep(now: Time): int {
    var seconds := now / SECOND;
    if seconds >= 0 then seconds / TOTP_PERIOD else -((-seconds) / TOTP_PERIOD)
  }

  datatype Match = Matched(step: int) | Replayed | Unmatched

  /** The first of three steps, the current, the previous and the next, whose code was given, unless it is used up. */
  function MatchTotp(c: Credential, code: string, readable: bool, x: Crypto, now: Time): Match {
    var n := ClockStep(now);
    var check := (step: int) => if step <= c.lastUsedStep then Replayed else Matched(step);
    if !readable then Unmatched
    else if x.totp(c.secret, n) == code then check(n)
    else if x.totp(c.secret, n - 1) == code then check(n - 1)
    else if x.totp(c.secret, n + 1) == code then check(n + 1)
    else Unmatched
  }

  predicate IsTotp(code: string) {
    |code| == 6 && forall i :: 0 <= i < 6 ==> '0' <= code[i] <= '9'
  }

  function Delay(attempts: nat): Time { Min(attempts - 4, 12) * (5 * MINUTE) }

  /** The lock a failed attempt leaves: none for the first four, then longer with each one up to an hour. */
  function LockAfter(attempts: nat, now: Time): Option<Time> {
    if attempts >= 5 then Some(now + Delay(attempts)) else None
  }

  datatype Verdict =
    | NotEnrolled
    | LockedOut
    | Accepted(step: int)
    | Recovered(hash: Digest)
    | ReplayRefused
    | Rejected(attempts: nat)

  function VerdictOf(s: Mfa, user: Id, code: string, readable: bool, x: Crypto, now: Time): Verdict {
    if !Enrolled(s, user) then NotEnrolled
    else
      var c := s.credentials[user];
      if c.lockedUntil.Some? && now < c.lockedUntil.value then LockedOut
      else if IsTotp(code) then
        match MatchTotp(c, code, readable, x, now)
        case Matched(step) => Accepted(step)
        case Replayed => ReplayRefused
        case Unmatched => Rejected(c.failedAttempts + 1)
      else if |code| >= 20 && x.recoveryHash(code) in c.recoveryCodes then Recovered(x.recoveryHash(code))
      else Rejected(c.failedAttempts + 1)
  }

  function VerifyCall(s: Mfa, user: Id, code: string, readable: bool, x: Crypto, now: Time): Mfa {
    match VerdictOf(s, user, code, readable, x, now)
    case Accepted(step) => UseTotp(s, user, step).0
    case Recovered(hash) => UseRecoveryCode(s, user, hash).0
    case Rejected(attempts) => RecordFailure(s, user, attempts, LockAfter(attempts, now))
    case _ => s
  }

  /** What the caller is told. */
  function VerifyAnswer(v: Verdict): Result<(), MfaError> {
    match v
    case NotEnrolled => Err(InvalidCode)
    case LockedOut => Err(Locked)
    case Accepted(_) => Ok(())
    case Recovered(_) => Ok(())
    case ReplayRefused => Err(Replay)
    case Rejected(attempts) => Err(if attempts >= 5 then Locked else InvalidCode)
  }

  function EnableMatch(s: Mfa, user: Id, code: string, readable: bool, x: Crypto, now: Time): Match {
    if user !in s.credentials || s.credentials[user].enabled then Unmatched
    else MatchTotp(s.credentials[user], code, readable, x, now)
  }

  function EnableCall(s: Mfa, user: Id, code: string, readable: bool, x: Crypto, now: Time): (t: Mfa) {
    match EnableMatch(s, user, code, readable, x, now)
    case Matched(step) => EnableCredential(s, user, step, now)
    case _ => s
  }

  function EnableAnswer(s: Mfa, user: Id, code: string, readable: bool, x: Crypto, now: Time): Result<(), MfaError> {
    if user !in s.credentials then Err(NotFound)
    else if s.credentials[user].enabled then Ok(())
    else if !readable then Err(Unavailable)
    else
      match EnableMatch(s, user, code, readable, x, now)
      case Matched(_) => Ok(())
      case Replayed => Err(Replay)
      case Unmatched => Err(InvalidCode)
  }

  predicate SetsUp(s: Mfa, user: Id, available: bool) { available && !Enrolled(s, user) }

  function SetupCall(s: Mfa, user: Id, secret: Secret, recovery: seq<Digest>, available: bool): Mfa {
    if SetsUp(s, user, available) then ReplacePending(s, user, secret, recovery) else s
  }

  function NewDevice(user: Id, agent: Digest, now: Time): TrustedDevice {
    TrustedDevice(user, agent, now, now, now + DEVICE_TTL)
  }
}
