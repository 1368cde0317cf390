/** The MFA service: sequences of repository calls, each proved to take exactly its call of MfaStore. */
module MfaService {
  import opened Prelude
  import opened MfaStore
  import opened MfaRepository

  class Service {
    const repository: MemoryRepository
    const crypto: Crypto

    ghost function View(): Mfa
      reads this, repository
    {
      repository.View()
    }

    constructor (crypto: Crypto)
      ensures View() == NO_MFA && fresh(repository) && this.crypto == crypto
    {
      this.repository := new MemoryRepository();
      this.crypto := crypto;
    }

    /** readable says that an encryption key is there and opens the stored secret. */
    method MatchTOTP(credential: Credential, code: string, readable: bool, now: Time) returns (m: Match)
      ensures m == MatchTotp(credential, code, readable, crypto, now)
    {
      if !readable { return Unmatched; }
      var nowStep := ClockStep(now);
      var steps := [nowStep, nowStep - 1, nowStep + 1];
      for i := 0 to |steps|
        invariant forall j :: 0 <= j < i ==> crypto.totp(credential.secret, steps[j]) != code
      {
        if crypto.totp(credential.secret, steps[i]) == code {
          assert i > 0 ==> crypto.totp(credential.secret, steps[0]) != code;
          assert i > 1 ==> crypto.totp(credential.secret, steps[1]) != code;
          if steps[i] <= credential.lastUsedStep { return Replayed; }
          return Matched(steps[i]);
        }
      }
      assert crypto.totp(credential.secret, steps[0]) != code;
      assert crypto.totp(credential.secret, steps[1]) != code && crypto.totp(credential.secret, steps[2]) != code;
      return Unmatched;
    }

    method Setup(user: Id, secret: Secret, recovery: seq<Digest>, available: bool) returns (res: Result<(), MfaError>)
      modifies repository
      ensures View() == SetupCall(old(View()), user, secret, recovery, available)
      ensures res.Ok? <==> SetsUp(old(View()), user, available)
    {
      if !available { return Err(Unavailable); }
      var found := repository.Find(user);
      if found.Some? && found.value.enabled { return Err(AlreadyEnabled); }
      repository.ReplacePending(user, secret, recovery);
      return Ok(());
    }

    method Enable(user: Id, code: string, readable: bool, now: Time) returns (res: Result<(), MfaError>)
      modifies repository
      ensures View() == EnableCall(old(View()), user, code, readable, crypto, now)
      ensures res == EnableAnswer(old(View()), user, code, readable, crypto, now)
    {
      var found := repository.Find(user);
      if found.None? { return Err(NotFound); }
      if found.value.enabled { return Ok(()); }
      var m := MatchTOTP(found.value, code, readable, now);
      match m {
        case Matched(step) => res := repository.Enable(user, step, now);
        case Replayed => res := Err(Replay);
        case Unmatched => res := Err(if readable then InvalidCode else Unavailable);
      }
    }

    method Verify(user: Id, code: string, readable: bool, now: Time) returns (res: Result<(), MfaError>)
      modifies repository
      ensures View() == VerifyCall(old(View()), user, code, readable, crypto, now)
      ensures res == VerifyAnswer(VerdictOf(old(View()), user, code, readable, crypto, now))
    {
      var found := repository.Find(user);
      if found.None? || !found.value.enabled { return Err(InvalidCode); }
      var credential := found.value;
      if credential.lockedUntil.Some? && now < credential.lockedUntil.value { return Err(Locked); }
      if IsTotp(code) {
        var m := MatchTOTP(credential, code, readable, now);
        if m.Matched? {
          res := repository.UseTOTP(user, m.step);
          return;
        }
        if m.Replayed? { return Err(Replay); }
      } else if |code| >= 20 {
        res := repository.UseRecoveryCode(user, crypto.recoveryHash(code));
        if res.Ok? { return; }
      }
      var attempts := credential.failedAttempts + 1;
      var lock := None;
      if attempts >= 5 { lock := Some(now + Min(attempts - 4, 12) * (5 * MINUTE)); }
      res := repository.RecordFailure(user, attempts, lock);
      return Err(if lock.Some? then Locked else InvalidCode);
    }

    method Disable(user: Id) returns (res: Result<(), MfaError>)
      modifies repository
      ensures View() == if user in old(View()).credentials then DeleteCredential(old(View()), user) else old(View())
    {
      res := repository.Delete(user);
    }

    method RegenerateRecoveryCodes(user: Id, recovery: seq<Digest>) returns (res: Result<(), MfaError>)
      modifies repository
      ensures View() == if Enrolled(old(View()), user) then ReplaceRecoveryCodes(old(View()), user, recovery)
                else old(View())
      ensures res.Ok? <==> Enrolled(old(View()), user)
    {
      var found := repository.Find(user);
      if found.None? { return Err(NotFound); }
      if !found.value.enabled { return Err(NotEnabled); }
      res := repository.ReplaceRecoveryCodes(user, recovery);
    }

    method RememberDevice(user: Id, token: Digest, agent: Digest, now: Time)
      returns (res: Result<Time, MfaError>, ghost evicted: set<Digest>)
      modifies repository
      ensures res.Ok? ==>
                EvictionOk(old(View()), token, NewDevice(user, agent, now), evicted) && res.value == now + DEVICE_TTL
      ensures View() == StoreDevice(old(View()), token, NewDevice(user, agent, now), evicted).0
      ensures res.Ok? <==> Enrolled(old(View()), user)
    {
      var expiresAt := now + DEVICE_TTL;
      var stored;
      stored, evicted := repository.StoreTrustedDevice(token, TrustedDevice(user, agent, now, now, expiresAt));
      res := if stored.Ok? then Ok(expiresAt) else Err(stored.error);
    }

    method UseTrustedDevice(user: Id, token: Digest, replacement: Digest, agent: Digest, now: Time)
      returns (trusted: Option<Time>)
      modifies repository
      ensures View() == RotateDevice(old(View()), user, token, replacement, agent, now).0
      ensures var r := RotateDevice(old(View()), user, token, replacement, agent, now).1;
              trusted == if r.Ok? then Some(r.value) else None
    {
      var r := repository.RotateTrustedDevice(user, token, replacement, agent, now);
      trusted := if r.Ok? then Some(r.value) else None;
    }
  }
}
