/** Exactly when a code or a trusted device is accepted, read off the stored credential, and what each answer leaves. */
module MfaAcceptance {
  import opened Prelude
  import opened MfaStore

  /** The instant lies in the n-th thirty seconds since 1970, counted towards zero in whole seconds. */
  predicate InStep(now: Time, n: int) {
    if now >= 0 then 30 * SECOND * n <= now < 30 * SECOND * (n + 1)
    else (30 * (n - 1) + 1) * SECOND <= now < (30 * n + 1) * SECOND
  }

  lemma ClockStepIs(now: Time, n: int)
    ensures InStep(now, n) <==> n == ClockStep(now)
  {
  }

  /** The first of the current, the previous and the next step whose code was typed. */
  predicate FirstHit(secret: Secret, code: string, x: Crypto, n: int, p: int) {
    && x.totp(secret, p) == code
    && (p == n || (x.totp(secret, n) != code && (p == n - 1 || (p == n + 1 && x.totp(secret, n - 1) != code))))
  }

  /** None of the three. */
  predicate Misses(secret: Secret, code: string, x: Crypto, n: int) {
    x.totp(secret, n) != code && x.totp(secret, n - 1) != code && x.totp(secret, n + 1) != code
  }

  predicate SixDigits(code: string) { |code| == 6 && forall c :: c in code ==> c in "0123456789" }

  predicate Open(s: Mfa, user: Id, now: Time) {
    && user in s.credentials && s.credentials[user].enabled
    && (s.credentials[user].lockedUntil.Some? ==> s.credentials[user].lockedUntil.value <= now)
  }

  /** The only change is to this user's credential. */
  predicate Becomes(s: Mfa, t: Mfa, user: Id, c: Credential) {
    t.devices == s.devices && t.credentials == s.credentials[user := c]
  }

  /** A failure counts one more and, from the fifth, locks for five minutes more each time, an hour at most. */
  predicate Fails(s: Mfa, t: Mfa, answer: Result<(), MfaError>, user: Id, now: Time)
    requires user in s.credentials
  {
    var c := s.credentials[user];
    var n := c.failedAttempts + 1;
    if n < 5 then answer == Err(InvalidCode) && Becomes(s, t, user, c.(failedAttempts := n, lockedUntil := None))
    else
      && answer == Err(Locked)
      && Becomes(s, t, user, c.(failedAttempts := n,
                                lockedUntil := Some(now + (if n >= 16 then HOUR else (n - 4) * (5 * MINUTE)))))
  }

  /** A six-digit code is accepted at step p: p is the first hit, and later than any step accepted before. */
  predicate AcceptedAt(s: Mfa, user: Id, code: string, readable: bool, x: Crypto, now: Time, n: int, p: int) {
    && Open(s, user, now) && readable
    && FirstHit(s.credentials[user].secret, code, x, n, p) && s.credentials[user].lastUsedStep < p
  }

  /** The four answers to a six-digit code, and exactly when each is given. */
  lemma VerifyOutcomes(s: Mfa, user: Id, code: string, readable: bool, x: Crypto, now: Time, n: int)
    requires SixDigits(code) && InStep(now, n)
    ensures var answer := VerifyAnswer(VerdictOf(s, user, code, readable, x, now));
            var t := VerifyCall(s, user, code, readable, x, now);
            && (!Open(s, user, now) ==>
                  t == s && answer == Err(if Enrolled(s, user) then Locked else InvalidCode))
            && (answer == Ok(()) <==> exists p :: AcceptedAt(s, user, code, readable, x, now, n, p))
            && (Open(s, user, now) ==>
                  var c := s.credentials[user];
                  && (forall p :: readable && FirstHit(c.secret, code, x, n, p) ==>
                        if c.lastUsedStep < p
                        then answer == Ok(()) &&
                             Becomes(s, t, user, c.(lastUsedStep := p, failedAttempts := 0, lockedUntil := None))
                        else answer == Err(Replay) && t == s)
                  && (!readable || Misses(c.secret, code, x, n) ==> Fails(s, t, answer, user, now)))
  {
    ClockStepIs(now, n);
    hide ClockStep;
    SixDigitsAreTotp(code);
    hide IsTotp, SixDigits;
    if Open(s, user, now) && readable {
      var c := s.credentials[user];
      HitIsMatch(c, code, x, now, n);
      var m := MatchTotp(c, code, true, x, now);
      assert m.Matched? ==> AcceptedAt(s, user, code, readable, x, now, n, m.step);
    }
    hide MatchTotp, FirstHit, Misses;
  }

  lemma SixDigitsAreTotp(code: string)
    ensures SixDigits(code) <==> IsTotp(code)
  {
    if IsTotp(code) {
      forall c | c in code ensures c in "0123456789" {
        var i :| 0 <= i < |code| && code[i] == c;
        var d := c as int - '0' as int;
        assert "0123456789"[d] == c;
      }
    }
    if SixDigits(code) {
      forall i | 0 <= i < 6 ensures '0' <= code[i] <= '9' { assert code[i] in code; }
    }
  }

  /** What the search finds is the first hit. */
  lemma HitIsMatch(c: Credential, code: string, x: Crypto, now: Time, n: int)
    requires n == ClockStep(now)
    ensures var m := MatchTotp(c, code, true, x, now);
            && (m == Unmatched <==> Misses(c.secret, code, x, n))
            && (m == Unmatched <==> forall p :: !FirstHit(c.secret, code, x, n, p))
            && (m.Matched? ==> FirstHit(c.secret, code, x, n, m.step) && c.lastUsedStep < m.step)
            && (forall p :: FirstHit(c.secret, code, x, n, p) ==>
                  m == if c.lastUsedStep < p then Matched(p) else Replayed)
  {
    if x.totp(c.secret, n) == code {
      assert FirstHit(c.secret, code, x, n, n);
    } else if x.totp(c.secret, n - 1) == code {
      assert FirstHit(c.secret, code, x, n, n - 1);
    } else if x.totp(c.secret, n + 1) == code {
      assert FirstHit(c.secret, code, x, n, n + 1);
    }
  }

  /** Any other code is a recovery code of at least twenty characters: accepted exactly if its digest is stored. */
  lemma RecoveryOutcomes(s: Mfa, user: Id, code: string, readable: bool, x: Crypto, now: Time)
    requires !SixDigits(code)
    ensures var answer := VerifyAnswer(VerdictOf(s, user, code, readable, x, now));
            var t := VerifyCall(s, user, code, readable, x, now);
            && (!Open(s, user, now) ==>
                  t == s && answer == Err(if Enrolled(s, user) then Locked else InvalidCode))
            && (Open(s, user, now) ==>
                  var c := s.credentials[user];
                  if |code| >= 20 && x.recoveryHash(code) in c.recoveryCodes
                  then answer == Ok(()) &&
                       exists i :: 0 <= i < |c.recoveryCodes| && c.recoveryCodes[i] == x.recoveryHash(code) &&
                         Becomes(s, t, user, c.(recoveryCodes := c.recoveryCodes[..i] + c.recoveryCodes[i + 1..],
                                                failedAttempts := 0, lockedUntil := None))
                  else Fails(s, t, answer, user, now))
  {
  }

  /** Enrolment completes exactly with a first hit that is later than the pending credential's last step. */
  lemma EnableOutcomes(s: Mfa, user: Id, code: string, readable: bool, x: Crypto, now: Time, n: int)
    requires InStep(now, n)
    ensures var t := EnableCall(s, user, code, readable, x, now);
            var answer := EnableAnswer(s, user, code, readable, x, now);
            if user !in s.credentials then t == s && answer == Err(NotFound)
            else if s.credentials[user].enabled then t == s && answer == Ok(())
            else
              var c := s.credentials[user];
              && (answer.Ok? <==> Enrolled(t, user))
              && (answer == Err(Unavailable) <==> !readable)
              && (answer == Err(InvalidCode) <==> readable && Misses(c.secret, code, x, n))
              && (Enrolled(t, user) <==>
                    exists p :: readable && FirstHit(c.secret, code, x, n, p) && c.lastUsedStep < p)
              && (!Enrolled(t, user) ==> t == s)
              && (forall p :: readable && FirstHit(c.secret, code, x, n, p) && p <= c.lastUsedStep ==>
                    answer == Err(Replay))
              && (forall p :: readable && FirstHit(c.secret, code, x, n, p) && c.lastUsedStep < p ==>
                    Becomes(s, t, user, c.(enabled := true, verifiedAt := Some(now), lastUsedStep := p,
                                           failedAttempts := 0, lockedUntil := None)))
  {
    ClockStepIs(now, n);
    hide ClockStep;
    if user in s.credentials && readable { HitIsMatch(s.credentials[user], code, x, now, n); }
    hide MatchTotp, Misses, FirstHit;
  }

  // ---- Trusted devices ----

  /** A device is honoured exactly on its own token, user and browser before it expires, and then gets a new token. */
  lemma TrustOutcomes(s: Mfa, user: Id, token: Digest, replacement: Digest, agent: Digest, now: Time)
    requires replacement !in s.devices
    ensures var (t, answer) := RotateDevice(s, user, token, replacement, agent, now);
            && t.credentials == s.credentials
            && (answer.Ok? <==> token in s.devices && s.devices[token].user == user &&
                                s.devices[token].agent == agent && now < s.devices[token].expiresAt)
            && (answer.Ok? ==>
                  && answer.value == s.devices[token].expiresAt && token !in t.devices
                  && replacement in t.devices
                  && t.devices[replacement] == s.devices[token].(lastUsedAt := now))
            && (forall k :: k != token && k != replacement ==>
                  (k in t.devices <==> k in s.devices) && (k in s.devices ==> t.devices[k] == s.devices[k]))
            && (answer.Err? && token in t.devices ==> t == s)
  {
  }

  /** A remembered device stays exactly as stored until thirty days later, unless evicted. */
  lemma RememberOutcomes(s: Mfa, user: Id, token: Digest, agent: Digest, now: Time, evicted: set<Digest>)
    requires token !in s.devices && EvictionOk(s, token, NewDevice(user, agent, now), evicted)
    ensures var (t, answer) := StoreDevice(s, token, NewDevice(user, agent, now), evicted);
            && t.credentials == s.credentials
            && (answer.Ok? <==> user in s.credentials && s.credentials[user].enabled)
            && (answer.Err? ==> t == s)
            && (answer.Ok? ==>
                  && (token !in evicted ==>
                        && token in t.devices
                        && t.devices[token] == TrustedDevice(user, agent, now, now, now + 30 * DAY))
                  && (forall k :: k in s.devices && s.devices[k].user != user ==>
                        k in t.devices && t.devices[k] == s.devices[k])
                  && (forall k :: k in t.devices && k != token ==> k in s.devices && t.devices[k] == s.devices[k])
                  && (forall k :: k in t.devices && t.devices[k].user == user ==> now < t.devices[k].expiresAt)
                  && (forall k :: k in s.devices && s.devices[k].user == user && now < s.devices[k].expiresAt ==>
                        k in t.devices || k in evicted))
  {
  }

  /** Setting up, and turning off, start afresh: a new secret, no failures, and none of the user's devices. */
  lemma EnrolmentOutcomes(s: Mfa, user: Id, secret: Secret, recovery: seq<Digest>, available: bool)
    ensures var t := SetupCall(s, user, secret, recovery, available);
            if available && !(user in s.credentials && s.credentials[user].enabled)
            then t.credentials == s.credentials[user := Credential(secret, false, None, 0, 0, None, recovery)] &&
                 (forall k :: k in t.devices <==> k in s.devices && s.devices[k].user != user) &&
                 (forall k :: k in t.devices ==> t.devices[k] == s.devices[k])
            else t == s
    ensures var t := DeleteCredential(s, user);
            && t.credentials == s.credentials - {user}
            && (forall k :: k in t.devices <==> k in s.devices && s.devices[k].user != user)
            && (forall k :: k in t.devices ==> t.devices[k] == s.devices[k])
  {
  }
}
