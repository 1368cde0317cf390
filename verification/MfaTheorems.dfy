/** Lockout, one-time codes and trusted devices over every run of the MFA service. */
module MfaTheorems {
  import opened Prelude
  import opened MfaStore

  datatype Event =
    | Setup(user: Id, secret: Secret, recovery: seq<Digest>, available: bool)
    | Enable(user: Id, code: string, readable: bool, now: Time)
    | Verify(user: Id, code: string, readable: bool, now: Time)
    | Disable(user: Id)
    | Regenerate(user: Id, recovery: seq<Digest>)
    | Remember(user: Id, token: Digest, agent: Digest, evicted: set<Digest>, now: Time)
    | UseDevice(user: Id, token: Digest, replacement: Digest, agent: Digest, now: Time)
    | CountDevices(user: Id, now: Time)
    | RevokeDevices(user: Id)

  function Next(s: Mfa, e: Event, x: Crypto): Mfa {
    match e
    case Setup(user, secret, recovery, available) => SetupCall(s, user, secret, recovery, available)
    case Enable(user, code, readable, now) => EnableCall(s, user, code, readable, x, now)
    case Verify(user, code, readable, now) => VerifyCall(s, user, code, readable, x, now)
    case Disable(user) => if user in s.credentials then DeleteCredential(s, user) else s
    case Regenerate(user, recovery) => if Enrolled(s, user) then ReplaceRecoveryCodes(s, user, recovery) else s
    case Remember(user, token, agent, evicted, now) => StoreDevice(s, token, NewDevice(user, agent, now), evicted).0
    case UseDevice(user, token, replacement, agent, now) => RotateDevice(s, user, token, replacement, agent, now).0
    case CountDevices(user, now) => if Enrolled(s, user) then s.(devices := Unexpired(s.devices, user, now)) else s
    case RevokeDevices(user) => DropDevices(s, user)
  }

  /** New tokens are fresh, and the sort that picks the evicted devices respects the times. */
  ghost predicate Legal(s: Mfa, e: Event) {
    match e
    case Remember(user, token, agent, evicted, now) =>
      token !in s.devices && (Enrolled(s, user) ==> EvictionOk(s, token, NewDevice(user, agent, now), evicted))
    case UseDevice(_, _, replacement, _, _) => replacement !in s.devices
    case _ => true
  }

  /** The state after a run from an empty store. */
  function After(es: seq<Event>, x: Crypto): Mfa {
    if es == [] then NO_MFA else Next(After(es[..|es| - 1], x), es[|es| - 1], x)
  }

  ghost predicate LegalRun(es: seq<Event>, x: Crypto) {
    es == [] || (LegalRun(es[..|es| - 1], x) && Legal(After(es[..|es| - 1], x), es[|es| - 1]))
  }

  // ---- What a user's credential has been through since it was set up ----

  /** An accepted code: its time step, when it was accepted, and what was typed. */
  datatype Use = Use(step: int, at: Time, code: string)

  datatype Log = Log(failures: seq<Time>, uses: seq<Use>, issued: multiset<Digest>, spent: multiset<Digest>)

  const NO_LOG: Log := Log([], [], multiset{}, multiset{})

  function LogVerdict(log: Log, v: Verdict, code: string, now: Time): Log {
    match v
    case Accepted(step) => log.(failures := [], uses := log.uses + [Use(step, now, code)])
    case Recovered(hash) => log.(failures := [], spent := log.spent + multiset{hash})
    case Rejected(_) => log.(failures := log.failures + [now])
    case _ => log
  }

  function LogEvent(log: Log, s: Mfa, e: Event, x: Crypto): Log {
    match e
    case Setup(user, _, recovery, available) =>
      if SetsUp(s, user, available) then Log([], [], multiset(recovery), multiset{}) else log
    case Enable(user, code, readable, now) =>
      (match EnableMatch(s, user, code, readable, x, now)
       case Matched(step) => log.(failures := [], uses := log.uses + [Use(step, now, code)])
       case _ => log)
    case Verify(user, code, readable, now) => LogVerdict(log, VerdictOf(s, user, code, readable, x, now), code, now)
    case Disable(_) => NO_LOG
    case Regenerate(user, recovery) =>
      if Enrolled(s, user) then log.(issued := multiset(recovery), spent := multiset{}) else log
    case _ => log
  }

  /** The recorded failures since the last reset, the accepted steps, and the recovery codes issued and spent. */
  function LogOf(es: seq<Event>, user: Id, x: Crypto): Log {
    if es == [] then NO_LOG
    else
      var before, e := es[..|es| - 1], es[|es| - 1];
      if e.user == user then LogEvent(LogOf(before, user, x), After(before, x), e, x) else LogOf(before, user, x)
  }

  // ---- The invariant tying a credential to its log ----

  /** From the fifth on, each failure waits out the lock of the one before. */
  predicate Spaced(failures: seq<Time>) {
    forall i :: 5 <= i < |failures| ==> failures[i - 1] + Delay(i) <= failures[i]
  }

  predicate UsesOk(uses: seq<Use>) {
    && (forall i, j :: 0 <= i < j < |uses| ==> uses[i].step < uses[j].step)
    && (forall i :: 0 <= i < |uses| ==> ClockStep(uses[i].at) - 1 <= uses[i].step <= ClockStep(uses[i].at) + 1)
  }

  /** Every accepted code is the secret's at its step. */
  predicate Genuine(uses: seq<Use>, secret: Secret, x: Crypto) {
    forall i :: 0 <= i < |uses| ==> uses[i].code == x.totp(secret, uses[i].step)
  }

  ghost predicate Agrees(c: Credential, log: Log, x: Crypto) {
    && |log.failures| == c.failedAttempts
    && c.lockedUntil == (if log.failures == [] then None
         else LockAfter(|log.failures|, log.failures[|log.failures| - 1]))
    && Spaced(log.failures)
    && UsesOk(log.uses) && Genuine(log.uses, c.secret, x)
    && (log.uses != [] ==> c.lastUsedStep == log.uses[|log.uses| - 1].step)
    && log.issued == log.spent + multiset(c.recoveryCodes)
    && (!c.enabled ==> log.failures == [] && log.uses == [] && log.spent == multiset{})
  }

  ghost predicate LogOk(s: Mfa, user: Id, log: Log, x: Crypto) {
    if user in s.credentials then Agrees(s.credentials[user], log, x) else log == NO_LOG
  }

  lemma TakenOut(codes: seq<Digest>, i: nat)
    requires i < |codes|
    ensures multiset(codes) == multiset(codes[..i] + codes[i + 1..]) + multiset{codes[i]}
  {
    assert codes == codes[..i] + ([codes[i]] + codes[i + 1..]);
  }

  lemma WithoutIs(codes: seq<Digest>, hash: Digest) returns (i: nat)
    requires hash in codes
    ensures i < |codes| && codes[i] == hash && Without(codes, hash) == codes[..i] + codes[i + 1..]
  {
    var p := (c: Digest) => c == hash;
    var k :| 0 <= k < |codes| && codes[k] == hash;
    assert p(codes[k]);
    i := FirstIndex(codes, (c: Digest) => c == hash);
  }

  lemma WithoutIsOneLess(codes: seq<Digest>, hash: Digest)
    requires hash in codes
    ensures multiset(codes) == multiset(Without(codes, hash)) + multiset{hash}
  {
    hide Without;
    var i := WithoutIs(codes, hash);
    TakenOut(codes, i);
  }

  lemma OthersUntouched(s: Mfa, e: Event, x: Crypto, user: Id)
    requires e.user != user
    ensures var t := Next(s, e, x);
            (user in t.credentials <==> user in s.credentials) &&
                (user in s.credentials ==> t.credentials[user] == s.credentials[user])
  {
  }

  /** What the service has checked by the time it accepts a code or records a failure. */
  lemma VerdictFacts(s: Mfa, user: Id, code: string, readable: bool, x: Crypto, now: Time)
    ensures var v := VerdictOf(s, user, code, readable, x, now);
            && (!v.NotEnrolled? ==> Enrolled(s, user))
            && (v.Accepted? ==>
                  && s.credentials[user].lastUsedStep < v.step && ClockStep(now) - 1 <= v.step <= ClockStep(now) + 1
                  && code == x.totp(s.credentials[user].secret, v.step))
            && (v.Recovered? ==> v.hash in s.credentials[user].recoveryCodes)
            && (v.Rejected? ==> v.attempts == s.credentials[user].failedAttempts + 1)
            && (!v.LockedOut? && !v.NotEnrolled? && s.credentials[user].lockedUntil.Some? ==>
                  s.credentials[user].lockedUntil.value <= now)
  {
  }

  lemma AcceptanceAgrees(c: Credential, log: Log, step: int, code: string, now: Time, x: Crypto)
    requires Agrees(c, log, x) && c.enabled && c.lastUsedStep < step && code == x.totp(c.secret, step)
    requires ClockStep(now) - 1 <= step <= ClockStep(now) + 1
    ensures Agrees(Cleared(c).(lastUsedStep := step), LogVerdict(log, Accepted(step), code, now), x)
  {
  }

  lemma RecoveryAgrees(c: Credential, log: Log, hash: Digest, code: string, now: Time, x: Crypto)
    requires Agrees(c, log, x) && c.enabled && hash in c.recoveryCodes
    ensures Agrees(Cleared(c).(recoveryCodes := Without(c.recoveryCodes, hash)),
                   LogVerdict(log, Recovered(hash), code, now), x)
  {
    hide UsesOk, Genuine, Without;
    WithoutIsOneLess(c.recoveryCodes, hash);
  }

  lemma FailureAgrees(c: Credential, log: Log, code: string, now: Time, x: Crypto)
    requires Agrees(c, log, x) && c.enabled && (c.lockedUntil.Some? ==> c.lockedUntil.value <= now)
    ensures var n := c.failedAttempts + 1;
            Agrees(c.(failedAttempts := n, lockedUntil := LockAfter(n, now)),
                   LogVerdict(log, Rejected(n), code, now), x)
  {
  }

  lemma VerifyKeepsLog(s: Mfa, log: Log, e: Event, x: Crypto)
    requires e.Verify? && LogOk(s, e.user, log, x)
    ensures LogOk(Next(s, e, x), e.user, LogEvent(log, s, e, x), x)
  {
    hide VerdictOf, Without, ClockStep, Agrees, LogVerdict, LockAfter;
    VerdictFacts(s, e.user, e.code, e.readable, x, e.now);
    var v := VerdictOf(s, e.user, e.code, e.readable, x, e.now);
    match v
    case Accepted(step) => AcceptanceAgrees(s.credentials[e.user], log, step, e.code, e.now, x);
    case Recovered(hash) => RecoveryAgrees(s.credentials[e.user], log, hash, e.code, e.now, x);
    case Rejected(_) => FailureAgrees(s.credentials[e.user], log, e.code, e.now, x);
    case _ => VerdictOnly(log, v, e.code, e.now);
  }

  lemma VerdictOnly(log: Log, v: Verdict, code: string, now: Time)
    requires v.NotEnrolled? || v.LockedOut? || v.ReplayRefused?
    ensures LogVerdict(log, v, code, now) == log
  {
  }

  lemma EnableKeepsLog(s: Mfa, log: Log, e: Event, x: Crypto)
    requires e.Enable? && LogOk(s, e.user, log, x)
    ensures LogOk(Next(s, e, x), e.user, LogEvent(log, s, e, x), x)
  {
  }

  lemma EventKeepsLog(s: Mfa, log: Log, e: Event, x: Crypto)
    requires LogOk(s, e.user, log, x)
    ensures LogOk(Next(s, e, x), e.user, LogEvent(log, s, e, x), x)
  {
    hide Agrees;
    if e.Verify? {
      VerifyKeepsLog(s, log, e, x);
    } else if e.Enable? {
      EnableKeepsLog(s, log, e, x);
    } else if e.Setup? || e.Regenerate? {
      CodesKeepLog(s, log, e, x);
    } else {
      hide VerifyCall, VerdictOf, LogVerdict, EnableCall, EnableMatch, Unexpired, Crowded, ClockStep, Delay;
    }
  }

  /** New recovery codes start their own account. */
  lemma CodesKeepLog(s: Mfa, log: Log, e: Event, x: Crypto)
    requires (e.Setup? || e.Regenerate?) && LogOk(s, e.user, log, x)
    ensures LogOk(Next(s, e, x), e.user, LogEvent(log, s, e, x), x)
  {
    hide Delay, ClockStep, Spaced, UsesOk;
    assert Spaced([]) && UsesOk([]) by { NothingIsSpaced(); }
  }

  lemma NothingIsSpaced()
    ensures Spaced([]) && UsesOk([])
  {
  }

  lemma {:induction false} LogAlwaysOk(es: seq<Event>, user: Id, x: Crypto)
    ensures LogOk(After(es, x), user, LogOf(es, user, x), x)
  {
    if es != [] {
      var before, e := es[..|es| - 1], es[|es| - 1];
      LogAlwaysOk(before, user, x);
      hide LogOk, Next, LogEvent;
      if e.user == user {
        EventKeepsLog(After(before, x), LogOf(before, user, x), e, x);
      } else {
        OthersUntouched(After(before, x), e, x, user);
        SameCredentialSameLog(After(before, x), Next(After(before, x), e, x), user, LogOf(before, user, x),
                              x);
      }
    }
  }

  lemma SameCredentialSameLog(s: Mfa, t: Mfa, user: Id, log: Log, x: Crypto)
    requires LogOk(s, user, log, x)
    requires (user in t.credentials <==> user in s.credentials) &&
               (user in s.credentials ==> t.credentials[user] == s.credentials[user])
    ensures LogOk(t, user, log, x)
  {
  }

  // ---- Lockout ----

  /** The least time k failures take after the fifth: 5, 10, ... 60 minutes, then 60 minutes each. */
  function LockoutFloor(k: nat): Time
    requires k >= 5
  {
    if k <= 17 then 5 * (k - 5) * (k - 4) / 2 * MINUTE else (390 + 60 * (k - 17)) * MINUTE
  }

  lemma LockoutFloorStep(k: nat)
    requires k >= 5
    ensures LockoutFloor(k + 1) == LockoutFloor(k) + Delay(k)
  {
    if k < 17 {
      assert k == 5 || k == 6 || k == 7 || k == 8 || k == 9 || k == 10 || k == 11 || k == 12 || k == 13 || k == 14 ||
          k == 15 || k == 16;
    }
  }

  lemma {:induction false} SpacedFloor(failures: seq<Time>, k: nat)
    requires Spaced(failures) && 5 <= k <= |failures|
    ensures failures[k - 1] - failures[4] >= LockoutFloor(k)
  {
    if k > 5 {
      SpacedFloor(failures, k - 1);
      LockoutFloorStep(k - 1);
    }
  }

  /** However a user's codes are guessed, failures beyond the fourth come no faster than the locks allow. */
  lemma LockoutBound(es: seq<Event>, user: Id, x: Crypto)
    ensures var f := LogOf(es, user, x).failures;
            forall k :: 5 <= k <= |f| ==> f[k - 1] - f[4] >= LockoutFloor(k)
  {
    LogAlwaysOk(es, user, x);
    var f := LogOf(es, user, x).failures;
    forall k | 5 <= k <= |f| ensures f[k - 1] - f[4] >= LockoutFloor(k) {
      SpacedFloor(f, k);
    }
  }

  /** So at most 34 wrong codes in a row are looked at within a day of the fifth. */
  lemma GuessesPerDay(es: seq<Event>, user: Id, x: Crypto, k: nat)
    requires var f := LogOf(es, user, x).failures; 5 <= k <= |f| && f[k - 1] < f[4] + DAY
    ensures k <= 34
  {
    LockoutBound(es, user, x);
    if k > 34 { FloorGrows(35, k); }
  }

  lemma {:induction false} FloorGrows(j: nat, k: nat)
    requires 5 <= j <= k
    ensures LockoutFloor(j) <= LockoutFloor(k)
    decreases k - j
  {
    if j < k {
      LockoutFloorStep(j);
      FloorGrows(j + 1, k);
    }
  }

  // ---- One-time codes ----

  function CountWithin(uses: seq<Use>, t0: Time, t1: Time): nat {
    if uses == [] then 0
    else
      var n := |uses| - 1;
      CountWithin(uses[..n], t0, t1) + if t0 <= uses[n].at <= t1 then 1 else 0
  }

  lemma ClockStepMonotone(a: Time, b: Time)
    requires a <= b
    ensures ClockStep(a) <= ClockStep(b)
  {
  }

  lemma {:induction false} FewStepsFit(uses: seq<Use>, t0: Time, t1: Time)
    requires UsesOk(uses) && t0 <= t1
    ensures var top := if uses == [] then ClockStep(t1) + 1 else Min(ClockStep(t1) + 1, uses[|uses| - 1].step);
            CountWithin(uses, t0, t1) <= Max(0, top - ClockStep(t0) + 2)
  {
    if uses != [] {
      var n := |uses| - 1;
      FewStepsFit(uses[..n], t0, t1);
      if t0 <= uses[n].at <= t1 {
        ClockStepMonotone(t0, uses[n].at);
        ClockStepMonotone(uses[n].at, t1);
      }
    }
    ClockStepMonotone(t0, t1);
  }

  /**
   Within a credential's lifetime the accepted codes, enrolment included, are its secret's at steps that strictly
   increase and stay within one step of the clock; so a time span accepts at most three codes more than it has steps.
   */
  lemma CodesAreOneTime(es: seq<Event>, user: Id, x: Crypto, t0: Time, t1: Time)
    requires t0 <= t1
    ensures UsesOk(LogOf(es, user, x).uses)
    ensures if user in After(es, x).credentials
            then Genuine(LogOf(es, user, x).uses, After(es, x).credentials[user].secret, x)
            else LogOf(es, user, x).uses == []
    ensures CountWithin(LogOf(es, user, x).uses, t0, t1) <= ClockStep(t1) - ClockStep(t0) + 3
  {
    LogAlwaysOk(es, user, x);
    FewStepsFit(LogOf(es, user, x).uses, t0, t1);
    ClockStepMonotone(t0, t1);
  }

  /** No recovery code is accepted more often than it was issued; what is not spent is still stored. */
  lemma RecoveryCodesAreConserved(es: seq<Event>, user: Id, x: Crypto)
    ensures var log := LogOf(es, user, x); var s := After(es, x);
            var stored := if user in s.credentials then multiset(s.credentials[user].recoveryCodes) else multiset{};
            log.issued == log.spent + stored
  {
    LogAlwaysOk(es, user, x);
  }

  // ---- Trusted devices ----

  ghost predicate DevicesOk(s: Mfa) {
    && (forall k :: k in s.devices ==> Enrolled(s, s.devices[k].user))
    && (forall user :: |DevicesOf(s.devices, user)| <= DEVICE_MAX)
  }

  lemma FewerDevices(a: map<Digest, TrustedDevice>, b: map<Digest, TrustedDevice>, user: Id)
    requires DevicesOf(b, user) <= DevicesOf(a, user)
    ensures |DevicesOf(b, user)| <= |DevicesOf(a, user)|
  {
    assert DevicesOf(a, user) == DevicesOf(b, user) + (DevicesOf(a, user) - DevicesOf(b, user));
  }

  lemma RememberKeepsDevices(s: Mfa, e: Event, x: Crypto)
    requires e.Remember? && DevicesOk(s) && Legal(s, e)
    ensures DevicesOk(Next(s, e, x))
  {
    if Enrolled(s, e.user) {
      var d := NewDevice(e.user, e.agent, e.now);
      var table, t := Crowded(s, e.token, d), Next(s, e, x);
      assert e.evicted <= DevicesOf(table, e.user);
      RememberedFit(s, e, x);
      hide EvictionOk;
      forall user ensures |DevicesOf(t.devices, user)| <= DEVICE_MAX {
        if user != e.user { FewerDevices(s.devices, t.devices, user); }
      }
    }
  }

  lemma RememberedFit(s: Mfa, e: Event, x: Crypto)
    requires e.Remember? && Enrolled(s, e.user) && Legal(s, e)
    ensures |DevicesOf(Next(s, e, x).devices, e.user)| <= DEVICE_MAX
  {
    var keys := DevicesOf(Crowded(s, e.token, NewDevice(e.user, e.agent, e.now)), e.user);
    assert DevicesOf(Next(s, e, x).devices, e.user) == keys - e.evicted && keys == (keys - e.evicted) + e.evicted;
  }

  lemma RotateKeepsDevices(s: Mfa, e: Event, x: Crypto)
    requires e.UseDevice? && DevicesOk(s) && Legal(s, e)
    ensures DevicesOk(Next(s, e, x))
  {
    var t := Next(s, e, x);
    forall user ensures |DevicesOf(t.devices, user)| <= DEVICE_MAX {
      if e.token in s.devices && e.replacement in t.devices && user == e.user {
        assert DevicesOf(t.devices, user) == DevicesOf(s.devices, user) - {e.token} + {e.replacement};
      } else {
        FewerDevices(s.devices, t.devices, user);
      }
    }
  }

  lemma EventKeepsDevices(s: Mfa, e: Event, x: Crypto)
    requires DevicesOk(s) && Legal(s, e)
    ensures DevicesOk(Next(s, e, x))
  {
    if e.Remember? {
      RememberKeepsDevices(s, e, x);
    } else if e.UseDevice? {
      RotateKeepsDevices(s, e, x);
    } else {
      var t := Next(s, e, x);
      forall user ensures |DevicesOf(t.devices, user)| <= DEVICE_MAX {
        FewerDevices(s.devices, t.devices, user);
      }
    }
  }

  /** In every reachable state a user has at most ten trusted devices, and none without an enabled credential. */
  lemma {:induction false} DevicesAreCapped(es: seq<Event>, x: Crypto)
    requires LegalRun(es, x)
    ensures DevicesOk(After(es, x))
  {
    if es != [] {
      DevicesAreCapped(es[..|es| - 1], x);
      hide DevicesOk, Next;
      EventKeepsDevices(After(es[..|es| - 1], x), es[|es| - 1], x);
    }
  }

  /** Event i of the run remembered this device, and the user's trust was not withdrawn since. */
  ghost predicate Origin(es: seq<Event>, i: nat, d: TrustedDevice) {
    && i < |es|
    && es[i].Remember? && es[i].user == d.user && es[i].agent == d.agent && es[i].now == d.createdAt
    && forall j :: i < j < |es| && es[j].user == d.user ==> !es[j].RevokeDevices? && !es[j].Disable?
  }

  /**
   Every trusted device stems from a login on the same browser and expires thirty days after it, however often rotated.
   */
  lemma {:induction false} DeviceHasOrigin(es: seq<Event>, x: Crypto, k: Digest) returns (i: nat)
    requires LegalRun(es, x) && k in After(es, x).devices
    ensures var d := After(es, x).devices[k]; Origin(es, i, d) && d.expiresAt == d.createdAt + DEVICE_TTL
  {
    var n := |es| - 1;
    var before, e, s := es[..n], es[n], After(es[..n], x);
    DevicesAreCapped(before, x);
    hide Next, DevicesOk;
    var from := DeviceCameFrom(s, e, x, k);
    if from == None {
      i := n;
    } else {
      i := DeviceHasOrigin(before, x, from.value);
    }
  }

  /** A stored device was remembered just now, or was stored before and only its last use moved. */
  lemma DeviceCameFrom(s: Mfa, e: Event, x: Crypto, k: Digest) returns (from: Option<Digest>)
    requires DevicesOk(s) && Legal(s, e) && k in Next(s, e, x).devices
    ensures var d := Next(s, e, x).devices[k];
            match from
            case None => e.Remember? && d == NewDevice(e.user, e.agent, e.now)
            case Some(h) =>
              && h in s.devices && d == s.devices[h].(lastUsedAt := d.lastUsedAt)
              && (e.user == d.user ==> !e.RevokeDevices? && !e.Disable?)
  {
    hide EvictionOk;
    from := if k in s.devices then Some(k) else if e.UseDevice? then Some(e.token) else None;
  }

  /** A trusted device is honoured only within thirty days of the login it stems from. */
  lemma TrustEnds(es: seq<Event>, x: Crypto, e: Event) returns (i: nat)
    requires LegalRun(es, x) && e.UseDevice?
    requires RotateDevice(After(es, x), e.user, e.token, e.replacement, e.agent, e.now).1.Ok?
    ensures i < |es| && es[i].Remember? && es[i].user == e.user && es[i].agent == e.agent
    ensures e.now < es[i].now + 30 * DAY
    ensures forall j :: i < j < |es| && es[j].user == e.user ==> !es[j].RevokeDevices? && !es[j].Disable?
  {
    i := DeviceHasOrigin(es, x, e.token);
  }
}
