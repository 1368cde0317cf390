/**
 Verifications that overlap: each decides from the credential it has read and writes to the store as it is by then.
 One-time codes survive this, the lockout does not.
 */
module MfaOverlap {
  import opened Prelude
  import opened MfaStore
  import opened MfaTheorems

  /** What a verification will try to write; attempts is the failure count it writes when that comes to nothing. */
  datatype Decision =
    | Refuse(error: MfaError)
    | TryStep(step: int)
    | TryRecovery(hash: Digest, attempts: nat)
    | Fail(attempts: nat)

  datatype Attempt = Attempt(code: string, readable: bool, now: Time)

  /** The decision from the credential that was read. */
  function Decide(found: Option<Credential>, a: Attempt, x: Crypto): Decision {
    if found.None? || !found.value.enabled then Refuse(InvalidCode)
    else
      var c := found.value;
      if c.lockedUntil.Some? && a.now < c.lockedUntil.value then Refuse(Locked)
      else if IsTotp(a.code) then
        match MatchTotp(c, a.code, a.readable, x, a.now)
        case Matched(step) => TryStep(step)
        case Replayed => Refuse(Replay)
        case Unmatched => Fail(c.failedAttempts + 1)
      else if |a.code| >= 20 then TryRecovery(x.recoveryHash(a.code), c.failedAttempts + 1)
      else Fail(c.failedAttempts + 1)
  }

  function WriteFailure(s: Mfa, user: Id, attempts: nat, now: Time): (Mfa, Result<(), MfaError>) {
    if user !in s.credentials then (s, Err(NotFound))
    else (RecordFailure(s, user, attempts, LockAfter(attempts, now)),
          Err(if attempts >= 5 then Locked else InvalidCode))
  }

  /** The decision carried out on the store as it is by then. */
  function Act(s: Mfa, user: Id, d: Decision, now: Time): (Mfa, Result<(), MfaError>) {
    match d
    case Refuse(error) => (s, Err(error))
    case TryStep(step) => UseTotp(s, user, step)
    case TryRecovery(hash, attempts) =>
      var out := UseRecoveryCode(s, user, hash);
      if out.1.Ok? then out else WriteFailure(s, user, attempts, now)
    case Fail(attempts) => WriteFailure(s, user, attempts, now)
  }

  function Found(s: Mfa, user: Id): Option<Credential> {
    if user in s.credentials then Some(s.credentials[user]) else None
  }

  /** With nothing in between, reading and writing make up the service's call. */
  lemma VerifyIsReadThenWrite(s: Mfa, user: Id, a: Attempt, x: Crypto)
    ensures Act(s, user, Decide(Found(s, user), a, x), a.now)
            == (VerifyCall(s, user, a.code, a.readable, x, a.now),
                VerifyAnswer(VerdictOf(s, user, a.code, a.readable, x, a.now)))
  {
    VerdictFacts(s, user, a.code, a.readable, x, a.now);
    hide MatchTotp, IsTotp, LockAfter, ClockStep;
  }

  /** The writes one after the other, and their answers. */
  function Acts(s: Mfa, user: Id, ds: seq<(Decision, Time)>): (r: (Mfa, seq<Result<(), MfaError>>))
    ensures |r.1| == |ds|
  {
    if ds == [] then (s, [])
    else
      var n := |ds| - 1;
      var before := Acts(s, user, ds[..n]);
      var out := Act(before.0, user, ds[n].0, ds[n].1);
      (out.0, before.1 + [out.1])
  }

  // ---- One-time codes ----

  /** The recovery codes accepted. */
  function Spent(ds: seq<(Decision, Time)>, answers: seq<Result<(), MfaError>>): multiset<Digest>
    requires |answers| == |ds|
  {
    if ds == [] then multiset{}
    else
      var n := |ds| - 1;
      Spent(ds[..n], answers[..n])
      + if ds[n].0.TryRecovery? && answers[n].Ok? then multiset{ds[n].0.hash} else multiset{}
  }

  predicate StepTaken(ds: seq<(Decision, Time)>, answers: seq<Result<(), MfaError>>, i: int) {
    0 <= i < |ds| && i < |answers| && ds[i].0.TryStep? && answers[i].Ok?
  }

  /** What any writes leave of a credential: taken steps increase from its last one, and spent codes are gone. */
  ghost predicate OneTime(c: Credential, ds: seq<(Decision, Time)>, answers: seq<Result<(), MfaError>>,
                          after: Credential)
    requires |answers| == |ds|
  {
    && c.lastUsedStep <= after.lastUsedStep
    && (forall i :: StepTaken(ds, answers, i) ==> c.lastUsedStep < ds[i].0.step <= after.lastUsedStep)
    && (forall i, j :: StepTaken(ds, answers, i) && StepTaken(ds, answers, j) && i < j ==> ds[i].0.step < ds[j].0.step)
    && multiset(c.recoveryCodes) == Spent(ds, answers) + multiset(after.recoveryCodes)
  }

  lemma ActIsOneTime(s: Mfa, user: Id, d: Decision, now: Time)
    requires user in s.credentials
    ensures var (t, answer) := Act(s, user, d, now);
            && user in t.credentials
            && s.credentials[user].lastUsedStep <= t.credentials[user].lastUsedStep
            && (d.TryStep? && answer.Ok? ==>
                  s.credentials[user].lastUsedStep < d.step == t.credentials[user].lastUsedStep)
            && multiset(s.credentials[user].recoveryCodes)
               == multiset(t.credentials[user].recoveryCodes)
                  + if d.TryRecovery? && answer.Ok? then multiset{d.hash} else multiset{}
  {
    hide Without, LockAfter;
    if d.TryRecovery? && d.hash in s.credentials[user].recoveryCodes {
      WithoutIsOneLess(s.credentials[user].recoveryCodes, d.hash);
    }
  }

  lemma OneMoreAct(c: Credential, ds: seq<(Decision, Time)>, answers: seq<Result<(), MfaError>>, mid: Credential,
                   after: Credential)
    requires ds != [] && |answers| == |ds|
    requires var n := |ds| - 1;
             && OneTime(c, ds[..n], answers[..n], mid)
             && mid.lastUsedStep <= after.lastUsedStep
             && (StepTaken(ds, answers, n) ==> mid.lastUsedStep < ds[n].0.step == after.lastUsedStep)
             && multiset(mid.recoveryCodes) == multiset(after.recoveryCodes)
                  + if ds[n].0.TryRecovery? && answers[n].Ok? then multiset{ds[n].0.hash} else multiset{}
    ensures OneTime(c, ds, answers, after)
  {
    var n := |ds| - 1;
    forall i | 0 <= i < n ensures StepTaken(ds, answers, i) <==> StepTaken(ds[..n], answers[..n], i) {}
    assert forall i :: 0 <= i < n ==> ds[..n][i] == ds[i];
  }

  /**
   Whatever credential each verification has read, and however stale it was: no time step is accepted twice, the
   accepted ones increase, and no recovery code is accepted more often than it was stored.
   */
  lemma {:induction false} StaleReadsStayOneTime(s: Mfa, user: Id, ds: seq<(Decision, Time)>)
    requires user in s.credentials
    ensures var (t, answers) := Acts(s, user, ds);
            user in t.credentials && OneTime(s.credentials[user], ds, answers, t.credentials[user])
  {
    if ds == [] {
      assert OneTime(s.credentials[user], [], [], s.credentials[user]);
    } else {
      var n := |ds| - 1;
      StaleReadsStayOneTime(s, user, ds[..n]);
      hide Act, OneTime;
      var (before, answers) := Acts(s, user, ds[..n]);
      ActIsOneTime(before, user, ds[n].0, ds[n].1);
      var (t, all) := Acts(s, user, ds);
      assert all[..n] == answers;
      OneMoreAct(s.credentials[user], ds, all, before.credentials[user], t.credentials[user]);
    }
  }

  // ---- The lockout ----

  /** Verifications of one user that have all read the credential before any of them writes. */
  function Overlap(s: Mfa, user: Id, attempts: seq<Attempt>, x: Crypto): (Mfa, seq<Result<(), MfaError>>) {
    Acts(s, user, Decisions(Found(s, user), attempts, x))
  }

  function Decisions(found: Option<Credential>, attempts: seq<Attempt>, x: Crypto): seq<(Decision, Time)> {
    seq(|attempts|, i requires 0 <= i < |attempts| => (Decide(found, attempts[i], x), attempts[i].now))
  }

  /** Each code would be looked at and found wrong. */
  predicate AllWrong(s: Mfa, user: Id, attempts: seq<Attempt>, x: Crypto) {
    forall i :: 0 <= i < |attempts| ==>
      VerdictOf(s, user, attempts[i].code, attempts[i].readable, x, attempts[i].now).Rejected?
  }

  /**
   However many wrong codes overlap, every one of them is looked at and answered, and together they are recorded as
   one failure with the one lock of the last to write.
   */
  lemma {:induction false} OverlappingFailuresCountOnce(s: Mfa, user: Id, attempts: seq<Attempt>, x: Crypto)
    requires attempts != [] && AllWrong(s, user, attempts, x) && Enrolled(s, user)
    ensures var failed := s.credentials[user].failedAttempts + 1;
            var (t, answers) := Overlap(s, user, attempts, x);
            && t == RecordFailure(s, user, failed, LockAfter(failed, attempts[|attempts| - 1].now))
            && |answers| == |attempts|
            && forall i :: 0 <= i < |answers| ==> answers[i] == Err(if failed >= 5 then Locked else InvalidCode)
  {
    var n := |attempts| - 1;
    var c := Found(s, user);
    var ds := Decisions(c, attempts, x);
    assert ds[..n] == Decisions(c, attempts[..n], x);
    var last := attempts[n];
    assert VerdictOf(s, user, last.code, last.readable, x, last.now).Rejected?;
    if n == 0 {
      assert ds[..n] == [];
    } else {
      OverlappingFailuresCountOnce(s, user, attempts[..n], x);
    }
    WrongOnStale(s, user, Acts(s, user, ds[..n]).0, last, x);
    hide Act, Decide, VerdictOf, LockAfter;
  }

  /** A wrong code is also wrong on a store in which only failures have been recorded since it was read. */
  lemma WrongOnStale(s: Mfa, user: Id, t: Mfa, a: Attempt, x: Crypto)
    requires Enrolled(s, user) && VerdictOf(s, user, a.code, a.readable, x, a.now).Rejected? && user in t.credentials
    requires var c := s.credentials[user];
             && t.credentials[user].recoveryCodes == c.recoveryCodes
             && t == RecordFailure(s, user, t.credentials[user].failedAttempts, t.credentials[user].lockedUntil)
    ensures var failed := s.credentials[user].failedAttempts + 1;
            Act(t, user, Decide(Found(s, user), a, x), a.now)
            == (RecordFailure(s, user, failed, LockAfter(failed, a.now)),
                Err(if failed >= 5 then Locked else InvalidCode))
  {
    hide MatchTotp, IsTotp, LockAfter;
    var failed := s.credentials[user].failedAttempts + 1;
    var lock := LockAfter(failed, a.now);
    assert RecordFailure(t, user, failed, lock).credentials == RecordFailure(s, user, failed, lock).credentials;
  }

  /**
   So the pace of wrong codes is bounded only while verifications do not overlap: after any run, the codes looked at,
   with a batch of wrong ones overlapping at one instant, keep the pace exactly when the batch is a single code or no
   lock is due yet.
   */
  lemma OverlapEscapesLockout(es: seq<Event>, user: Id, attempts: seq<Attempt>, now: Time, x: Crypto)
    requires attempts != [] && forall i :: 0 <= i < |attempts| ==> attempts[i].now == now
    requires AllWrong(After(es, x), user, attempts, x)
    ensures var f := LogOf(es, user, x).failures;
            Spaced(f + seq(|attempts|, _ => now)) <==> |attempts| == 1 || |f| + |attempts| <= 5
  {
    var s, log := After(es, x), LogOf(es, user, x);
    LogAlwaysOk(es, user, x);
    var a := attempts[0];
    assert VerdictOf(s, user, a.code, a.readable, x, a.now).Rejected?;
    VerdictFacts(s, user, a.code, a.readable, x, a.now);
    hide VerdictOf, Acts;
    BatchSpacing(log.failures, s.credentials[user].lockedUntil, |attempts|, now);
  }

  lemma BatchSpacing(f: seq<Time>, lock: Option<Time>, m: nat, now: Time)
    requires m > 0 && Spaced(f) && (lock.Some? ==> lock.value <= now)
    requires lock == if f == [] then None else LockAfter(|f|, f[|f| - 1])
    ensures Spaced(f + seq(m, _ => now)) <==> m == 1 || |f| + m <= 5
  {
    var g := f + seq(m, _ => now);
    if m > 1 && |f| + m > 5 {
      var i := |g| - 1;
      assert i >= 5 && g[i - 1] == now == g[i] && Delay(i) > 0;
    }
  }

  /** For instance six wrong codes at once on a new credential: all looked at, one failure recorded, no lock. */
  lemma OverlapExample(x: Crypto)
    ensures var es := [Setup("alice", 7, [], true), Enable("alice", x.totp(7, 2), true, MINUTE)];
            var attempts := seq(6, _ => Attempt("WRONG", true, 2 * MINUTE));
            && Enrolled(After(es, x), "alice") && AllWrong(After(es, x), "alice", attempts, x)
            && var (t, answers) := Overlap(After(es, x), "alice", attempts, x);
               && Enrolled(t, "alice")
               && t.credentials["alice"].failedAttempts == 1 && t.credentials["alice"].lockedUntil == None
               && answers == seq(6, _ => Err(InvalidCode))
  {
    var es := [Setup("alice", 7, [], true), Enable("alice", x.totp(7, 2), true, MINUTE)];
    var attempts := seq(6, _ => Attempt("WRONG", true, 2 * MINUTE));
    assert es[..1] == [es[0]] && es[..1][..0] == [] && After([], x) == NO_MFA;
    var s1 := After(es[..1], x);
    assert s1 == Next(NO_MFA, es[0], x) && s1.credentials["alice"] == Credential(7, false, None, 0, 0, None, []);
    assert ClockStep(MINUTE) == 2;
    var s := After(es, x);
    assert s == Next(s1, es[1], x) && s.credentials["alice"].enabled && s.credentials["alice"].lockedUntil == None;
    hide After, Next;
    forall i | 0 <= i < 6 ensures VerdictOf(s, "alice", attempts[i].code, true, x, attempts[i].now).Rejected? {
    }
    OverlappingFailuresCountOnce(s, "alice", attempts, x);
    hide Overlap;
  }
}
