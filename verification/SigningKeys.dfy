/** OIDC signing keys: one active key, retired keys kept for verification, and deletion after a retention time. */
module SigningKeys {
  import opened Prelude
  import opened InPlace

  datatype SigningKey = SigningKey(kid: Id, pem: Digest, active: bool, createdAt: Time, retiredAt: Option<Time>)

  // ---- Operations as values ----

  function Retire(k: SigningKey, now: Time): SigningKey {
    if k.active then k.(active := false, retiredAt := Some(now)) else k
  }

  function Rotated(keys: seq<SigningKey>, kid: Id, pem: Digest, now: Time): seq<SigningKey> {
    seq(|keys|, i requires 0 <= i < |keys| => Retire(keys[i], now)) + [SigningKey(kid, pem, true, now, None)]
  }

  predicate HasActive(keys: seq<SigningKey>) { exists i :: 0 <= i < |keys| && keys[i].active }

  function Saved(keys: seq<SigningKey>, kid: Id, pem: Digest, now: Time): seq<SigningKey> {
    if HasActive(keys) then keys else keys + [SigningKey(kid, pem, true, now, None)]
  }

  /** Some active key is no older than the cut-off. */
  predicate YoungActive(keys: seq<SigningKey>, createdBefore: Time) {
    exists i :: 0 <= i < |keys| && keys[i].active && createdBefore <= keys[i].createdAt
  }

  function RotatedIfOlder(keys: seq<SigningKey>, kid: Id, pem: Digest, now: Time,
                          createdBefore: Time): seq<SigningKey> {
    if YoungActive(keys, createdBefore) then keys else Rotated(keys, kid, pem, now)
  }

  predicate Expendable(k: SigningKey, before: Time) { !k.active && k.retiredAt.Some? && k.retiredAt.value < before }

  function Staying(before: Time): SigningKey -> bool { (k: SigningKey) => !Expendable(k, before) }

  function Cleaned(keys: seq<SigningKey>, before: Time): seq<SigningKey> { Filter(keys, Staying(before)) }

  /** The retention maintenance uses: a day when less than an hour is configured. */
  function Retention(configured: Time): (r: Time)
    ensures r >= HOUR
  {
    if configured < HOUR then DAY else configured
  }

  class MemoryKeyRepository {
    var keys: seq<SigningKey>

    constructor ()
      ensures keys == []
    {
      keys := [];
    }

    method LoadActiveSigningKey() returns (found: Option<SigningKey>)
      ensures found.Some? <==> HasActive(keys)
      ensures found.Some? ==> found.value in keys && found.value.active
      ensures |keys| > 0 && keys[|keys| - 1].active ==> found == Some(keys[|keys| - 1])
    {
      var index := |keys|;
      while index > 0
        invariant 0 <= index <= |keys|
        invariant forall j :: index <= j < |keys| ==> !keys[j].active
      {
        index := index - 1;
        if keys[index].active { return Some(keys[index]); }
      }
      return None;
    }

    method SaveActiveSigningKey(kid: Id, pem: Digest, createdAt: Time) returns (saved: bool)
      modifies this
      ensures keys == Saved(old(keys), kid, pem, createdAt)
      ensures saved <==> !HasActive(old(keys))
    {
      for index := 0 to |keys|
        invariant keys == old(keys)
        invariant forall j :: 0 <= j < index ==> !keys[j].active
      {
        if keys[index].active { return false; }
      }
      keys := keys + [SigningKey(kid, pem, true, createdAt, None)];
      return true;
    }

    method RotateSigningKey(kid: Id, pem: Digest, now: Time)
      modifies this
      ensures keys == Rotated(old(keys), kid, pem, now)
    {
      for index := 0 to |keys|
        invariant |keys| == |old(keys)|
        invariant forall j :: 0 <= j < index ==> keys[j] == Retire(old(keys)[j], now)
        invariant forall j :: index <= j < |keys| ==> keys[j] == old(keys)[j]
      {
        if keys[index].active {
          keys := keys[index := keys[index].(active := false, retiredAt := Some(now))];
        }
      }
      keys := keys + [SigningKey(kid, pem, true, now, None)];
    }

    method RotateSigningKeyIfOlderThan(kid: Id, pem: Digest, now: Time, createdBefore: Time) returns (rotated: bool)
      modifies this
      ensures keys == RotatedIfOlder(old(keys), kid, pem, now, createdBefore)
      ensures rotated <==> !YoungActive(old(keys), createdBefore)
    {
      for index := 0 to |keys|
        invariant keys == old(keys)
        invariant forall j :: 0 <= j < index ==> !(keys[j].active && createdBefore <= keys[j].createdAt)
      {
        if keys[index].active && createdBefore <= keys[index].createdAt { return false; }
      }
      RotateSigningKey(kid, pem, now);
      return true;
    }

    method DeleteRetiredSigningKeys(before: Time) returns (count: nat)
      modifies this
      ensures keys == Cleaned(old(keys), before)
      ensures count == |old(keys)| - |keys|
    {
      var result := [];
      count := 0;
      for index := 0 to |keys|
        invariant result == Filter(keys[..index], Staying(before)) && count == index - |result|
        invariant keys == old(keys)
      {
        assert keys[..index + 1][..index] == keys[..index];
        if !keys[index].active && keys[index].retiredAt.Some? && keys[index].retiredAt.value < before {
          count := count + 1;
          continue;
        }
        result := result + [keys[index]];
      }
      assert keys[..|keys|] == keys;
      keys := result;
    }
  }

  /** One signer instance, undisturbed: it looks at a listing first and lets the repository check again. */
  method RotateIfOlderThan(repository: MemoryKeyRepository, kid: Id, pem: Digest, maxAge: Time, now: Time)
    returns (rotated: bool)
    modifies repository
    ensures repository.keys == Decided(old(repository.keys), old(repository.keys), kid, pem, maxAge, now)
            == Next(old(repository.keys), RotateIf(kid, pem, maxAge, now))
    ensures rotated <==> maxAge > 0 && !YoungActive(old(repository.keys), now - maxAge)
  {
    if maxAge <= 0 { return false; }
    var keys := repository.keys;
    var cutoff := now - maxAge;
    for i := 0 to |keys|
      invariant repository.keys == old(repository.keys)
      invariant forall j :: 0 <= j < i ==> !(keys[j].active && cutoff <= keys[j].createdAt)
    {
      if keys[i].active && cutoff <= keys[i].createdAt { return false; }
    }
    rotated := repository.RotateSigningKeyIfOlderThan(kid, pem, now, cutoff);
  }

  method RunOnce(repository: MemoryKeyRepository, configured: Time, now: Time) returns (deleted: nat)
    modifies repository
    ensures repository.keys == Cleaned(old(repository.keys), now - Retention(configured))
    ensures repository.keys == Next(old(repository.keys), CleanUp(configured, now))
    ensures deleted == |old(repository.keys)| - |repository.keys|
  {
    deleted := repository.DeleteRetiredSigningKeys(now - Retention(configured));
  }

  // ---- Runs of any number of instances ----

  datatype Event =
    | Save(kid: Id, pem: Digest, now: Time)
    | Rotate(kid: Id, pem: Digest, now: Time)
    | RotateIf(kid: Id, pem: Digest, maxAge: Time, now: Time)
    | CleanUp(configured: Time, now: Time)

  function Next(keys: seq<SigningKey>, e: Event): seq<SigningKey> {
    match e
    case Save(kid, pem, now) => Saved(keys, kid, pem, now)
    case Rotate(kid, pem, now) => Rotated(keys, kid, pem, now)
    case RotateIf(kid, pem, maxAge, now) =>
      if maxAge <= 0 then keys else RotatedIfOlder(keys, kid, pem, now, now - maxAge)
    case CleanUp(configured, now) => Cleaned(keys, now - Retention(configured))
  }

  function Run(keys: seq<SigningKey>, es: seq<Event>): seq<SigningKey>
    decreases |es|
  {
    if es == [] then keys else Run(Next(keys, es[0]), es[1..])
  }

  predicate ClockFrom(es: seq<Event>, t: Time)
    decreases |es|
  {
    es == [] || (t <= es[0].now && ClockFrom(es[1..], es[0].now))
  }

  // ---- One active key ----

  /** Exactly the newest key is active, and a key is inactive exactly when it has a retirement time. */
  predicate OneActive(keys: seq<SigningKey>) {
    && (forall i :: 0 <= i < |keys| ==> (keys[i].active <==> i == |keys| - 1))
    && (forall i :: 0 <= i < |keys| ==> (keys[i].active <==> keys[i].retiredAt.None?))
  }

  lemma CleanedKeepsLast(keys: seq<SigningKey>, before: Time)
    requires OneActive(keys)
    ensures OneActive(Cleaned(keys, before)) && (keys != [] ==> Cleaned(keys, before) != [])
    ensures keys != [] ==> Cleaned(keys, before)[|Cleaned(keys, before)| - 1] == keys[|keys| - 1]
  {
  }

  lemma StepKeepsOneActive(keys: seq<SigningKey>, e: Event)
    requires OneActive(keys)
    ensures OneActive(Next(keys, e)) && (keys != [] ==> Next(keys, e) != [])
  {
  }

  /** From the first key on there is always exactly one active key, whoever rotates and cleans up. */
  lemma {:induction false} AlwaysOneActive(keys: seq<SigningKey>, es: seq<Event>)
    requires OneActive(keys)
    ensures OneActive(Run(keys, es)) && (keys != [] ==> Run(keys, es) != [])
    decreases |es|
  {
    if es != [] {
      StepKeepsOneActive(keys, es[0]);
      AlwaysOneActive(Next(keys, es[0]), es[1..]);
    }
  }

  // ---- No gaps ----

  /**
   Each key was retired the moment the next one was created: some listed key was active at every moment since the
   oldest.
   */
  predicate Timeline(keys: seq<SigningKey>) {
    && OneActive(keys)
    && (forall i :: 0 <= i < |keys| - 1 ==>
          keys[i].retiredAt == Some(keys[i + 1].createdAt) && keys[i].createdAt <= keys[i + 1].createdAt)
  }

  predicate Until(keys: seq<SigningKey>, t: Time) { keys != [] ==> keys[|keys| - 1].createdAt <= t }

  lemma {:induction false} CreatedInOrder(keys: seq<SigningKey>, i: nat, j: nat)
    requires Timeline(keys) && i <= j < |keys|
    ensures keys[i].createdAt <= keys[j].createdAt
    decreases j - i
  {
    if i < j { CreatedInOrder(keys, i + 1, j); }
  }

  lemma OlderIsExpendable(keys: seq<SigningKey>, i: nat, j: nat, before: Time)
    requires Timeline(keys) && i <= j < |keys| && Expendable(keys[j], before)
    ensures Expendable(keys[i], before)
  {
    if i < j { CreatedInOrder(keys, i + 1, j + 1); }
  }

  /** A clean-up only ever drops the oldest keys. */
  lemma {:induction false} CleanedIsSuffix(keys: seq<SigningKey>, n: nat, before: Time) returns (d: nat)
    requires Timeline(keys) && n <= |keys|
    ensures d <= n && Filter(keys[..n], Staying(before)) == keys[d..n]
    ensures forall i :: 0 <= i < n ==> (Expendable(keys[i], before) <==> i < d)
  {
    hide Timeline, Expendable, Filter;
    if n == 0 {
      d := 0;
      FilterEmpty(Staying(before));
    } else {
      var k := keys[n - 1];
      d := CleanedIsSuffix(keys, n - 1, before);
      FilterSnoc(keys[..n - 1], k, Staying(before));
      assert keys[..n] == keys[..n - 1] + [k];
      if Expendable(k, before) {
        forall i | 0 <= i < n ensures Expendable(keys[i], before) { OlderIsExpendable(keys, i, n - 1, before); }
        assert n >= 2 ==> Expendable(keys[n - 2], before);
        d := n;
      } else {
        assert keys[d..n] == keys[d..n - 1] + [k];
      }
    }
  }

  lemma SuffixKeepsTimeline(keys: seq<SigningKey>, d: nat)
    requires Timeline(keys) && d <= |keys|
    ensures Timeline(keys[d..])
  {
  }

  lemma RotatedKeepsTimeline(keys: seq<SigningKey>, kid: Id, pem: Digest, t: Time, now: Time)
    requires Timeline(keys) && Until(keys, t) && t <= now
    ensures Timeline(Rotated(keys, kid, pem, now)) && Until(Rotated(keys, kid, pem, now), now)
  {
  }

  lemma SavedKeepsTimeline(keys: seq<SigningKey>, kid: Id, pem: Digest, t: Time, now: Time)
    requires Timeline(keys) && Until(keys, t) && t <= now
    ensures Timeline(Saved(keys, kid, pem, now)) && Until(Saved(keys, kid, pem, now), now)
  {
  }

  lemma CleanedKeepsTimeline(keys: seq<SigningKey>, before: Time, t: Time)
    requires Timeline(keys) && Until(keys, t)
    ensures Timeline(Cleaned(keys, before)) && Until(Cleaned(keys, before), t)
  {
    var d := CleanedIsSuffix(keys, |keys|, before);
    SuffixKeepsTimeline(keys, d);
    hide Timeline, Filter;
    assert keys[..|keys|] == keys && keys[d..|keys|] == keys[d..];
  }

  lemma StepKeepsTimeline(keys: seq<SigningKey>, e: Event, t: Time)
    requires Timeline(keys) && Until(keys, t) && t <= e.now
    ensures Timeline(Next(keys, e)) && Until(Next(keys, e), e.now)
  {
    hide Timeline, Saved, Rotated, Cleaned, YoungActive;
    match e
    case Save(kid, pem, now) => SavedKeepsTimeline(keys, kid, pem, t, now);
    case Rotate(kid, pem, now) => RotatedKeepsTimeline(keys, kid, pem, t, now);
    case RotateIf(kid, pem, _, now) => RotatedKeepsTimeline(keys, kid, pem, t, now);
    case CleanUp(configured, now) => CleanedKeepsTimeline(keys, now - Retention(configured), t);
  }

  lemma {:induction false} RunKeepsTimeline(keys: seq<SigningKey>, es: seq<Event>, t: Time)
    requires Timeline(keys) && Until(keys, t) && ClockFrom(es, t)
    ensures Timeline(Run(keys, es))
    decreases |es|
  {
    if es != [] {
      StepKeepsTimeline(keys, es[0], t);
      hide Timeline, Until, Next;
      RunKeepsTimeline(Next(keys, es[0]), es[1..], es[0].now);
    }
  }

  // ---- Retention ----

  /** The key is listed, and if it was retired that was at t or later. */
  predicate ListedSince(keys: seq<SigningKey>, k: SigningKey, t: Time) {
    exists i :: 0 <= i < |keys| && keys[i].kid == k.kid && keys[i].pem == k.pem && keys[i].createdAt == k.createdAt
                && (keys[i].retiredAt.Some? ==> t <= keys[i].retiredAt.value)
  }

  /** A clean-up at most the configured time after t; at most a day after it when less than an hour is configured. */
  predicate InTime(e: Event, t: Time) {
    e.CleanUp? ==> e.now <= t + (if e.configured >= HOUR then e.configured else DAY)
  }

  lemma StepKeepsListed(keys: seq<SigningKey>, e: Event, k: SigningKey, t: Time)
    requires ListedSince(keys, k, t) && t <= e.now
    requires InTime(e, t)
    ensures ListedSince(Next(keys, e), k, t)
  {
    var i :| 0 <= i < |keys| && keys[i].kid == k.kid && keys[i].pem == k.pem && keys[i].createdAt == k.createdAt
             && (keys[i].retiredAt.Some? ==> t <= keys[i].retiredAt.value);
    if e.CleanUp? {
      assert Staying(e.now - Retention(e.configured))(keys[i]);
      assert keys[i] in Next(keys, e);
    } else {
      var after := Next(keys, e)[i];
      assert after == keys[i] || after == Retire(keys[i], e.now);
    }
  }

  /** A key active at t stays listed for as long as is configured, so what it signed at t can be verified that long. */
  lemma {:induction false} RetainedAfterUse(keys: seq<SigningKey>, es: seq<Event>, k: SigningKey, t: Time)
    requires ListedSince(keys, k, t) && ClockFrom(es, t)
    requires forall i :: 0 <= i < |es| ==> InTime(es[i], t)
    ensures ListedSince(Run(keys, es), k, t)
    decreases |es|
  {
    if es != [] {
      StepKeepsListed(keys, es[0], k, t);
      ClockWeaken(es[1..], es[0].now, t);
      RetainedAfterUse(Next(keys, es[0]), es[1..], k, t);
    }
  }

  /** A clean-up drops exactly the keys retired before its cut-off, which are the oldest ones. */
  lemma CleanUpOutcome(keys: seq<SigningKey>, configured: Time, now: Time)
    requires Timeline(keys)
    ensures var cutoff := now - (if configured >= HOUR then configured else DAY);
            exists d :: 0 <= d <= |keys| && Next(keys, CleanUp(configured, now)) == keys[d..]
                        && forall i :: 0 <= i < |keys| ==>
                             (keys[i].retiredAt.Some? && keys[i].retiredAt.value < cutoff <==> i < d)
  {
    var cutoff := now - (if configured >= HOUR then configured else DAY);
    var d := CleanedIsSuffix(keys, |keys|, cutoff);
    assert keys[..|keys|] == keys && keys[d..|keys|] == keys[d..];
    assert forall i :: 0 <= i < |keys| ==> (Expendable(keys[i], cutoff) <==>
                                            keys[i].retiredAt.Some? && keys[i].retiredAt.value < cutoff);
    hide Timeline, OneActive, Filter, Expendable;
  }

  /** A rotation retires the newest key and appends the new one; an automatic one, only when the newest is too old. */
  lemma RotationOutcome(keys: seq<SigningKey>, kid: Id, pem: Digest, maxAge: Time, now: Time)
    requires OneActive(keys)
    ensures var next := SigningKey(kid, pem, true, now, None);
            var n := |keys| - 1;
            var rotated := if keys == [] then [next]
                           else keys[n := keys[n].(active := false, retiredAt := Some(now))] + [next];
            && Next(keys, Rotate(kid, pem, now)) == rotated
            && Next(keys, Save(kid, pem, now)) == (if keys == [] then [next] else keys)
            && Next(keys, RotateIf(kid, pem, maxAge, now)) ==
               if maxAge > 0 && (keys == [] || keys[n].createdAt < now - maxAge) then rotated else keys
  {
  }

  lemma ClockWeaken(es: seq<Event>, now: Time, t: Time)
    requires ClockFrom(es, now) && t <= now
    ensures ClockFrom(es, t)
  {
  }

  /** In particular a key that is active now is listed for as long. */
  lemma ActiveIsRetained(keys: seq<SigningKey>, es: seq<Event>, k: SigningKey, t: Time)
    requires OneActive(keys) && k in keys && k.active && ClockFrom(es, t)
    requires forall i :: 0 <= i < |es| ==> InTime(es[i], t)
    ensures exists l :: l in Run(keys, es) && l.kid == k.kid && l.pem == k.pem && l.createdAt == k.createdAt
  {
    RetainedAfterUse(keys, es, k, t);
    var keys' := Run(keys, es);
    var i :| 0 <= i < |keys'| && keys'[i].kid == k.kid && keys'[i].pem == k.pem && keys'[i].createdAt == k.createdAt
             && (keys'[i].retiredAt.Some? ==> t <= keys'[i].retiredAt.value);
    assert keys'[i] in keys';
  }

  // ---- Spacing of automatic rotations ----

  predicate RotatesNow(keys: seq<SigningKey>, e: Event) {
    e.RotateIf? && e.maxAge > 0 && !YoungActive(keys, e.now - e.maxAge)
  }

  predicate ActiveSince(keys: seq<SigningKey>, t: Time) {
    keys != [] && OneActive(keys) && t <= keys[|keys| - 1].createdAt
  }

  lemma {:induction false} ActiveStaysYoung(keys: seq<SigningKey>, es: seq<Event>, t: Time)
    requires ActiveSince(keys, t) && ClockFrom(es, t)
    ensures ActiveSince(Run(keys, es), t)
    decreases |es|
  {
    if es != [] {
      StepKeepsOneActive(keys, es[0]);
      if es[0].CleanUp? { CleanedKeepsLast(keys, es[0].now - Retention(es[0].configured)); }
      ClockWeaken(es[1..], es[0].now, t);
      ActiveStaysYoung(Next(keys, es[0]), es[1..], t);
    }
  }

  /**
   The signer's rotation in two steps: nothing if its listing showed a young key, else what the repository decides.
   */
  function Decided(listing: seq<SigningKey>, keys: seq<SigningKey>, kid: Id, pem: Digest, maxAge: Time,
                   now: Time): seq<SigningKey> {
    if maxAge <= 0 || YoungActive(listing, now - maxAge)
    then keys
    else RotatedIfOlder(keys, kid, pem, now, now - maxAge)
  }

  /** Whatever other instances do between the two steps, the outcome is the repository's decision at the second. */
  lemma EarlyLookIsHarmless(listing: seq<SigningKey>, es: seq<Event>, kid: Id, pem: Digest, maxAge: Time, now: Time)
    requires OneActive(listing) && ClockFrom(es, now - maxAge)
    ensures Decided(listing, Run(listing, es), kid, pem, maxAge, now) == Next(Run(listing, es),
              RotateIf(kid, pem, maxAge, now))
  {
    if maxAge > 0 && YoungActive(listing, now - maxAge) {
      ActiveStaysYoung(listing, es, now - maxAge);
      var keys := Run(listing, es);
      assert keys[|keys| - 1].active;
    }
  }

  /** Automatic rotations with one maximum age are more than that age apart, however many instances try. */
  lemma RotationsAreSpaced(keys: seq<SigningKey>, first: Event, between: seq<Event>, second: Event)
    requires OneActive(keys) && RotatesNow(keys, first) && ClockFrom(between, first.now)
    requires RotatesNow(Run(Next(keys, first), between), second)
    ensures second.now > first.now + second.maxAge
  {
    StepKeepsOneActive(keys, first);
    var after := Run(Next(keys, first), between);
    ActiveStaysYoung(Next(keys, first), between, first.now);
    assert after[|after| - 1].active;
  }
}
