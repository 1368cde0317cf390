/** The fixed-window rate limiter: the counter step, the bounded in-memory table and the SQL upsert. */
module RateLimit {
  import opened Prelude

  type Key = string

  datatype Attempt = Attempt(scope: string, subject: string, limit: int, window: Time, now: Time)

  datatype Bucket = Bucket(attempts: int, resetAt: Time, touched: Time)

  datatype Decision = Decision(allowed: bool, remaining: int, resetAt: Time)

  type Table = map<Key, Bucket>

  predicate ScopeChar(c: char) { 'a' <= c <= 'z' || '0' <= c <= '9' || c == '_' || c == '.' || c == '-' }

  predicate ValidScope(scope: string) {
    1 <= |scope| <= 64 && 'a' <= scope[0] <= 'z' && forall i :: 1 <= i < |scope| ==> ScopeChar(scope[i])
  }

  predicate ValidAttempt(a: Attempt) {
    ValidScope(a.scope) && 1 <= a.limit <= 1_000_000 && SECOND <= a.window <= 24 * HOUR && a.now != ZERO_TIME
  }

  function KeyOf(a: Attempt): (k: Key)
    ensures k != ""
  {
    a.scope + "\0" + a.subject
  }

  lemma ScopeHasNoSeparator(scope: string)
    requires ValidScope(scope)
    ensures '\0' !in scope
  {
  }

  /** Different subjects never share a bucket: a scope cannot contain the separator. */
  lemma KeysAreDistinct(a: Attempt, b: Attempt)
    requires ValidScope(a.scope) && ValidScope(b.scope)
    ensures KeyOf(a) == KeyOf(b) <==> a.scope == b.scope && a.subject == b.subject
  {
    if KeyOf(a) == KeyOf(b) {
      var k, n, m := KeyOf(a), |a.scope|, |b.scope|;
      ScopeHasNoSeparator(a.scope);
      ScopeHasNoSeparator(b.scope);
      assert k[n] == '\0' && k[m] == '\0';
      assert forall i :: 0 <= i < n ==> k[i] == a.scope[i];
      assert forall i :: 0 <= i < m ==> k[i] == b.scope[i];
      assert a.scope == k[..n] == b.scope && a.subject == k[n + 1..] == b.subject;
    }
  }

  function DecisionFor(attempts: int, limit: int, resetAt: Time): Decision {
    Decision(attempts <= limit, Max(limit - attempts, 0), resetAt)
  }

  /** One attempt on a table without a size limit. The counter stops one past the limit. */
  function Count(t: Table, a: Attempt): Bucket {
    var k := KeyOf(a);
    if k !in t || t[k].resetAt <= a.now then Bucket(1, a.now + a.window, a.now)
    else Bucket(Min(t[k].attempts + 1, a.limit + 1), t[k].resetAt, a.now)
  }

  function Decide(t: Table, a: Attempt): Decision {
    DecisionFor(Count(t, a).attempts, a.limit, Count(t, a).resetAt)
  }

  function Pruned(t: Table, now: Time): Table { map k | k in t && now < t[k].resetAt :: t[k] }

  /** What is left of a full table once expired buckets are gone. */
  function Room(t: Table, max: nat, now: Time): Table { if |t| >= max then Pruned(t, now) else t }

  /** The attempt finds room without losing a live bucket. */
  predicate Fits(t: Table, max: nat, now: Time) { |Room(t, max, now)| < max }

  /** A bucket the eviction may choose: none was touched earlier. Among equals the choice is free. */
  ghost predicate VictimOk(t: Table, max: nat, now: Time, victim: Key) {
    !Fits(t, max, now) ==>
      victim in Room(t, max, now) && forall k :: k in Room(t, max, now) ==>
          Room(t, max, now)[victim].touched <= Room(t, max, now)[k].touched
  }

  function Admitting(t: Table, max: nat, now: Time, victim: Key): Table {
    if Fits(t, max, now) then Room(t, max, now) else Room(t, max, now) - {victim}
  }

  function TakeCall(t: Table, max: nat, a: Attempt, victim: Key): (Table, Decision) {
    var u := Admitting(t, max, a.now, victim);
    (u[KeyOf(a) := Count(u, a)], Decide(u, a))
  }

  lemma OneMore(t: Table, k: Key, b: Bucket)
    ensures |t[k := b]| <= |t| + 1
  {
  }

  class MemoryRepository {
    var buckets: Table
    var maxSize: int

    ghost predicate Valid()
      reads this
    {
      "" !in buckets && maxSize > 0 && |buckets| <= maxSize
    }

    constructor ()
      ensures Valid() && buckets == map[] && maxSize == 10_000
    {
      buckets, maxSize := map[], 10_000;
    }

    method Prune(now: Time)
      modifies `buckets
      ensures buckets == Pruned(old(buckets), now) && |buckets| <= |old(buckets)|
    {
      var keys := buckets.Keys;
      while keys != {}
        invariant keys <= old(buckets).Keys
        invariant forall k :: k in buckets <==> k in old(buckets) && (k in keys || now < old(buckets)[k].resetAt)
        invariant forall k :: k in buckets ==> buckets[k] == old(buckets)[k]
        decreases |keys|
      {
        var key :| key in keys;
        keys := keys - {key};
        if buckets[key].resetAt <= now { buckets := buckets - {key}; }
      }
      assert old(buckets).Keys == buckets.Keys + (old(buckets).Keys - buckets.Keys);
    }

    method EvictOldest() returns (victim: Key)
      requires "" !in buckets
      modifies `buckets
      ensures old(buckets) == map[] ==> victim == "" && buckets == old(buckets)
      ensures old(buckets) != map[] ==>
                && victim in old(buckets) && buckets == old(buckets) - {victim} && |buckets| == |old(buckets)| - 1
                && forall k :: k in old(buckets) ==> old(buckets)[victim].touched <= old(buckets)[k].touched
    {
      victim := "";
      var oldest := 0;
      var keys := buckets.Keys;
      while keys != {}
        invariant keys <= buckets.Keys && buckets == old(buckets)
        invariant victim == "" ==> keys == buckets.Keys
        invariant victim != "" ==> victim in buckets && oldest == buckets[victim].touched
        invariant victim != "" ==> forall k :: k in buckets && k !in keys ==> oldest <= buckets[k].touched
        decreases |keys|
      {
        var key :| key in keys;
        keys := keys - {key};
        if victim == "" || buckets[key].touched < oldest {
          victim, oldest := key, buckets[key].touched;
        }
      }
      if victim != "" {
        buckets := buckets - {victim};
        assert old(buckets).Keys == buckets.Keys + {victim};
      }
    }

    /** A full table is pruned, and if that is not enough it loses an oldest bucket. */
    method MakeRoom(now: Time) returns (ghost victim: Key)
      requires Valid()
      modifies `buckets
      ensures "" !in buckets && |buckets| < maxSize
      ensures VictimOk(old(buckets), maxSize, now, victim)
      ensures buckets == Admitting(old(buckets), maxSize, now, victim)
    {
      victim := "";
      if |buckets| >= maxSize { Prune(now); }
      if |buckets| >= maxSize { victim := EvictOldest(); }
    }

    /** The table never outgrows its bound, and what it decides is the counter's decision on what it kept. */
    method Take(a: Attempt) returns (res: Option<Decision>, ghost victim: Key)
      requires Valid()
      modifies this
      ensures Valid() && maxSize == old(maxSize)
      ensures res.None? <==> !ValidAttempt(a)
      ensures res.None? ==> buckets == old(buckets)
      ensures res.Some? ==>
                && VictimOk(old(buckets), maxSize, a.now, victim)
                && (buckets, res.value) == TakeCall(old(buckets), maxSize, a, victim)
    {
      hide Admitting, VictimOk, ValidAttempt, KeyOf;
      victim := "";
      if !ValidAttempt(a) { return None, victim; }
      var key := KeyOf(a);
      victim := MakeRoom(a.now);
      var bucket;
      if key !in buckets || buckets[key].resetAt <= a.now {
        bucket := Bucket(1, a.now + a.window, a.now);
      } else {
        bucket := Bucket(Min(buckets[key].attempts + 1, a.limit + 1), buckets[key].resetAt, a.now);
      }
      OneMore(buckets, key, bucket);
      buckets := buckets[key := bucket];
      res := Some(Decision(bucket.attempts <= a.limit, Max(a.limit - bucket.attempts, 0), bucket.resetAt));
    }
  }

  // ---- The SQL upsert ----

  datatype Row = Row(attempts: int, windowEndsAt: Time, updatedAt: Time)

  /** INSERT ... ON CONFLICT DO UPDATE with its CASE expressions; the key stands for the scope and subject columns. */
  function Upsert(q: map<Key, Row>, a: Attempt): (map<Key, Row>, Decision) {
    var k, excluded := KeyOf(a), Row(1, a.now + a.window, a.now);
    var row :=
      if k !in q then excluded
      else Row(if q[k].windowEndsAt <= excluded.updatedAt then 1 else Min(q[k].attempts + 1, a.limit + 1),
               if q[k].windowEndsAt <= excluded.updatedAt then excluded.windowEndsAt else q[k].windowEndsAt,
               excluded.updatedAt);
    (q[k := row], Decision(row.attempts <= a.limit, Max(a.limit - row.attempts, 0), row.windowEndsAt))
  }
}
