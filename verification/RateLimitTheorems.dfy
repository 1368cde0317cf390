/** What the rate limiter promises over whole runs of attempts. */
module RateLimitTheorems {
  import opened Prelude
  import opened RateLimit

  /** An attempt, with the bucket an eviction would remove. */
  datatype Step = Step(a: Attempt, victim: Key)

  function After(steps: seq<Step>, max: nat): Table {
    if steps == [] then map[]
    else var n := |steps| - 1; TakeCall(After(steps[..n], max), max, steps[n].a, steps[n].victim).0
  }

  function SqlAfter(steps: seq<Step>): map<Key, Row> {
    if steps == [] then map[]
    else var n := |steps| - 1; Upsert(SqlAfter(steps[..n]), steps[n].a).0
  }

  function Now(steps: seq<Step>): Option<Time> {
    if steps == [] then None else Some(steps[|steps| - 1].a.now)
  }

  /** Valid attempts, a clock that never runs backwards, and evictions of an oldest bucket. */
  ghost predicate Legal(steps: seq<Step>, max: nat) {
    steps == [] ||
    (var n := |steps| - 1;
     && Legal(steps[..n], max)
     && ValidAttempt(steps[n].a)
     && (n > 0 ==> steps[n - 1].a.now <= steps[n].a.now)
     && VictimOk(After(steps[..n], max), max, steps[n].a.now, steps[n].victim))
  }

  function MemoryDecision(steps: seq<Step>, max: nat): Decision
    requires steps != []
  {
    var n := |steps| - 1; TakeCall(After(steps[..n], max), max, steps[n].a, steps[n].victim).1
  }

  function SqlDecision(steps: seq<Step>): Decision
    requires steps != []
  {
    var n := |steps| - 1; Upsert(SqlAfter(steps[..n]), steps[n].a).1
  }

  // ---- Size ----

  lemma TakeFits(t: Table, max: nat, e: Step)
    requires max > 0 && |t| <= max && VictimOk(t, max, e.a.now, e.victim)
    ensures |TakeCall(t, max, e.a, e.victim).0| <= max
  {
    hide KeyOf, Count;
    var u, r := Admitting(t, max, e.a.now, e.victim), Room(t, max, e.a.now);
    PrunedIsSmaller(t, e.a.now);
    if !Fits(t, max, e.a.now) { assert r.Keys == u.Keys + {e.victim}; }
    OneMore(u, KeyOf(e.a), Count(u, e.a));
  }

  lemma {:induction false} TableIsBounded(steps: seq<Step>, max: nat)
    requires max > 0 && Legal(steps, max)
    ensures |After(steps, max)| <= max
  {
    hide VictimOk, TakeCall, ValidAttempt;
    if steps != [] {
      var n := |steps| - 1;
      TableIsBounded(steps[..n], max);
      TakeFits(After(steps[..n], max), max, steps[n]);
    }
  }

  lemma PrunedIsSmaller(t: Table, now: Time)
    ensures |Pruned(t, now)| <= |t|
  {
    assert t.Keys == Pruned(t, now).Keys + (t.Keys - Pruned(t, now).Keys);
  }

  // ---- Pruning ----

  predicate LiveAt(t: Table, k: Key, now: Time) { k in t && now < t[k].resetAt }

  /** The tables differ at most in buckets that have expired. */
  ghost predicate SameLive(t: Table, u: Table, now: Time) {
    forall k :: (LiveAt(t, k, now) <==> LiveAt(u, k, now)) && (LiveAt(t, k, now) ==> t[k] == u[k])
  }

  /** Expired buckets never matter again: they decide nothing now and stay apart from what comes. */
  lemma ExpiredIsInvisible(t: Table, u: Table, a: Attempt, now: Time)
    requires SameLive(t, u, now) && now <= a.now
    ensures Decide(t, a) == Decide(u, a)
    ensures SameLive(t[KeyOf(a) := Count(t, a)], u[KeyOf(a) := Count(u, a)], a.now)
  {
  }

  function CountAll(t: Table, attempts: seq<Attempt>): Table
    decreases |attempts|
  {
    if attempts == [] then t else CountAll(t[KeyOf(attempts[0]) := Count(t, attempts[0])], attempts[1..])
  }

  predicate ClockFrom(attempts: seq<Attempt>, now: Time)
    decreases |attempts|
  {
    attempts == [] || (now <= attempts[0].now && ClockFrom(attempts[1..], attempts[0].now))
  }

  /** Pruning cannot change any later decision. */
  lemma PruneIsInvisible(t: Table, now: Time, attempts: seq<Attempt>, a: Attempt)
    requires ClockFrom(attempts + [a], now)
    ensures Decide(CountAll(Pruned(t, now), attempts), a) == Decide(CountAll(t, attempts), a)
  {
    SameLiveForever(Pruned(t, now), t, now, attempts, a);
  }

  lemma {:induction false} SameLiveForever(t: Table, u: Table, now: Time, attempts: seq<Attempt>, a: Attempt)
    requires SameLive(t, u, now) && ClockFrom(attempts + [a], now)
    ensures Decide(CountAll(t, attempts), a) == Decide(CountAll(u, attempts), a)
    decreases |attempts|
  {
    if attempts == [] {
      ExpiredIsInvisible(t, u, a, now);
    } else {
      var b := attempts[0];
      ExpiredIsInvisible(t, u, b, now);
      assert (attempts + [a])[1..] == attempts[1..] + [a];
      SameLiveForever(t[KeyOf(b) := Count(t, b)], u[KeyOf(b) := Count(u, b)], b.now, attempts[1..], a);
    }
  }

  // ---- Memory against SQL ----

  predicate RowSim(b: Bucket, r: Row) {
    r == Row(b.attempts, b.resetAt, b.touched) && b.touched < b.resetAt && b.attempts >= 1
  }

  /** Every bucket has its row, and a row without a bucket has expired. */
  ghost predicate Sim(t: Table, q: map<Key, Row>, now: Option<Time>) {
    && (forall k :: k in t ==> k in q && RowSim(t[k], q[k]))
    && (forall k :: k in q && k !in t ==> now.Some? && q[k].windowEndsAt <= now.value)
  }

  lemma StepSim(t: Table, q: map<Key, Row>, now: Option<Time>, max: nat, e: Step)
    requires Sim(t, q, now) && ValidAttempt(e.a) && (now.Some? ==> now.value <= e.a.now)
    requires Fits(t, max, e.a.now)
    ensures TakeCall(t, max, e.a, e.victim).1 == Upsert(q, e.a).1
    ensures Sim(TakeCall(t, max, e.a, e.victim).0, Upsert(q, e.a).0, Some(e.a.now))
  {
  }

  ghost predicate AlwaysFits(steps: seq<Step>, max: nat) {
    steps == [] ||
    (var n := |steps| - 1;
     AlwaysFits(steps[..n], max) && Fits(After(steps[..n], max), max, steps[n].a.now))
  }

  lemma {:induction false} SimAlong(steps: seq<Step>, max: nat)
    requires Legal(steps, max) && AlwaysFits(steps, max)
    ensures Sim(After(steps, max), SqlAfter(steps), Now(steps))
  {
    if steps != [] {
      var n := |steps| - 1;
      SimAlong(steps[..n], max);
      StepSim(After(steps[..n], max), SqlAfter(steps[..n]), Now(steps[..n]), max, steps[n]);
    }
  }

  /** Without evictions the two repositories decide every attempt alike, whatever the policies. */
  lemma MemoryDecidesAsSql(steps: seq<Step>, max: nat)
    requires steps != [] && Legal(steps, max) && AlwaysFits(steps, max)
    ensures MemoryDecision(steps, max) == SqlDecision(steps)
  {
    var n := |steps| - 1;
    SimAlong(steps[..n], max);
    StepSim(After(steps[..n], max), SqlAfter(steps[..n]), Now(steps[..n]), max, steps[n]);
  }

  /**
   An eviction always removes a live bucket, and it shows: at once if it hits the caller's own key, and otherwise the
   next attempt on the evicted key is decided otherwise than by the SQL table exactly when its window is still running.
   */
  lemma EvictionShows(t: Table, q: map<Key, Row>, now: Option<Time>, max: nat, e: Step, again: Attempt)
    requires Sim(t, q, now) && ValidAttempt(e.a) && (now.Some? ==> now.value <= e.a.now) && max > 0
    requires !Fits(t, max, e.a.now) && VictimOk(t, max, e.a.now, e.victim)
    requires ValidAttempt(again) && KeyOf(again) == e.victim && e.a.now <= again.now
    ensures LiveAt(t, e.victim, e.a.now)
    ensures e.victim == KeyOf(e.a) ==> TakeCall(t, max, e.a, e.victim).1 != Upsert(q, e.a).1
    ensures e.victim != KeyOf(e.a) ==>
              (Decide(TakeCall(t, max, e.a, e.victim).0, again) != Upsert(Upsert(q, e.a).0, again).1
               <==> again.now < t[e.victim].resetAt)
  {
  }

  /** An attempt on another key neither brings k back nor touches its row. */
  lemma OtherKeyOnly(t: Table, q: map<Key, Row>, max: nat, e: Step, k: Key)
    requires KeyOf(e.a) != k && (k !in t || (!Fits(t, max, e.a.now) && e.victim == k))
    ensures k !in TakeCall(t, max, e.a, e.victim).0
    ensures var r := Upsert(q, e.a).0; (k in r <==> k in q) && (k in q ==> r[k] == q[k])
  {
  }

  /** While only other keys are asked for, an evicted key stays out of the table and its row stays as it was. */
  lemma {:induction false} EvictedStaysOut(steps: seq<Step>, max: nat, n: nat, k: Key)
    requires n < |steps| && steps[n].victim == k && !Fits(After(steps[..n], max), max, steps[n].a.now)
    requires forall i :: n <= i < |steps| ==> KeyOf(steps[i].a) != k
    ensures k !in After(steps, max)
    ensures var q, r := SqlAfter(steps[..n]), SqlAfter(steps); (k in r <==> k in q) && (k in q ==> r[k] == q[k])
  {
    hide KeyOf, Fits, TakeCall, Upsert;
    var m := |steps| - 1;
    if n < m {
      assert steps[..m][..n] == steps[..n];
      EvictedStaysOut(steps[..m], max, n, k);
    }
    OtherKeyOnly(After(steps[..m], max), SqlAfter(steps[..m]), max, steps[m], k);
  }

  /** A key without a bucket is decided as by its row exactly when the row's window is over. */
  lemma WithoutBucket(t: Table, q: map<Key, Row>, max: nat, e: Step, r: Row)
    requires var k := KeyOf(e.a); k !in t && k in q && q[k] == r && r.attempts >= 1
    requires ValidAttempt(e.a)
    ensures TakeCall(t, max, e.a, e.victim).1 != Upsert(q, e.a).1 <==> e.a.now < r.windowEndsAt
  {
  }

  lemma LegalAt(steps: seq<Step>, max: nat, n: nat)
    requires Legal(steps, max) && n < |steps|
    ensures Legal(steps[..n], max) && ValidAttempt(steps[n].a)
    ensures VictimOk(After(steps[..n], max), max, steps[n].a.now, steps[n].victim)
  {
    LegalPrefix(steps, max, n + 1);
    assert steps[..n + 1][..n] == steps[..n];
    hide VictimOk, After, ValidAttempt;
  }

  lemma VictimHasRow(t: Table, q: map<Key, Row>, before: Option<Time>, max: nat, now: Time, k: Key)
    requires Sim(t, q, before) && !Fits(t, max, now) && VictimOk(t, max, now, k)
    ensures k in t && k in q && q[k].windowEndsAt == t[k].resetAt && q[k].attempts >= 1
  {
  }

  /** In a run: whatever other keys do in between, the first eviction is noticed exactly if its window is running. */
  lemma EvictionShowsInRun(steps: seq<Step>, max: nat, n: nat)
    requires max > 0 && Legal(steps, max) && n < |steps| - 1 && AlwaysFits(steps[..n], max)
    requires !Fits(After(steps[..n], max), max, steps[n].a.now)
    requires var k := steps[n].victim;
             && KeyOf(steps[|steps| - 1].a) == k
             && forall i :: n <= i < |steps| - 1 ==> KeyOf(steps[i].a) != k
    ensures var k := steps[n].victim;
            && k in After(steps[..n], max)
            && (MemoryDecision(steps, max) != SqlDecision(steps)
                <==> steps[|steps| - 1].a.now < After(steps[..n], max)[k].resetAt)
  {
    hide KeyOf, Fits, TakeCall, Upsert, ValidAttempt, VictimOk, Legal, AlwaysFits, Sim, After, SqlAfter;
    var k, m := steps[n].victim, |steps| - 1;
    LegalAt(steps, max, n);
    LegalAt(steps, max, m);
    assert steps[..m][..n] == steps[..n];
    SimAlong(steps[..n], max);
    VictimHasRow(After(steps[..n], max), SqlAfter(steps[..n]), Now(steps[..n]), max, steps[n].a.now, k);
    EvictedStaysOut(steps[..m], max, n, k);
    WithoutBucket(After(steps[..m], max), SqlAfter(steps[..m]), max, steps[m], SqlAfter(steps[..n])[k]);
  }

  lemma {:induction false} LegalPrefix(steps: seq<Step>, max: nat, n: nat)
    requires Legal(steps, max) && n <= |steps|
    ensures Legal(steps[..n], max)
  {
    if n < |steps| {
      LegalPrefix(steps[..|steps| - 1], max, n);
      assert steps[..|steps| - 1][..n] == steps[..n];
    } else {
      assert steps[..n] == steps;
    }
  }

  // ---- Against an exact counter ----

  datatype Counter = Counter(count: nat, resetAt: Time)

  /** The counter after an attempt at t: a new window when there is none running. */
  function Ticked(c: Option<Counter>, t: Time, window: Time): Counter {
    if c.None? || c.value.resetAt <= t then Counter(1, t + window) else Counter(c.value.count + 1, c.value.resetAt)
  }

  /** A per-window counter of one key that never saturates and never forgets. */
  function Exact(steps: seq<Step>, k: Key): Option<Counter> {
    if steps == [] then None
    else
      var n := |steps| - 1;
      var before, a := Exact(steps[..n], k), steps[n].a;
      if KeyOf(a) != k then before else Some(Ticked(before, a.now, a.window))
  }

  /** Allowed up to the limit, with what is left of it, until the window ends. */
  predicate Decides(d: Decision, c: Counter, limit: int) {
    && (d.allowed <==> c.count <= limit)
    && d.remaining == (if c.count < limit then limit - c.count else 0)
    && d.resetAt == c.resetAt
  }

  predicate FixedPolicy(steps: seq<Step>, k: Key, limit: int, window: Time) {
    forall i :: 0 <= i < |steps| && KeyOf(steps[i].a) == k ==> steps[i].a.limit == limit && steps[i].a.window == window
  }

  /** The last attempt of the run evicts k. */
  predicate Evicts(steps: seq<Step>, max: nat, k: Key)
    requires steps != []
  {
    var n := |steps| - 1; !Fits(After(steps[..n], max), max, steps[n].a.now) && steps[n].victim == k
  }

  /** No eviction of the run hits k. */
  ghost predicate NeverEvicted(steps: seq<Step>, max: nat, k: Key) {
    steps == [] || (NeverEvicted(steps[..|steps| - 1], max, k) && !Evicts(steps, max, k))
  }

  /** The exact counter, started anew whenever k is evicted. */
  function Surviving(steps: seq<Step>, max: nat, k: Key): Option<Counter> {
    if steps == [] then None
    else
      var n := |steps| - 1;
      var kept := if Evicts(steps, max, k) then None else Surviving(steps[..n], max, k);
      if KeyOf(steps[n].a) != k then kept else Some(Ticked(kept, steps[n].a.now, steps[n].a.window))
  }

  lemma {:induction false} SurvivingIsExact(steps: seq<Step>, max: nat, k: Key)
    requires NeverEvicted(steps, max, k)
    ensures Surviving(steps, max, k) == Exact(steps, k)
  {
    if steps != [] { SurvivingIsExact(steps[..|steps| - 1], max, k); }
  }

  predicate Tracks(t: Table, c: Option<Counter>, k: Key, limit: int, now: Option<Time>) {
    if k in t then c.Some? && t[k].attempts == Min(c.value.count, limit + 1) && t[k].resetAt == c.value.resetAt
    else c.None? || (now.Some? && c.value.resetAt <= now.value)
  }

  lemma EmptyTracks(k: Key, limit: int)
    ensures Tracks(map[], None, k, limit, None)
  {
  }

  lemma {:induction false} TableTracks(steps: seq<Step>, max: nat, k: Key, limit: int, window: Time)
    requires limit >= 1 && Legal(steps, max) && FixedPolicy(steps, k, limit, window)
    ensures Tracks(After(steps, max), Surviving(steps, max, k), k, limit, Now(steps))
  {
    hide Fits, Admitting, ValidAttempt, KeyOf, VictimOk, Tracks, Count;
    if steps == [] {
      EmptyTracks(k, limit);
    } else {
      var n := |steps| - 1;
      TableTracks(steps[..n], max, k, limit, window);
      var t, c := After(steps[..n], max), Surviving(steps[..n], max, k);
      var kept := if Evicts(steps, max, k) then None else c;
      AdmittingTracks(t, c, k, limit, Now(steps[..n]), max, steps[n]);
      CountTracks(Admitting(t, max, steps[n].a.now, steps[n].victim), kept, k, limit, window, steps[n].a);
    }
  }

  /** Making room drops k only if it has expired or is evicted. */
  lemma AdmittingTracks(t: Table, c: Option<Counter>, k: Key, limit: int, now: Option<Time>, max: nat, e: Step)
    requires Tracks(t, c, k, limit, now) && (now.Some? ==> now.value <= e.a.now)
    ensures var kept := if !Fits(t, max, e.a.now) && e.victim == k then None else c;
            Tracks(Admitting(t, max, e.a.now, e.victim), kept, k, limit, Some(e.a.now))
  {
  }

  lemma CountTracks(u: Table, c: Option<Counter>, k: Key, limit: int, window: Time, a: Attempt)
    requires limit >= 1 && ValidAttempt(a) && Tracks(u, c, k, limit, Some(a.now))
    requires KeyOf(a) == k ==> a.limit == limit && a.window == window
    ensures Tracks(u[KeyOf(a) := Count(u, a)], if KeyOf(a) == k then Some(Ticked(c, a.now, a.window)) else c, k, limit,
                   Some(a.now))
    ensures KeyOf(a) == k ==>
              var d := Ticked(c, a.now, a.window); Decide(u, a) == DecisionFor(d.count, limit, d.resetAt)
  {
  }

  /** The decision is always that of the counter since the last eviction. */
  lemma MemoryDecidesAsSurviving(steps: seq<Step>, max: nat, limit: int, window: Time)
    requires steps != [] && limit >= 1
    requires Legal(steps, max) && FixedPolicy(steps, KeyOf(steps[|steps| - 1].a), limit, window)
    ensures var c := Surviving(steps, max, KeyOf(steps[|steps| - 1].a));
            c.Some? && Decides(MemoryDecision(steps, max), c.value, limit)
  {
    var n := |steps| - 1;
    var k, a := KeyOf(steps[n].a), steps[n].a;
    TableTracks(steps[..n], max, k, limit, window);
    var t, c := After(steps[..n], max), Surviving(steps[..n], max, k);
    AdmittingTracks(t, c, k, limit, Now(steps[..n]), max, steps[n]);
    var kept := if Evicts(steps, max, k) then None else c;
    CountTracks(Admitting(t, max, a.now, steps[n].victim), kept, k, limit, window, a);
    hide Admitting, Tracks, ValidAttempt, KeyOf;
  }

  /** Saturating at one past the limit loses nothing: the decision is that of the exact counter. */
  lemma MemoryDecidesAsExact(steps: seq<Step>, max: nat, limit: int, window: Time)
    requires steps != [] && limit >= 1
    requires var k := KeyOf(steps[|steps| - 1].a);
             Legal(steps, max) && FixedPolicy(steps, k, limit, window) && NeverEvicted(steps, max, k)
    ensures var c := Exact(steps, KeyOf(steps[|steps| - 1].a));
            c.Some? && Decides(MemoryDecision(steps, max), c.value, limit)
  {
    hide MemoryDecision, Legal;
    MemoryDecidesAsSurviving(steps, max, limit, window);
    SurvivingIsExact(steps, max, KeyOf(steps[|steps| - 1].a));
  }

  /** When a key's limit changes within a window, exactly when the saturated counter stays in step with an exact one. */
  lemma SaturationExact(t: Table, a: Attempt, exact: nat, last: int)
    requires ValidAttempt(a) && last >= 1 && LiveAt(t, KeyOf(a), a.now) && t[KeyOf(a)].attempts == Min(exact, last + 1)
    ensures Count(t, a).attempts == Min(exact + 1, a.limit + 1) <==> exact <= last + 1 || a.limit <= last + 1
  {
  }

  // ---- The rate bound ----

  /** How many attempts on k in [from, to) were allowed. */
  function AllowedWithin(steps: seq<Step>, max: nat, k: Key, from: Time, to: Time): nat {
    if steps == [] then 0
    else
      var n := |steps| - 1;
      AllowedWithin(steps[..n], max, k, from, to)
      + if KeyOf(steps[n].a) == k && from <= steps[n].a.now < to && MemoryDecision(steps, max).allowed then 1 else 0
  }

  /** How often k was evicted in [from, to). */
  function Evictions(steps: seq<Step>, max: nat, k: Key, from: Time, to: Time): nat {
    if steps == [] then 0
    else
      Evictions(steps[..|steps| - 1], max, k, from, to)
      + if from <= steps[|steps| - 1].a.now < to && Evicts(steps, max, k) then 1 else 0
  }

  /**
   While the interval lasts: full earlier windows reach into it, some windows were cut short by an eviction, and the
   current one, if there is one, started within the interval or just before.
   */
  ghost predicate Budget(allowed: nat, c: Option<Counter>, full: nat, cut: nat, limit: int, window: Time, from: Time,
                         to: Time, now: Option<Time>) {
    && (c.Some? ==> now.Some? && c.value.resetAt - window <= now.value)
    && (allowed > 0 ==>
          && now.Some? && from <= now.value < to
          && allowed <= (full + cut) * limit + (if c.Some? then Min(c.value.count, limit) else 0)
          && from + (full - 1) * window < (if c.Some? then c.value.resetAt - window else now.value) < to)
  }

  /** An eviction at t costs at most one more limit. */
  lemma BudgetCut(allowed: nat, c: Option<Counter>, full: nat, cut: nat, limit: int, window: Time, from: Time, to: Time,
                  now: Option<Time>, t: Time)
    requires limit >= 1 && Budget(allowed, c, full, cut, limit, window, from, to, now)
    requires t < to && (now.Some? ==> now.value <= t)
    ensures Budget(allowed, None, full, cut + if from <= t then 1 else 0, limit, window, from, to, Some(t))
  {
    assert (full + (cut + 1)) * limit == (full + cut) * limit + limit;
  }

  lemma BudgetStep(allowed: nat, c: Option<Counter>, full: nat, cut: nat, limit: int, window: Time, from: Time,
                   to: Time, now: Option<Time>, t: Time)
    returns (full': nat)
    requires limit >= 1 && window > 0 && Budget(allowed, c, full, cut, limit, window, from, to, now)
    requires t < to && (now.Some? ==> now.value <= t)
    ensures var c' := Ticked(c, t, window);
            Budget(allowed + if from <= t && c'.count <= limit then 1 else 0, Some(c'), full', cut, limit, window, from,
                   to, Some(t))
  {
    full' := if allowed == 0 then 0 else if c.Some? && c.value.resetAt <= t then full + 1 else full;
    if full' == full + 1 {
      assert (full' + cut) * limit == (full + cut) * limit + limit;
      assert (full' - 1) * window == (full - 1) * window + window;
    }
    assert allowed == 0 ==> (0 + cut) * limit >= 0;
  }

  lemma BudgetWaits(allowed: nat, c: Option<Counter>, full: nat, cut: nat, limit: int, window: Time, from: Time,
                    to: Time, now: Option<Time>, t: Time)
    requires Budget(allowed, c, full, cut, limit, window, from, to, now) && t < to && (now.Some? ==> now.value <= t)
    ensures Budget(allowed, c, full, cut, limit, window, from, to, Some(t))
  {
  }

  lemma {:induction false} WindowsFit(steps: seq<Step>, max: nat, k: Key, limit: int, window: Time, from: Time,
                                      to: Time)
    returns (full: nat)
    requires limit >= 1 && window > 0 && Legal(steps, max) && FixedPolicy(steps, k, limit, window)
    requires steps != [] ==> steps[|steps| - 1].a.now < to
    ensures Budget(AllowedWithin(steps, max, k, from, to), Surviving(steps, max, k), full,
                   Evictions(steps, max, k, from, to), limit, window, from, to, Now(steps))
  {
    hide VictimOk, Fits, ValidAttempt, MemoryDecision, After, KeyOf, Evicts;
    full := 0;
    if steps != [] {
      var n := |steps| - 1;
      var t := steps[n].a.now;
      full := WindowsFit(steps[..n], max, k, limit, window, from, to);
      var before, now := Surviving(steps[..n], max, k), Now(steps[..n]);
      var allowed, cut := AllowedWithin(steps[..n], max, k, from, to), Evictions(steps[..n], max, k, from, to);
      if Evicts(steps, max, k) {
        BudgetCut(allowed, before, full, cut, limit, window, from, to, now, t);
        cut := cut + if from <= t then 1 else 0;
        before := None;
      } else {
        BudgetWaits(allowed, before, full, cut, limit, window, from, to, now, t);
      }
      if KeyOf(steps[n].a) == k {
        MemoryDecidesAsSurviving(steps, max, limit, window);
        full := BudgetStep(allowed, before, full, cut, limit, window, from, to, Some(t), t);
      }
      hide Budget, Ticked;
    }
  }

  lemma BudgetTotal(allowed: nat, c: Option<Counter>, full: nat, cut: nat, limit: int, window: Time, from: Time, n: nat,
                    now: Option<Time>)
    requires limit >= 1 && window > 0 && Budget(allowed, c, full, cut, limit, window, from, from + n * window, now)
    ensures allowed <= (n + 1 + cut) * limit
  {
    if allowed > 0 {
      FewerWindows(full, n, window);
      assert (full + cut) * limit <= (n + cut) * limit;
      assert (n + 1 + cut) * limit == (n + cut) * limit + limit;
    } else {
      assert (n + 1 + cut) * limit >= 0;
    }
  }

  /**
   Any half-open interval of n windows sees at most n + 1 limits' worth of allowed attempts on a key of a fixed policy,
   and one limit more for every time the key is evicted in it.
   */
  lemma {:induction false} RateBound(steps: seq<Step>, max: nat, k: Key, limit: int, window: Time, from: Time, n: nat)
    requires limit >= 1 && window > 0 && Legal(steps, max) && FixedPolicy(steps, k, limit, window)
    ensures var to := from + n * window;
            AllowedWithin(steps, max, k, from, to) <= (n + 1 + Evictions(steps, max, k, from, to)) * limit
  {
    hide VictimOk, Fits, ValidAttempt, MemoryDecision, After, KeyOf, Budget, Surviving, Evicts;
    var to := from + n * window;
    if steps != [] && steps[|steps| - 1].a.now >= to {
      RateBound(steps[..|steps| - 1], max, k, limit, window, from, n);
    } else {
      var full := WindowsFit(steps, max, k, limit, window, from, to);
      BudgetTotal(AllowedWithin(steps, max, k, from, to), Surviving(steps, max, k), full,
                  Evictions(steps, max, k, from, to), limit, window, from, n, Now(steps));
    }
  }

  lemma {:induction false} NeverEvictedCount(steps: seq<Step>, max: nat, k: Key, from: Time, to: Time)
    requires NeverEvicted(steps, max, k)
    ensures Evictions(steps, max, k, from, to) == 0
  {
    if steps != [] { NeverEvictedCount(steps[..|steps| - 1], max, k, from, to); }
  }

  lemma FewerWindows(full: nat, n: nat, window: Time)
    requires window > 0 && (full - 1) * window < n * window
    ensures full <= n
  {
  }

  // ---- The rate bound of the SQL table ----

  /** Valid attempts and a clock that never runs backwards; the SQL table evicts nothing. */
  ghost predicate Timely(steps: seq<Step>) {
    steps == [] ||
    (var n := |steps| - 1;
     Timely(steps[..n]) && ValidAttempt(steps[n].a) && (n > 0 ==> steps[n - 1].a.now <= steps[n].a.now))
  }

  /** How many attempts on k in [from, to) the SQL table allowed. */
  function SqlAllowedWithin(steps: seq<Step>, k: Key, from: Time, to: Time): nat {
    if steps == [] then 0
    else
      var n := |steps| - 1;
      SqlAllowedWithin(steps[..n], k, from, to)
      + if KeyOf(steps[n].a) == k && from <= steps[n].a.now < to && SqlDecision(steps).allowed then 1 else 0
  }

  /** A table with more room than attempts is never full. */
  lemma {:induction false} RoomyTableFits(steps: seq<Step>, max: nat)
    requires |steps| < max && Timely(steps)
    ensures AlwaysFits(steps, max) && |After(steps, max)| <= |steps|
    ensures Legal(steps, max) && forall k :: NeverEvicted(steps, max, k)
  {
    hide ValidAttempt, KeyOf;
    if steps != [] {
      var n := |steps| - 1;
      RoomyTableFits(steps[..n], max);
      var t := After(steps[..n], max);
      assert Fits(t, max, steps[n].a.now);
      OneMore(t, KeyOf(steps[n].a), Count(t, steps[n].a));
    }
  }

  lemma {:induction false} SqlAllowsAsMemory(steps: seq<Step>, max: nat, k: Key, from: Time, to: Time)
    requires |steps| < max && Timely(steps)
    ensures SqlAllowedWithin(steps, k, from, to) == AllowedWithin(steps, max, k, from, to)
  {
    hide ValidAttempt, KeyOf, MemoryDecision, SqlDecision, Legal, AlwaysFits, NeverEvicted, Timely;
    if steps != [] {
      RoomyTableFits(steps, max);
      MemoryDecidesAsSql(steps, max);
      TimelyPrefix(steps);
      SqlAllowsAsMemory(steps[..|steps| - 1], max, k, from, to);
    }
  }

  lemma TimelyPrefix(steps: seq<Step>)
    requires Timely(steps) && steps != []
    ensures Timely(steps[..|steps| - 1])
  {
  }

  /** The SQL table keeps the bound for every key of a fixed policy, whatever else it is asked. */
  lemma SqlRateBound(steps: seq<Step>, k: Key, limit: int, window: Time, from: Time, n: nat)
    requires limit >= 1 && window > 0 && Timely(steps) && FixedPolicy(steps, k, limit, window)
    ensures SqlAllowedWithin(steps, k, from, from + n * window) <= (n + 1) * limit
  {
    hide *;
    RoomyTableFits(steps, |steps| + 1);
    SqlAllowsAsMemory(steps, |steps| + 1, k, from, from + n * window);
    NeverEvictedCount(steps, |steps| + 1, k, from, from + n * window);
    RateBound(steps, |steps| + 1, k, limit, window, from, n);
  }

  // ---- A full table ----

  const ALICE: Key := "login\0alice"

  function AliceAt(now: Time): Step { Step(Attempt("login", "alice", 1, MINUTE, now), ALICE) }

  /** A full table evicts the caller's own bucket, and so lets a second attempt through where the limit is one. */
  lemma EvictionExample()
    ensures var steps := [AliceAt(1), AliceAt(2)];
            Legal(steps, 1) && MemoryDecision(steps, 1).allowed && !SqlDecision(steps).allowed
  {
    var first, steps := [AliceAt(1)], [AliceAt(1), AliceAt(2)];
    assert "login" + "\0" + "alice" == ALICE;
    assert steps[..1] == first && first[..0] == [];
    var t := After(first, 1);
    assert t == map[ALICE := Bucket(1, 1 + MINUTE, 1)];
    assert |t| == 1 && Pruned(t, 2) == t;
    assert SqlAfter(first) == Upsert(map[], AliceAt(1).a).0;
  }
}
