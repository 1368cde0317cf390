/** How often one device code is answered, over whole runs of the server. */
module DeviceFlow {
  import opened Prelude
  import opened Scopes
  import opened GrantStore
  import opened Protocol
  import opened Runs

  function EventTime(e: Event): Option<Time> {
    match e
    case Login(_, _) => None
    case SetUserStatus(_, _) => None
    case _ => Some(e.now)
  }

  /** The clock never runs backwards from t on. */
  ghost predicate ClockFrom(es: seq<Event>, t: Time) {
    es == [] ||
    (match EventTime(es[0])
     case None => ClockFrom(es[1..], t)
     case Some(now) => t <= now && ClockFrom(es[1..], now))
  }

  /** Only a decision may show: who decided, how they proved who they are, and the status. */
  predicate DecisionOnly(a: Device, b: Device) {
    b == a.(user := b.user, auth := b.auth, status := b.status)
  }

  ghost predicate Quiet(a: seq<Device>, b: seq<Device>) {
    |a| <= |b| && forall i :: 0 <= i < |a| ==> DecisionOnly(a[i], b[i])
  }

  predicate Polls(y: System, e: Event, i: nat) {
    e.DeviceToken? && e.client.deviceGrant && i < |y.store.devices|
    && DeviceIndex(y.store.devices, e.deviceHash, e.client.id) == i
  }

  lemma {:induction false} CleanUpIsQuiet(s: Store, user: Id, ids: seq<Id>, now: Time)
    ensures CleanUp(s, user, ids, now).devices == s.devices
  {
    if ids != [] { CleanUpIsQuiet(s, user, ids[..|ids| - 1], now); }
  }

  lemma FinishIsQuiet(y: System, c: Client, current: RefreshToken, scopes: seq<string>, d: Draws, root: Root, now: Time)
    ensures FinishRefresh(y, c, current, scopes, d, root, now).sys.store.devices == y.store.devices
  {
  }

  lemma RefreshIsQuiet(y: System, c: Client, hash: Digest, words: seq<string>, d: Draws, now: Time)
    ensures RefreshStep(y, c, hash, words, d, now).sys.store.devices == y.store.devices
  {
    hide ParseScopes, FinishRefresh, ScopesCover;
    var parsed := ParseScopes(words, c.allowedScopes, false);
    var asked := if words == [] then None else parsed;
    var out := RotateRefresh(y.store, hash, Replacement(d.refresh, c.id, asked, now, now + c.refreshLifetime), now);
    if out.res.Ok? {
      var i := RefreshIndex(y.store.refresh, hash);
      var root := if i < |y.refreshRoots| then y.refreshRoots[i] else NoRoot;
      FinishIsQuiet(y.(store := out.store, refreshRoots := y.refreshRoots + [root]), c, out.res.value,
                    if asked.None? then out.res.value.scope else asked.value, d, root, now);
    }
  }

  lemma IssueIsQuiet(y: System, c: Client, user: Id, session: Id, scopes: seq<string>, d: Draws, root: Root, now: Time)
    ensures IssueUserTokens(y, c, user, session, scopes, d, root, now).sys.store.devices == y.store.devices
  {
  }

  /** Granting consent, exchanging, refreshing and revoking leave every device as it is. */
  lemma TokenEventsKeepDevices(y: System, e: Event)
    requires !e.DeviceToken? && !e.DeviceStart? && !e.DeviceDecision? && !e.SignOutOthers? && !e.WithdrawConsent? &&
               !e.DisableClient?
    ensures Next(y, e).store.devices == y.store.devices
  {
    hide ParseScopes, CleanUp, RefreshStep, IssueUserTokens, HasConsent, CurrentSession;
    match e
    case Exchange(c, hash, uri, challenge, d, now) =>
      var out := ConsumeCode(y.store, hash, c.id, uri, challenge, now);
      if out.res.Ok? {
        IssueIsQuiet(y.(store := out.store), c, out.res.value.user, out.res.value.session, out.res.value.scope, d,
                     CodeRoot(CodeIndex(y.store.codes, hash)), now);
      }
    case Refresh(c, hash, words, d, now) => RefreshIsQuiet(y, c, hash, words, d, now);
    case OidcLogout(hint, cookie, now) =>
      CleanUpIsQuiet(y.store, hint.subject, LogoutSessions(hint, CurrentSession(y, cookie, now)), now);
    case _ =>
  }

  /** No event but a poll touches a device's pace. */
  lemma OtherEventsAreQuiet(y: System, e: Event)
    requires !e.DeviceToken?
    ensures Quiet(y.store.devices, Next(y, e).store.devices)
  {
    hide ParseScopes, CleanUp, CurrentSession, Seen;
    match e
    case DeviceStart(c, words, deviceHash, userHash, drawn, now) =>
    case DeviceDecision(cookie, userHash, approve, now) => DecisionIsQuiet(y, cookie, userHash, approve, now);
    case SignOutOthers(user, exceptSession, ids, now) => CleanUpIsQuiet(y.store, user, ids, now);
    case WithdrawConsent(user, client, now) =>
    case DisableClient(client, now) =>
    case _ => TokenEventsKeepDevices(y, e);
  }

  lemma DecisionIsQuiet(y: System, cookie: Digest, userHash: Digest, approve: bool, now: Time)
    ensures Quiet(y.store.devices, DeviceDecisionStep(y, cookie, userHash, approve, now).sys.store.devices)
  {
    hide CurrentSession;
  }

  /** A device-token event does to the devices exactly what the poll does. */
  lemma PollEvent(y: System, e: Event)
    requires e.DeviceToken? && e.client.deviceGrant
    ensures Next(y, e).store.devices == PollDevice(y.store, e.deviceHash, e.client.id, e.now).store.devices
  {
    var out := PollDevice(y.store, e.deviceHash, e.client.id, e.now);
    hide IssueUserTokens, PollDevice;
    if out.res.Ok? {
      IssueIsQuiet(y.(store := out.store), e.client, out.res.value.user, "", out.res.value.scope, e.draws,
                   DeviceRoot(DeviceIndex(y.store.devices, e.deviceHash, e.client.id)), e.now);
    }
  }

  /** The poll was answered: neither too fast nor too late. */
  predicate Answered(y: System, e: Event, i: nat) {
    Polls(y, e, i) &&
    var r := PollDevice(y.store, e.deviceHash, e.client.id, e.now).res;
    r.Ok? || (r.error != SlowDown && r.error != Expired)
  }

  predicate Slowed(y: System, e: Event, i: nat) {
    Polls(y, e, i) && PollDevice(y.store, e.deviceHash, e.client.id, e.now).res == Err(SlowDown)
  }

  /** The times at which device i was answered along a run. */
  ghost function Answers(y: System, es: seq<Event>, i: nat): seq<Time>
    decreases |es|
  {
    if es == [] then []
    else (if Answered(y, es[0], i) then [es[0].now] else []) + Answers(Next(y, es[0]), es[1..], i)
  }

  /** How many slow_down answers device i got along a run. */
  ghost function SlowDowns(y: System, es: seq<Event>, i: nat): nat
    decreases |es|
  {
    if es == [] then 0
    else (if Slowed(y, es[0], i) then 1 else 0) + SlowDowns(Next(y, es[0]), es[1..], i)
  }

  /** One event's effect on the pace of device i. */
  lemma Pace(y: System, e: Event, i: nat)
    requires i < |y.store.devices|
    ensures i < |Next(y, e).store.devices|
    ensures Answered(y, e, i) || Slowed(y, e, i) ==> e.DeviceToken?
    ensures var a, b := y.store.devices[i], Next(y, e).store.devices[i];
            && b.expiresAt == a.expiresAt
            && b.interval == a.interval + (if Slowed(y, e, i) then 5 * SECOND else 0)
            && (if Answered(y, e, i) || Slowed(y, e, i) then b.lastPollAt == Some(e.now)
                  else b.lastPollAt == a.lastPollAt)
            && (Answered(y, e, i) ==>
                  e.now < a.expiresAt && (a.lastPollAt.Some? ==> a.lastPollAt.value + a.interval <= e.now))
  {
    if e.DeviceToken? {
      if e.client.deviceGrant { PollEvent(y, e); }
    } else {
      OtherEventsAreQuiet(y, e);
      assert DecisionOnly(y.store.devices[i], Next(y, e).store.devices[i]);
    }
    hide Next;
  }

  /** The interval is the initial one plus five seconds for every slow_down. */
  lemma {:induction false} IntervalCountsSlowDowns(y: System, es: seq<Event>, i: nat)
    requires i < |y.store.devices|
    ensures i < |Run(y, es).store.devices|
    ensures Run(y, es).store.devices[i].interval == y.store.devices[i].interval + 5 * SECOND * SlowDowns(y, es, i)
    decreases |es|
  {
    hide Next, Slowed, Answered;
    if es != [] {
      Pace(y, es[0], i);
      IntervalCountsSlowDowns(Next(y, es[0]), es[1..], i);
    }
  }

  /** At least pace apart, from first on, and before the end. */
  ghost predicate Spaced(ts: seq<Time>, first: Time, pace: Time, end: Time) {
    && (forall k :: 0 <= k < |ts| ==> first <= ts[k] < end)
    && (forall k :: 0 <= k < |ts| - 1 ==> ts[k] + pace <= ts[k + 1])
  }

  /** Answered polls keep the interval apart, whatever else happens in between. */
  lemma {:induction false} AnswersAreSpaced(y: System, es: seq<Event>, i: nat, t: Time, pace: Time)
    requires ClockFrom(es, t) && i < |y.store.devices|
    requires var d := y.store.devices[i]; 0 <= pace <= d.interval && (d.lastPollAt.Some? ==> d.lastPollAt.value <= t)
    ensures var d := y.store.devices[i];
            && Spaced(Answers(y, es, i), t, pace, d.expiresAt)
            && (d.lastPollAt.Some? && Answers(y, es, i) != [] ==> d.lastPollAt.value + pace <= Answers(y, es, i)[0])
    decreases |es|
  {
    hide Next, Slowed, Answered, Spaced;
    if es != [] {
      var e := es[0];
      var t' := if EventTime(e).Some? then EventTime(e).value else t;
      Pace(y, e, i);
      AnswersAreSpaced(Next(y, e), es[1..], i, t', pace);
      var rest := Answers(Next(y, e), es[1..], i);
      if Answered(y, e, i) {
        assert Answers(y, es, i) == [e.now] + rest;
        SpacedCons(e.now, rest, t, t', pace, y.store.devices[i].expiresAt);
      } else {
        assert Answers(y, es, i) == rest;
        SpacedEarlier(rest, t, t', pace, y.store.devices[i].expiresAt);
      }
    } else {
      SpacedEmpty(t, pace, y.store.devices[i].expiresAt);
    }
  }

  lemma SpacedEmpty(first: Time, pace: Time, end: Time)
    ensures Spaced([], first, pace, end)
  {
  }

  lemma SpacedEarlier(ts: seq<Time>, first: Time, later: Time, pace: Time, end: Time)
    requires first <= later && Spaced(ts, later, pace, end)
    ensures Spaced(ts, first, pace, end)
  {
  }

  lemma SpacedCons(now: Time, ts: seq<Time>, first: Time, later: Time, pace: Time, end: Time)
    requires first <= now <= later && now < end && Spaced(ts, later, pace, end) && (ts != [] ==> now + pace <= ts[0])
    ensures Spaced([now] + ts, first, pace, end)
  {
  }

  lemma {:induction false} SpacedSpan(ts: seq<Time>, first: Time, pace: Time, end: Time)
    requires Spaced(ts, first, pace, end) && ts != []
    ensures (|ts| - 1) * pace <= ts[|ts| - 1] - ts[0]
  {
    if |ts| > 1 {
      var n := |ts| - 1;
      SpacedSpan(ts[..n], first, pace, end);
      assert ts[..n][n - 1] == ts[n - 1];
      assert (n - 1) * pace + pace == n * pace;
    }
  }

  /** A fresh device code lives 15 minutes at 5 seconds or more, so it is answered at most 180 times. */
  lemma AtMost180Answers(y: System, c: Client, words: seq<string>, deviceHash: Digest, userHash: Digest, now: Time,
                         es: seq<Event>)
    requires DeviceStartStep(y, c, words, deviceHash, userHash, true, now).res.Ok?
    requires ClockFrom(es, now)
    ensures |Answers(Next(y, DeviceStart(c, words, deviceHash, userHash, true, now)), es, |y.store.devices|)| <= 180
  {
    var z := Next(y, DeviceStart(c, words, deviceHash, userHash, true, now));
    var i := |y.store.devices|;
    assert z.store.devices[i].interval == DEVICE_INTERVAL && z.store.devices[i].expiresAt == now + DEVICE_LIFETIME;
    hide Next, ParseScopes;
    AnswersAreSpaced(z, es, i, now, DEVICE_INTERVAL);
    var ts := Answers(z, es, i);
    if ts != [] {
      SpacedSpan(ts, now, DEVICE_INTERVAL, now + DEVICE_LIFETIME);
    }
  }
}
