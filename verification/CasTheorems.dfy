/** Single use of CAS tickets, and what deleting a session's tickets leaves possible. */
module CasTheorems {
  import opened Prelude
  import opened InPlace
  import opened CasTickets
  import opened CasDelegation

  // ---- Every proxy ticket is backed ----

  predicate PgtAt(p: History, g: ProxyGrantingTicket, node: nat) { g.hash in p.origin && p.origin[g.hash] == node }

  /** The very granting ticket this proxy ticket came from is still stored. */
  predicate BackedBy(p: History, pgts: seq<ProxyGrantingTicket>, t: ProxyTicket) {
    && t.hash in p.origin && p.origin[t.hash] < |p.lineage| && p.lineage[p.origin[t.hash]].Proxy?
    && exists g :: g in pgts && PgtAt(p, g, p.lineage[p.origin[t.hash]].parent)
  }

  predicate Backed(s: Cas) {
    forall i :: 0 <= i < |s.repo.pts| ==> BackedBy(s.past, s.repo.pgts, s.repo.pts[i].t)
  }

  lemma SameHashSameSession(p: History, a: ProxyGrantingTicket, b: ProxyGrantingTicket)
    requires PgtOk(p, a) && PgtOk(p, b) && a.hash == b.hash
    ensures a.session == b.session
  {
  }

  /** A proxy ticket has the session of the granting ticket it came from, so a deletion takes both or neither. */
  lemma ParentHasSession(p: History, r: ProxyRecord, g: ProxyGrantingTicket)
    requires PtOk(p, r) && PgtOk(p, g) && p.origin[g.hash] == p.lineage[p.origin[r.t.hash]].parent
    ensures g.session == r.t.session
  {
    var l, n := p.lineage, p.origin[r.t.hash];
    assert Ancestors(l, n) == [l[n].parent] + Ancestors(l, l[n].parent);
    assert RootOf(l, n) == RootOf(l, l[n].parent);
  }

  lemma NewProxyBacked(s: Cas, e: Event)
    requires Chained(s) && Legal(s, e) && e.IssueProxy? && |Next(s, e).repo.pts| > |s.repo.pts|
    ensures var t := Next(s, e);
            |t.repo.pts| == |s.repo.pts| + 1 && BackedBy(t.past, t.repo.pgts, t.repo.pts[|s.repo.pts|].t)
  {
    var t, f := Next(s, e), s.flights[e.flight];
    var k := PgtIndex(s.repo.pgts, f.pgt.hash);
    assert FlightOk(s.past, f) && PgtOk(s.past, s.repo.pgts[k]) && s.repo.pgts[k].hash == f.pgt.hash;
    hide Carries, Rooted, Callbacks, Ancestors;
    assert PgtAt(t.past, s.repo.pgts[k], f.node) && s.repo.pgts[k] in t.repo.pgts;
    assert t.repo.pts[|s.repo.pts|].t.hash == e.hash && t.past.lineage[t.past.origin[e.hash]] == Proxy(f.node);
  }

  predicate Grows(p: History, q: History) {
    p.lineage <= q.lineage && forall h :: h in p.origin ==> h in q.origin && q.origin[h] == p.origin[h]
  }

  lemma HistoryGrows(s: Cas, e: Event)
    requires Legal(s, e)
    ensures Grows(s.past, Next(s, e).past)
  {
  }

  lemma PgtKept(s: Cas, e: Event, g: ProxyGrantingTicket)
    requires g in s.repo.pgts && (e.DeleteServiceSessions? ==> g.session != e.session)
    ensures g in Next(s, e).repo.pgts
  {
  }

  lemma StepKeepsBackedBy(s: Cas, e: Event, r: ProxyRecord)
    requires Chained(s) && Legal(s, e) && r in s.repo.pts && BackedBy(s.past, s.repo.pgts, r.t)
    requires e.DeleteServiceSessions? ==> r.t.session != e.session
    ensures BackedBy(Next(s, e).past, Next(s, e).repo.pgts, r.t)
  {
    var node := s.past.lineage[s.past.origin[r.t.hash]].parent;
    var g :| g in s.repo.pgts && PgtAt(s.past, g, node);
    assert PtOk(s.past, r) && PgtOk(s.past, g);
    ParentHasSession(s.past, r, g);
    HistoryGrows(s, e);
    PgtKept(s, e, g);
    hide Next, Chained, Legal, PtOk, PgtOk;
    assert PgtAt(Next(s, e).past, g, node);
  }

  lemma StepKeepsBacked(s: Cas, e: Event)
    requires Chained(s) && Backed(s) && Legal(s, e)
    ensures Backed(Next(s, e))
  {
    hide Chained, Next, BackedBy, Legal;
    var t := Next(s, e);
    forall j | 0 <= j < |t.repo.pts| ensures BackedBy(t.past, t.repo.pgts, t.repo.pts[j].t) {
      if e.IssueProxy? && j == |s.repo.pts| {
        NewProxyBacked(s, e);
      } else {
        var k := ProxyFrom(s, e, j);
        StepKeepsBackedBy(s, e, s.repo.pts[k]);
      }
    }
  }

  /** Every other proxy ticket was there before, and is not of a session just deleted. */
  lemma ProxyFrom(s: Cas, e: Event, j: nat) returns (k: nat)
    requires j < |Next(s, e).repo.pts| && (e.IssueProxy? ==> j != |s.repo.pts|)
    ensures k < |s.repo.pts| && s.repo.pts[k].t == Next(s, e).repo.pts[j].t
    ensures e.DeleteServiceSessions? ==> s.repo.pts[k].t.session != e.session
  {
    if e.DeleteServiceSessions? {
      var r := Next(s, e).repo.pts[j];
      assert r in s.repo.pts && NotOf(e.session)(r);
      k :| 0 <= k < |s.repo.pts| && s.repo.pts[k] == r;
    } else {
      k := j;
    }
  }

  // ---- Single use ----

  /** No validation of this ticket is under way, and none was ever turned into a proxy-granting ticket. */
  predicate Unused(l: seq<Node>, flights: seq<Flight>, node: nat) {
    && (forall i :: 0 <= i < |flights| && flights[i].Granting? ==> flights[i].node != node)
    && (forall n :: 0 <= n < |l| && l[n].Grant? ==> l[n].parent != node)
  }

  predicate StUnused(p: History, flights: seq<Flight>, r: ServiceRecord) {
    r.t.hash in p.origin && (r.consumedAt.None? ==> Unused(p.lineage, flights, p.origin[r.t.hash]))
  }

  predicate PtUnused(p: History, flights: seq<Flight>, r: ProxyRecord) {
    r.t.hash in p.origin && (r.consumedAt.None? ==> Unused(p.lineage, flights, p.origin[r.t.hash]))
  }

  predicate StOnce(tickets: seq<ServiceRecord>, p: History, flights: seq<Flight>) {
    && (forall i, j :: 0 <= i < j < |tickets| ==> tickets[i].t.hash != tickets[j].t.hash)
    && (forall i :: 0 <= i < |tickets| ==> StUnused(p, flights, tickets[i]))
  }

  predicate UniqueHashes(pts: seq<ProxyRecord>) {
    forall i, j :: 0 <= i < j < |pts| ==> pts[i].t.hash != pts[j].t.hash
  }

  predicate PtOnce(pts: seq<ProxyRecord>, p: History, flights: seq<Flight>) {
    UniqueHashes(pts) && forall i :: 0 <= i < |pts| ==> PtUnused(p, flights, pts[i])
  }

  /** No two validations of the same ticket succeed. */
  predicate ValidatedOnce(flights: seq<Flight>) {
    forall i, j :: 0 <= i < j < |flights| && flights[i].Granting? && flights[j].Granting? ==>
        flights[i].node != flights[j].node
  }

  /** No ticket is the parent of two proxy-granting tickets, and one whose validation is still open of none. */
  predicate GrantedOnce(l: seq<Node>, flights: seq<Flight>) {
    && (forall m, n :: 0 <= m < n < |l| && l[m].Grant? && l[n].Grant? ==> l[m].parent != l[n].parent)
    && (forall i, n :: 0 <= i < |flights| && flights[i].Granting? && flights[i].open && 0 <= n < |l| && l[n].Grant? ==>
          l[n].parent != flights[i].node)
  }

  predicate SingleUse(s: Cas) {
    && StOnce(s.repo.tickets, s.past, s.flights)
    && PtOnce(s.repo.pts, s.past, s.flights)
    && ValidatedOnce(s.flights)
    && GrantedOnce(s.past.lineage, s.flights)
  }

  /** A new ticket that is not a granting one leaves every unused ticket unused, and is unused itself. */
  lemma NewTicketUnused(p: History, flights: seq<Flight>, node: Node, hash: Digest)
    requires Sound(p) && !node.Grant? && hash !in p.origin && GrantedOnce(p.lineage, flights)
    requires forall i :: 0 <= i < |flights| ==> FlightOk(p, flights[i])
    ensures var q := Extended(p, node, hash);
            && (forall r :: StUnused(p, flights, r) ==> StUnused(q, flights, r))
            && (forall r :: PtUnused(p, flights, r) ==> PtUnused(q, flights, r))
            && Unused(q.lineage, flights, q.origin[hash]) && GrantedOnce(q.lineage, flights)
  {
  }

  lemma LoginKeepsSingleUse(s: Cas, e: Event)
    requires Chained(s) && SingleUse(s) && Legal(s, e) && e.SaveServiceTicket?
    ensures SingleUse(Next(s, e))
  {
    hide Sound, StOk, PtOk, PgtOk, FlightOk;
    if e.flight < |s.flights| && MayLogin(s.flights[e.flight]) {
      var f := s.flights[e.flight];
      var flights := s.flights[e.flight := Closed(f)];
      assert FlightOk(s.past, Closed(f)) by { ClosingKeepsFlight(s.past, f); }
      SameGranting(s, flights);
      hide Unused;
      NewTicketUnused(s.past, flights, Login(f.user, f.session, f.primary), e.hash);
      assert forall i :: 0 <= i < |s.repo.tickets| ==> StUnused(s.past, flights, s.repo.tickets[i]);
    }
  }

  lemma IssueKeepsSingleUse(s: Cas, e: Event)
    requires Chained(s) && SingleUse(s) && Legal(s, e) && e.IssueProxy?
    ensures SingleUse(Next(s, e))
  {
    hide Sound, StOk, PtOk, PgtOk, FlightOk;
    if e.flight < |s.flights| && s.flights[e.flight].Proxying? && s.flights[e.flight].open {
      var f := s.flights[e.flight];
      var flights := s.flights[e.flight := Closed(f)];
      assert FlightOk(s.past, Closed(f)) by { ClosingKeepsFlight(s.past, f); }
      SameGranting(s, flights);
      hide Unused;
      NewTicketUnused(s.past, flights, Proxy(f.node), e.hash);
      assert forall i :: 0 <= i < |s.repo.pts| ==> PtUnused(s.past, flights, s.repo.pts[i]);
    }
  }

  /** Single use only looks at the validations. */
  lemma SameGranting(s: Cas, flights: seq<Flight>)
    requires SingleUse(s) && |flights| == |s.flights|
    requires forall i :: 0 <= i < |flights| ==>
               flights[i] == s.flights[i] || (!s.flights[i].Granting? && !flights[i].Granting?)
    ensures SingleUse(s.(flights := flights))
  {
  }

  /** The flight a validation opens is the first for its ticket, and takes no other ticket's place. */
  lemma NewFlight(p: History, flights: seq<Flight>, f: Flight)
    requires f.Granting? && ValidatedOnce(flights) && GrantedOnce(p.lineage, flights) &&
               Unused(p.lineage, flights, f.node)
    ensures ValidatedOnce(flights + [f]) && GrantedOnce(p.lineage, flights + [f])
    ensures forall node :: Unused(p.lineage, flights, node) && node != f.node ==> Unused(p.lineage, flights + [f], node)
  {
  }

  lemma ServiceKeepsSingleUse(s: Cas, e: Event)
    requires Chained(s) && SingleUse(s) && e.ValidateService?
    ensures SingleUse(Next(s, e))
  {
    hide Unused, PgtOk, FlightOk, Carries, ValidatedOnce, GrantedOnce;
    var t := Next(s, e);
    if t != s {
      var i := ServiceIndex(s.repo.tickets, e.hash, e.service);
      assert StUnused(s.past, s.flights, s.repo.tickets[i]) && StOk(s.past, s.repo.tickets[i]);
      NewFlight(s.past, s.flights, t.flights[|s.flights|]);
      forall k | 0 <= k < |s.repo.pts| ensures PtUnused(s.past, t.flights, s.repo.pts[k]) {
        assert PtUnused(s.past, s.flights, s.repo.pts[k]) && PtOk(s.past, s.repo.pts[k]);
      }
      forall k | 0 <= k < |s.repo.tickets| ensures StUnused(s.past, t.flights, t.repo.tickets[k]) {
        assert StUnused(s.past, s.flights, s.repo.tickets[k]);
      }
      hide StOk, PtOk, StUnused, PtUnused;
    }
  }

  lemma ProxyKeepsSingleUse(s: Cas, e: Event)
    requires Chained(s) && SingleUse(s) && e.ValidateProxy?
    ensures SingleUse(Next(s, e))
  {
    hide Unused, PgtOk, FlightOk, Carries, ValidatedOnce, GrantedOnce;
    var t := Next(s, e);
    if t != s {
      var i := ProxyIndex(s.repo.pts, e.hash, e.service);
      assert PtUnused(s.past, s.flights, s.repo.pts[i]) && PtOk(s.past, s.repo.pts[i]);
      NewFlight(s.past, s.flights, t.flights[|s.flights|]);
      forall k | 0 <= k < |s.repo.tickets| ensures StUnused(s.past, t.flights, s.repo.tickets[k]) {
        assert StUnused(s.past, s.flights, s.repo.tickets[k]) && StOk(s.past, s.repo.tickets[k]);
      }
      forall k | 0 <= k < |s.repo.pts| ensures PtUnused(s.past, t.flights, t.repo.pts[k]) {
        assert PtUnused(s.past, s.flights, s.repo.pts[k]);
      }
      hide StOk, PtOk, StUnused, PtUnused;
    }
  }

  lemma GrantKeepsSingleUse(s: Cas, e: Event)
    requires SingleUse(s) && Legal(s, e) && e.IssueGranting?
    ensures SingleUse(Next(s, e))
  {
  }

  lemma DeleteKeepsSingleUse(s: Cas, e: Event)
    requires SingleUse(s) && e.DeleteServiceSessions?
    ensures SingleUse(Next(s, e))
  {
    hide Unused, PtUnused, StUnused;
    FilterKeepsUnique(s.repo.pts, NotOf(e.session));
    var t := Next(s, e);
    forall k | 0 <= k < |t.repo.pts| ensures PtUnused(s.past, s.flights, t.repo.pts[k]) {
      var j :| 0 <= j < |s.repo.pts| && s.repo.pts[j] == t.repo.pts[k];
    }
  }

  lemma {:induction false} FilterKeepsUnique(pts: seq<ProxyRecord>, keep: ProxyRecord -> bool)
    requires UniqueHashes(pts)
    ensures UniqueHashes(Filter(pts, keep))
  {
    if pts != [] {
      var n := |pts| - 1;
      FilterKeepsUnique(pts[..n], keep);
      var head, r := Filter(pts[..n], keep), Filter(pts, keep);
      forall i | 0 <= i < |head| ensures head[i].t.hash != pts[n].t.hash {
        var k :| 0 <= k < n && pts[k] == head[i];
      }
      assert r == head || r == head + [pts[n]];
      assert UniqueHashes(head + [pts[n]]);
    }
  }

  lemma StepKeepsSingleUse(s: Cas, e: Event)
    requires Chained(s) && SingleUse(s) && Legal(s, e)
    ensures SingleUse(Next(s, e))
  {
    match e
    case StartLogin(_, _, _) => StartKeepsSingleUse(s, e);
    case SaveServiceTicket(_, _, _, _, _, _) => LoginKeepsSingleUse(s, e);
    case ValidateService(_, _, _, _, _, _, _) => ServiceKeepsSingleUse(s, e);
    case ValidateProxy(_, _, _, _, _, _) => ProxyKeepsSingleUse(s, e);
    case IssueGranting(_, _, _) => GrantKeepsSingleUse(s, e);
    case StartProxy(_, _) => StartKeepsSingleUse(s, e);
    case IssueProxy(_, _, _, _) => IssueKeepsSingleUse(s, e);
    case Abandon(_) => AbandonKeepsSingleUse(s, e);
    case DeleteServiceSessions(_) => DeleteKeepsSingleUse(s, e);
  }

  lemma StartKeepsSingleUse(s: Cas, e: Event)
    requires SingleUse(s) && (e.StartProxy? || e.StartLogin?)
    ensures SingleUse(Next(s, e))
  {
  }

  /** A handler that returns without a ticket leaves its ticket consumed and grants nothing. */
  lemma AbandonKeepsSingleUse(s: Cas, e: Event)
    requires SingleUse(s) && e.Abandon?
    ensures SingleUse(Next(s, e))
  {
    var t := Next(s, e);
    assert forall node :: Unused(s.past.lineage, s.flights, node) ==> Unused(s.past.lineage, t.flights, node);
    hide Unused;
  }

  lemma {:induction false} RunKeeps(s: Cas, es: seq<Event>)
    requires Chained(s) && Backed(s) && SingleUse(s) && LegalRun(s, es)
    ensures var t := Run(s, es); Chained(t) && Backed(t) && SingleUse(t)
    decreases |es|
  {
    hide Chained, Backed, SingleUse, Next, Legal;
    if es != [] {
      StepKeepsChained(s, es[0]);
      StepKeepsBacked(s, es[0]);
      StepKeepsSingleUse(s, es[0]);
      RunKeeps(Next(s, es[0]), es[1..]);
    }
  }

  /**
   Whatever the interleaving, a ticket is validated at most once and grants at most one proxy-granting ticket, and every
   stored proxy ticket's own granting ticket is stored.
   */
  lemma TicketsAreSingleUse(es: seq<Event>)
    requires LegalRun(INIT, es)
    ensures var s := Run(INIT, es); ValidatedOnce(s.flights) && GrantedOnce(s.past.lineage, s.flights)
    ensures Backed(Run(INIT, es))
  {
    RunKeeps(INIT, es);
  }

  // ---- After a session's tickets are deleted ----

  predicate Clean(s: Cas, session: Id) {
    && (forall i :: 0 <= i < |s.repo.pgts| ==> s.repo.pgts[i].session != session)
    && (forall i :: 0 <= i < |s.repo.pts| ==> s.repo.pts[i].t.session != session)
  }

  /** Which proxy callbacks the registration of a service admits. */
  type Registry = (string, string) -> bool

  /** Some callback of the service may be granted a ticket. */
  ghost predicate ServiceMayProxy(admits: Registry, service: string) {
    exists callback: string :: callback != "" && admits(service, callback)
  }

  ghost predicate Redeemable(r: ServiceRecord, session: Id, t: Time, admits: Registry) {
    r.t.session == session && r.consumedAt.None? && t < r.t.expiresAt && ServiceMayProxy(admits, r.t.service)
  }

  /** A running validation of the session that was asked for a granting ticket. */
  predicate OpenFor(f: Flight, session: Id) { MayGrant(f) && f.session == session }

  predicate SigningFor(f: Flight, session: Id) { MayLogin(f) && f.session == session }

  /** Nothing of the session is left that could still be turned into a granting ticket. */
  ghost predicate Settled(s: Cas, session: Id, t: Time, admits: Registry) {
    && (forall i :: 0 <= i < |s.repo.tickets| ==> !Redeemable(s.repo.tickets[i], session, t, admits))
    && (forall i :: 0 <= i < |s.flights| ==> !OpenFor(s.flights[i], session))
    && ((exists service: string :: ServiceMayProxy(admits, service)) ==>
          forall i :: 0 <= i < |s.flights| ==> !SigningFor(s.flights[i], session))
  }

  predicate LaterEvent(e: Event, session: Id, t: Time, admits: Registry) {
    match e
    case StartLogin(_, other, _) => other != session
    case ValidateService(_, service, _, _, _, callback, now) =>
      t <= now && (callback == "" || admits(service, callback))
    case ValidateProxy(_, service, _, _, callback, _) => callback == "" || admits(service, callback)
    case _ => true
  }

  /** No login that finds the session, no service ticket judged by an earlier clock, and admitted callbacks only. */
  predicate Later(es: seq<Event>, session: Id, t: Time, admits: Registry) {
    forall i :: 0 <= i < |es| ==> LaterEvent(es[i], session, t, admits)
  }

  lemma SettledStepIssue(s: Cas, e: Event, session: Id, t: Time, admits: Registry)
    requires Chained(s) && Clean(s, session) && Settled(s, session, t, admits) && e.IssueProxy?
    ensures Clean(Next(s, e), session) && Settled(Next(s, e), session, t, admits)
  {
    hide ServiceMayProxy, Redeemable, Sound, StOk, PtOk, PgtOk, Extended;
    if e.flight < |s.flights| && s.flights[e.flight].Proxying? && s.flights[e.flight].open {
      var pgt := s.flights[e.flight].pgt;
      var k := PgtIndex(s.repo.pgts, pgt.hash);
      if k < |s.repo.pgts| {
        assert FlightOk(s.past, s.flights[e.flight]) && PgtOk(s.past, s.repo.pgts[k]);
        SameHashSameSession(s.past, s.repo.pgts[k], pgt);
      }
    }
    hide FlightOk;
  }

  lemma SettledStepValidate(s: Cas, e: Event, session: Id, t: Time, admits: Registry)
    requires Clean(s, session) && Settled(s, session, t, admits) && LaterEvent(e, session, t, admits)
    requires e.ValidateService? || e.ValidateProxy?
    ensures Clean(Next(s, e), session) && Settled(Next(s, e), session, t, admits)
  {
    if e.ValidateService? {
      var i := ServiceIndex(s.repo.tickets, e.hash, e.service);
      assert i < |s.repo.tickets| ==> !Redeemable(s.repo.tickets[i], session, t, admits);
      assert e.callback != "" ==> ServiceMayProxy(admits, e.service);
    }
    hide ServiceMayProxy;
  }

  lemma SettledStep(s: Cas, e: Event, session: Id, t: Time, admits: Registry)
    requires Chained(s) && Clean(s, session) && Settled(s, session, t, admits) && LaterEvent(e, session, t, admits)
    ensures Clean(Next(s, e), session) && Settled(Next(s, e), session, t, admits)
  {
    hide Chained, Extended, ServiceMayProxy;
    match e
    case StartLogin(_, _, _) =>
    case SaveServiceTicket(i, _, _, _, service, _) =>
      assert i < |s.flights| && ServiceMayProxy(admits, service) ==> !SigningFor(s.flights[i], session);
    case ValidateService(_, _, _, _, _, _, _) => SettledStepValidate(s, e, session, t, admits);
    case ValidateProxy(_, _, _, _, _, _) => SettledStepValidate(s, e, session, t, admits);
    case IssueGranting(i, _, _) => assert i < |s.flights| ==> !OpenFor(s.flights[i], session);
    case StartProxy(_, _) =>
    case IssueProxy(_, _, _, _) => SettledStepIssue(s, e, session, t, admits);
    case Abandon(_) =>
    case DeleteServiceSessions(_) =>
  }

  lemma {:induction false} SettledStaysClean(s: Cas, es: seq<Event>, session: Id, t: Time, admits: Registry)
    requires Chained(s) && Clean(s, session) && Settled(s, session, t, admits)
    requires LegalRun(s, es) && Later(es, session, t, admits)
    ensures Clean(Run(s, es), session)
    decreases |es|
  {
    hide Chained, Clean, Settled, Next, Legal;
    if es != [] {
      StepKeepsChained(s, es[0]);
      SettledStep(s, es[0], session, t, admits);
      SettledStaysClean(Next(s, es[0]), es[1..], session, t, admits);
    }
  }

  lemma OpenFlightRevives(s: Cas, i: nat, session: Id, t: Time, admits: Registry, unused: Digest)
    returns (es: seq<Event>)
    requires i < |s.flights| && OpenFor(s.flights[i], session) && unused !in s.past.origin
    ensures LegalRun(s, es) && Later(es, session, t, admits) && !Clean(Run(s, es), session)
  {
    var e := IssueGranting(i, unused, t);
    es := [e];
    assert Next(s, e).repo.pgts[|s.repo.pgts|].session == session;
    assert es[1..] == [] && Run(s, es) == Run(Next(s, e), []);
  }

  lemma TicketRevives(s: Cas, i: nat, session: Id, t: Time, admits: Registry, unused: Digest) returns (es: seq<Event>)
    requires SingleUse(s) && i < |s.repo.tickets| && Redeemable(s.repo.tickets[i], session, t, admits) &&
               unused !in s.past.origin
    ensures LegalRun(s, es) && Later(es, session, t, admits) && !Clean(Run(s, es), session)
  {
    var st := s.repo.tickets[i].t;
    var callback :| callback != "" && admits(st.service, callback);
    var e := ValidateService(st.hash, st.service, false, false, "", callback, t);
    var p := (r: ServiceRecord) => r.t.hash == st.hash && r.t.service == st.service;
    assert p(s.repo.tickets[i]);
    assert ServiceIndex(s.repo.tickets, st.hash, st.service) == i;
    var s1 := Next(s, e);
    assert OpenFor(s1.flights[|s.flights|], session);
    var rest := OpenFlightRevives(s1, |s.flights|, session, t, admits, unused);
    es := [e] + rest;
    assert es[1..] == rest;
  }

  lemma SigningRevives(s: Cas, i: nat, session: Id, t: Time, admits: Registry, service: string, unused: Digest)
    returns (es: seq<Event>)
    requires Chained(s) && SingleUse(s) && i < |s.flights| && SigningFor(s.flights[i], session)
    requires ServiceMayProxy(admits, service) && forall h :: h in s.past.origin ==> h < unused
    ensures LegalRun(s, es) && Later(es, session, t, admits) && !Clean(Run(s, es), session)
  {
    var e := SaveServiceTicket(i, unused, "", "", service, t);
    StepKeepsSingleUse(s, e);
    hide Chained, SingleUse, ServiceMayProxy, Clean;
    var s1 := Next(s, e);
    assert Redeemable(s1.repo.tickets[|s.repo.tickets|], session, t, admits);
    var rest := TicketRevives(s1, |s.repo.tickets|, session, t, admits, unused + 1);
    es := [e] + rest;
    assert es[1..] == rest;
  }

  lemma {:induction false} UnusedDigest(used: set<Digest>) returns (h: Digest)
    ensures forall g :: g in used ==> g < h
  {
    h := 0;
    if used != {} {
      var g :| g in used;
      var rest := used - {g};
      h := UnusedDigest(rest);
      h := if g < h then h else g + 1;
      assert used == rest + {g};
    }
  }

  lemma UnsettledRevives(s: Cas, session: Id, t: Time, admits: Registry) returns (es: seq<Event>)
    requires Chained(s) && SingleUse(s) && !Settled(s, session, t, admits)
    ensures LegalRun(s, es) && Later(es, session, t, admits) && !Clean(Run(s, es), session)
  {
    hide Chained, SingleUse, Clean, Next, Legal, Redeemable, OpenFor, ServiceMayProxy, SigningFor;
    var unused := UnusedDigest(s.past.origin.Keys);
    if i :| 0 <= i < |s.repo.tickets| && Redeemable(s.repo.tickets[i], session, t, admits) {
      es := TicketRevives(s, i, session, t, admits, unused);
    } else if i :| 0 <= i < |s.flights| && OpenFor(s.flights[i], session) {
      es := OpenFlightRevives(s, i, session, t, admits, unused);
    } else {
      var service: string :| ServiceMayProxy(admits, service);
      var i :| 0 <= i < |s.flights| && SigningFor(s.flights[i], session);
      es := SigningRevives(s, i, session, t, admits, service, unused);
    }
  }

  lemma DeletionCleans(s: Cas, session: Id)
    ensures var e := DeleteServiceSessions(session); Legal(s, e) && Clean(Next(s, e), session)
  {
  }

  lemma DeletionIsFinalAt(s: Cas, session: Id, t: Time, admits: Registry)
    requires Chained(s) && SingleUse(s)
    ensures var d := Next(s, DeleteServiceSessions(session));
            Settled(d, session, t, admits) <==>
            forall es :: LegalRun(d, es) && Later(es, session, t, admits) ==> Clean(Run(d, es), session)
  {
    hide Chained, SingleUse, Clean, Next, Legal, Settled, Later, LegalRun, Run;
    var d := Next(s, DeleteServiceSessions(session));
    DeletionCleans(s, session);
    StepKeepsChained(s, DeleteServiceSessions(session));
    StepKeepsSingleUse(s, DeleteServiceSessions(session));
    if Settled(d, session, t, admits) {
      forall es | LegalRun(d, es) && Later(es, session, t, admits) ensures Clean(Run(d, es), session) {
        SettledStaysClean(d, es, session, t, admits);
      }
    } else {
      var es := UnsettledRevives(d, session, t, admits);
      assert !Clean(Run(d, es), session);
    }
  }

  /**
   In every run, deleting a session's tickets is final, for logins that no longer find the session, exactly when nothing
   is under way that ends in a granting ticket: no service ticket of it is left to redeem at a service that may proxy,
   no validation of it that was asked for a granting ticket is still running, and no login handler that found it is
   still to save its ticket. The deletion does not reach service tickets, and redeeming one does not look at the
   session.
   */
  lemma DeletionIsFinal(before: seq<Event>, session: Id, t: Time, admits: Registry)
    requires LegalRun(INIT, before)
    ensures var d := Next(Run(INIT, before), DeleteServiceSessions(session));
            Settled(d, session, t, admits) <==>
            forall es :: LegalRun(d, es) && Later(es, session, t, admits) ==> Clean(Run(d, es), session)
  {
    RunKeeps(INIT, before);
    hide *;
    DeletionIsFinalAt(Run(INIT, before), session, t, admits);
  }

  /** A login, its ticket, the deletion, and then the ticket's validation with a callback: the session is back. */
  const DELETED_TOO_EARLY: seq<Event> := [
    StartLogin("user", "session", false),
    SaveServiceTicket(0, 1, "ST-1", "client", "https://app.example/", 0),
    DeleteServiceSessions("session"),
    ValidateService(1, "https://app.example/", false, false, "", "https://app.example/callback", 1),
    IssueGranting(1, 2, 1)]

  lemma ExampleDeletes()
    ensures var es := DELETED_TOO_EARLY;
            var s1 := Next(INIT, es[0]);
            var s2 := Next(s1, es[1]);
            var s3 := Next(s2, es[2]);
            var app := "https://app.example/";
            var t := ServiceTicket(1, "ST-1", "client", app, "user", "session", false, 0, 2 * MINUTE);
            && Legal(INIT, es[0]) && Legal(s1, es[1]) && Legal(s2, es[2])
            && s3.repo.tickets == [ServiceRecord(t, None)] && s3.repo.pgts == [] && s3.repo.pts == []
            && s3.flights == [Signing("user", "session", false, false)] && s3.past.origin == map[1 := 0]
  {
  }

  lemma ExampleRevives(s: Cas, e: Event, f: Event, t: ServiceTicket)
    requires s.repo.tickets == [ServiceRecord(t, None)] && |s.flights| == 1 && s.past.origin == map[1 := 0]
    requires t.hash == 1 && t.session == "session" && t.expiresAt == 2 * MINUTE
    requires e == ValidateService(1, t.service, false, false, "", "https://app.example/callback", 1)
    requires f == IssueGranting(1, 2, 1)
    ensures Legal(s, e) && Legal(Next(s, e), f) && !Clean(Next(Next(s, e), f), "session")
  {
    var p := (q: ServiceRecord) => q.t.hash == 1 && q.t.service == t.service;
    assert p(s.repo.tickets[0]) && ServiceIndex(s.repo.tickets, 1, t.service) == 0;
    assert Next(Next(s, e), f).repo.pgts[|s.repo.pgts|].session == "session";
  }

  lemma DeletionExample()
    ensures LegalRun(INIT, DELETED_TOO_EARLY)
    ensures Clean(Run(INIT, DELETED_TOO_EARLY[..3]), "session") && !Clean(Run(INIT, DELETED_TOO_EARLY), "session")
  {
    hide Next, Legal, LegalRun, Run;
    var es := DELETED_TOO_EARLY;
    ExampleDeletes();
    var s3 := Next(Next(Next(INIT, es[0]), es[1]), es[2]);
    ExampleRevives(s3, es[3], es[4], s3.repo.tickets[0].t);
    RunOfFive(INIT, es);
    RunOfThree(INIT, es[..3]);
  }

  lemma RunOfThree(s: Cas, es: seq<Event>)
    requires |es| == 3
    ensures var s1 := Next(s, es[0]);
            var s2 := Next(s1, es[1]);
            && Run(s, es) == Next(s2, es[2])
            && (LegalRun(s, es) <==> Legal(s, es[0]) && Legal(s1, es[1]) && Legal(s2, es[2]))
  {
    hide Next, Legal;
    var s1 := Next(s, es[0]);
    var s2 := Next(s1, es[1]);
    var s3 := Next(s2, es[2]);
    var rest := es[1..];
    assert rest[1..] == es[2..] && es[2..][1..] == [];
    assert Run(s3, []) == s3 && LegalRun(s3, []);
    assert Run(s2, es[2..]) == s3 && (LegalRun(s2, es[2..]) <==> Legal(s2, es[2]));
    assert Run(s1, rest) == s3 && (LegalRun(s1, rest) <==> Legal(s1, es[1]) && Legal(s2, es[2]));
  }

  lemma RunOfFive(s: Cas, es: seq<Event>)
    requires |es| == 5
    ensures var s1 := Next(s, es[0]); var s2 := Next(s1, es[1]); var s3 := Next(s2, es[2]); var s4 := Next(s3, es[3]);
            && Run(s, es) == Next(s4, es[4])
            && (LegalRun(s, es) <==>
                  Legal(s, es[0]) && Legal(s1, es[1]) && Legal(s2, es[2]) && Legal(s3, es[3]) && Legal(s4, es[4]))
  {
    hide Next, Legal;
    var s2 := Next(Next(s, es[0]), es[1]);
    assert es[1..][1..] == es[2..];
    assert Run(s, es) == Run(Next(s, es[0]), es[1..]) == Run(s2, es[2..]);
    RunOfThree(s2, es[2..]);
  }
}
