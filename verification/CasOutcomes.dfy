/** What a CAS ticket is good for: each repository call in every reachable state, read off the stored records. */
module CasOutcomes {
  import opened Prelude
  import opened InPlace
  import opened CasTickets
  import opened CasDelegation
  import opened CasTheorems

  // ---- Granting tickets have distinct digests ----

  predicate DistinctPgts(pgts: seq<ProxyGrantingTicket>) {
    forall i, j :: 0 <= i < j < |pgts| ==> pgts[i].hash != pgts[j].hash
  }

  lemma {:induction false} FilterKeepsDistinct(pgts: seq<ProxyGrantingTicket>, keep: ProxyGrantingTicket -> bool)
    requires DistinctPgts(pgts)
    ensures DistinctPgts(Filter(pgts, keep))
  {
    if pgts != [] {
      var n := |pgts| - 1;
      FilterKeepsDistinct(pgts[..n], keep);
      var head := Filter(pgts[..n], keep);
      forall i | 0 <= i < |head| ensures head[i].hash != pgts[n].hash {
        var k :| 0 <= k < n && pgts[k] == head[i];
      }
      assert DistinctPgts(head + [pgts[n]]);
    }
  }

  lemma StepKeepsDistinct(s: Cas, e: Event)
    requires Chained(s) && DistinctPgts(s.repo.pgts) && Legal(s, e)
    ensures DistinctPgts(Next(s, e).repo.pgts)
  {
    if e.DeleteServiceSessions? {
      FilterKeepsDistinct(s.repo.pgts, (x: ProxyGrantingTicket) => x.session != e.session);
    } else if e.IssueGranting? {
      assert forall i :: 0 <= i < |s.repo.pgts| ==> PgtOk(s.past, s.repo.pgts[i]);
      hide Carries, Rooted, Sound;
    }
  }

  lemma {:induction false} RunKeepsDistinct(s: Cas, es: seq<Event>)
    requires Chained(s) && DistinctPgts(s.repo.pgts) && LegalRun(s, es)
    ensures DistinctPgts(Run(s, es).repo.pgts)
    decreases |es|
  {
    hide Chained, DistinctPgts, Next, Legal;
    if es != [] {
      StepKeepsDistinct(s, es[0]);
      StepKeepsChained(s, es[0]);
      RunKeepsDistinct(Next(s, es[0]), es[1..]);
    }
  }

  // ---- Validation ----

  /** This service ticket may be redeemed: for this service, once, in time, and after primary credentials if asked. */
  predicate GoodService(r: ServiceRecord, hash: Digest, service: string, renew: bool, now: Time) {
    r.t.hash == hash && r.t.service == service && r.consumedAt.None? && now < r.t.expiresAt && (renew ==> r.t.primary)
  }

  predicate GoodProxy(r: ProxyRecord, hash: Digest, target: string, renew: bool, now: Time) {
    r.t.hash == hash && r.t.target == target && r.consumedAt.None? && now < r.t.expiresAt && (renew ==> r.t.primary)
  }

  /** Succeeds exactly on a ticket that may be redeemed, answers that ticket, and changes its consumption only. */
  ghost predicate RedeemsService(s: Repo, hash: Digest, service: string, renew: bool, now: Time) {
    var (t, answer) := ConsumeService(s, hash, service, renew, now);
    && (answer.Ok? <==> exists i :: 0 <= i < |s.tickets| && GoodService(s.tickets[i], hash, service, renew, now))
    && (answer.Err? ==> t == s)
    && forall i :: 0 <= i < |s.tickets| && GoodService(s.tickets[i], hash, service, renew, now) ==>
         && answer == Ok(s.tickets[i].t)
         && t == s.(tickets := s.tickets[i := s.tickets[i].(consumedAt := Some(now))])
  }

  lemma RedeemsServiceAmong(s: Repo, hash: Digest, service: string, renew: bool, now: Time)
    requires forall i, j :: 0 <= i < j < |s.tickets| ==> s.tickets[i].t.hash != s.tickets[j].t.hash
    ensures RedeemsService(s, hash, service, renew, now)
  {
  }

  /** The same for proxy tickets. */
  ghost predicate RedeemsProxy(s: Repo, hash: Digest, target: string, renew: bool, now: Time) {
    var (t, answer) := ConsumeProxy(s, hash, target, renew, now);
    && (answer.Ok? <==> exists i :: 0 <= i < |s.pts| && GoodProxy(s.pts[i], hash, target, renew, now))
    && (answer.Err? ==> t == s)
    && forall i :: 0 <= i < |s.pts| && GoodProxy(s.pts[i], hash, target, renew, now) ==>
         && answer == Ok(s.pts[i].t)
         && t == s.(pts := s.pts[i := s.pts[i].(consumedAt := Some(now))])
  }

  lemma RedeemsProxyAmong(s: Repo, hash: Digest, target: string, renew: bool, now: Time)
    requires forall i, j :: 0 <= i < j < |s.pts| ==> s.pts[i].t.hash != s.pts[j].t.hash
    ensures RedeemsProxy(s, hash, target, renew, now)
  {
  }

  /** In every reachable state a service ticket validates exactly at its own service. */
  lemma ServiceTicketsAreForTheirService(es: seq<Event>, hash: Digest, service: string, renew: bool, now: Time)
    requires LegalRun(INIT, es)
    ensures RedeemsService(Run(INIT, es).repo, hash, service, renew, now)
  {
    RunKeeps(INIT, es);
    hide Run, LegalRun, Chained, Backed, StUnused, PtOnce, ValidatedOnce, GrantedOnce, RedeemsService;
    RedeemsServiceAmong(Run(INIT, es).repo, hash, service, renew, now);
  }

  /** And a proxy ticket exactly at its own target. */
  lemma ProxyTicketsAreForTheirTarget(es: seq<Event>, hash: Digest, target: string, renew: bool, now: Time)
    requires LegalRun(INIT, es)
    ensures RedeemsProxy(Run(INIT, es).repo, hash, target, renew, now)
  {
    RunKeeps(INIT, es);
    hide Run, LegalRun, Chained, Backed, PtUnused, StOnce, ValidatedOnce, GrantedOnce, RedeemsProxy;
    RedeemsProxyAmong(Run(INIT, es).repo, hash, target, renew, now);
  }

  /** A granting ticket is found exactly by its digest before it expires. */
  lemma GrantingTicketsAreFound(es: seq<Event>, hash: Digest, now: Time)
    requires LegalRun(INIT, es)
    ensures var s := Run(INIT, es).repo;
            var found := FindGranting(s, hash, now);
            && (found.Ok? <==> exists g :: g in s.pgts && g.hash == hash && now < g.expiresAt)
            && (found.Ok? ==> found.value in s.pgts && found.value.hash == hash)
  {
    RunKeepsDistinct(INIT, es);
    hide Run, LegalRun;
  }

  /** What a validation or a proxy request goes on with: the ticket's user and session, and who may be granted more. */
  predicate GoesOn(s: Cas, t: Cas, client: Id, user: Id, session: Id, proxies: seq<string>, primary: bool,
                   callback: string) {
    && |t.flights| == |s.flights| + 1 && t.flights[..|s.flights|] == s.flights && t.past == s.past
    && var f := t.flights[|s.flights|];
       && f.Granting? && f.open && f.client == client && f.user == user && f.session == session
       && f.proxies == proxies && f.primary == primary && f.callback == callback
  }

  /** A validation goes on exactly with a ticket that may be redeemed, for whom that ticket is. */
  lemma ServiceValidationOutcome(es: seq<Event>, hash: Digest, service: string, renew: bool, proxyValidate: bool,
                                 registered: Id, callback: string, now: Time)
    requires LegalRun(INIT, es)
    ensures var s := Run(INIT, es);
            var t := Next(s, ValidateService(hash, service, renew, proxyValidate, registered, callback, now));
            && ((forall i :: 0 <= i < |s.repo.tickets| ==> !GoodService(s.repo.tickets[i], hash, service, renew, now))
                ==> t == s)
            && forall i :: 0 <= i < |s.repo.tickets| && GoodService(s.repo.tickets[i], hash, service, renew, now) ==>
                 var k := s.repo.tickets[i].t;
                 GoesOn(s, t, if proxyValidate then registered else k.client, k.user, k.session, [], k.primary,
                        callback)
  {
    ServiceTicketsAreForTheirService(es, hash, service, renew, now);
    hide Run, LegalRun, ConsumeService, GoodService;
  }

  lemma ProxyValidationOutcome(es: seq<Event>, hash: Digest, target: string, renew: bool, registered: Id,
                               callback: string, now: Time)
    requires LegalRun(INIT, es)
    ensures var s := Run(INIT, es);
            var t := Next(s, ValidateProxy(hash, target, renew, registered, callback, now));
            && ((forall i :: 0 <= i < |s.repo.pts| ==> !GoodProxy(s.repo.pts[i], hash, target, renew, now)) ==> t == s)
            && forall i :: 0 <= i < |s.repo.pts| && GoodProxy(s.repo.pts[i], hash, target, renew, now) ==>
                 var k := s.repo.pts[i].t;
                 GoesOn(s, t, registered, k.user, k.session, k.proxies, k.primary, callback)
  {
    ProxyTicketsAreForTheirTarget(es, hash, target, renew, now);
    hide Run, LegalRun, ConsumeProxy, GoodProxy;
  }

  /** A proxy request goes on exactly with a granting ticket of this digest before it expires. */
  lemma ProxyRequestOutcome(es: seq<Event>, hash: Digest, now: Time)
    requires LegalRun(INIT, es)
    ensures var s := Run(INIT, es);
            var t := Next(s, StartProxy(hash, now));
            && t.repo == s.repo && t.past == s.past
            && if exists g :: g in s.repo.pgts && g.hash == hash && now < g.expiresAt
               then
                 && |t.flights| == |s.flights| + 1 && t.flights[..|s.flights|] == s.flights
                 && var f := t.flights[|s.flights|];
                    f.Proxying? && f.open && f.now == now && f.pgt in s.repo.pgts && f.pgt.hash == hash
               else t == s
  {
    GrantingTicketsAreFound(es, hash, now);
    hide Run, LegalRun, FindGranting;
  }

  // ---- Issuing ----

  /** A login's ticket is for the service, the user and the session it was asked for, two minutes long. */
  lemma LoginOutcome(s: Cas, i: nat, hash: Digest, ticket: string, client: Id, service: string, now: Time)
    requires i < |s.flights|
    ensures var f := s.flights[i];
            var t := Next(s, SaveServiceTicket(i, hash, ticket, client, service, now));
            if f.Signing? && f.open then
              && t.repo.pgts == s.repo.pgts && t.repo.pts == s.repo.pts
              && |t.repo.tickets| == |s.repo.tickets| + 1 && t.repo.tickets[..|s.repo.tickets|] == s.repo.tickets
              && var r := t.repo.tickets[|s.repo.tickets|];
                 && r.consumedAt == None && r.t.hash == hash && r.t.client == client && r.t.service == service
                 && r.t.user == f.user && r.t.session == f.session && r.t.primary == f.primary
                 && r.t.expiresAt == now + 2 * MINUTE
            else t == s
  {
  }

  /** A granted ticket belongs to the validated user and session and to the callback that was asked for, eight hours. */
  lemma GrantOutcome(s: Cas, i: nat, hash: Digest, now: Time)
    requires i < |s.flights|
    ensures var f := s.flights[i];
            var t := Next(s, IssueGranting(i, hash, now));
            if f.Granting? && f.open && f.callback != "" then
              && t.repo.tickets == s.repo.tickets && t.repo.pts == s.repo.pts
              && |t.repo.pgts| == |s.repo.pgts| + 1 && t.repo.pgts[..|s.repo.pgts|] == s.repo.pgts
              && var g := t.repo.pgts[|s.repo.pgts|];
                 && g.hash == hash && g.client == f.client && g.user == f.user && g.session == f.session
                 && g.callback == f.callback && g.proxies == f.proxies && g.primary == f.primary
                 && g.expiresAt == now + 8 * HOUR
            else t == s
  {
  }

  /** A proxy ticket is for the target that was asked for and passes its granting ticket on; none without that. */
  lemma ProxyOutcome(s: Cas, i: nat, hash: Digest, target: string, client: Id)
    requires i < |s.flights| && s.flights[i].Proxying? && s.flights[i].open
    ensures var f := s.flights[i];
            var t := Next(s, IssueProxy(i, hash, target, client));
            && t.repo.tickets == s.repo.tickets && t.repo.pgts == s.repo.pgts
            && if exists g :: g in s.repo.pgts && g.hash == f.pgt.hash then
                 && |t.repo.pts| == |s.repo.pts| + 1 && t.repo.pts[..|s.repo.pts|] == s.repo.pts
                 && var r := t.repo.pts[|s.repo.pts|];
                    && r.consumedAt == None && r.t.hash == hash && r.t.client == client && r.t.target == target
                    && r.t.user == f.pgt.user && r.t.session == f.pgt.session && r.t.primary == f.pgt.primary
                    && r.t.proxies == [f.pgt.callback] + f.pgt.proxies && r.t.expiresAt == f.now + 2 * MINUTE
               else t.repo.pts == s.repo.pts
  {
  }

  /** A deletion takes exactly the session's service sessions, granting tickets and proxy tickets. */
  lemma DeletionOutcome(s: Cas, session: Id)
    ensures var t := Next(s, DeleteServiceSessions(session));
            && t.flights == s.flights && t.past == s.past && t.repo.tickets == s.repo.tickets
            && (forall g :: g in t.repo.pgts <==> g in s.repo.pgts && g.session != session)
            && (forall r :: r in t.repo.pts <==> r in s.repo.pts && r.t.session != session)
            && (forall x :: x in t.repo.sessions <==> x in s.repo.sessions && x.session != session)
  {
  }
}
