/** The validate and proxy handlers, each proved to be one run of delegation steps that leaves nothing running. */
module CasServer {
  import opened Prelude
  import opened CasTickets
  import opened CasDelegation

  /** A handler's own flight has ended, and the others' are untouched. */
  predicate Landed(before: seq<Flight>, after: seq<Flight>) {
    before <= after && forall i :: |before| <= i < |after| ==> !after[i].open
  }

  /** A granting ticket was asked for and could be granted. */
  predicate Due(callback: string, admitted: bool, replies: bool) { callback != "" && admitted && replies }

  /** None was asked for, or it could be granted. */
  predicate Answered(callback: string, admitted: bool, replies: bool) { callback == "" || (admitted && replies) }

  /** A validation's second step: the granting ticket when one is due, else the return without one. */
  function GrantingStep(flight: nat, due: bool, hash: Digest, now: Time): Event {
    if due then IssueGranting(flight, hash, now) else Abandon(flight)
  }

  /** What a validation does: the consumption, and if that succeeds the second step. */
  function ValidationSteps(s: Cas, e: Event, consumed: bool, due: bool, hash: Digest, now: Time): seq<Event> {
    if consumed then [e, GrantingStep(|s.flights|, due, hash, now)] else [e]
  }

  /** What a proxy request does: the lookup, and if that succeeds the proxy ticket when it may have one. */
  function ProxySteps(s: Cas, e: Event, found: bool, due: bool, hash: Digest, target: string, client: Id): seq<Event> {
    if !found then [e]
    else [e, if due then IssueProxy(|s.flights|, hash, target, client) else Abandon(|s.flights|)]
  }

  /** Proxy validation consumes a proxy ticket or, as serviceValidate does, a service ticket. */
  function Presentation(isProxyTicket: bool, hash: Digest, service: string, renew: bool, registered: Id, wanted: string,
                        now: Time): Event
  {
    if isProxyTicket then ValidateProxy(hash, service, renew, registered, wanted, now)
    else ValidateService(hash, service, renew, true, registered, wanted, now)
  }

  lemma RunOfOne(s: Cas, e: Event)
    ensures Run(s, [e]) == Next(s, e)
  {
    assert [e][1..] == [];
  }

  lemma RunOfTwo(s: Cas, e: Event, f: Event)
    ensures Run(s, [e, f]) == Next(Next(s, e), f)
  {
    assert [e, f][1..] == [f];
    RunOfOne(Next(s, e), f);
  }

  class Handlers {
    const tickets: MemoryRepository
    ghost var flights: seq<Flight>
    ghost var past: History

    ghost function View(): Cas
      reads this, tickets
    {
      Cas(tickets.View(), flights, past)
    }

    constructor ()
      ensures View() == INIT && fresh(tickets)
    {
      tickets := new MemoryRepository();
      flights, past := [], History([], map[]);
    }

    /**
     callback is "" without one; admitted says that the service may use it, replies that the tickets could be drawn and
     it answered with 200.
     */
    method IssueProxyGrantingTicket(value: ProxyGrantingTicket, ghost flight: nat,
                                    callback: string, admitted: bool, replies: bool, now: Time)
      returns (ok: bool)
      requires flight < |flights| && flights[flight].Granting? && flights[flight].open
      requires var f := flights[flight];
               && value.client == f.client && value.user == f.user && value.session == f.session
               && value.proxies == f.proxies && value.primary == f.primary
               && f.callback == if admitted then callback else ""
      modifies this, tickets
      ensures ok <==> Answered(callback, admitted, replies)
      ensures View() == Next(old(View()), GrantingStep(flight, Due(callback, admitted, replies), value.hash, now))
      ensures flights == old(flights)[flight := Closed(old(flights)[flight])]
    {
      ghost var after := Next(View(), GrantingStep(flight, Due(callback, admitted, replies), value.hash, now));
      if callback == "" {
        Return(flight);
        return true;
      }
      if !admitted || !replies {
        Return(flight);
        return false;
      }
      tickets.SaveProxyGrantingTicket(value.(callback := callback, issuedAt := now, expiresAt := now + 8 * HOUR));
      flights, past := after.flights, after.past;
      return true;
    }

    /** A login that found the session; drawn says that a ticket could be drawn. */
    method Login(user: Id, session: Id, primary: bool, drawn: bool, hash: Digest, ticket: string, client: Id,
                 service: string, now: Time)
      returns (ok: bool, ghost steps: seq<Event>)
      modifies this, tickets
      ensures ok == drawn
      ensures var flight := |old(flights)|;
              steps == [StartLogin(user, session, primary),
                        if drawn then SaveServiceTicket(flight, hash, ticket, client, service, now)
                        else Abandon(flight)]
      ensures View() == Run(old(View()), steps)
      ensures Landed(old(flights), flights)
      ensures drawn ==>
                tickets.tickets == old(tickets.tickets)
                  + [ServiceRecord(ServiceTicket(hash, ticket, client, service, user, session, primary, now,
                                                 now + 2 * MINUTE), None)]
    {
      ghost var before, flight := View(), |flights|;
      ghost var first := StartLogin(user, session, primary);
      ghost var second :=
        if drawn then SaveServiceTicket(flight, hash, ticket, client, service, now) else Abandon(flight);
      steps := [first, second];
      RunOfTwo(before, first, second);
      ghost var after := Next(Next(before, first), second);
      if drawn {
        tickets.SaveServiceTicket(
          ServiceTicket(hash, ticket, client, service, user, session, primary, now, now + 2 * MINUTE));
      }
      flights, past := after.flights, after.past;
      ok := drawn;
    }

    /** A handler's return without a ticket: nothing is stored, and its flight has ended. */
    ghost method Return(flight: nat)
      requires flight < |flights|
      modifies this`flights
      ensures View() == Next(old(View()), Abandon(flight))
      ensures flights == old(flights)[flight := Closed(old(flights)[flight])]
    {
      flights := flights[flight := Closed(flights[flight])];
    }

    /** entitled says that the user's roles and permissions could be read, or were not asked for. */
    method ServiceValidate(hash: Digest, service: string, renew: bool, userActive: bool, entitled: bool,
                           pgtHash: Digest, callback: string, admitted: bool, replies: bool, now: Time)
      returns (ok: bool, ghost steps: seq<Event>)
      modifies this, tickets
      ensures var consumed := ConsumeService(old(View()).repo, hash, service, renew, now).1.Ok?;
              && (ok <==> consumed && userActive && entitled && Answered(callback, admitted, replies))
              && steps == ValidationSteps(old(View()),
                            ValidateService(hash, service, renew, false, "", if admitted then callback else "", now),
                            consumed, userActive && entitled && Due(callback, admitted, replies), pgtHash, now)
      ensures View() == Run(old(View()), steps)
      ensures Landed(old(flights), flights)
    {
      ghost var before := View();
      ghost var e := ValidateService(hash, service, renew, false, "", if admitted then callback else "", now);
      var consumed := tickets.ConsumeServiceTicket(hash, service, renew, now);
      ghost var flight := |flights|;
      flights := Next(before, e).flights;
      RunOfOne(before, e);
      if consumed.Err? { return false, [e]; }
      ghost var due := userActive && entitled && Due(callback, admitted, replies);
      ghost var second := GrantingStep(flight, due, pgtHash, now);
      steps := [e, second];
      RunOfTwo(before, e, second);
      if !userActive || !entitled {
        Return(flight);
        return false, steps;
      }
      var t := consumed.value;
      ok := IssueProxyGrantingTicket(ProxyGrantingTicket(pgtHash, t.client, t.user, t.session, "", [], t.primary, 0, 0),
                                     flight, callback, admitted, replies, now);
    }

    method ProxyValidate(isProxyTicket: bool, hash: Digest, service: string, renew: bool, registered: Id,
                         userActive: bool, entitled: bool, pgtHash: Digest, callback: string, admitted: bool,
                         replies: bool, now: Time)
      returns (ok: bool, proxies: seq<string>, ghost steps: seq<Event>)
      modifies this, tickets
      ensures var asProxy := ConsumeProxy(old(View()).repo, hash, service, renew, now).1;
              var asService := ConsumeService(old(View()).repo, hash, service, renew, now).1;
              var consumed := if isProxyTicket then asProxy.Ok? else asService.Ok?;
              var wanted := if admitted then callback else "";
              && (ok <==> consumed && userActive && entitled && Answered(callback, admitted, replies))
              && (ok ==> proxies == if isProxyTicket then asProxy.value.proxies else [])
              && steps == ValidationSteps(old(View()),
                            Presentation(isProxyTicket, hash, service, renew, registered, wanted, now), consumed,
                            userActive && entitled && Due(callback, admitted, replies), pgtHash, now)
      ensures View() == Run(old(View()), steps)
      ensures Landed(old(flights), flights)
    {
      ghost var before := View();
      ghost var wanted := if admitted then callback else "";
      ghost var e := Presentation(isProxyTicket, hash, service, renew, registered, wanted, now);
      var user, session, primary;
      ok, user, session, primary, proxies := Consume(isProxyTicket, hash, service, renew, registered, wanted, now);
      hide Next, Run, Presentation, ConsumeProxy, ConsumeService, Answered, Due;
      RunOfOne(before, e);
      if !ok { return false, proxies, [e]; }
      ghost var flight := |before.flights|;
      ghost var due := userActive && entitled && Due(callback, admitted, replies);
      ghost var second := GrantingStep(flight, due, pgtHash, now);
      steps := [e, second];
      RunOfTwo(before, e, second);
      assert !due ==> second == Abandon(flight);
      hide GrantingStep;
      if !userActive || !entitled {
        Return(flight);
        return false, proxies, steps;
      }
      var value := ProxyGrantingTicket(pgtHash, registered, user, session, "", proxies, primary, 0, 0);
      ok := IssueProxyGrantingTicket(value, flight, callback, admitted, replies, now);
    }

    /** The ticket that proxy validation was given, of either kind. */
    method Consume(isProxyTicket: bool, hash: Digest, service: string, renew: bool, registered: Id,
                   ghost wanted: string, now: Time)
      returns (ok: bool, user: Id, session: Id, primary: bool, proxies: seq<string>)
      modifies this, tickets
      ensures var e := Presentation(isProxyTicket, hash, service, renew, registered, wanted, now);
              View() == Next(old(View()), e)
      ensures var asProxy := ConsumeProxy(old(View()).repo, hash, service, renew, now).1;
              var asService := ConsumeService(old(View()).repo, hash, service, renew, now).1;
              && (ok <==> if isProxyTicket then asProxy.Ok? else asService.Ok?)
              && (ok ==> proxies == if isProxyTicket then asProxy.value.proxies else [])
      ensures if ok then |flights| == |old(flights)| + 1 && old(flights) == flights[..|old(flights)|]
                && flights[|old(flights)|].Granting?
                && (var f := flights[|old(flights)|];
                    f == Granting(f.node, registered, user, session, proxies, primary, wanted, true))
              else flights == old(flights)
    {
      ghost var after := Next(View(), Presentation(isProxyTicket, hash, service, renew, registered, wanted, now));
      user, session, primary, proxies := "", "", false, [];
      if isProxyTicket {
        var consumed := tickets.ConsumeProxyTicket(hash, service, renew, now);
        flights := after.flights;
        if consumed.Err? { return false, user, session, primary, proxies; }
        var t := consumed.value;
        return true, t.user, t.session, t.primary, t.proxies;
      }
      var consumed := tickets.ConsumeServiceTicket(hash, service, renew, now);
      flights := after.flights;
      if consumed.Err? { return false, user, session, primary, proxies; }
      var t := consumed.value;
      return true, t.user, t.session, t.primary, [];
    }

    /** mayProxy says that the granting ticket's client is enabled and allowed to proxy, and a ticket could be drawn. */
    method IssueProxyTicket(pgtHash: Digest, target: string, client: Id, mayProxy: bool, ptHash: Digest, now: Time)
      returns (ok: bool, ghost steps: seq<Event>)
      modifies this, tickets
      ensures var found := FindGranting(old(View()).repo, pgtHash, now);
              && (ok <==> found.Ok? && mayProxy)
              && steps == ProxySteps(old(View()), StartProxy(pgtHash, now), found.Ok?, mayProxy, ptHash, target, client)
              && (ok ==>
                    tickets.proxyTickets == old(tickets.proxyTickets)
                      + [ProxyRecord(ProxiedTicket(found.value, ptHash, target, client, now), None)])
      ensures View() == Run(old(View()), steps)
      ensures Landed(old(flights), flights)
    {
      ghost var before, e := View(), StartProxy(pgtHash, now);
      ghost var flight := |flights|;
      var found := tickets.FindProxyGrantingTicket(pgtHash, now);
      flights := Next(before, e).flights;
      RunOfOne(before, e);
      if found.Err? { return false, [e]; }
      ghost var second := if mayProxy then IssueProxy(flight, ptHash, target, client) else Abandon(flight);
      steps := [e, second];
      RunOfTwo(before, e, second);
      ghost var after := Next(View(), second);
      if !mayProxy {
        Return(flight);
        return false, steps;
      }
      var pgt := found.value;
      assert pgt.hash == pgtHash && PgtIndex(before.repo.pgts, pgtHash) < |before.repo.pgts|;
      var saved := tickets.SaveProxyTicket(
        ProxyTicket(ptHash, client, target, pgt.user, pgt.session, [pgt.callback] + pgt.proxies, pgt.primary,
                    now, now + 2 * MINUTE), pgtHash);
      flights, past := after.flights, after.past;
      ok := saved.Ok?;
    }
  }
}
