/**
 CAS delegation over every run. A handler makes several repository calls with other handlers, and a network
 callback, in between; so each call is a step of its own, and what a handler carries from one to the next is a flight.
 */
module CasDelegation {
  import opened Prelude
  import opened CasTickets

  /** How a ticket came about: a login, a callback that was granted a ticket, or a proxy request. */
  datatype Node =
    | Login(user: Id, session: Id, primary: bool)
    | Grant(parent: nat, callback: string)
    | Proxy(parent: nat)

  /** A handler between two of its calls: what it carries, and whether it is still running. */
  datatype Flight =
    | Signing(user: Id, session: Id, primary: bool, open: bool)
    | Granting(node: nat, client: Id, user: Id, session: Id, proxies: seq<string>, primary: bool, callback: string,
               open: bool)
    | Proxying(node: nat, pgt: ProxyGrantingTicket, now: Time, open: bool)

  function Closed(f: Flight): Flight {
    match f
    case Signing(user, session, primary, _) => Signing(user, session, primary, false)
    case Granting(node, client, user, session, proxies, primary, callback, _) =>
      Granting(node, client, user, session, proxies, primary, callback, false)
    case Proxying(node, pgt, now, _) => Proxying(node, pgt, now, false)
  }

  /** Every ticket ever made, in order, and where to find it by its digest. */
  datatype History = History(lineage: seq<Node>, origin: map<Digest, nat>)

  /** The repository, the handlers under way, and the history. */
  datatype Cas = Cas(repo: Repo, flights: seq<Flight>, past: History)

  const INIT: Cas := Cas(Repo([], [], [], []), [], History([], map[]))

  /**
   The calls. StartLogin is a login handler's look at the session it found. A validation's callback is the request's
   proxy callback, or "" when it names none or one that its service may not use. Abandon is a
   handler's return without a ticket: no callback, an inactive user, a refusal or a failure.
   */
  datatype Event =
    | StartLogin(user: Id, session: Id, primary: bool)
    | SaveServiceTicket(flight: nat, hash: Digest, ticket: string, client: Id, service: string, now: Time)
    | ValidateService(hash: Digest, service: string, renew: bool, proxyValidate: bool, registered: Id, callback: string,
                      now: Time)
    | ValidateProxy(hash: Digest, service: string, renew: bool, registered: Id, callback: string, now: Time)
    | IssueGranting(flight: nat, hash: Digest, now: Time)
    | StartProxy(hash: Digest, now: Time)
    | IssueProxy(flight: nat, hash: Digest, target: string, client: Id)
    | Abandon(flight: nat)
    | DeleteServiceSessions(session: Id)

  function Extended(p: History, node: Node, hash: Digest): History {
    History(p.lineage + [node], p.origin[hash := |p.lineage|])
  }

  function Add(s: Cas, repo: Repo, flights: seq<Flight>, node: Node, hash: Digest): Cas {
    Cas(repo, flights, Extended(s.past, node, hash))
  }

  function OriginOf(s: Cas, hash: Digest): nat { if hash in s.past.origin then s.past.origin[hash] else 0 }

  /** A validation that is still running and was asked for a granting ticket. */
  predicate MayGrant(f: Flight) { f.Granting? && f.open && f.callback != "" }

  predicate MayLogin(f: Flight) { f.Signing? && f.open }

  function LoginTicket(f: Flight, hash: Digest, ticket: string, client: Id, service: string, now: Time): ServiceTicket
    requires f.Signing?
  {
    ServiceTicket(hash, ticket, client, service, f.user, f.session, f.primary, now, now + 2 * MINUTE)
  }

  function GrantedTicket(f: Flight, hash: Digest, now: Time): ProxyGrantingTicket
    requires f.Granting?
  {
    ProxyGrantingTicket(hash, f.client, f.user, f.session, f.callback, f.proxies, f.primary, now, now + 8 * HOUR)
  }

  function ProxiedTicket(pgt: ProxyGrantingTicket, hash: Digest, target: string, client: Id, now: Time): ProxyTicket {
    ProxyTicket(hash, client, target, pgt.user, pgt.session, [pgt.callback] + pgt.proxies, pgt.primary, now,
                now + 2 * MINUTE)
  }

  function Next(s: Cas, e: Event): Cas {
    match e
    case StartLogin(user, session, primary) => s.(flights := s.flights + [Signing(user, session, primary, true)])
    case SaveServiceTicket(i, hash, ticket, client, service, now) =>
      if i < |s.flights| && MayLogin(s.flights[i]) then
        var f := s.flights[i];
        Add(s, SaveService(s.repo, LoginTicket(f, hash, ticket, client, service, now)), s.flights[i := Closed(f)],
            Login(f.user, f.session, f.primary), hash)
      else s
    case ValidateService(hash, service, renew, proxyValidate, registered, callback, now) =>
      var out := ConsumeService(s.repo, hash, service, renew, now);
      if out.1.Err? then s
      else
        var t := out.1.value;
        s.(repo := out.0,
           flights := s.flights + [Granting(OriginOf(s, hash), if proxyValidate then registered else t.client,
                                            t.user, t.session, [], t.primary, callback, true)])
    case ValidateProxy(hash, service, renew, registered, callback, now) =>
      var out := ConsumeProxy(s.repo, hash, service, renew, now);
      if out.1.Err? then s
      else
        var t := out.1.value;
        s.(repo := out.0,
           flights := s.flights + [Granting(OriginOf(s, hash), registered, t.user, t.session, t.proxies, t.primary,
                                            callback, true)])
    case IssueGranting(i, hash, now) =>
      if i < |s.flights| && MayGrant(s.flights[i]) then
        var f := s.flights[i];
        Add(s, SaveGranting(s.repo, GrantedTicket(f, hash, now)), s.flights[i := Closed(f)], Grant(f.node, f.callback),
            hash)
      else s
    case StartProxy(hash, now) =>
      var found := FindGranting(s.repo, hash, now);
      if found.Err? then s else s.(flights := s.flights + [Proxying(OriginOf(s, hash), found.value, now, true)])
    case IssueProxy(i, hash, target, client) =>
      if i < |s.flights| && s.flights[i].Proxying? && s.flights[i].open then
        var f := s.flights[i];
        var saved := SaveProxy(s.repo, ProxiedTicket(f.pgt, hash, target, client, f.now), f.pgt.hash);
        var flights := s.flights[i := Closed(f)];
        if saved.1.Err? then s.(flights := flights) else Add(s, saved.0, flights, Proxy(f.node), hash)
      else s
    case Abandon(i) => if i < |s.flights| then s.(flights := s.flights[i := Closed(s.flights[i])]) else s
    case DeleteServiceSessions(session) => s.(repo := DeleteSessions(s.repo, session))
  }

  /** Ticket digests are fresh draws. */
  predicate Legal(s: Cas, e: Event) {
    match e
    case SaveServiceTicket(_, hash, _, _, _, _) => hash !in s.past.origin
    case IssueGranting(_, hash, _) => hash !in s.past.origin
    case IssueProxy(_, hash, _, _) => hash !in s.past.origin
    case _ => true
  }

  function Run(s: Cas, es: seq<Event>): Cas
    decreases |es|
  {
    if es == [] then s else Run(Next(s, es[0]), es[1..])
  }

  predicate LegalRun(s: Cas, es: seq<Event>)
    decreases |es|
  {
    es == [] || (Legal(s, es[0]) && LegalRun(Next(s, es[0]), es[1..]))
  }

  // ---- The delegation chain behind a ticket ----

  predicate Rooted(l: seq<Node>) {
    forall n :: 0 <= n < |l| && !l[n].Login? ==>
      l[n].parent < n && (if l[n].Grant? then !l[l[n].parent].Grant? else l[l[n].parent].Grant?)
  }

  /** The tickets a ticket descends from, its parent first and the service ticket last. */
  function Ancestors(l: seq<Node>, n: nat): (r: seq<nat>)
    requires Rooted(l) && n < |l|
    ensures forall i :: 0 <= i < |r| ==> r[i] < n
    ensures r == [] <==> l[n].Login?
    ensures r != [] ==> l[r[|r| - 1]].Login?
  {
    if l[n].Login? then [] else [l[n].parent] + Ancestors(l, l[n].parent)
  }

  function RootOf(l: seq<Node>, n: nat): (r: Node)
    requires Rooted(l) && n < |l|
    ensures r.Login?
  {
    var a := Ancestors(l, n);
    if a == [] then l[n] else l[a[|a| - 1]]
  }

  /** The callbacks among these tickets, in this order. */
  function Callbacks(l: seq<Node>, path: seq<nat>): seq<string>
    requires forall i :: 0 <= i < |path| ==> path[i] < |l|
  {
    if path == [] then []
    else (if l[path[0]].Grant? then [l[path[0]].callback] else []) + Callbacks(l, path[1..])
  }

  predicate Carries(l: seq<Node>, n: nat, user: Id, session: Id, primary: bool, proxies: seq<string>) {
    && Rooted(l) && n < |l|
    && RootOf(l, n) == Login(user, session, primary)
    && proxies == Callbacks(l, Ancestors(l, n))
  }

  lemma {:induction false} LongerLineage(l: seq<Node>, x: Node, n: nat)
    requires Rooted(l) && Rooted(l + [x]) && n < |l|
    ensures Ancestors(l + [x], n) == Ancestors(l, n) && RootOf(l + [x], n) == RootOf(l, n)
    ensures Callbacks(l + [x], Ancestors(l, n)) == Callbacks(l, Ancestors(l, n))
  {
    if !l[n].Login? { LongerLineage(l, x, l[n].parent); }
    SameCallbacks(l, x, Ancestors(l, n));
  }

  lemma {:induction false} SameCallbacks(l: seq<Node>, x: Node, path: seq<nat>)
    requires forall i :: 0 <= i < |path| ==> path[i] < |l|
    ensures Callbacks(l + [x], path) == Callbacks(l, path)
  {
    if path != [] { SameCallbacks(l, x, path[1..]); }
  }

  lemma CarriesOn(l: seq<Node>, x: Node, n: nat, user: Id, session: Id, primary: bool, proxies: seq<string>)
    requires Carries(l, n, user, session, primary, proxies) && Rooted(l + [x])
    ensures Carries(l + [x], n, user, session, primary, proxies)
  {
    LongerLineage(l, x, n);
  }

  /** One hop: a granted ticket keeps the list, a proxy ticket puts its grantor's callback in front. */
  lemma Hop(l: seq<Node>, n: nat, user: Id, session: Id, primary: bool, proxies: seq<string>, x: Node)
    requires Carries(l, n, user, session, primary, proxies) && !x.Login? && x.parent == n && Rooted(l + [x])
    requires x.Proxy? ==> l[n].Grant?
    ensures Carries(l + [x], |l|, user, session, primary,
                    if x.Proxy? then [l[n].callback] + proxies else proxies)
  {
    LongerLineage(l, x, n);
    var a := Ancestors(l + [x], |l|);
    assert a == [n] + Ancestors(l + [x], n);
    assert a[1..] == Ancestors(l, n);
    assert RootOf(l + [x], |l|) == RootOf(l + [x], n);
  }

  // ---- The invariant ----

  predicate StOk(p: History, r: ServiceRecord) {
    && r.t.hash in p.origin && Carries(p.lineage, p.origin[r.t.hash], r.t.user, r.t.session, r.t.primary, [])
    && p.lineage[p.origin[r.t.hash]].Login?
  }

  predicate PgtOk(p: History, t: ProxyGrantingTicket) {
    && t.hash in p.origin && Carries(p.lineage, p.origin[t.hash], t.user, t.session, t.primary, t.proxies)
    && p.lineage[p.origin[t.hash]].Grant? && p.lineage[p.origin[t.hash]].callback == t.callback
  }

  predicate PtOk(p: History, r: ProxyRecord) {
    && r.t.hash in p.origin && Carries(p.lineage, p.origin[r.t.hash], r.t.user, r.t.session, r.t.primary, r.t.proxies)
    && p.lineage[p.origin[r.t.hash]].Proxy?
  }

  predicate FlightOk(p: History, f: Flight) {
    match f
    case Signing(_, _, _, _) => true
    case Granting(node, _, user, session, proxies, primary, _, _) =>
      Carries(p.lineage, node, user, session, primary, proxies) && !p.lineage[node].Grant?
    case Proxying(node, pgt, _, _) => PgtOk(p, pgt) && node == p.origin[pgt.hash]
  }

  predicate Sound(p: History) {
    && Rooted(p.lineage)
    && (forall h :: h in p.origin ==> p.origin[h] < |p.lineage|)
    && (forall h, g :: h in p.origin && g in p.origin && h != g ==> p.origin[h] != p.origin[g])
  }

  /** The history is sound, and every ticket and flight agrees with its chain. */
  predicate Chained(s: Cas) {
    && Sound(s.past)
    && (forall i :: 0 <= i < |s.repo.tickets| ==> StOk(s.past, s.repo.tickets[i]))
    && (forall i :: 0 <= i < |s.repo.pgts| ==> PgtOk(s.past, s.repo.pgts[i]))
    && (forall i :: 0 <= i < |s.repo.pts| ==> PtOk(s.past, s.repo.pts[i]))
    && (forall i :: 0 <= i < |s.flights| ==> FlightOk(s.past, s.flights[i]))
  }

  lemma ExtendedKeeps(p: History, node: Node, hash: Digest)
    requires Sound(p) && Rooted(p.lineage + [node]) && hash !in p.origin
    ensures var q := Extended(p, node, hash);
            && Sound(q)
            && (forall r :: StOk(p, r) ==> StOk(q, r)) && (forall r :: PgtOk(p, r) ==> PgtOk(q, r))
            && (forall r :: PtOk(p, r) ==> PtOk(q, r)) && (forall f :: FlightOk(p, f) ==> FlightOk(q, f))
  {
    forall n, user, session, primary, proxies | Carries(p.lineage, n, user, session, primary, proxies)
      ensures Carries(p.lineage + [node], n, user, session, primary, proxies)
    {
      CarriesOn(p.lineage, node, n, user, session, primary, proxies);
    }
    hide Carries, Rooted;
  }

  lemma RootedGrows(l: seq<Node>, x: Node)
    requires Rooted(l) && (!x.Login? ==>
               x.parent < |l| && (if x.Grant? then !l[x.parent].Grant? else l[x.parent].Grant?))
    ensures Rooted(l + [x])
  {
  }

  lemma LoginKeepsChained(s: Cas, e: Event)
    requires Chained(s) && Legal(s, e) && e.SaveServiceTicket?
    ensures Chained(Next(s, e))
  {
    if e.flight < |s.flights| && MayLogin(s.flights[e.flight]) {
      var f := s.flights[e.flight];
      var node := Login(f.user, f.session, f.primary);
      RootedGrows(s.past.lineage, node);
      ExtendedKeeps(s.past, node, e.hash);
      var t := Next(s, e);
      assert StOk(t.past, ServiceRecord(LoginTicket(f, e.hash, e.ticket, e.client, e.service, e.now), None));
      assert FlightOk(t.past, Closed(f));
      hide Sound, StOk, PgtOk, PtOk, FlightOk, Extended, Closed;
    }
  }

  lemma ValidateKeepsChained(s: Cas, e: Event)
    requires Chained(s) && (e.ValidateService? || e.ValidateProxy?)
    ensures Chained(Next(s, e))
  {
    hide Carries, Rooted, Sound, PgtOk;
  }

  lemma GrantKeepsChained(s: Cas, e: Event)
    requires Chained(s) && Legal(s, e) && e.IssueGranting?
    ensures Chained(Next(s, e))
  {
    hide Sound, PgtOk, StOk, PtOk, FlightOk, Extended, Carries, Closed;
    if e.flight < |s.flights| && MayGrant(s.flights[e.flight]) {
      GrantFlight(s.past, s.flights[e.flight], e.hash, e.now);
    }
  }

  /** The history after a validation is turned into a granting ticket, and that ticket. */
  lemma GrantFlight(p: History, f: Flight, hash: Digest, now: Time)
    requires Sound(p) && f.Granting? && FlightOk(p, f) && hash !in p.origin
    ensures var q := Extended(p, Grant(f.node, f.callback), hash);
            && Sound(q) && FlightOk(q, Closed(f))
            && (forall r :: StOk(p, r) ==> StOk(q, r)) && (forall r :: PgtOk(p, r) ==> PgtOk(q, r))
            && (forall r :: PtOk(p, r) ==> PtOk(q, r)) && (forall g :: FlightOk(p, g) ==> FlightOk(q, g))
            && PgtOk(q, GrantedTicket(f, hash, now))
  {
    var node := Grant(f.node, f.callback);
    RootedGrows(p.lineage, node);
    ExtendedKeeps(p, node, hash);
    Hop(p.lineage, f.node, f.user, f.session, f.primary, f.proxies, node);
    assert FlightOk(p, Closed(f));
    hide Carries, Rooted, StOk, PtOk;
  }

  lemma ProxyKeepsChained(s: Cas, e: Event)
    requires Chained(s) && Legal(s, e) && e.IssueProxy?
    ensures Chained(Next(s, e))
  {
    hide Sound, PgtOk, StOk, PtOk, FlightOk, Extended, Carries, Closed;
    if e.flight < |s.flights| && s.flights[e.flight].Proxying? && s.flights[e.flight].open {
      var f := s.flights[e.flight];
      ProxyFlight(s.past, f, e.hash, e.target, e.client);
    }
  }

  /** The history after a proxy flight ends, and the ticket it made. */
  lemma ProxyFlight(p: History, f: Flight, hash: Digest, target: string, client: Id)
    requires Sound(p) && f.Proxying? && FlightOk(p, f) && hash !in p.origin
    ensures FlightOk(p, Closed(f))
    ensures var q := Extended(p, Proxy(f.node), hash);
            && Sound(q) && FlightOk(q, Closed(f))
            && (forall r :: StOk(p, r) ==> StOk(q, r)) && (forall r :: PgtOk(p, r) ==> PgtOk(q, r))
            && (forall r :: PtOk(p, r) ==> PtOk(q, r)) && (forall g :: FlightOk(p, g) ==> FlightOk(q, g))
            && PtOk(q, ProxyRecord(ProxiedTicket(f.pgt, hash, target, client, f.now), None))
  {
    var node := Proxy(f.node);
    RootedGrows(p.lineage, node);
    ExtendedKeeps(p, node, hash);
    Hop(p.lineage, f.node, f.pgt.user, f.pgt.session, f.pgt.primary, f.pgt.proxies, node);
    assert FlightOk(p, Closed(f));
    hide Carries, Rooted, StOk, PgtOk;
  }

  lemma StartKeepsChained(s: Cas, e: Event)
    requires Chained(s) && e.StartProxy?
    ensures Chained(Next(s, e))
  {
  }

  lemma AbandonKeepsChained(s: Cas, e: Event)
    requires Chained(s) && e.Abandon?
    ensures Chained(Next(s, e))
  {
    if e.flight < |s.flights| { ClosingKeepsFlight(s.past, s.flights[e.flight]); }
    hide Sound, PgtOk, StOk, PtOk, FlightOk, Closed;
  }

  lemma ClosingKeepsFlight(p: History, f: Flight)
    requires FlightOk(p, f)
    ensures FlightOk(p, Closed(f))
  {
  }

  lemma StepKeepsChained(s: Cas, e: Event)
    requires Chained(s) && Legal(s, e)
    ensures Chained(Next(s, e))
  {
    match e
    case StartLogin(_, _, _) => hide StOk, PgtOk, PtOk, Sound;
    case SaveServiceTicket(_, _, _, _, _, _) => LoginKeepsChained(s, e);
    case ValidateService(_, _, _, _, _, _, _) => ValidateKeepsChained(s, e);
    case ValidateProxy(_, _, _, _, _, _) => ValidateKeepsChained(s, e);
    case IssueGranting(_, _, _) => GrantKeepsChained(s, e);
    case StartProxy(_, _) => StartKeepsChained(s, e);
    case IssueProxy(_, _, _, _) => ProxyKeepsChained(s, e);
    case Abandon(_) => AbandonKeepsChained(s, e);
    case DeleteServiceSessions(_) => hide StOk, PgtOk, PtOk, FlightOk, Sound;
  }

  lemma {:induction false} RunKeepsChained(s: Cas, es: seq<Event>)
    requires Chained(s) && LegalRun(s, es)
    ensures Chained(Run(s, es))
    decreases |es|
  {
    hide Chained, Next, Legal;
    if es != [] {
      StepKeepsChained(s, es[0]);
      RunKeepsChained(Next(s, es[0]), es[1..]);
    }
  }

  /**
   In a chain of any depth every ticket has the user, session and primary flag of the login it goes back to, and its
   list of proxies is exactly the callbacks of the tickets in between, most recent first.
   */
  lemma TicketsDescend(es: seq<Event>)
    requires LegalRun(INIT, es)
    ensures var s := Run(INIT, es);
            && (forall r :: r in s.repo.pgts ==> PgtOk(s.past, r))
            && (forall r :: r in s.repo.pts ==> PtOk(s.past, r))
  {
    RunKeepsChained(INIT, es);
  }
}
