/** CAS tickets: service tickets, proxy-granting tickets and proxy tickets, and the repository that keeps them. */
module CasTickets {
  import opened Prelude
  import opened InPlace

  datatype ServiceTicket = ServiceTicket(
    hash: Digest, ticket: string, client: Id, service: string, user: Id, session: Id, primary: bool,
    issuedAt: Time, expiresAt: Time)

  datatype ProxyGrantingTicket = ProxyGrantingTicket(
    hash: Digest, client: Id, user: Id, session: Id, callback: string, proxies: seq<string>, primary: bool,
    issuedAt: Time, expiresAt: Time)

  datatype ProxyTicket = ProxyTicket(
    hash: Digest, client: Id, target: string, user: Id, session: Id, proxies: seq<string>, primary: bool,
    issuedAt: Time, expiresAt: Time)

  datatype ServiceSession = ServiceSession(session: Id, client: Id, service: string, ticket: string)

  datatype ServiceRecord = ServiceRecord(t: ServiceTicket, consumedAt: Option<Time>)

  datatype ProxyRecord = ProxyRecord(t: ProxyTicket, consumedAt: Option<Time>)

  datatype Repo = Repo(
    tickets: seq<ServiceRecord>, pgts: seq<ProxyGrantingTicket>, pts: seq<ProxyRecord>, sessions: seq<ServiceSession>)

  datatype TicketError = TicketNotFound | TicketExpired

  // ---- Operations as values ----

  function ServiceIndex(tickets: seq<ServiceRecord>, hash: Digest, service: string): nat {
    FirstIndex(tickets, (r: ServiceRecord) => r.t.hash == hash && r.t.service == service)
  }

  function ProxyIndex(pts: seq<ProxyRecord>, hash: Digest, target: string): nat {
    FirstIndex(pts, (r: ProxyRecord) => r.t.hash == hash && r.t.target == target)
  }

  function PgtIndex(pgts: seq<ProxyGrantingTicket>, hash: Digest): nat {
    FirstIndex(pgts, (r: ProxyGrantingTicket) => r.hash == hash)
  }

  function SaveService(r: Repo, t: ServiceTicket): Repo {
    r.(tickets := r.tickets + [ServiceRecord(t, None)],
       sessions := r.sessions + [ServiceSession(t.session, t.client, t.service, t.ticket)])
  }

  function ConsumeService(r: Repo, hash: Digest, service: string, requirePrimary: bool, now: Time): (Repo,
      Result<ServiceTicket, TicketError>) {
    var i := ServiceIndex(r.tickets, hash, service);
    if i == |r.tickets| || r.tickets[i].consumedAt.Some? ||
        (requirePrimary && !r.tickets[i].t.primary) then (r, Err(TicketNotFound))
    else if r.tickets[i].t.expiresAt <= now then (r, Err(TicketExpired))
    else (r.(tickets := r.tickets[i := r.tickets[i].(consumedAt := Some(now))]), Ok(r.tickets[i].t))
  }

  function SaveGranting(r: Repo, t: ProxyGrantingTicket): Repo { r.(pgts := r.pgts + [t]) }

  function FindGranting(r: Repo, hash: Digest, now: Time): Result<ProxyGrantingTicket, TicketError> {
    var i := PgtIndex(r.pgts, hash);
    if i == |r.pgts| then Err(TicketNotFound)
    else if r.pgts[i].expiresAt <= now then Err(TicketExpired)
    else Ok(r.pgts[i])
  }

  function SaveProxy(r: Repo, t: ProxyTicket, pgtHash: Digest): (Repo, Result<(), TicketError>) {
    if PgtIndex(r.pgts, pgtHash) == |r.pgts| then (r, Err(TicketNotFound))
    else (r.(pts := r.pts + [ProxyRecord(t, None)]), Ok(()))
  }

  function ConsumeProxy(r: Repo, hash: Digest, target: string, requirePrimary: bool, now: Time): (Repo,
      Result<ProxyTicket, TicketError>) {
    var i := ProxyIndex(r.pts, hash, target);
    if i == |r.pts| || r.pts[i].consumedAt.Some? ||
        (requirePrimary && !r.pts[i].t.primary) then (r, Err(TicketNotFound))
    else if r.pts[i].t.expiresAt <= now then (r, Err(TicketExpired))
    else (r.(pts := r.pts[i := r.pts[i].(consumedAt := Some(now))]), Ok(r.pts[i].t))
  }

  function NotOf(session: Id): ProxyRecord -> bool { (x: ProxyRecord) => x.t.session != session }

  /** Service tickets themselves stay; they only live for two minutes. */
  function DeleteSessions(r: Repo, session: Id): Repo {
    r.(sessions := Filter(r.sessions, (x: ServiceSession) => x.session != session),
       pgts := Filter(r.pgts, (x: ProxyGrantingTicket) => x.session != session),
       pts := Filter(r.pts, NotOf(session)))
  }

  class MemoryRepository {
    var tickets: seq<ServiceRecord>
    var proxyGrantingTickets: seq<ProxyGrantingTicket>
    var proxyTickets: seq<ProxyRecord>
    var sessions: seq<ServiceSession>

    ghost function View(): Repo
      reads this
    {
      Repo(tickets, proxyGrantingTickets, proxyTickets, sessions)
    }

    constructor ()
      ensures View() == Repo([], [], [], [])
    {
      tickets, proxyGrantingTickets, proxyTickets, sessions := [], [], [], [];
    }

    method SaveServiceTicket(value: ServiceTicket)
      modifies this
      ensures View() == SaveService(old(View()), value)
    {
      tickets := tickets + [ServiceRecord(value, None)];
      sessions := sessions + [ServiceSession(value.session, value.client, value.service, value.ticket)];
    }

    method ConsumeServiceTicket(hash: Digest, service: string, requirePrimary: bool, now: Time)
      returns (res: Result<ServiceTicket, TicketError>)
      modifies `tickets
      ensures (View(), res) == ConsumeService(old(View()), hash, service, requirePrimary, now)
    {
      for index := 0 to |tickets|
        invariant tickets == old(tickets)
        invariant forall j :: 0 <= j < index ==> !(tickets[j].t.hash == hash && tickets[j].t.service == service)
      {
        var record := tickets[index];
        if record.t.hash != hash || record.t.service != service { continue; }
        assert index == ServiceIndex(tickets, hash, service);
        if record.consumedAt.Some? { return Err(TicketNotFound); }
        if requirePrimary && !record.t.primary { return Err(TicketNotFound); }
        if record.t.expiresAt <= now { return Err(TicketExpired); }
        tickets := tickets[index := record.(consumedAt := Some(now))];
        return Ok(record.t);
      }
      return Err(TicketNotFound);
    }

    method SaveProxyGrantingTicket(value: ProxyGrantingTicket)
      modifies `proxyGrantingTickets
      ensures View() == SaveGranting(old(View()), value)
    {
      proxyGrantingTickets := proxyGrantingTickets + [value];
    }

    method FindProxyGrantingTicket(hash: Digest, now: Time) returns (res: Result<ProxyGrantingTicket, TicketError>)
      ensures res == FindGranting(View(), hash, now)
    {
      for index := 0 to |proxyGrantingTickets|
        invariant forall j :: 0 <= j < index ==> proxyGrantingTickets[j].hash != hash
      {
        var record := proxyGrantingTickets[index];
        if record.hash != hash { continue; }
        assert index == PgtIndex(proxyGrantingTickets, hash);
        return if record.expiresAt <= now then Err(TicketExpired) else Ok(record);
      }
      return Err(TicketNotFound);
    }

    method SaveProxyTicket(value: ProxyTicket, pgtHash: Digest) returns (res: Result<(), TicketError>)
      modifies `proxyTickets
      ensures (View(), res) == SaveProxy(old(View()), value, pgtHash)
    {
      var found := false;
      for index := 0 to |proxyGrantingTickets|
        invariant !found
        invariant forall j :: 0 <= j < index ==> proxyGrantingTickets[j].hash != pgtHash
      {
        if proxyGrantingTickets[index].hash == pgtHash {
          found := true;
          break;
        }
      }
      if !found { return Err(TicketNotFound); }
      proxyTickets := proxyTickets + [ProxyRecord(value, None)];
      return Ok(());
    }

    method ConsumeProxyTicket(hash: Digest, target: string, requirePrimary: bool, now: Time)
      returns (res: Result<ProxyTicket, TicketError>)
      modifies `proxyTickets
      ensures (View(), res) == ConsumeProxy(old(View()), hash, target, requirePrimary, now)
    {
      for index := 0 to |proxyTickets|
        invariant proxyTickets == old(proxyTickets)
        invariant forall j :: 0 <= j < index ==> !(proxyTickets[j].t.hash == hash && proxyTickets[j].t.target == target)
      {
        var record := proxyTickets[index];
        if record.t.hash != hash || record.t.target != target { continue; }
        assert index == ProxyIndex(proxyTickets, hash, target);
        if record.consumedAt.Some? { return Err(TicketNotFound); }
        if requirePrimary && !record.t.primary { return Err(TicketNotFound); }
        if record.t.expiresAt <= now { return Err(TicketExpired); }
        proxyTickets := proxyTickets[index := record.(consumedAt := Some(now))];
        return Ok(record.t);
      }
      return Err(TicketNotFound);
    }

    /** The three filters share their buffers with the lists they read; FilterInPlace shows that this is safe. */
    method DeleteServiceSessions(session: Id)
      modifies this
      ensures View() == DeleteSessions(old(View()), session)
    {
      sessions := Kept(sessions, (x: ServiceSession) => x.session != session);
      proxyGrantingTickets := Kept(proxyGrantingTickets, (x: ProxyGrantingTicket) => x.session != session);
      proxyTickets := Kept(proxyTickets, NotOf(session));
    }

    static method Kept<T>(s: seq<T>, keep: T -> bool) returns (r: seq<T>)
      ensures r == Filter(s, keep)
    {
      var buffer := new T[|s|](i requires 0 <= i < |s| => s[i]);
      assert buffer[..] == s;
      var m := FilterInPlace(buffer, keep);
      r := buffer[..m];
    }
  }
}
