/** The two repositories simulate each other, call by call and over whole sequences of calls. */
module GrantSimulation {
  import opened Prelude
  import opened Scopes
  import opened GrantStore
  import opened GrantInvariants
  import opened GrantSql

  /** Same answer, and related states afterwards. */
  ghost predicate Agree(m: MemReply, r: SqlReply) { m.answer == r.answer && Sim(m.store, r.tables) }

  // ---- Finding a row ----

  lemma CodeRow(codes: seq<CodeRecord>, table: map<Digest, CodeRecord>, hash: Digest)
    requires SimCodes(codes, table)
    ensures var i := CodeIndex(codes, hash);
            (hash in table <==> i < |codes|) &&
                (i < |codes| ==> codes[i].code.hash == hash && CodeSim(codes[i], table[hash]))
  {
  }

  lemma AccessRowOf(access: seq<AccessRecord>, table: map<Digest, AccessRow>, hash: Digest, client: Id, now: Time)
    requires SimAccess(access, table)
    ensures var i := AccessIndex(access, hash, client);
            (hash in table && table[hash].client == client <==> i < |access|)
            && (i < |access| ==> access[i].token.hash == hash && AccessSim(access[i], table[hash]))
    ensures var i := LiveAccessIndex(access, hash, now);
            (hash in table && table[hash].revokedAt.None? && now < table[hash].expiresAt <==> i < |access|)
            && (i < |access| ==> access[i].token.hash == hash && AccessSim(access[i], table[hash]))
  {
  }

  lemma RefreshRowOf(refresh: seq<RefreshRecord>, table: map<Digest, RefreshRow>, hash: Digest, client: Id)
    requires SimRefresh(refresh, table)
    ensures var i := RefreshIndex(refresh, hash);
            (hash in table <==> i < |refresh|) &&
                (i < |refresh| ==> refresh[i].token.hash == hash && RefreshSim(refresh[i], table[hash]))
    ensures var i := ClientRefreshIndex(refresh, hash, client);
            (hash in table && table[hash].client == client <==> i < |refresh|)
            && (i < |refresh| ==>
                  && refresh[i].token.hash == hash && refresh[i].token.client == client
                  && RefreshSim(refresh[i], table[hash]))
  {
  }

  lemma LiveRefreshRowOf(refresh: seq<RefreshRecord>, table: map<Digest, RefreshRow>, hash: Digest, now: Time)
    requires SimRefresh(refresh, table)
    ensures var i := LiveRefreshIndex(refresh, hash, now);
            (hash in table && table[hash].consumedAt.None? && table[hash].revokedAt.None? && now < table[hash].expiresAt
             <==> i < |refresh|)
            && (i < |refresh| ==> refresh[i].token.hash == hash && RefreshSim(refresh[i], table[hash]))
  {
  }

  lemma DeviceRowOf(devices: seq<Device>, table: map<Digest, DeviceRow>, hash: Digest, client: Id)
    requires SimDevices(devices, table)
    ensures var i := DeviceIndex(devices, hash, client);
            (hash in table && table[hash].client == client <==> i < |devices|)
            && (i < |devices| ==> devices[i].deviceHash == hash && DeviceSim(devices[i], table[hash]))
  {
  }

  /** User codes are unique, so the row the UPDATE hits is the pending grant the loop finds. */
  lemma DecidingRow(devices: seq<Device>, table: map<Digest, DeviceRow>, userHash: Digest, now: Time)
    requires SimDevices(devices, table)
    ensures var i := PendingDeviceIndex(devices, userHash, now);
            && (i < |devices| <==> exists h :: h in table && Deciding(table[h], userHash, now))
            && (forall h :: h in table && Deciding(table[h], userHash, now) ==>
                  i < |devices| && devices[i].deviceHash == h)
  {
  }

  lemma ConsentRowOf(consents: seq<Consent>, table: map<(Id, Id), ConsentRow>, user: Id, client: Id)
    requires SimConsents(consents, table)
    ensures var i := ConsentIndex(consents, user, client);
            && ((user, client) in table <==> i < |consents|)
            && (i < |consents| ==>
                  && consents[i].user == user && consents[i].client == client
                  && ConsentSim(consents[i], table[(user, client)]))
  {
  }

  // ---- Marking in place and appending keep a collection and its table related ----

  lemma CodesMarked(codes: seq<CodeRecord>, table: map<Digest, CodeRecord>, codes': seq<CodeRecord>,
                    table': map<Digest, CodeRecord>)
    requires SimCodes(codes, table) && |codes'| == |codes| && table'.Keys == table.Keys
    requires forall i :: 0 <= i < |codes| ==>
               codes'[i].code.hash == codes[i].code.hash && CodeSim(codes'[i], table'[codes[i].code.hash])
    ensures SimCodes(codes', table')
  {
  }

  lemma AccessMarked(access: seq<AccessRecord>, table: map<Digest, AccessRow>, access': seq<AccessRecord>,
                     table': map<Digest, AccessRow>)
    requires SimAccess(access, table) && |access'| == |access| && table'.Keys == table.Keys
    requires forall i :: 0 <= i < |access| ==>
               access'[i].token == access[i].token && AccessSim(access'[i], table'[access[i].token.hash])
    ensures SimAccess(access', table')
  {
  }

  lemma RefreshMarked(refresh: seq<RefreshRecord>, table: map<Digest, RefreshRow>, refresh': seq<RefreshRecord>,
                      table': map<Digest, RefreshRow>)
    requires SimRefresh(refresh, table) && |refresh'| == |refresh| && table'.Keys == table.Keys
    requires forall i :: 0 <= i < |refresh| ==>
               refresh'[i].token == refresh[i].token && RefreshSim(refresh'[i], table'[refresh[i].token.hash])
    ensures SimRefresh(refresh', table')
  {
    hide RefreshSim;
    forall h | h in table' ensures RefreshAt(refresh', h) {
      assert RefreshAt(refresh, h);
      var i :| 0 <= i < |refresh| && refresh[i].token.hash == h;
      assert refresh'[i].token.hash == h;
    }
  }

  lemma RefreshAppended(refresh: seq<RefreshRecord>, table: map<Digest, RefreshRow>, t: RefreshToken)
    requires SimRefresh(refresh, table) && t.user != "" && t.family != ""
    requires forall k :: 0 <= k < |refresh| ==> refresh[k].token.hash != t.hash
    requires forall k :: 0 <= k < |refresh| && refresh[k].token.family == t.family ==>
               refresh[k].token.client == t.client
    ensures SimRefresh(refresh + [RefreshRecord(t, None, None)], table[t.hash := RowOfRefresh(t)])
  {
    var refresh' := refresh + [RefreshRecord(t, None, None)];
    assert RefreshSim(RefreshRecord(t, None, None), RowOfRefresh(t));
    hide RefreshSim, RowOfRefresh;
    assert refresh'[|refresh|].token == t;
    forall h | h in table ensures RefreshAt(refresh', h) {
      assert RefreshAt(refresh, h);
      var i :| 0 <= i < |refresh| && refresh[i].token.hash == h;
      assert refresh'[i].token.hash == h;
    }
  }

  lemma DevicesMarked(devices: seq<Device>, table: map<Digest, DeviceRow>, devices': seq<Device>,
                      table': map<Digest, DeviceRow>)
    requires SimDevices(devices, table) && |devices'| == |devices| && table'.Keys == table.Keys
    requires forall i :: 0 <= i < |devices| ==>
               && devices'[i].deviceHash == devices[i].deviceHash && devices'[i].userHash == devices[i].userHash
               && DeviceSim(devices'[i], table'[devices[i].deviceHash])
    ensures SimDevices(devices', table')
  {
  }

  // ---- Bulk revocation ----

  predicate NamesSomeone(m: Matcher) {
    match m
    case OfSession(user, session) => user != "" && session != ""
    case OfUser(user, _) => user != ""
    case OfClient(_) => true
    case OfConsent(user, _) => user != ""
  }

  lemma MarkCodeAgrees(r: CodeRecord, row: CodeRecord, m: Matcher, now: Time)
    requires CodeSim(r, row)
    ensures CodeSim(RevokeCode(r, m, now), MarkCodeRow(row, m, now)) && RevokeCode(r, m, now).code == r.code
  {
  }

  lemma RevokeCodesAgrees(s: Store, q: Tables, m: Matcher, now: Time)
    requires SimCodes(s.codes, q.codes)
    ensures SimCodes(RevokeMatching(s, m, now).codes, SqlRevokeWhere(q, m, now).codes)
  {
    hide CodeSim, RevokeCode, MarkCodeRow;
    var t, p := RevokeMatching(s, m, now), SqlRevokeWhere(q, m, now);
    forall i | 0 <= i < |s.codes|
      ensures t.codes[i].code.hash == s.codes[i].code.hash && CodeSim(t.codes[i], p.codes[s.codes[i].code.hash])
    {
      MarkCodeAgrees(s.codes[i], q.codes[s.codes[i].code.hash], m, now);
    }
    CodesMarked(s.codes, q.codes, t.codes, p.codes);
  }

  lemma MarkAccessAgrees(r: AccessRecord, row: AccessRow, m: Matcher, now: Time)
    requires AccessSim(r, row) && NamesSomeone(m)
    ensures AccessSim(RevokeAccess(r, m, now), MarkAccessRow(row, m, now)) && RevokeAccess(r, m, now).token == r.token
  {
  }

  lemma RevokeAccessesAgrees(s: Store, q: Tables, m: Matcher, now: Time)
    requires SimAccess(s.access, q.access) && NamesSomeone(m)
    ensures SimAccess(RevokeMatching(s, m, now).access, SqlRevokeWhere(q, m, now).access)
  {
    hide AccessSim, RevokeAccess, MarkAccessRow;
    var t, p := RevokeMatching(s, m, now), SqlRevokeWhere(q, m, now);
    forall i | 0 <= i < |s.access|
      ensures t.access[i].token == s.access[i].token && AccessSim(t.access[i], p.access[s.access[i].token.hash])
    {
      MarkAccessAgrees(s.access[i], q.access[s.access[i].token.hash], m, now);
    }
    AccessMarked(s.access, q.access, t.access, p.access);
  }

  lemma MarkRefreshAgrees(r: RefreshRecord, row: RefreshRow, m: Matcher, now: Time)
    requires RefreshSim(r, row) && NamesSomeone(m) && r.token.user != ""
    ensures RefreshSim(RevokeRefresh(r, m, now), MarkRefreshRow(row, m, now)) &&
              RevokeRefresh(r, m, now).token == r.token
  {
  }

  lemma RevokeRefreshesAgrees(s: Store, q: Tables, m: Matcher, now: Time)
    requires SimRefresh(s.refresh, q.refresh) && NamesSomeone(m)
    ensures SimRefresh(RevokeMatching(s, m, now).refresh, SqlRevokeWhere(q, m, now).refresh)
  {
    hide RefreshSim, RevokeRefresh, MarkRefreshRow;
    var t, p := RevokeMatching(s, m, now), SqlRevokeWhere(q, m, now);
    forall i | 0 <= i < |s.refresh|
      ensures t.refresh[i].token == s.refresh[i].token && RefreshSim(t.refresh[i], p.refresh[s.refresh[i].token.hash])
    {
      MarkRefreshAgrees(s.refresh[i], q.refresh[s.refresh[i].token.hash], m, now);
    }
    RefreshMarked(s.refresh, q.refresh, t.refresh, p.refresh);
  }

  lemma DenyAgrees(d: Device, row: DeviceRow, m: Matcher)
    requires DeviceSim(d, row) && NamesSomeone(m)
    ensures DeviceSim(DenyDevice(d, m), DenyRow(row, m))
    ensures DenyDevice(d, m).deviceHash == d.deviceHash && DenyDevice(d, m).userHash == d.userHash
  {
  }

  lemma DenyDevicesAgrees(s: Store, q: Tables, m: Matcher, now: Time)
    requires SimDevices(s.devices, q.devices) && NamesSomeone(m)
    ensures SimDevices(DenyDevices(s, m).devices, SqlRevokeWhere(q, m, now).devices)
  {
    hide DeviceSim, DenyDevice, DenyRow;
    var t, p := DenyDevices(s, m), SqlRevokeWhere(q, m, now);
    forall i | 0 <= i < |s.devices|
      ensures t.devices[i].deviceHash == s.devices[i].deviceHash && t.devices[i].userHash == s.devices[i].userHash
      ensures DeviceSim(t.devices[i], p.devices[s.devices[i].deviceHash])
    {
      DenyAgrees(s.devices[i], q.devices[s.devices[i].deviceHash], m);
    }
    DevicesMarked(s.devices, q.devices, t.devices, p.devices);
  }

  lemma RevokeWhereAgrees(s: Store, q: Tables, m: Matcher, now: Time)
    requires Sim(s, q) && NamesSomeone(m)
    ensures Sim(DenyDevices(RevokeMatching(s, m, now), m), SqlRevokeWhere(q, m, now))
  {
    hide SimCodes, SimAccess, SimRefresh, SimDevices, SimConsents, RevokeCode, RevokeAccess, RevokeRefresh, DenyDevice,
         Where, WhereDevice;
    RevokeCodesAgrees(s, q, m, now);
    RevokeAccessesAgrees(s, q, m, now);
    RevokeRefreshesAgrees(s, q, m, now);
    DenyDevicesAgrees(RevokeMatching(s, m, now), q, m, now);
  }

  lemma RevokeSessionAgrees(s: Store, q: Tables, user: Id, session: Id, now: Time)
    requires Sim(s, q) && user != "" && session != ""
    ensures Sim(RevokeSessionTokens(s, user, session, now), SqlRevokeWhere(q, OfSession(user, session), now))
  {
    hide Sim, RevokeMatching, SqlRevokeWhere;
    RevokeWhereAgrees(s, q, OfSession(user, session), now);
    var t := RevokeSessionTokens(s, user, session, now);
    assert DenyDevices(t, OfSession(user, session)).devices == t.devices;
  }

  /** The client filter of the SQL revocation removes nothing: a family has one client. */
  lemma RevokeFamilyAgrees(s: Store, q: Tables, n: nat, client: Option<Id>, now: Time)
    requires Sim(s, q) && n < |s.refresh| && (client == None || client == Some(s.refresh[n].token.client))
    ensures Sim(RevokeFamily(s, s.refresh[n].token.family, now),
                SqlRevokeFamily(q, s.refresh[n].token.family, client, now))
  {
    hide SimCodes, SimAccess, SimRefresh, SimDevices, SimConsents;
    KillRefreshAgrees(s, q, n, client, now);
    KillAccessAgrees(s, q, s.refresh[n].token.family, client, now);
  }

  lemma KillAccessAgrees(s: Store, q: Tables, family: Id, client: Option<Id>, now: Time)
    requires SimAccess(s.access, q.access) && family != ""
    ensures SimAccess(RevokeFamily(s, family, now).access, SqlRevokeFamily(q, family, client, now).access)
  {
    var t, p := RevokeFamily(s, family, now), SqlRevokeFamily(q, family, client, now);
    forall i | 0 <= i < |s.access|
      ensures t.access[i].token == s.access[i].token && AccessSim(t.access[i], p.access[s.access[i].token.hash])
    {
      assert AccessSim(s.access[i], q.access[s.access[i].token.hash]);
    }
    AccessMarked(s.access, q.access, t.access, p.access);
  }

  lemma KillRefreshAgrees(s: Store, q: Tables, n: nat, client: Option<Id>, now: Time)
    requires SimRefresh(s.refresh, q.refresh) && n < |s.refresh| &&
               (client == None || client == Some(s.refresh[n].token.client))
    ensures SimRefresh(RevokeFamily(s, s.refresh[n].token.family, now).refresh,
                       SqlRevokeFamily(q, s.refresh[n].token.family, client, now).refresh)
    ensures s.refresh[n].token.family != ""
  {
    var family := s.refresh[n].token.family;
    var t, p := RevokeFamily(s, family, now), SqlRevokeFamily(q, family, client, now);
    forall i | 0 <= i < |s.refresh|
      ensures t.refresh[i].token == s.refresh[i].token && RefreshSim(t.refresh[i], p.refresh[s.refresh[i].token.hash])
    {
      KillAgrees(s.refresh[i], q.refresh[s.refresh[i].token.hash], s.refresh[n].token, client, now);
    }
    hide RefreshSim, KillRefresh, KillRefreshRow;
    RefreshMarked(s.refresh, q.refresh, t.refresh, p.refresh);
  }

  lemma KillAgrees(r: RefreshRecord, row: RefreshRow, t: RefreshToken, client: Option<Id>, now: Time)
    requires RefreshSim(r, row) && (client == None || client == Some(t.client))
    requires r.token.family == t.family ==> r.token.client == t.client
    ensures RefreshSim(KillRefresh(r, t.family, now), KillRefreshRow(row, t.family, client, now))
    ensures KillRefresh(r, t.family, now).token == r.token
  {
  }

  // ---- Codes ----

  lemma SaveCodeAgrees(s: Store, q: Tables, code: AuthorizationCode)
    requires Sim(s, q) && FreshCode(s, code.hash)
    ensures Sim(SaveCode(s, code), q.(codes := q.codes[code.hash := CodeRecord(code, None, None)]))
  {
    hide SimAccess, SimRefresh, SimDevices, SimConsents;
    var t := SaveCode(s, code);
    assert t.codes[|s.codes|].code == code;
    forall h | h in q.codes ensures CodeAt(t.codes, h) {
      assert CodeAt(s.codes, h);
      var i :| 0 <= i < |s.codes| && s.codes[i].code.hash == h;
      assert t.codes[i].code.hash == h;
    }
  }

  lemma OneCodeMarked(codes: seq<CodeRecord>, table: map<Digest, CodeRecord>, i: nat, r: CodeRecord, row: CodeRecord)
    requires SimCodes(codes, table) && i < |codes| && r.code.hash == codes[i].code.hash && CodeSim(r, row)
    ensures SimCodes(codes[i := r], table[r.code.hash := row])
  {
    hide CodeSim;
    CodesMarked(codes, table, codes[i := r], table[r.code.hash := row]);
  }

  lemma ConsumeCodeAgrees(s: Store, q: Tables, hash: Digest, client: Id, uri: string, challenge: string, now: Time)
    requires Sim(s, q)
    ensures var out := ConsumeCode(s, hash, client, uri, challenge, now);
            Agree(MemReply(out.store, CodeAnswer(out.res)), SqlConsumeCode(q, hash, client, uri, challenge, now))
  {
    hide SimCodes, SimAccess, SimRefresh, SimDevices, SimConsents;
    CodeRow(s.codes, q.codes, hash);
    var i := CodeIndex(s.codes, hash);
    if i < |s.codes| {
      OneCodeMarked(s.codes, q.codes, i, s.codes[i].(consumedAt := Some(now)), q.codes[hash].(consumedAt := Some(now)));
    }
  }

  // ---- Access tokens ----

  lemma SaveAccessAgrees(s: Store, q: Tables, token: AccessToken)
    requires Sim(s, q) && FreshAccess(s, token.hash)
    ensures Sim(SaveAccess(s, token), q.(access := q.access[token.hash := RowOfAccess(token)]))
  {
    hide SimCodes, SimRefresh, SimDevices, SimConsents;
    var t := SaveAccess(s, token);
    assert t.access[|s.access|].token == token;
    forall h | h in q.access ensures AccessAt(t.access, h) {
      assert AccessAt(s.access, h);
      var i :| 0 <= i < |s.access| && s.access[i].token.hash == h;
      assert t.access[i].token.hash == h;
    }
  }

  lemma OneAccessMarked(access: seq<AccessRecord>, table: map<Digest, AccessRow>, i: nat, r: AccessRecord,
                        row: AccessRow)
    requires SimAccess(access, table) && i < |access| && r.token == access[i].token && AccessSim(r, row)
    ensures SimAccess(access[i := r], table[r.token.hash := row])
  {
    hide AccessSim;
    AccessMarked(access, table, access[i := r], table[r.token.hash := row]);
  }

  lemma RevokeAccessAgrees(s: Store, q: Tables, hash: Digest, client: Id, now: Time)
    requires Sim(s, q)
    ensures var out := RevokeAccessToken(s, hash, client, now);
            Agree(MemReply(out.store, DoneAnswer(out.res)), SqlRevokeAccess(q, hash, client, now))
  {
    hide SimCodes, SimAccess, SimRefresh, SimDevices, SimConsents;
    AccessRowOf(s.access, q.access, hash, client, now);
    var i := AccessIndex(s.access, hash, client);
    if i < |s.access| {
      var row := q.access[hash].(revokedAt := Coalesce(q.access[hash].revokedAt, now));
      OneAccessMarked(s.access, q.access, i, s.access[i].(revokedAt := Some(now)), row);
      OneAccessMarked(s.access, q.access, i, s.access[i], q.access[hash]);
      if s.access[i].revokedAt.Some? { assert s.access[i := s.access[i]] == s.access && row == q.access[hash]; }
    }
  }

  // ---- Refresh tokens ----

  lemma SaveRefreshAgrees(s: Store, q: Tables, token: RefreshToken)
    requires Sim(s, q) && CallOk(s, SaveRefreshCall(token))
    ensures Sim(SaveRefresh(s, token), q.(refresh := q.refresh[token.hash := RowOfRefresh(token)]))
  {
    RefreshAppended(s.refresh, q.refresh, token);
    hide SimCodes, SimAccess, SimRefresh, SimDevices, SimConsents;
  }

  lemma RotatedAgrees(refresh: seq<RefreshRecord>, table: map<Digest, RefreshRow>, i: nat, next: Replacement, now: Time)
    requires SimRefresh(refresh, table) && i < |refresh| && next.client == refresh[i].token.client
    requires forall k :: 0 <= k < |refresh| ==> refresh[k].token.hash != next.hash
    ensures var r := refresh[i]; var t := Successor(r.token, next); var h := r.token.hash;
            SimRefresh(refresh[i := r.(consumedAt := Some(now))] + [RefreshRecord(t, None, None)],
                       table[h := table[h].(consumedAt := Some(now),
                                            replacedBy := Some(next.hash))][next.hash := RowOfRefresh(t)])
  {
    var r := refresh[i];
    var h := r.token.hash;
    var refresh' := refresh[i := r.(consumedAt := Some(now))];
    var table' := table[h := table[h].(consumedAt := Some(now), replacedBy := Some(next.hash))];
    RefreshMarked(refresh, table, refresh', table');
    RefreshAppended(refresh', table', Successor(r.token, next));
  }

  lemma RevokeRefreshAgrees(s: Store, q: Tables, hash: Digest, client: Id, now: Time)
    requires Sim(s, q)
    ensures var out := RevokeRefreshToken(s, hash, client, now);
            Agree(MemReply(out.store, DoneAnswer(out.res)), SqlRevokeRefresh(q, hash, client, now))
  {
    hide SimCodes, SimAccess, SimRefresh, SimDevices, SimConsents, RevokeFamily, SqlRevokeFamily;
    RefreshRowOf(s.refresh, q.refresh, hash, client);
    var i := ClientRefreshIndex(s.refresh, hash, client);
    if i < |s.refresh| { RevokeFamilyAgrees(s, q, i, Some(client), now); }
  }

  lemma RefreshRowHasUser(refresh: seq<RefreshRecord>, table: map<Digest, RefreshRow>, i: nat)
    requires SimRefresh(refresh, table) && i < |refresh|
    ensures refresh[i].token.user != "" && refresh[i].token.family != ""
  {
  }

  lemma RotateAgrees(s: Store, q: Tables, hash: Digest, next: Replacement, now: Time)
    requires Sim(s, q) && FreshRefresh(s, next.hash)
    ensures var out := RotateRefresh(s, hash, next, now);
            Agree(MemReply(out.store, RotateAnswer(out.res)), SqlRotate(q, hash, next, now))
  {
    hide SimCodes, SimAccess, SimRefresh, SimDevices, SimConsents, RevokeFamily, SqlRevokeFamily, ScopesCover,
         Successor;
    RefreshRowOf(s.refresh, q.refresh, hash, next.client);
    var i := RefreshIndex(s.refresh, hash);
    if i < |s.refresh| && s.refresh[i].token.client == next.client {
      RevokeFamilyAgrees(s, q, i, None, now);
      RefreshRowHasUser(s.refresh, q.refresh, i);
      assert RefreshOf(hash, q.refresh[hash]) == s.refresh[i].token;
      RotatedAgrees(s.refresh, q.refresh, i, next, now);
    }
  }

  // ---- Devices ----

  lemma SaveDeviceAgrees(s: Store, q: Tables, device: Device)
    requires Sim(s, q) && CallOk(s, SaveDeviceCall(device))
    ensures Sim(SaveDevice(s, device), q.(devices := q.devices[device.deviceHash := RowOfDevice(device)]))
  {
    hide SimCodes, SimAccess, SimRefresh, SimConsents;
    var t := SaveDevice(s, device);
    assert t.devices[|s.devices|] == device;
    forall h | h in q.devices ensures DeviceAt(t.devices, h) {
      assert DeviceAt(s.devices, h);
      var i :| 0 <= i < |s.devices| && s.devices[i].deviceHash == h;
      assert t.devices[i].deviceHash == h;
    }
  }

  lemma DecideAgrees(s: Store, q: Tables, userHash: Digest, user: Id, auth: AuthContext, approve: bool, now: Time)
    requires Sim(s, q) && user != ""
    ensures var out := DecideDevice(s, userHash, user, auth, approve, now);
            Agree(MemReply(out.store, DoneAnswer(out.res)), SqlDecide(q, userHash, user, auth, approve, now))
  {
    DecidingRow(s.devices, q.devices, userHash, now);
    var i := PendingDeviceIndex(s.devices, userHash, now);
    if i < |s.devices| {
      var h :| h in q.devices && Deciding(q.devices[h], userHash, now);
      assert h == s.devices[i].deviceHash && DeviceSim(s.devices[i], q.devices[h]);
      var status := if approve then DeviceApproved else DeviceDenied;
      var d, row := s.devices[i].(user := user, auth := auth, status := status),
          q.devices[h].(user := Some(user), auth := auth, status := status);
      OneDeviceMarked(s.devices, q.devices, i, d, row);
      var s1, q1 := s.(devices := s.devices[i := d]), q.(devices := q.devices[h := row]);
      hide SimCodes, SimAccess, SimRefresh, SimDevices, SimConsents, GrantConsent, SqlGrantConsent, DeviceSim,
           PendingDeviceIndex;
      assert Sim(s1, q1);
      GrantConsentAgrees(s1, q1, user, d.client, d.scope, now);
      assert d.scope == row.scope && d.client == row.client;
      var reply := SqlDecide(q, userHash, user, auth, approve, now);
      assert reply == SqlReply(if approve then SqlGrantConsent(q1, user, row.client, row.scope, now) else q1, Done);
    }
  }

  lemma PollAgrees(s: Store, q: Tables, hash: Digest, client: Id, now: Time)
    requires Sim(s, q) && CallOk(s, PollCall(hash, client))
    ensures var out := PollDevice(s, hash, client, now);
            Agree(MemReply(out.store, PollAnswer(out.res)), SqlPoll(q, hash, client, now))
  {
    hide SimCodes, SimAccess, SimRefresh, SimDevices, SimConsents, DeviceSim, PollAnswer;
    DeviceRowOf(s.devices, q.devices, hash, client);
    var i := DeviceIndex(s.devices, hash, client);
    if i < |s.devices| {
      PollRowAgrees(s, q, hash, client, now);
      var d, row := PollDevice(s, hash, client, now).store.devices[i],
          SqlPoll(q, hash, client, now).tables.devices[hash];
      hide PollDevice, SqlPoll;
      OneDeviceMarked(s.devices, q.devices, i, d, row);
    } else {
      assert PollAnswer(Err(NotFound)) == Refused by { PollNotFound(); }
    }
  }

  lemma PollNotFound()
    ensures PollAnswer(Err(NotFound)) == Refused
  {
  }

  /** Both polls touch only their own row, leave it alike, and give the same answer. */
  lemma PollRowAgrees(s: Store, q: Tables, hash: Digest, client: Id, now: Time)
    requires var i := DeviceIndex(s.devices, hash, client);
             && i < |s.devices| && hash in q.devices && q.devices[hash].client == client
             && DeviceSim(s.devices[i], q.devices[hash])
             && s.devices[i].deviceHash == hash && s.devices[i].status != DeviceConsumed
    ensures var i, out, reply := DeviceIndex(s.devices, hash, client), PollDevice(s, hash, client, now),
              SqlPoll(q, hash, client, now);
            && i < |out.store.devices| && hash in reply.tables.devices
            && PollAnswer(out.res) == reply.answer
            && (var d, row := out.store.devices[i], reply.tables.devices[hash];
                && out.store == s.(devices := s.devices[i := d])
                && reply.tables == q.(devices := q.devices[hash := row])
                && DeviceSim(d, row) && d.deviceHash == hash && d.userHash == s.devices[i].userHash)
  {
    hide DeviceIndex;
    var i := DeviceIndex(s.devices, hash, client);
    var d, row := PollDevice(s, hash, client, now).store.devices[i], SqlPoll(q, hash, client, now).tables.devices[hash];
    assert s.devices[i := s.devices[i]] == s.devices && q.devices[hash := q.devices[hash]] == q.devices;
  }

  lemma OneDeviceMarked(devices: seq<Device>, table: map<Digest, DeviceRow>, i: nat, d: Device, row: DeviceRow)
    requires SimDevices(devices, table) && i < |devices|
    requires d.deviceHash == devices[i].deviceHash && d.userHash == devices[i].userHash && DeviceSim(d, row)
    ensures SimDevices(devices[i := d], table[d.deviceHash := row])
  {
    DevicesMarked(devices, table, devices[i := d], table[d.deviceHash := row]);
  }

  // ---- Consents ----

  /** Setting the pair's consent on both sides, or adding it on both. */
  lemma OneConsentSet(consents: seq<Consent>, table: map<(Id, Id), ConsentRow>, consents': seq<Consent>, i: nat,
                      c: Consent, row: ConsentRow)
    requires SimConsents(consents, table) && i <= |consents| && ConsentSim(c, row) && ConsentsCanonical(consents')
    requires if i == |consents| then consents' == consents + [c]
             else consents' == consents[i := c] && consents[i].user == c.user && consents[i].client == c.client
    requires i == |consents| ==> (c.user, c.client) !in table
    ensures SimConsents(consents', table[(c.user, c.client) := row])
  {
    hide ConsentSim;
    var table', key := table[(c.user, c.client) := row], (c.user, c.client);
    forall j | 0 <= j < |consents'| ensures HasRow(consents'[j], table') {
      if j != i {
        assert HasRow(consents[j], table) && consents'[j] == consents[j];
        assert i < |consents| ==> (consents[j].user, consents[j].client) != key;
      }
    }
    hide ConsentsCanonical;
    forall k | k in table' ensures ConsentOf(consents', k) {
      if k == key {
        assert (consents'[i].user, consents'[i].client) == k;
      } else {
        assert ConsentOf(consents, k);
        var j :| 0 <= j < |consents| && (consents[j].user, consents[j].client) == k;
        assert (consents'[j].user, consents'[j].client) == k;
      }
    }
  }

  /** The first SQL grant keeps the list as given and the memory store sorts it: the same set either way. */
  lemma GrantConsentAgrees(s: Store, q: Tables, user: Id, client: Id, scopes: seq<string>, now: Time)
    requires Sim(s, q)
    ensures Sim(GrantConsent(s, user, client, scopes, now), SqlGrantConsent(q, user, client, scopes, now))
  {
    hide SimCodes, SimAccess, SimRefresh, SimDevices, ConsentsCanonical, Merge, Elems, Covered, ConsentsGrow,
         ScopesCover;
    ConsentRowOf(s.consents, q.consents, user, client);
    GrantConsentEffect(s, user, client, scopes, now);
    var i := ConsentIndex(s.consents, user, client);
    var t, p := GrantConsent(s, user, client, scopes, now), SqlGrantConsent(q, user, client, scopes, now);
    if i < |s.consents| {
      MergeIsSortedUnion(s.consents[i].scopes, scopes);
      MergeIsSortedUnion([], q.consents[(user, client)].scopes + scopes);
      ElemsConcat(q.consents[(user, client)].scopes, scopes);
    } else {
      MergeIsSortedUnion([], scopes);
    }
    assert Elems([]) == {} by { ElemsConcat([], []); }
    OneConsentSet(s.consents, q.consents, t.consents, i, t.consents[i], p.consents[(user, client)]);
    hide SimConsents;
  }

  /** Both return the consent as it is afterwards. */
  lemma GrantConsentAnswersAgree(s: Store, q: Tables, user: Id, client: Id, scopes: seq<string>, now: Time)
    requires Sim(s, q)
    ensures var t, p := GrantConsent(s, user, client, scopes, now), SqlGrantConsent(q, user, client, scopes, now);
            Agree(MemReply(t, ConsentAnswer(FindConsent(t, user, client))),
                  SqlReply(p, ConsentRowAnswer(p.consents[(user, client)])))
  {
    var t, p := GrantConsent(s, user, client, scopes, now), SqlGrantConsent(q, user, client, scopes, now);
    assert (user, client) in p.consents;
    GrantConsentAgrees(s, q, user, client, scopes, now);
    hide Sim, GrantConsent, SqlGrantConsent;
    FindAgrees(t, p, 0, user, client, now);
  }

  lemma ElemsConcat(a: seq<string>, b: seq<string>)
    ensures Elems(a + b) == Elems(a) + Elems(b) && Elems([]) == {}
  {
  }

  lemma WithoutConsent(consents: seq<Consent>, table: map<(Id, Id), ConsentRow>, i: nat)
    requires SimConsents(consents, table) && i < |consents|
    ensures SimConsents(consents[..i] + consents[i + 1..], table - {(consents[i].user, consents[i].client)})
  {
    var rest, gone := consents[..i] + consents[i + 1..], (consents[i].user, consents[i].client);
    hide ConsentSim, Sorted, NoDup;
    assert ConsentsCanonical(rest) by { hide HasRow, ConsentOf; }
    forall j | 0 <= j < |rest| ensures HasRow(rest[j], table - {gone}) {
      var o := if j < i then j else j + 1;
      assert rest[j] == consents[o] && HasRow(consents[o], table);
    }
    forall k | k in table - {gone} ensures ConsentOf(rest, k) {
      assert ConsentOf(consents, k);
      var j :| 0 <= j < |consents| && (consents[j].user, consents[j].client) == k;
      var r := if j < i then j else j - 1;
      assert rest[r] == consents[j];
    }
  }

  lemma DeleteConsentAgrees(s: Store, q: Tables, user: Id, client: Id, now: Time)
    requires Sim(s, q) && user != ""
    ensures var out := DeleteConsent(s, user, client, now);
            Agree(MemReply(out.store, DoneAnswer(out.res)), SqlDeleteConsent(q, user, client, now))
  {
    hide SimCodes, SimAccess, SimRefresh, SimDevices, SimConsents, RevokeMatching, DenyDevices, SqlRevokeWhere;
    ConsentRowOf(s.consents, q.consents, user, client);
    var i := ConsentIndex(s.consents, user, client);
    if i < |s.consents| {
      WithoutConsent(s.consents, q.consents, i);
      RevokeWhereAgrees(s.(consents := s.consents[..i] + s.consents[i + 1..]),
                        q.(consents := q.consents - {(user, client)}), OfConsent(user, client), now);
    }
  }

  // ---- Lookups ----

  lemma FindAgrees(s: Store, q: Tables, hash: Digest, user: Id, client: Id, now: Time)
    requires Sim(s, q)
    ensures Agree(MemReply(s, AccessAnswer(FindAccess(s, hash, now))), SqlFindAccess(q, hash, now))
    ensures Agree(MemReply(s, RefreshAnswer(FindRefresh(s, hash, now))), SqlFindRefresh(q, hash, now))
    ensures Agree(MemReply(s, ConsentAnswer(FindConsent(s, user, client))), SqlFindConsent(q, user, client))
  {
    hide SimCodes, SimAccess, SimRefresh, SimDevices, SimConsents;
    AccessRowOf(s.access, q.access, hash, "", now);
    LiveRefreshRowOf(s.refresh, q.refresh, hash, now);
    ConsentRowOf(s.consents, q.consents, user, client);
  }

  // ---- Every call, and every sequence of calls ----

  /** Related repositories answer every call alike and stay related. */
  lemma CallAgrees(s: Store, q: Tables, call: Call, now: Time)
    requires Sim(s, q) && CallOk(s, call)
    ensures Agree(MemCall(s, call, now), SqlCall(q, call, now))
  {
    hide Sim, SaveCode, ConsumeCode, SqlConsumeCode, SaveAccess, RevokeAccessToken, SqlRevokeAccess, SaveRefresh,
         RowOfAccess, RotateRefresh, SqlRotate, RevokeRefreshToken, SaveDevice, RowOfDevice, RowOfRefresh, DecideDevice,
         SqlDecide, PollDevice, SqlPoll, RevokeSessionTokens, RevokeMatching, DenyDevices, SqlRevokeWhere,
         SqlRevokeFamily, GrantConsent, SqlGrantConsent, DeleteConsent, SqlDeleteConsent, PollAnswer, RotateAnswer,
         CodeAnswer, DoneAnswer, FindAccess, FindRefresh, FindConsent, SqlFindAccess, SqlFindRefresh, SqlFindConsent,
         SqlRevokeRefresh;
    match call
    case SaveCodeCall(code) => SaveCodeAgrees(s, q, code);
    case ConsumeCodeCall(hash, client, uri, challenge) => ConsumeCodeAgrees(s, q, hash, client, uri, challenge, now);
    case SaveAccessCall(token) => SaveAccessAgrees(s, q, token);
    case FindAccessCall(hash) => FindAgrees(s, q, hash, "", "", now);
    case RevokeAccessCall(hash, client) => RevokeAccessAgrees(s, q, hash, client, now);
    case SaveRefreshCall(token) => SaveRefreshAgrees(s, q, token);
    case FindRefreshCall(hash) => FindAgrees(s, q, hash, "", "", now);
    case RotateCall(hash, next) => RotateAgrees(s, q, hash, next, now);
    case RevokeRefreshCall(hash, client) => RevokeRefreshAgrees(s, q, hash, client, now);
    case SaveDeviceCall(device) => SaveDeviceAgrees(s, q, device);
    case DecideCall(userHash, user, auth, approve) => DecideAgrees(s, q, userHash, user, auth, approve, now);
    case PollCall(hash, client) => PollAgrees(s, q, hash, client, now);
    case RevokeSessionCall(user, session) => RevokeSessionAgrees(s, q, user, session, now);
    case RevokeUserCall(user, exceptSession) => RevokeWhereAgrees(s, q, OfUser(user, exceptSession), now);
    case RevokeClientCall(client) => RevokeWhereAgrees(s, q, OfClient(client), now);
    case FindConsentCall(user, client) => FindAgrees(s, q, 0, user, client, now);
    case GrantConsentCall(user, client, scopes) => GrantConsentAnswersAgree(s, q, user, client, scopes, now);
    case DeleteConsentCall(user, client) => DeleteConsentAgrees(s, q, user, client, now);
  }

  /** The answers of a sequence of timed calls. */
  function MemAnswers(s: Store, calls: seq<(Call, Time)>): seq<Answer>
    decreases |calls|
  {
    if calls == [] then []
    else var m := MemCall(s, calls[0].0, calls[0].1); [m.answer] + MemAnswers(m.store, calls[1..])
  }

  ghost function SqlAnswers(q: Tables, calls: seq<(Call, Time)>): seq<Answer>
    decreases |calls|
  {
    if calls == [] then []
    else var m := SqlCall(q, calls[0].0, calls[0].1); [m.answer] + SqlAnswers(m.tables, calls[1..])
  }

  ghost predicate CallsOk(s: Store, calls: seq<(Call, Time)>)
    decreases |calls|
  {
    calls == [] || (CallOk(s, calls[0].0) && CallsOk(MemCall(s, calls[0].0, calls[0].1).store, calls[1..]))
  }

  lemma {:induction false} CallsAgree(s: Store, q: Tables, calls: seq<(Call, Time)>)
    requires Sim(s, q) && CallsOk(s, calls)
    ensures MemAnswers(s, calls) == SqlAnswers(q, calls)
    decreases |calls|
  {
    hide Sim, MemCall, SqlCall, CallOk;
    if calls != [] {
      CallAgrees(s, q, calls[0].0, calls[0].1);
      CallsAgree(MemCall(s, calls[0].0, calls[0].1).store, SqlCall(q, calls[0].0, calls[0].1).tables, calls[1..]);
    }
  }

  /** From empty repositories no sequence of calls tells the two apart. */
  lemma RepositoriesAreIndistinguishable(calls: seq<(Call, Time)>)
    requires CallsOk(EMPTY_STORE, calls)
    ensures MemAnswers(EMPTY_STORE, calls) == SqlAnswers(Tables(map[], map[], map[], map[], map[]), calls)
  {
    hide MemAnswers, SqlAnswers, CallsOk;
    CallsAgree(EMPTY_STORE, Tables(map[], map[], map[], map[], map[]), calls);
  }

  /**
   A poll of a used device code keeps the repositories related exactly when it is answered before the status is
   looked at: only the memory store records the time of such a poll.
   */
  lemma ConsumedPollAgreement(s: Store, q: Tables, hash: Digest, client: Id, now: Time)
    requires Sim(s, q)
    requires var i := DeviceIndex(s.devices, hash, client); i < |s.devices| && s.devices[i].status == DeviceConsumed
    ensures var d := s.devices[DeviceIndex(s.devices, hash, client)]; var out := PollDevice(s, hash, client, now);
            Agree(MemReply(out.store, PollAnswer(out.res)), SqlPoll(q, hash, client, now)) <==>
            d.expiresAt <= now || d.lastPollAt == Some(now)
            || (d.lastPollAt.Some? && now < d.lastPollAt.value + d.interval)
  {
    hide SimCodes, SimAccess, SimRefresh, SimDevices, SimConsents;
    DeviceRowOf(s.devices, q.devices, hash, client);
    var i := DeviceIndex(s.devices, hash, client);
    var t, p := PollDevice(s, hash, client, now).store, SqlPoll(q, hash, client, now).tables;
    var polled, row := t.devices[i], p.devices[hash];
    assert t == s.(devices := s.devices[i := polled]) && p == q.(devices := q.devices[hash := row]);
    if DeviceSim(polled, row) {
      OneDeviceMarked(s.devices, q.devices, i, polled, row);
    } else if SimDevices(t.devices, p.devices) {
      RowAt(t.devices, p.devices, i);
    }
  }

  lemma RowAt(devices: seq<Device>, table: map<Digest, DeviceRow>, i: nat)
    requires SimDevices(devices, table) && i < |devices|
    ensures devices[i].deviceHash in table && DeviceSim(devices[i], table[devices[i].deviceHash])
  {
  }
}
