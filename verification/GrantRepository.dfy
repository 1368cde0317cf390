/** The in-memory repository: the loops and in-place updates that carry out the operations of GrantStore. */
module GrantRepository {
  import opened Prelude
  import opened Scopes
  import opened GrantStore

  class MemoryRepository {
    var codes: seq<CodeRecord>
    var accessTokens: seq<AccessRecord>
    var refresh: seq<RefreshRecord>
    var devices: seq<Device>
    var consents: seq<Consent>

    ghost function View(): Store
      reads this
    {
      Store(codes, accessTokens, refresh, devices, consents)
    }

    constructor ()
      ensures View() == EMPTY_STORE
    {
      codes, accessTokens, refresh, devices, consents := [], [], [], [], [];
    }

    method SaveAuthorizationCode(value: AuthorizationCode)
      modifies `codes
      ensures View() == SaveCode(old(View()), value)
    {
      codes := codes + [CodeRecord(value, None, None)];
    }

    method ConsumeAuthorizationCode(hash: Digest, client: Id, redirectURI: string, challenge: string, now: Time)
      returns (res: Result<AuthorizationCode, GrantError>)
      modifies `codes
      ensures Out(View(), res) == ConsumeCode(old(View()), hash, client, redirectURI, challenge, now)
    {
      for index := 0 to |codes|
        invariant codes == old(codes)
        invariant forall j :: 0 <= j < index ==> codes[j].code.hash != hash
      {
        var record := codes[index];
        if record.code.hash != hash { continue; }
        assert index == CodeIndex(codes, hash);
        if record.code.client != client || record.code.redirectURI != redirectURI ||
            record.code.challenge != challenge {
          return Err(NotFound);
        }
        if record.consumedAt.Some? { return Err(Consumed); }
        if record.revokedAt.Some? { return Err(NotFound); }
        if record.code.expiresAt <= now { return Err(Expired); }
        codes := codes[index := record.(consumedAt := Some(now))];
        return Ok(record.code);
      }
      return Err(NotFound);
    }

    method SaveAccessToken(value: AccessToken)
      modifies `accessTokens
      ensures View() == SaveAccess(old(View()), value)
    {
      accessTokens := accessTokens + [AccessRecord(value, None)];
    }

    method FindAccessToken(hash: Digest, now: Time) returns (res: Result<AccessToken, GrantError>)
      ensures res == FindAccess(View(), hash, now)
    {
      for index := 0 to |accessTokens|
        invariant forall j :: 0 <= j < index ==>
                    !(accessTokens[j].token.hash == hash && accessTokens[j].revokedAt.None? &&
                        now < accessTokens[j].token.expiresAt)
      {
        var record := accessTokens[index];
        if record.token.hash == hash && record.revokedAt.None? && now < record.token.expiresAt {
          return Ok(record.token);
        }
      }
      return Err(NotFound);
    }

    method RevokeAccessToken(hash: Digest, client: Id, now: Time) returns (res: Result<(), GrantError>)
      modifies `accessTokens
      ensures Out(View(), res) == GrantStore.RevokeAccessToken(old(View()), hash, client, now)
    {
      for index := 0 to |accessTokens|
        invariant accessTokens == old(accessTokens)
        invariant forall j :: 0 <= j < index ==>
                    !(accessTokens[j].token.hash == hash && accessTokens[j].token.client == client)
      {
        var record := accessTokens[index];
        if record.token.hash == hash && record.token.client == client {
          if record.revokedAt.None? {
            accessTokens := accessTokens[index := record.(revokedAt := Some(now))];
          }
          return Ok(());
        }
      }
      return Err(NotFound);
    }

    method SaveRefreshToken(value: RefreshToken)
      modifies `refresh
      ensures View() == SaveRefresh(old(View()), value)
    {
      refresh := refresh + [RefreshRecord(value, None, None)];
    }

    method FindRefreshToken(hash: Digest, now: Time) returns (res: Result<RefreshToken, GrantError>)
      ensures res == FindRefresh(View(), hash, now)
    {
      for index := 0 to |refresh|
        invariant forall j :: 0 <= j < index ==>
                    !(refresh[j].token.hash == hash && refresh[j].consumedAt.None? && refresh[j].revokedAt.None?
                      && now < refresh[j].token.expiresAt)
      {
        var record := refresh[index];
        if record.token.hash == hash && record.consumedAt.None? && record.revokedAt.None? &&
            now < record.token.expiresAt {
          return Ok(record.token);
        }
      }
      return Err(NotFound);
    }

    /** Marks every refresh and access token of one family. */
    method RevokeFamilyTokens(family: Id, now: Time)
      modifies `refresh, `accessTokens
      ensures View() == RevokeFamily(old(View()), family, now)
    {
      for index := 0 to |refresh|
        invariant |refresh| == |old(refresh)| && accessTokens == old(accessTokens)
        invariant forall j :: 0 <= j < index ==> refresh[j] == KillRefresh(old(refresh)[j], family, now)
        invariant forall j :: index <= j < |refresh| ==> refresh[j] == old(refresh)[j]
      {
        if refresh[index].token.family == family {
          refresh := refresh[index := refresh[index].(revokedAt := Some(now))];
        }
      }
      for index := 0 to |accessTokens|
        invariant |accessTokens| == |old(accessTokens)| && refresh == RevokeFamily(old(View()), family, now).refresh
        invariant forall j :: 0 <= j < index ==> accessTokens[j] == KillAccess(old(accessTokens)[j], family, now)
        invariant forall j :: index <= j < |accessTokens| ==> accessTokens[j] == old(accessTokens)[j]
      {
        if accessTokens[index].token.family == family {
          accessTokens := accessTokens[index := accessTokens[index].(revokedAt := Some(now))];
        }
      }
    }

    method RotateRefreshToken(hash: Digest, replacement: Replacement, now: Time)
      returns (res: Result<RefreshToken, GrantError>)
      modifies `refresh, `accessTokens
      ensures Out(View(), res) == RotateRefresh(old(View()), hash, replacement, now)
    {
      for index := 0 to |refresh|
        invariant refresh == old(refresh) && accessTokens == old(accessTokens)
        invariant forall j :: 0 <= j < index ==> refresh[j].token.hash != hash
      {
        var record := refresh[index];
        if record.token.hash != hash { continue; }
        assert index == RefreshIndex(refresh, hash);
        if record.token.client != replacement.client { return Err(NotFound); }
        if record.revokedAt.Some? || record.consumedAt.Some? {
          RevokeFamilyTokens(record.token.family, now);
          return Err(Reuse);
        }
        if record.token.expiresAt <= now { return Err(Expired); }
        var next := Successor(record.token, replacement);
        if !ScopesCover(record.token.scope, next.scope) { return Err(InvalidScope); }
        refresh := refresh[index := record.(consumedAt := Some(now))];
        refresh := refresh + [RefreshRecord(next, None, None)];
        return Ok(record.token);
      }
      return Err(NotFound);
    }

    method RevokeRefreshToken(hash: Digest, client: Id, now: Time) returns (res: Result<(), GrantError>)
      modifies `refresh, `accessTokens
      ensures Out(View(), res) == GrantStore.RevokeRefreshToken(old(View()), hash, client, now)
    {
      for index := 0 to |refresh|
        invariant refresh == old(refresh) && accessTokens == old(accessTokens)
        invariant forall j :: 0 <= j < index ==> !(refresh[j].token.hash == hash && refresh[j].token.client == client)
      {
        var record := refresh[index];
        if record.token.hash != hash || record.token.client != client { continue; }
        assert index == ClientRefreshIndex(refresh, hash, client);
        RevokeFamilyTokens(record.token.family, now);
        return Ok(());
      }
      return Err(NotFound);
    }

    method SaveDeviceAuthorization(value: Device)
      modifies `devices
      ensures View() == SaveDevice(old(View()), value)
    {
      devices := devices + [value];
    }

    method FindDeviceByUserCode(userHash: Digest, now: Time) returns (res: Result<Device, GrantError>)
      ensures res == GrantStore.FindDeviceByUserCode(View(), userHash, now)
    {
      for index := 0 to |devices|
        invariant forall j :: 0 <= j < index ==>
                    !(devices[j].userHash == userHash && now < devices[j].expiresAt &&
                        devices[j].status == DevicePending)
      {
        var value := devices[index];
        if value.userHash == userHash && now < value.expiresAt && value.status == DevicePending {
          return Ok(value);
        }
      }
      return Err(NotFound);
    }

    method DecideDeviceAuthorization(userHash: Digest, user: Id, auth: AuthContext, approve: bool, now: Time)
      returns (res: Result<(), GrantError>)
      modifies `devices, `consents
      ensures Out(View(), res) == DecideDevice(old(View()), userHash, user, auth, approve, now)
    {
      for index := 0 to |devices|
        invariant devices == old(devices) && consents == old(consents)
        invariant forall j :: 0 <= j < index ==>
                    !(devices[j].userHash == userHash && now < devices[j].expiresAt &&
                        devices[j].status == DevicePending)
      {
        var value := devices[index];
        if value.userHash == userHash && now < value.expiresAt && value.status == DevicePending {
          assert index == PendingDeviceIndex(devices, userHash, now);
          value := value.(user := user, auth := auth);
          if approve {
            value := value.(status := DeviceApproved);
            devices := devices[index := value];
            var _ := GrantConsent(user, value.client, value.scope, now);
          } else {
            value := value.(status := DeviceDenied);
            devices := devices[index := value];
          }
          return Ok(());
        }
      }
      return Err(NotFound);
    }

    method PollDeviceAuthorization(deviceHash: Digest, client: Id, now: Time) returns (res: Result<Device, GrantError>)
      modifies `devices
      ensures Out(View(), res) == PollDevice(old(View()), deviceHash, client, now)
    {
      for index := 0 to |devices|
        invariant devices == old(devices)
        invariant forall j :: 0 <= j < index ==> !(devices[j].deviceHash == deviceHash && devices[j].client == client)
      {
        var value := devices[index];
        if value.deviceHash != deviceHash || value.client != client { continue; }
        assert index == DeviceIndex(devices, deviceHash, client);
        if value.expiresAt <= now { return Err(Expired); }
        if value.lastPollAt.Some? && now < value.lastPollAt.value + value.interval {
          value := value.(interval := value.interval + 5 * SECOND, lastPollAt := Some(now));
          devices := devices[index := value];
          return Err(SlowDown);
        }
        value := value.(lastPollAt := Some(now));
        devices := devices[index := value];
        match value.status {
          case DevicePending => return Err(Pending);
          case DeviceDenied => return Err(Denied);
          case DeviceConsumed => return Err(Consumed);
          case DeviceApproved =>
            value := value.(status := DeviceConsumed);
            devices := devices[index := value];
            return Ok(value);
        }
      }
      return Err(NotFound);
    }

    /** Revokes the codes, access tokens and refresh tokens the matcher reaches. */
    method RevokeMatchingTokens(m: Matcher, now: Time)
      modifies `codes, `accessTokens, `refresh
      ensures View() == RevokeMatching(old(View()), m, now)
    {
      for index := 0 to |codes|
        invariant |codes| == |old(codes)| && accessTokens == old(accessTokens) && refresh == old(refresh)
        invariant forall j :: 0 <= j < index ==> codes[j] == RevokeCode(old(codes)[j], m, now)
        invariant forall j :: index <= j < |codes| ==> codes[j] == old(codes)[j]
      {
        var record := codes[index];
        if m.Matches(record.code.user, record.code.session, record.code.client) && record.revokedAt.None? {
          codes := codes[index := record.(revokedAt := Some(now))];
        }
      }
      for index := 0 to |accessTokens|
        invariant |accessTokens| == |old(accessTokens)| && refresh == old(refresh)
        invariant codes == RevokeMatching(old(View()), m, now).codes
        invariant forall j :: 0 <= j < index ==> accessTokens[j] == RevokeAccess(old(accessTokens)[j], m, now)
        invariant forall j :: index <= j < |accessTokens| ==> accessTokens[j] == old(accessTokens)[j]
      {
        var record := accessTokens[index];
        if m.Matches(record.token.user, record.token.session, record.token.client) && record.revokedAt.None? {
          accessTokens := accessTokens[index := record.(revokedAt := Some(now))];
        }
      }
      for index := 0 to |refresh|
        invariant |refresh| == |old(refresh)|
        invariant codes == RevokeMatching(old(View()), m, now).codes
        invariant accessTokens == RevokeMatching(old(View()), m, now).access
        invariant forall j :: 0 <= j < index ==> refresh[j] == RevokeRefresh(old(refresh)[j], m, now)
        invariant forall j :: index <= j < |refresh| ==> refresh[j] == old(refresh)[j]
      {
        var record := refresh[index];
        if m.Matches(record.token.user, record.token.session, record.token.client) && record.revokedAt.None? {
          refresh := refresh[index := record.(revokedAt := Some(now))];
        }
      }
    }

    method RevokeSessionTokens(user: Id, session: Id, now: Time)
      modifies `codes, `accessTokens, `refresh
      ensures View() == GrantStore.RevokeSessionTokens(old(View()), user, session, now)
    {
      RevokeMatchingTokens(OfSession(user, session), now);
    }

    method RevokeUserTokens(user: Id, exceptSession: Id, now: Time)
      modifies `codes, `accessTokens, `refresh, `devices
      ensures View() == GrantStore.RevokeUserTokens(old(View()), user, exceptSession, now)
    {
      RevokeMatchingTokens(OfUser(user, exceptSession), now);
      ghost var revoked := View();
      for index := 0 to |devices|
        invariant codes == revoked.codes && accessTokens == revoked.access && refresh == revoked.refresh
        invariant |devices| == |revoked.devices|
        invariant forall j :: 0 <= j < index ==>
                    devices[j] == DenyDevice(revoked.devices[j], OfUser(user, exceptSession))
        invariant forall j :: index <= j < |devices| ==> devices[j] == revoked.devices[j]
      {
        if devices[index].user == user && devices[index].status == DeviceApproved {
          devices := devices[index := devices[index].(status := DeviceDenied)];
        }
      }
    }

    method RevokeClientTokens(client: Id, now: Time)
      modifies `codes, `accessTokens, `refresh, `devices
      ensures View() == GrantStore.RevokeClientTokens(old(View()), client, now)
    {
      RevokeMatchingTokens(OfClient(client), now);
      ghost var revoked := View();
      for index := 0 to |devices|
        invariant codes == revoked.codes && accessTokens == revoked.access && refresh == revoked.refresh
        invariant |devices| == |revoked.devices|
        invariant forall j :: 0 <= j < index ==> devices[j] == DenyDevice(revoked.devices[j], OfClient(client))
        invariant forall j :: index <= j < |devices| ==> devices[j] == revoked.devices[j]
      {
        if devices[index].client == client &&
            (devices[index].status == DevicePending || devices[index].status == DeviceApproved) {
          devices := devices[index := devices[index].(status := DeviceDenied)];
        }
      }
    }

    method FindConsent(user: Id, client: Id) returns (res: Result<Consent, GrantError>)
      ensures res == GrantStore.FindConsent(View(), user, client)
    {
      for index := 0 to |consents|
        invariant forall j :: 0 <= j < index ==> !(consents[j].user == user && consents[j].client == client)
      {
        if consents[index].user == user && consents[index].client == client {
          return Ok(consents[index]);
        }
      }
      return Err(ConsentNotFound);
    }

    method GrantConsent(user: Id, client: Id, scopes: seq<string>, now: Time) returns (granted: Consent)
      modifies `consents
      ensures View() == GrantStore.GrantConsent(old(View()), user, client, scopes, now)
      ensures GrantStore.FindConsent(View(), user, client) == Ok(granted)
    {
      for index := 0 to |consents|
        invariant consents == old(consents)
        invariant forall j :: 0 <= j < index ==> !(consents[j].user == user && consents[j].client == client)
      {
        if consents[index].user == user && consents[index].client == client {
          assert index == ConsentIndex(consents, user, client);
          var merged := MergeScopes(consents[index].scopes, scopes);
          granted := consents[index].(scopes := merged, updatedAt := now);
          consents := consents[index := granted];
          ConsentIndexIs(consents, user, client, index);
          return;
        }
      }
      var merged := MergeScopes([], scopes);
      granted := Consent(user, client, merged, now, now);
      consents := consents + [granted];
      ConsentIndexIs(consents, user, client, |old(consents)|);
    }

    method DeleteConsent(user: Id, client: Id, now: Time) returns (res: Result<(), GrantError>)
      modifies this
      ensures Out(View(), res) == GrantStore.DeleteConsent(old(View()), user, client, now)
    {
      for index := 0 to |consents|
        invariant View() == old(View())
        invariant forall j :: 0 <= j < index ==> !(consents[j].user == user && consents[j].client == client)
      {
        if consents[index].user == user && consents[index].client == client {
          assert index == ConsentIndex(consents, user, client);
          consents := consents[..index] + consents[index + 1..];
          RevokeMatchingTokens(OfConsent(user, client), now);
          ghost var revoked := View();
          for deviceIndex := 0 to |devices|
            invariant revoked.(devices := devices) == View()
            invariant |devices| == |revoked.devices|
            invariant forall j :: 0 <= j < deviceIndex ==>
                        devices[j] == DenyDevice(revoked.devices[j], OfConsent(user, client))
            invariant forall j :: deviceIndex <= j < |devices| ==> devices[j] == revoked.devices[j]
          {
            if devices[deviceIndex].user == user && devices[deviceIndex].client == client
               && devices[deviceIndex].status == DeviceApproved {
              devices := devices[deviceIndex := devices[deviceIndex].(status := DeviceDenied)];
            }
          }
          return Ok(());
        }
      }
      return Err(ConsentNotFound);
    }
  }
}
