/** The in-memory MFA repository: the loops and updates that carry out the repository operations of MfaStore. */
module MfaRepository {
  import opened Prelude
  import opened MfaStore
  import opened Sorting

  datatype Candidate = Candidate(key: Digest, lastUsed: Time)

  function KeysOf(c: seq<Candidate>): set<Digest> { set x | x in c :: x.key }

  function UsedFirst(): (Candidate, Candidate) -> bool { (a: Candidate, b: Candidate) => a.lastUsed <= b.lastUsed }

  lemma KeysNone()
    ensures KeysOf([]) == {}
  {
  }

  lemma KeysConcat(a: seq<Candidate>, b: seq<Candidate>)
    ensures KeysOf(a + b) == KeysOf(a) + KeysOf(b)
    ensures |b| == 1 ==> KeysOf(b) == {b[0].key}
  {
  }

  lemma {:induction false} KeysAtMost(c: seq<Candidate>)
    ensures |KeysOf(c)| <= |c|
  {
    if c != [] {
      var n := |c| - 1;
      KeysAtMost(c[..n]);
      assert c == c[..n] + [c[n]];
      KeysConcat(c[..n], [c[n]]);
    }
  }

  /** Of distinct keys in order of use, the first n are n keys, none used after a later one. */
  lemma OldestFirst(all: seq<Candidate>, n: nat, table: map<Digest, TrustedDevice>, user: Id)
    requires n <= |all| && Ordered(all, UsedFirst()) && KeysOf(all) == DevicesOf(table, user) && |all| == |KeysOf(all)|
    requires forall c :: c in all ==> c.key in table && c.lastUsed == table[c.key].lastUsedAt
    ensures var evicted := KeysOf(all[..n]);
            && evicted <= DevicesOf(table, user) && |evicted| == n
            && forall e, k :: e in evicted && k in DevicesOf(table, user) - evicted ==>
                 table[e].lastUsedAt <= table[k].lastUsedAt
  {
    var evicted := KeysOf(all[..n]);
    assert all == all[..n] + all[n..];
    KeysConcat(all[..n], all[n..]);
    KeysAtMost(all[..n]);
    KeysAtMost(all[n..]);
    forall e, k | e in evicted && k in DevicesOf(table,
                                                 user) - evicted ensures table[e].lastUsedAt <= table[k].lastUsedAt {
      var x :| x in all[..n] && x.key == e;
      var y :| y in all[n..] && y.key == k;
      var i :| 0 <= i < n && all[i] == x;
      var j :| n <= j < |all| && all[j] == y;
      assert UsedFirst()(all[i], all[j]);
    }
  }

  lemma SameKeys(a: seq<Candidate>, b: seq<Candidate>)
    requires multiset(a) == multiset(b)
    ensures |a| == |b| && KeysOf(a) == KeysOf(b) && forall x :: x in a ==> x in b
  {
    SameElements(a, b);
    forall x | x in a ensures x in b {
      var i :| 0 <= i < |a| && a[i] == x;
    }
    forall x | x in b ensures x in a {
      var i :| 0 <= i < |b| && b[i] == x;
    }
  }

  class MemoryRepository {
    var credentials: map<Id, Credential>
    var trustedDevices: map<Digest, TrustedDevice>

    ghost function View(): Mfa
      reads this
    {
      Mfa(credentials, trustedDevices)
    }

    constructor ()
      ensures View() == NO_MFA
    {
      credentials, trustedDevices := map[], map[];
    }

    method Find(user: Id) returns (found: Option<Credential>)
      ensures found == if user in credentials then Some(credentials[user]) else None
    {
      found := if user in credentials then Some(credentials[user]) else None;
    }

    method DeleteDevicesOf(user: Id) returns (deleted: nat)
      modifies `trustedDevices
      ensures View() == DropDevices(old(View()), user)
      ensures deleted == |DevicesOf(old(trustedDevices), user)|
    {
      deleted := 0;
      ghost var before, gone := trustedDevices, {};
      var keys := trustedDevices.Keys;
      while keys != {}
        invariant keys <= before.Keys
        invariant gone == set k | k in before && k !in keys && before[k].user == user
        invariant trustedDevices == before - gone && deleted == |gone|
        decreases |keys|
      {
        var key :| key in keys;
        keys := keys - {key};
        if trustedDevices[key].user == user {
          trustedDevices := trustedDevices - {key};
          gone := gone + {key};
          deleted := deleted + 1;
        }
      }
      assert gone == DevicesOf(before, user);
    }

    method ReplacePending(user: Id, secret: Secret, recovery: seq<Digest>)
      modifies this
      ensures View() == MfaStore.ReplacePending(old(View()), user, secret, recovery)
    {
      credentials := credentials[user := Credential(secret, false, None, 0, 0, None, recovery)];
      var _ := DeleteDevicesOf(user);
    }

    method Enable(user: Id, step: int, now: Time) returns (res: Result<(), MfaError>)
      modifies `credentials
      ensures user !in old(credentials) ==> res == Err(NotFound) && View() == old(View())
      ensures user in old(credentials) ==> res == Ok(()) && View() == EnableCredential(old(View()), user, step, now)
    {
      if user !in credentials { return Err(NotFound); }
      var value := credentials[user];
      value := value.(enabled := true, verifiedAt := Some(now), lastUsedStep := step, failedAttempts := 0,
                      lockedUntil := None);
      credentials := credentials[user := value];
      return Ok(());
    }

    method UseTOTP(user: Id, step: int) returns (res: Result<(), MfaError>)
      modifies `credentials
      ensures (View(), res) == UseTotp(old(View()), user, step)
    {
      if user !in credentials || !credentials[user].enabled { return Err(InvalidCode); }
      var value := credentials[user];
      if step <= value.lastUsedStep { return Err(Replay); }
      value := value.(lastUsedStep := step, failedAttempts := 0, lockedUntil := None);
      credentials := credentials[user := value];
      return Ok(());
    }

    method UseRecoveryCode(user: Id, hash: Digest) returns (res: Result<(), MfaError>)
      modifies `credentials
      ensures (View(), res) == MfaStore.UseRecoveryCode(old(View()), user, hash)
    {
      if user !in credentials || !credentials[user].enabled { return Err(InvalidCode); }
      var value := credentials[user];
      for index := 0 to |value.recoveryCodes|
        invariant credentials == old(credentials) && value == credentials[user]
        invariant hash !in value.recoveryCodes[..index]
      {
        if value.recoveryCodes[index] == hash {
          assert Without(value.recoveryCodes, hash) == value.recoveryCodes[..index] + value.recoveryCodes[index + 1..];
          value := value.(recoveryCodes := value.recoveryCodes[..index] + value.recoveryCodes[index + 1..],
                          failedAttempts := 0, lockedUntil := None);
          credentials := credentials[user := value];
          return Ok(());
        }
      }
      return Err(InvalidCode);
    }

    method RecordFailure(user: Id, attempts: nat, lock: Option<Time>) returns (res: Result<(), MfaError>)
      modifies `credentials
      ensures user !in old(credentials) ==> res == Err(NotFound) && View() == old(View())
      ensures user in old(credentials) ==>
                res == Ok(()) && View() == MfaStore.RecordFailure(old(View()), user, attempts, lock)
    {
      if user !in credentials { return Err(NotFound); }
      credentials := credentials[user := credentials[user].(failedAttempts := attempts, lockedUntil := lock)];
      return Ok(());
    }

    method ReplaceRecoveryCodes(user: Id, recovery: seq<Digest>) returns (res: Result<(), MfaError>)
      modifies `credentials
      ensures user !in old(credentials) ==> res == Err(NotFound) && View() == old(View())
      ensures user in old(credentials) && !old(credentials)[user].enabled ==>
                res == Err(NotEnabled) && View() == old(View())
      ensures Enrolled(old(View()), user) ==>
                res == Ok(()) && View() == MfaStore.ReplaceRecoveryCodes(old(View()), user, recovery)
    {
      if user !in credentials { return Err(NotFound); }
      if !credentials[user].enabled { return Err(NotEnabled); }
      credentials := credentials[user := credentials[user].(recoveryCodes := recovery)];
      return Ok(());
    }

    method Delete(user: Id) returns (res: Result<(), MfaError>)
      modifies this
      ensures user !in old(credentials) ==> res == Err(NotFound) && View() == old(View())
      ensures user in old(credentials) ==> res == Ok(()) && View() == DeleteCredential(old(View()), user)
    {
      if user !in credentials { return Err(NotFound); }
      credentials := credentials - {user};
      var _ := DeleteDevicesOf(user);
      return Ok(());
    }

    method DropExpired(user: Id, now: Time) returns (left: nat)
      modifies `trustedDevices
      ensures trustedDevices == Unexpired(old(trustedDevices), user, now)
      ensures left == |DevicesOf(trustedDevices, user)|
    {
      left := 0;
      ghost var before, kept: set<Digest> := trustedDevices, {};
      var keys := trustedDevices.Keys;
      while keys != {}
        invariant keys <= before.Keys
        invariant forall k :: k in trustedDevices <==>
                    k in before && (k in keys || !(before[k].user == user && before[k].expiresAt <= now))
        invariant forall k :: k in trustedDevices ==> trustedDevices[k] == before[k]
        invariant forall k :: k in kept <==>
                    k in before && k !in keys && before[k].user == user && now < before[k].expiresAt
        invariant left == |kept|
        decreases |keys|
      {
        var key :| key in keys;
        keys := keys - {key};
        if trustedDevices[key].user != user { continue; }
        if trustedDevices[key].expiresAt <= now {
          trustedDevices := trustedDevices - {key};
          continue;
        }
        kept := kept + {key};
        left := left + 1;
      }
      assert kept == DevicesOf(trustedDevices, user);
    }

    /** A user's devices with their last use, in no particular order. */
    method Candidates(user: Id) returns (devices: seq<Candidate>)
      ensures KeysOf(devices) == DevicesOf(trustedDevices, user) && |devices| == |KeysOf(devices)|
      ensures forall c :: c in devices ==> c.key in trustedDevices && c.lastUsed == trustedDevices[c.key].lastUsedAt
    {
      hide KeysOf;
      devices := [];
      KeysNone();
      var keys := trustedDevices.Keys;
      while keys != {}
        invariant keys <= trustedDevices.Keys
        invariant KeysOf(devices) == set k | k in trustedDevices && k !in keys && trustedDevices[k].user == user
        invariant |devices| == |KeysOf(devices)|
        invariant forall c :: c in devices ==> c.key in trustedDevices && c.lastUsed == trustedDevices[c.key].lastUsedAt
        decreases |keys|
      {
        var key :| key in keys;
        keys := keys - {key};
        if trustedDevices[key].user == user {
          KeysConcat(devices, [Candidate(key, trustedDevices[key].lastUsedAt)]);
          devices := devices + [Candidate(key, trustedDevices[key].lastUsedAt)];
        }
      }
    }

    /** Removes a user's surplus devices, least recently used first. */
    method Evict(user: Id) returns (ghost evicted: set<Digest>)
      modifies `trustedDevices
      ensures trustedDevices == old(trustedDevices) - evicted
      ensures evicted <= DevicesOf(old(trustedDevices), user)
      ensures |evicted| == Max(0, |DevicesOf(old(trustedDevices), user)| - DEVICE_MAX)
      ensures forall e, k :: e in evicted && k in DevicesOf(old(trustedDevices), user) - evicted ==>
                old(trustedDevices)[e].lastUsedAt <= old(trustedDevices)[k].lastUsedAt
    {
      var unsorted := Candidates(user);
      var all := SortBy(unsorted, UsedFirst());
      SameKeys(all, unsorted);
      ghost var table := trustedDevices;
      var n := 0;
      evicted := {};
      while |all| - n > DEVICE_MAX
        invariant 0 <= n <= Max(0, |all| - DEVICE_MAX)
        invariant evicted == KeysOf(all[..n])
        invariant trustedDevices == table - evicted
      {
        assert all[..n + 1] == all[..n] + [all[n]];
        KeysConcat(all[..n], [all[n]]);
        trustedDevices := trustedDevices - {all[n].key};
        evicted := evicted + {all[n].key};
        n := n + 1;
      }
      OldestFirst(all, n, table, user);
    }

    method StoreTrustedDevice(token: Digest, device: TrustedDevice)
      returns (res: Result<(), MfaError>, ghost evicted: set<Digest>)
      modifies `trustedDevices
      ensures res.Ok? ==> EvictionOk(old(View()), token, device, evicted)
      ensures (View(), res) == StoreDevice(old(View()), token, device, evicted)
    {
      if device.user !in credentials { return Err(NotFound), {}; }
      if !credentials[device.user].enabled { return Err(NotEnabled), {}; }
      var _ := DropExpired(device.user, device.createdAt);
      trustedDevices := trustedDevices[token := device];
      evicted := Evict(device.user);
      res := Ok(());
    }

    method RotateTrustedDevice(user: Id, token: Digest, replacement: Digest, agent: Digest, now: Time)
      returns (res: Result<Time, MfaError>)
      modifies `trustedDevices
      ensures (View(), res) == RotateDevice(old(View()), user, token, replacement, agent, now)
    {
      if token !in trustedDevices || trustedDevices[token].user != user || trustedDevices[token].agent != agent {
        return Err(DeviceNotFound);
      }
      var device := trustedDevices[token];
      if device.expiresAt <= now {
        trustedDevices := trustedDevices - {token};
        return Err(DeviceNotFound);
      }
      trustedDevices := trustedDevices - {token};
      device := device.(lastUsedAt := now);
      trustedDevices := trustedDevices[replacement := device];
      return Ok(device.expiresAt);
    }
  }
}
