/**
 What survives when handlers are not atomic: their repository calls, in any order and by any number of handlers, with
 nothing assumed but fresh draws.
 */
module Interleaving {
  import opened Prelude
  import opened Scopes
  import opened GrantStore
  import opened GrantInvariants
  import opened GrantSql

  /** The draws of a call are new: its digest, and the family that a first refresh token starts. */
  ghost predicate FreshCall(s: Store, call: Call) {
    match call
    case SaveCodeCall(code) => FreshCode(s, code.hash)
    case SaveAccessCall(token) => FreshAccess(s, token.hash)
    case SaveRefreshCall(token) => FreshRefresh(s, token.hash) && FreshFamily(s.(access := []), token.family)
    case RotateCall(_, next) => FreshRefresh(s, next.hash)
    case SaveDeviceCall(device) => FreshDevice(s, device.deviceHash)
    case _ => true
  }

  /** The store after the calls, each with its time. */
  function After(calls: seq<(Call, Time)>): Store {
    if calls == [] then EMPTY_STORE
    else var n := |calls| - 1; MemCall(After(calls[..n]), calls[n].0, calls[n].1).store
  }

  ghost predicate FreshCalls(calls: seq<(Call, Time)>) {
    calls == [] || (var n := |calls| - 1; FreshCalls(calls[..n]) && FreshCall(After(calls[..n]), calls[n].0))
  }

  function AnswerAt(calls: seq<(Call, Time)>, i: nat): Answer
    requires i < |calls|
  {
    MemCall(After(calls[..i]), calls[i].0, calls[i].1).answer
  }

  // ---- Each call ----

  lemma CallEvolves(s: Store, call: Call, now: Time)
    ensures Evolves(s, MemCall(s, call, now).store)
  {
    EvolvesSelf(s);
    hide Evolves, RevokeMatching, DenyDevices, GrantConsent;
    match call
    case SaveCodeCall(code) => SavesEvolve(s, call, now);
    case ConsumeCodeCall(hash, client, uri, challenge) => ConsumeCodeEvolves(s, hash, client, uri, challenge, now);
    case SaveAccessCall(token) => SavesEvolve(s, call, now);
    case FindAccessCall(hash) =>
    case RevokeAccessCall(hash, client) => RevokeAccessTokenEvolves(s, hash, client, now);
    case SaveRefreshCall(token) => SavesEvolve(s, call, now);
    case FindRefreshCall(hash) =>
    case RotateCall(hash, next) => RotateEvolves(s, hash, next, now);
    case RevokeRefreshCall(hash, client) => RevokeRefreshTokenEvolves(s, hash, client, now);
    case SaveDeviceCall(device) => SavesEvolve(s, call, now);
    case DecideCall(userHash, user, auth, approve) => DecideDeviceEvolves(s, userHash, user, auth, approve, now);
    case PollCall(hash, client) => PollDeviceEvolves(s, hash, client, now);
    case RevokeSessionCall(user, session) => RevokeMatchingEvolves(s, OfSession(user, session), now);
    case RevokeUserCall(user, exceptSession) => RevokeMatchingEvolves(s, OfUser(user, exceptSession), now);
    case RevokeClientCall(client) => RevokeMatchingEvolves(s, OfClient(client), now);
    case FindConsentCall(user, client) =>
    case GrantConsentCall(user, client, scopes) => GrantConsentEvolves(s, user, client, scopes, now);
    case DeleteConsentCall(user, client) => DeleteConsentEvolves(s, user, client, now);
  }

  lemma SavesEvolve(s: Store, call: Call, now: Time)
    requires call.SaveCodeCall? || call.SaveAccessCall? || call.SaveRefreshCall? || call.SaveDeviceCall?
    ensures Evolves(s, MemCall(s, call, now).store)
  {
  }

  lemma CallKeepsChains(s: Store, call: Call, now: Time)
    requires Chains(s.refresh) && FreshCall(s, call)
    ensures Chains(MemCall(s, call, now).store.refresh)
  {
    hide Chains, FreshRefresh, Covered;
    match call
    case SaveRefreshCall(token) => SaveRefreshKeepsChains(s.refresh, token);
    case RotateCall(hash, next) => RotateKeepsChains(s, hash, next, now);
    case RevokeRefreshCall(hash, client) =>
      var i := ClientRefreshIndex(s.refresh, hash, client);
      if i < |s.refresh| { RevokeFamilyKeepsChains(s, s.refresh[i].token.family, now); }
    case RevokeSessionCall(user, session) => RevokeMatchingKeepsChains(s, OfSession(user, session), now);
    case RevokeUserCall(user, exceptSession) => RevokeMatchingKeepsChains(s, OfUser(user, exceptSession), now);
    case RevokeClientCall(client) => RevokeMatchingKeepsChains(s, OfClient(client), now);
    case DeleteConsentCall(user, client) => RevokeMatchingKeepsChains(s, OfConsent(user, client), now);
    case _ => OtherCallsKeepRefresh(s, call, now);
  }

  lemma OtherCallsKeepRefresh(s: Store, call: Call, now: Time)
    requires !call.SaveRefreshCall? && !call.RotateCall? && !call.RevokeRefreshCall? && !call.RevokeSessionCall?
    requires !call.RevokeUserCall? && !call.RevokeClientCall? && !call.DeleteConsentCall?
    ensures MemCall(s, call, now).store.refresh == s.refresh
  {
  }

  lemma CallKeepsUnique(s: Store, call: Call, now: Time)
    requires UniqueHashes(s) && FreshCall(s, call)
    ensures UniqueHashes(MemCall(s, call, now).store)
  {
    var t := MemCall(s, call, now).store;
    hide FreshFamily;
    if call.SaveCodeCall? || call.SaveAccessCall? || call.SaveRefreshCall? || call.RotateCall? || call.SaveDeviceCall? {
      hide Evolves;
      if call.RotateCall? && t.access != s.access {
        RevokeFamilyEvolves(s, s.refresh[RefreshIndex(s.refresh, call.hash)].token.family, now);
      }
    } else {
      CallEvolves(s, call, now);
      OtherCallsKeepSizes(s, call, now);
      hide MemCall, CodesEvolve;
      SameHashes(s, t);
    }
  }

  lemma SameHashes(s: Store, t: Store)
    requires UniqueHashes(s) && Evolves(s, t) && SameSizes(s, t)
    ensures UniqueHashes(t)
  {
  }

  lemma OtherCallsKeepSizes(s: Store, call: Call, now: Time)
    requires !call.SaveCodeCall? && !call.SaveAccessCall? && !call.SaveRefreshCall? && !call.RotateCall?
    requires !call.SaveDeviceCall?
    ensures SameSizes(s, MemCall(s, call, now).store)
  {
  }

  lemma CallKeepsConsents(s: Store, call: Call, now: Time)
    requires ConsentsCanonical(s.consents)
    ensures ConsentsCanonical(MemCall(s, call, now).store.consents)
  {
    if call.GrantConsentCall? {
      hide ConsentsCanonical, Covered, ConsentsGrow;
      GrantConsentEffect(s, call.user, call.client, call.scopes, now);
    } else if call.DecideCall? {
      hide ConsentsCanonical, Covered, ConsentsGrow;
      var i := PendingDeviceIndex(s.devices, call.userHash, now);
      if i < |s.devices| {
        var d := s.devices[i];
        var decided := s.(devices := DecideDevice(s, call.userHash, call.user, call.auth, false, now).store.devices);
        GrantConsentEffect(decided, call.user, d.client, d.scope, now);
      }
    } else if call.DeleteConsentCall? {
      WithoutIsCanonical(s.consents, ConsentIndex(s.consents, call.user, call.client));
      hide ConsentsCanonical;
    } else {
      hide ConsentsCanonical;
    }
  }

  lemma WithoutIsCanonical(consents: seq<Consent>, i: nat)
    requires ConsentsCanonical(consents) && i <= |consents|
    ensures i < |consents| ==> ConsentsCanonical(consents[..i] + consents[i + 1..])
  {
  }

  // ---- Every interleaving ----

  /**
   However the handlers' calls interleave: digests stay unique, each pair keeps one canonical consent, and every refresh
   family is a chain that is revoked as a whole.
   */
  lemma {:induction false} ChainsSurvive(calls: seq<(Call, Time)>)
    requires FreshCalls(calls)
    ensures var s := After(calls); UniqueHashes(s) && ConsentsCanonical(s.consents) && Chains(s.refresh)
  {
    if calls != [] {
      var n := |calls| - 1;
      ChainsSurvive(calls[..n]);
      hide UniqueHashes, ConsentsCanonical, Chains, MemCall, FreshCall;
      var s := After(calls[..n]);
      CallKeepsUnique(s, calls[n].0, calls[n].1);
      CallKeepsConsents(s, calls[n].0, calls[n].1);
      CallKeepsChains(s, calls[n].0, calls[n].1);
    }
  }

  lemma {:induction false} FreshPrefix(calls: seq<(Call, Time)>, i: nat)
    requires FreshCalls(calls) && i <= |calls|
    ensures FreshCalls(calls[..i])
  {
    hide FreshCall, After;
    if i < |calls| {
      var n := |calls| - 1;
      FreshPrefix(calls[..n], i);
      assert calls[..n][..i] == calls[..i];
    } else {
      assert calls[..i] == calls;
    }
  }

  lemma {:induction false} LaterEvolves(calls: seq<(Call, Time)>, i: nat)
    requires i <= |calls|
    ensures Evolves(After(calls[..i]), After(calls))
  {
    hide Evolves, MemCall;
    if i < |calls| {
      var n := |calls| - 1;
      LaterEvolves(calls[..n], i);
      assert calls[..n][..i] == calls[..i];
      CallEvolves(After(calls[..n]), calls[n].0, calls[n].1);
      EvolvesTransitive(After(calls[..i]), After(calls[..n]), After(calls));
    } else {
      assert calls[..i] == calls;
      EvolvesSelf(After(calls));
    }
  }

  /** What call i has done to the store, and that it is kept until call j. */
  lemma Between(calls: seq<(Call, Time)>, i: nat, j: nat)
    requires FreshCalls(calls) && i < j <= |calls|
    ensures After(calls[..i + 1]) == MemCall(After(calls[..i]), calls[i].0, calls[i].1).store
    ensures Evolves(After(calls[..i + 1]), After(calls[..j]))
    ensures UniqueHashes(After(calls[..i])) && UniqueHashes(After(calls[..j])) && Chains(After(calls[..j]).refresh)
  {
    hide Evolves, UniqueHashes, Chains, ConsentsCanonical, MemCall, FreshCall;
    assert calls[..i + 1][..i] == calls[..i] && calls[..j][..i + 1] == calls[..i + 1];
    LaterEvolves(calls[..j], i + 1);
    FreshPrefix(calls, i);
    FreshPrefix(calls, j);
    ChainsSurvive(calls[..i]);
    ChainsSurvive(calls[..j]);
  }

  /** Whatever happens in between, an authorization code is given out at most once. */
  lemma CodeOnce(calls: seq<(Call, Time)>, i: nat, j: nat)
    requires FreshCalls(calls) && i < j < |calls| && calls[i].0.ConsumeCodeCall? && calls[j].0.ConsumeCodeCall?
    requires calls[i].0.hash == calls[j].0.hash && AnswerAt(calls, i) != Refused
    ensures AnswerAt(calls, j) == Refused
  {
    Between(calls, i, j);
    hide After, FreshCalls, UniqueHashes, Chains;
    var s, t, u := After(calls[..i]), After(calls[..i + 1]), After(calls[..j]);
    var k := ExchangedConsumes(s, calls[i].0, calls[i].1);
    assert CodeEvolves(t.codes[k], u.codes[k]);
    hide MemCall;
    ConsumedCodeIsRefused(u, calls[j].0, calls[j].1, k);
  }

  lemma ExchangedConsumes(s: Store, call: Call, now: Time) returns (k: nat)
    requires call.ConsumeCodeCall? && MemCall(s, call, now).answer != Refused
    ensures var t := MemCall(s, call, now).store;
            k < |t.codes| && t.codes[k].code.hash == call.hash && t.codes[k].consumedAt.Some?
  {
    k := CodeIndex(s.codes, call.hash);
  }

  lemma ConsumedCodeIsRefused(u: Store, call: Call, now: Time, k: nat)
    requires call.ConsumeCodeCall? && UniqueHashes(u) && k < |u.codes|
    requires u.codes[k].code.hash == call.hash && u.codes[k].consumedAt.Some?
    ensures MemCall(u, call, now).answer == Refused
  {
    assert CodeIndex(u.codes, call.hash) == k;
  }

  /** And a device code is answered with its grant at most once, whichever client polls. */
  lemma DeviceOnce(calls: seq<(Call, Time)>, i: nat, j: nat)
    requires FreshCalls(calls) && i < j < |calls| && calls[i].0.PollCall? && calls[j].0.PollCall?
    requires calls[i].0.hash == calls[j].0.hash && AnswerAt(calls, i).ADevice?
    ensures !AnswerAt(calls, j).ADevice?
  {
    Between(calls, i, j);
    hide After, FreshCalls, UniqueHashes, Chains;
    var s, t, u := After(calls[..i]), After(calls[..i + 1]), After(calls[..j]);
    var k := PolledConsumes(s, calls[i].0, calls[i].1);
    assert DeviceEvolves(t.devices[k], u.devices[k]);
    hide MemCall;
    ConsumedDeviceIsRefused(u, calls[j].0, calls[j].1, k);
  }

  lemma PolledConsumes(s: Store, call: Call, now: Time) returns (k: nat)
    requires call.PollCall? && MemCall(s, call, now).answer.ADevice?
    ensures var t := MemCall(s, call, now).store;
            k < |t.devices| && t.devices[k].deviceHash == call.hash && t.devices[k].status == DeviceConsumed
  {
    k := DeviceIndex(s.devices, call.hash, call.client);
  }

  lemma ConsumedDeviceIsRefused(u: Store, call: Call, now: Time, k: nat)
    requires call.PollCall? && UniqueHashes(u) && k < |u.devices|
    requires u.devices[k].deviceHash == call.hash && u.devices[k].status == DeviceConsumed
    ensures !MemCall(u, call, now).answer.ADevice?
  {
    var n := DeviceIndex(u.devices, call.hash, call.client);
    assert n == k || n == |u.devices|;
  }

  ghost predicate FamilyRevoked(refresh: seq<RefreshRecord>, family: Id) {
    forall i :: 0 <= i < |refresh| && refresh[i].token.family == family ==> refresh[i].revokedAt.Some?
  }

  /**
   A refresh token is rotated at most once, and its client's presenting it again revokes every refresh token of its
   family, those of rotations under way included, in every later state.
   */
  lemma RotationOnce(calls: seq<(Call, Time)>, i: nat, j: nat, n: nat)
    requires FreshCalls(calls) && i < j < n <= |calls| && calls[i].0.RotateCall? && calls[j].0.RotateCall?
    requires calls[i].0.hash == calls[j].0.hash && AnswerAt(calls, i).ARefresh?
    ensures AnswerAt(calls, j) == Refused
    ensures calls[j].0.next.client == calls[i].0.next.client ==>
              FamilyRevoked(After(calls[..n]).refresh, AnswerAt(calls, i).refresh.family)
  {
    Between(calls, i, j);
    Between(calls, j, n);
    hide After, FreshCalls, UniqueHashes, Chains, FamilyRevoked;
    var s, t, u := After(calls[..i]), After(calls[..i + 1]), After(calls[..j]);
    var k := RotatedConsumes(s, calls[i].0, calls[i].1);
    assert RefreshEvolves(t.refresh[k], u.refresh[k]);
    SpentIsRefused(u, calls[j].0, calls[j].1, k);
    hide MemCall, Evolves;
    if calls[j].0.next.client == calls[i].0.next.client {
      RevokedStays(After(calls[..j + 1]), After(calls[..n]), k);
    }
  }

  lemma RotatedConsumes(s: Store, call: Call, now: Time) returns (k: nat)
    requires call.RotateCall? && MemCall(s, call, now).answer.ARefresh?
    ensures var m := MemCall(s, call, now);
            && k < |s.refresh| && k < |m.store.refresh| && m.store.refresh[k].token == m.answer.refresh
            && m.answer.refresh.hash == call.hash && m.answer.refresh.client == call.next.client
            && m.store.refresh[k].consumedAt.Some?
  {
    k := RefreshIndex(s.refresh, call.hash);
  }

  lemma SpentIsRefused(u: Store, call: Call, now: Time, k: nat)
    requires call.RotateCall? && UniqueHashes(u) && k < |u.refresh|
    requires u.refresh[k].token.hash == call.hash && u.refresh[k].consumedAt.Some?
    ensures MemCall(u, call, now).answer == Refused
    ensures call.next.client == u.refresh[k].token.client ==>
              var v := MemCall(u, call, now).store;
              k < |v.refresh| && v.refresh[k].token == u.refresh[k].token && v.refresh[k].revokedAt.Some?
  {
    assert RefreshIndex(u.refresh, call.hash) == k;
  }

  lemma RevokedStays(v: Store, w: Store, k: nat)
    requires Evolves(v, w) && Chains(w.refresh) && k < |v.refresh| && v.refresh[k].revokedAt.Some?
    ensures FamilyRevoked(w.refresh, v.refresh[k].token.family)
  {
    assert RefreshEvolves(v.refresh[k], w.refresh[k]);
    forall i | 0 <= i < |w.refresh| && w.refresh[i].token.family == v.refresh[k].token.family
      ensures w.refresh[i].revokedAt.Some?
    {
      if i < k { assert FamilyPair(w.refresh[i], w.refresh[k]); }
      if k < i { assert FamilyPair(w.refresh[k], w.refresh[i]); }
    }
  }

  // ---- What needs atomic handlers ----

  /** A consent withdrawn between a handler's check and its write leaves a live grant without one. */
  lemma InterleavedWithdrawalBreaksConsent()
    ensures exists s: Store, code: AuthorizationCode, now: Time ::
              Consented(s) && Consented(SaveCode(s, code)) &&
                  !Consented(SaveCode(DeleteConsent(s, code.user, code.client, now).store, code))
  {
    var c := Consent("user", "client", ["openid"], 0, 0);
    var s := EMPTY_STORE.(consents := [c]);
    var code := AuthorizationCode(1, "client", "user", "session", "", ["openid"], "", "", NO_AUTH, 0, 10);
    assert Covers(c, "user", "client", ["openid"]) by { CoverIsSubset(["openid"], ["openid"]); }
    assert s.consents[0] == c && Covered(s.consents, "user", "client", ["openid"]);
    assert Consented(s) && Consented(SaveCode(s, code));
    var t := DeleteConsent(s, "user", "client", 0).store;
    assert ConsentIndex(s.consents, "user", "client") == 0 && t.consents == [] && t.codes == [];
    assert !CodeConsented([], SaveCode(t, code).codes[0]);
    assert !Consented(SaveCode(DeleteConsent(s, code.user, code.client, 0).store, code));
  }
}
