/** What every operation on the grant store keeps. */
module GrantInvariants {
  import opened Prelude
  import opened Scopes
  import opened GrantStore

  // ---- Evolution: grants are never lost, never change owner and are never un-marked ----

  predicate CodeEvolves(a: CodeRecord, b: CodeRecord) {
    && b.code == a.code
    && (a.consumedAt.Some? ==> b.consumedAt == a.consumedAt)
    && (a.revokedAt.Some? ==> b.revokedAt.Some?)
  }

  predicate AccessEvolves(a: AccessRecord, b: AccessRecord) {
    b.token == a.token && (a.revokedAt.Some? ==> b.revokedAt.Some?)
  }

  predicate RefreshEvolves(a: RefreshRecord, b: RefreshRecord) {
    && b.token == a.token
    && (a.consumedAt.Some? ==> b.consumedAt == a.consumedAt)
    && (a.revokedAt.Some? ==> b.revokedAt.Some?)
  }

  /** Denied and consumed are terminal; an approval can only be used or undone; a decision keeps its user. */
  predicate DeviceEvolves(a: Device, b: Device) {
    && b.deviceHash == a.deviceHash && b.userHash == a.userHash && b.client == a.client && b.scope == a.scope
    && b.createdAt == a.createdAt && b.expiresAt == a.expiresAt && a.interval <= b.interval
    && (a.status != DevicePending ==> b.user == a.user && b.auth == a.auth && b.status != DevicePending)
    && (a.status == DeviceDenied ==> b.status == DeviceDenied)
    && (a.status == DeviceConsumed ==> b.status == DeviceConsumed)
  }

  ghost predicate CodesEvolve(a: seq<CodeRecord>, b: seq<CodeRecord>) {
    |a| <= |b| && forall i :: 0 <= i < |a| ==> CodeEvolves(a[i], b[i])
  }
  ghost predicate AccessesEvolve(a: seq<AccessRecord>, b: seq<AccessRecord>) {
    |a| <= |b| && forall i :: 0 <= i < |a| ==> AccessEvolves(a[i], b[i])
  }
  ghost predicate RefreshesEvolve(a: seq<RefreshRecord>, b: seq<RefreshRecord>) {
    |a| <= |b| && forall i :: 0 <= i < |a| ==> RefreshEvolves(a[i], b[i])
  }
  ghost predicate DevicesEvolve(a: seq<Device>, b: seq<Device>) {
    |a| <= |b| && forall i :: 0 <= i < |a| ==> DeviceEvolves(a[i], b[i])
  }

  ghost predicate Evolves(s: Store, t: Store) {
    && CodesEvolve(s.codes, t.codes)
    && AccessesEvolve(s.access, t.access)
    && RefreshesEvolve(s.refresh, t.refresh)
    && DevicesEvolve(s.devices, t.devices)
  }

  ghost predicate SameSizes(s: Store, t: Store) {
    |s.codes| == |t.codes| && |s.access| == |t.access| && |s.refresh| == |t.refresh| && |s.devices| == |t.devices|
  }

  // ---- Uniqueness ----

  ghost predicate UniqueHashes(s: Store) {
    && (forall i, j :: 0 <= i < j < |s.codes| ==> s.codes[i].code.hash != s.codes[j].code.hash)
    && (forall i, j :: 0 <= i < j < |s.access| ==> s.access[i].token.hash != s.access[j].token.hash)
    && (forall i, j :: 0 <= i < j < |s.refresh| ==> s.refresh[i].token.hash != s.refresh[j].token.hash)
    && (forall i, j :: 0 <= i < j < |s.devices| ==> s.devices[i].deviceHash != s.devices[j].deviceHash)
  }

  predicate FreshCode(s: Store, hash: Digest) { forall i :: 0 <= i < |s.codes| ==> s.codes[i].code.hash != hash }
  predicate FreshAccess(s: Store, hash: Digest) { forall i :: 0 <= i < |s.access| ==> s.access[i].token.hash != hash }
  predicate FreshRefresh(s: Store, hash: Digest) {
    forall i :: 0 <= i < |s.refresh| ==> s.refresh[i].token.hash != hash
  }
  predicate FreshDevice(s: Store, hash: Digest) { forall i :: 0 <= i < |s.devices| ==> s.devices[i].deviceHash != hash }

  predicate FreshFamily(s: Store, family: Id) {
    && family != ""
    && (forall i :: 0 <= i < |s.refresh| ==> s.refresh[i].token.family != family)
    && (forall i :: 0 <= i < |s.access| ==> s.access[i].token.family != family)
  }

  // ---- Consents ----

  predicate Covers(c: Consent, user: Id, client: Id, scope: seq<string>) {
    c.user == user && c.client == client && ScopesCover(c.scopes, scope)
  }

  predicate Covered(consents: seq<Consent>, user: Id, client: Id, scope: seq<string>) {
    exists k :: 0 <= k < |consents| && Covers(consents[k], user, client, scope)
  }

  /** One consent per user and client, each a sorted list without duplicates. */
  ghost predicate ConsentsCanonical(consents: seq<Consent>) {
    && (forall i, j :: 0 <= i < j < |consents| ==>
          !(consents[i].user == consents[j].user && consents[i].client == consents[j].client))
    && (forall i :: 0 <= i < |consents| ==> Sorted(consents[i].scopes) && NoDup(consents[i].scopes))
  }

  predicate CodeConsented(consents: seq<Consent>, r: CodeRecord) {
    r.revokedAt.None? ==> Covered(consents, r.code.user, r.code.client, r.code.scope)
  }
  predicate AccessConsented(consents: seq<Consent>, r: AccessRecord) {
    r.revokedAt.None? && r.token.user != "" ==> Covered(consents, r.token.user, r.token.client, r.token.scope)
  }
  predicate RefreshConsented(consents: seq<Consent>, r: RefreshRecord) {
    r.revokedAt.None? ==> Covered(consents, r.token.user, r.token.client, r.token.scope)
  }
  predicate DeviceConsented(consents: seq<Consent>, d: Device) {
    d.status == DeviceApproved ==> d.user != "" && Covered(consents, d.user, d.client, d.scope)
  }

  /** Every live grant is covered by its user's consent to its client. */
  ghost predicate Consented(s: Store) {
    && (forall i :: 0 <= i < |s.codes| ==> CodeConsented(s.consents, s.codes[i]))
    && (forall i :: 0 <= i < |s.access| ==> AccessConsented(s.consents, s.access[i]))
    && (forall i :: 0 <= i < |s.refresh| ==> RefreshConsented(s.consents, s.refresh[i]))
    && (forall i :: 0 <= i < |s.devices| ==> DeviceConsented(s.consents, s.devices[i]))
  }

  // ---- Refresh families ----

  predicate SameOwner(a: RefreshToken, b: RefreshToken) {
    a.client == b.client && a.user == b.user && a.session == b.session
  }

  predicate FamilyPair(a: RefreshRecord, b: RefreshRecord) {
    a.token.family == b.token.family ==>
      && SameOwner(a.token, b.token)
      && a.consumedAt.Some?
      && (a.revokedAt.Some? <==> b.revokedAt.Some?)
      && ScopesCover(a.token.scope, b.token.scope)
  }

  predicate FamilyAccess(a: AccessRecord, r: RefreshRecord) {
    a.token.family == r.token.family ==>
      && a.token.client == r.token.client && a.token.user == r.token.user && a.token.session == r.token.session
      && (r.revokedAt.Some? ==> a.revokedAt.Some?)
  }

  predicate HasSuccessor(refresh: seq<RefreshRecord>, i: nat)
    requires i < |refresh|
  {
    exists j :: i < j < |refresh| && refresh[j].token.family == refresh[i].token.family
  }

  /**
   Each family is a chain in the order of issue: one owner, shrinking scopes, everything but the newest
   member consumed, and revoked as a whole.
   */
  ghost predicate Chains(refresh: seq<RefreshRecord>) {
    && (forall i :: 0 <= i < |refresh| ==> refresh[i].token.family != "")
    && (forall i, j :: 0 <= i < j < |refresh| ==> FamilyPair(refresh[i], refresh[j]))
    && (forall i :: 0 <= i < |refresh| && refresh[i].consumedAt.Some? ==> HasSuccessor(refresh, i))
  }

  /** The families are chains, and one that is revoked has no live access token. */
  ghost predicate Families(s: Store) {
    && Chains(s.refresh)
    && (forall k, i :: 0 <= k < |s.access| && 0 <= i < |s.refresh| ==> FamilyAccess(s.access[k], s.refresh[i]))
  }

  // ---- Evolution of each operation ----

  lemma EvolvesTransitive(s: Store, t: Store, u: Store)
    requires Evolves(s, t) && Evolves(t, u)
    ensures Evolves(s, u)
  {
  }

  lemma EvolvesSelf(s: Store)
    ensures Evolves(s, s)
  {
  }

  lemma GrantConsentEvolves(s: Store, user: Id, client: Id, scopes: seq<string>, now: Time)
    ensures Evolves(s, GrantConsent(s, user, client, scopes, now))
  {
  }

  lemma RevokeRefreshTokenEvolves(s: Store, hash: Digest, client: Id, now: Time)
    ensures Evolves(s, RevokeRefreshToken(s, hash, client, now).store)
  {
  }

  lemma ConsumeCodeEvolves(s: Store, hash: Digest, client: Id, uri: string, challenge: string, now: Time)
    ensures var t := ConsumeCode(s, hash, client, uri, challenge, now).store;
            Evolves(s, t) && SameSizes(s, t) && t == s.(codes := t.codes)
  {
  }

  lemma RevokeAccessTokenEvolves(s: Store, hash: Digest, client: Id, now: Time)
    ensures var t := RevokeAccessToken(s, hash, client, now).store;
            Evolves(s, t) && SameSizes(s, t) && t == s.(access := t.access)
  {
  }

  lemma RevokeFamilyEvolves(s: Store, family: Id, now: Time)
    ensures var t := RevokeFamily(s, family, now);
            Evolves(s, t) && SameSizes(s, t) && t == s.(access := t.access, refresh := t.refresh)
  {
  }

  lemma RotateEvolves(s: Store, hash: Digest, next: Replacement, now: Time)
    ensures Evolves(s, RotateRefresh(s, hash, next, now).store)
  {
    var i := RefreshIndex(s.refresh, hash);
    if i < |s.refresh| { RevokeFamilyEvolves(s, s.refresh[i].token.family, now); }
  }

  lemma RevokeMatchingEvolves(s: Store, m: Matcher, now: Time)
    ensures var t := RevokeMatching(s, m, now); Evolves(s, t) && SameSizes(s, t)
    ensures var t := DenyDevices(RevokeMatching(s, m, now), m);
            Evolves(s, t) && SameSizes(s, t) && t.consents == s.consents
  {
  }

  lemma PollDeviceEvolves(s: Store, deviceHash: Digest, client: Id, now: Time)
    ensures var t := PollDevice(s, deviceHash, client, now).store;
            Evolves(s, t) && SameSizes(s, t) && t == s.(devices := t.devices)
  {
    assert Evolves(s, s);
    hide CodesEvolve, AccessesEvolve, RefreshesEvolve;
    var i := DeviceIndex(s.devices, deviceHash, client);
  }

  lemma DecideDeviceEvolves(s: Store, userHash: Digest, user: Id, auth: AuthContext, approve: bool, now: Time)
    ensures var t := DecideDevice(s, userHash, user, auth, approve, now).store;
            Evolves(s, t) && SameSizes(s, t)
  {
    assert Evolves(s, s);
    hide CodesEvolve, AccessesEvolve, RefreshesEvolve;
  }

  lemma DeleteConsentEvolves(s: Store, user: Id, client: Id, now: Time)
    ensures var t := DeleteConsent(s, user, client, now).store; Evolves(s, t) && SameSizes(s, t)
  {
  }

  // ---- Consents ----

  /** No consent of a is lost or narrowed in b. */
  ghost predicate ConsentsGrow(a: seq<Consent>, b: seq<Consent>) {
    forall k :: 0 <= k < |a| ==>
      k < |b| && b[k].user == a[k].user && b[k].client == a[k].client && ScopesCover(b[k].scopes, a[k].scopes)
  }

  lemma CoveredNarrower(consents: seq<Consent>, user: Id, client: Id, wide: seq<string>, narrow: seq<string>)
    requires Covered(consents, user, client, wide) && ScopesCover(wide, narrow)
    ensures Covered(consents, user, client, narrow)
  {
  }

  lemma MergeCovers(current: seq<string>, requested: seq<string>)
    ensures ScopesCover(Merge(current, requested), current)
    ensures ScopesCover(Merge(current, requested), requested)
  {
    MergeIsSortedUnion(current, requested);
    CoverIsSubset(Merge(current, requested), current);
    CoverIsSubset(Merge(current, requested), requested);
  }

  /** A grant adds exactly the requested scopes to the pair's consent and keeps the table canonical. */
  lemma GrantConsentEffect(s: Store, user: Id, client: Id, scopes: seq<string>, now: Time)
    requires ConsentsCanonical(s.consents)
    ensures var t := GrantConsent(s, user, client, scopes, now);
            && t == s.(consents := t.consents)
            && ConsentsGrow(s.consents, t.consents)
            && Covered(t.consents, user, client, scopes)
            && ConsentsCanonical(t.consents)
  {
    var t := GrantConsent(s, user, client, scopes, now);
    var i := ConsentIndex(s.consents, user, client);
    var before := if i < |s.consents| then s.consents[i].scopes else [];
    MergeCovers(before, scopes);
    MergeIsSortedUnion(before, scopes);
    assert Covers(t.consents[i], user, client, scopes);
  }

  /** The lookup the handlers make finds the covering consent, whichever index it has. */
  lemma FindConsentIsCovered(s: Store, user: Id, client: Id, scope: seq<string>)
    requires ConsentsCanonical(s.consents)
    ensures Covered(s.consents, user, client, scope) <==>
            FindConsent(s, user, client).Ok? && ScopesCover(FindConsent(s, user, client).value.scopes, scope)
  {
  }

  /** Marking grants and widening consents keeps everything consented; only new grants need a check. */
  lemma ConsentedEvolves(s: Store, t: Store)
    requires Consented(s) && Evolves(s, t) && ConsentsGrow(s.consents, t.consents)
    requires forall i :: |s.codes| <= i < |t.codes| ==> CodeConsented(t.consents, t.codes[i])
    requires forall i :: |s.access| <= i < |t.access| ==> AccessConsented(t.consents, t.access[i])
    requires forall i :: |s.refresh| <= i < |t.refresh| ==> RefreshConsented(t.consents, t.refresh[i])
    requires forall i :: 0 <= i < |t.devices| && (i < |s.devices| ==> s.devices[i].status == DevicePending) ==>
               DeviceConsented(t.consents, t.devices[i])
    ensures Consented(t)
  {
  }

  lemma CoveredWithout(consents: seq<Consent>, i: nat, user: Id, client: Id, scope: seq<string>)
    requires i < |consents| && Covered(consents, user, client, scope)
    requires !(consents[i].user == user && consents[i].client == client)
    ensures Covered(consents[..i] + consents[i + 1..], user, client, scope)
  {
    var rest := consents[..i] + consents[i + 1..];
    var k :| 0 <= k < |consents| && Covers(consents[k], user, client, scope);
    assert rest[if k < i then k else k - 1] == consents[k];
  }

  /** Deleting a consent revokes every grant that needed it. */
  lemma DeleteConsentKeepsConsented(s: Store, user: Id, client: Id, now: Time)
    requires Consented(s) && ConsentsCanonical(s.consents)
    ensures var t := DeleteConsent(s, user, client, now).store; Consented(t) && ConsentsCanonical(t.consents)
  {
    var i := ConsentIndex(s.consents, user, client);
    if i < |s.consents| {
      var t := DeleteConsent(s, user, client, now).store;
      var m := OfConsent(user, client);
      assert t.consents == s.consents[..i] + s.consents[i + 1..];
      forall k | 0 <= k < |t.codes| && t.codes[k].revokedAt.None? ensures CodeConsented(t.consents, t.codes[k]) {
        assert t.codes[k] == RevokeCode(s.codes[k], m, now) && CodeConsented(s.consents, s.codes[k]);
        var c := s.codes[k].code;
        CoveredWithout(s.consents, i, c.user, c.client, c.scope);
      }
      forall k | 0 <= k < |t.access| && t.access[k].revokedAt.None? && t.access[k].token.user != ""
        ensures AccessConsented(t.consents, t.access[k])
      {
        assert t.access[k] == RevokeAccess(s.access[k], m, now) && AccessConsented(s.consents, s.access[k]);
        var c := s.access[k].token;
        CoveredWithout(s.consents, i, c.user, c.client, c.scope);
      }
      forall k | 0 <= k < |t.refresh| &&
          t.refresh[k].revokedAt.None? ensures RefreshConsented(t.consents, t.refresh[k]) {
        assert t.refresh[k] == RevokeRefresh(s.refresh[k], m, now) && RefreshConsented(s.consents, s.refresh[k]);
        var c := s.refresh[k].token;
        CoveredWithout(s.consents, i, c.user, c.client, c.scope);
      }
      forall k | 0 <= k < |t.devices| &&
          t.devices[k].status == DeviceApproved ensures DeviceConsented(t.consents, t.devices[k]) {
        assert t.devices[k] == DenyDevice(s.devices[k], m) && DeviceConsented(s.consents, s.devices[k]);
        var c := s.devices[k];
        CoveredWithout(s.consents, i, c.user, c.client, c.scope);
      }
    }
  }

  // ---- Families ----

  lemma RevokedPair(a: RefreshRecord, b: RefreshRecord, m: Matcher, now: Time)
    requires FamilyPair(a, b)
    ensures FamilyPair(RevokeRefresh(a, m, now), RevokeRefresh(b, m, now))
  {
  }

  lemma RevokedFamilyAccess(a: AccessRecord, r: RefreshRecord, m: Matcher, now: Time)
    requires FamilyAccess(a, r)
    ensures FamilyAccess(RevokeAccess(a, m, now), RevokeRefresh(r, m, now))
  {
  }

  lemma RevokeMatchingKeepsChains(s: Store, m: Matcher, now: Time)
    requires Chains(s.refresh)
    ensures Chains(RevokeMatching(s, m, now).refresh)
  {
    var refresh := RevokeMatching(s, m, now).refresh;
    assert forall i :: 0 <= i < |refresh| ==>
        refresh[i].token == s.refresh[i].token && refresh[i].consumedAt == s.refresh[i].consumedAt;
    hide FamilyPair, RevokeRefresh, RevokeAccess, RevokeCode;
    forall i, j | 0 <= i < j < |refresh| ensures FamilyPair(refresh[i], refresh[j]) {
      RevokedPair(s.refresh[i], s.refresh[j], m, now);
    }
    forall i | 0 <= i < |refresh| && refresh[i].consumedAt.Some? ensures HasSuccessor(refresh, i) {
      var j :| i < j < |s.refresh| && s.refresh[j].token.family == s.refresh[i].token.family;
      assert refresh[j].token.family == refresh[i].token.family;
    }
  }

  /** Marks that reach whole families keep them whole. */
  lemma RevokeMatchingKeepsFamilies(s: Store, m: Matcher, now: Time)
    requires Families(s)
    ensures Families(RevokeMatching(s, m, now))
  {
    RevokeMatchingKeepsChains(s, m, now);
    hide Chains, FamilyAccess, RevokeRefresh, RevokeAccess, RevokeCode;
    var t := RevokeMatching(s, m, now);
    forall k, i | 0 <= k < |t.access| && 0 <= i < |t.refresh| ensures FamilyAccess(t.access[k], t.refresh[i]) {
      RevokedFamilyAccess(s.access[k], s.refresh[i], m, now);
    }
  }

  lemma RevokeFamilyKeepsChains(s: Store, family: Id, now: Time)
    requires Chains(s.refresh)
    ensures Chains(RevokeFamily(s, family, now).refresh)
  {
    var refresh := RevokeFamily(s, family, now).refresh;
    forall i, j | 0 <= i < j < |refresh| ensures FamilyPair(refresh[i], refresh[j]) {
      assert FamilyPair(s.refresh[i], s.refresh[j]);
    }
    forall i | 0 <= i < |refresh| && refresh[i].consumedAt.Some? ensures HasSuccessor(refresh, i) {
      var j :| i < j < |s.refresh| && s.refresh[j].token.family == s.refresh[i].token.family;
      assert refresh[j].token.family == refresh[i].token.family;
    }
  }

  lemma RevokeFamilyKeepsFamilies(s: Store, family: Id, now: Time)
    requires Families(s)
    ensures Families(RevokeFamily(s, family, now))
  {
    RevokeFamilyKeepsChains(s, family, now);
    hide Chains;
    var t := RevokeFamily(s, family, now);
    forall k, i | 0 <= k < |t.access| && 0 <= i < |t.refresh| ensures FamilyAccess(t.access[k], t.refresh[i]) {
      assert FamilyAccess(s.access[k], s.refresh[i]);
    }
  }

  lemma RevokeAccessTokenKeepsFamilies(s: Store, hash: Digest, client: Id, now: Time)
    requires Families(s)
    ensures Families(RevokeAccessToken(s, hash, client, now).store)
  {
  }

  lemma RotateKeepsChains(s: Store, hash: Digest, next: Replacement, now: Time)
    requires Chains(s.refresh)
    ensures Chains(RotateRefresh(s, hash, next, now).store.refresh)
  {
    var out := RotateRefresh(s, hash, next, now);
    var n := RefreshIndex(s.refresh, hash);
    if out.res.Ok? {
      var refresh := out.store.refresh;
      var r := s.refresh[n];
      forall i, j | 0 <= i < j < |refresh| ensures FamilyPair(refresh[i], refresh[j]) {
        if j < |s.refresh| {
          assert FamilyPair(s.refresh[i], s.refresh[j]);
        } else if i < n {
          assert FamilyPair(s.refresh[i], r);
        } else if i > n {
          assert FamilyPair(r, s.refresh[i]);
        }
      }
      forall i | 0 <= i < |refresh| && refresh[i].consumedAt.Some? ensures HasSuccessor(refresh, i) {
        if i == n {
          assert refresh[|s.refresh|].token.family == refresh[n].token.family;
        } else {
          assert HasSuccessor(s.refresh, i);
          var j :| i < j < |s.refresh| && s.refresh[j].token.family == s.refresh[i].token.family;
          assert refresh[j].token.family == refresh[i].token.family;
        }
      }
    } else if out.res == Err(Reuse) {
      RevokeFamilyKeepsChains(s, s.refresh[n].token.family, now);
    }
  }

  /** Rotation extends a chain at its live end, or revokes the whole chain, or does nothing. */
  lemma RotateKeepsFamilies(s: Store, hash: Digest, next: Replacement, now: Time)
    requires Families(s)
    ensures Families(RotateRefresh(s, hash, next, now).store)
  {
    RotateKeepsChains(s, hash, next, now);
    hide Chains;
    var out := RotateRefresh(s, hash, next, now);
    var n := RefreshIndex(s.refresh, hash);
    if out.res.Ok? {
      var t := out.store;
      forall k, i | 0 <= k < |t.access| && 0 <= i < |t.refresh| ensures FamilyAccess(t.access[k], t.refresh[i]) {
        assert FamilyAccess(s.access[k], if i < |s.refresh| then s.refresh[i] else s.refresh[n]);
      }
    } else if out.res == Err(Reuse) {
      RevokeFamilyKeepsFamilies(s, s.refresh[n].token.family, now);
    }
  }

  /** The exact condition under which storing an access token keeps the families: the write does not recheck it. */
  lemma SaveAccessKeepsFamilies(s: Store, token: AccessToken)
    requires Families(s)
    ensures Families(SaveAccess(s, token)) <==>
            forall i :: 0 <= i < |s.refresh| ==> FamilyAccess(AccessRecord(token, None), s.refresh[i])
  {
    var t := SaveAccess(s, token);
    assert t.access[|s.access|] == AccessRecord(token, None);
    if forall i :: 0 <= i < |s.refresh| ==> FamilyAccess(AccessRecord(token, None), s.refresh[i]) {
      forall k, i | 0 <= k < |t.access| && 0 <= i < |t.refresh| ensures FamilyAccess(t.access[k], t.refresh[i]) {
        if k < |s.access| { assert FamilyAccess(s.access[k], s.refresh[i]); }
      }
    }
  }

  lemma SaveRefreshKeepsChains(refresh: seq<RefreshRecord>, token: RefreshToken)
    requires Chains(refresh) && token.family != ""
    requires forall i :: 0 <= i < |refresh| ==> refresh[i].token.family != token.family
    ensures Chains(refresh + [RefreshRecord(token, None, None)])
  {
    var after := refresh + [RefreshRecord(token, None, None)];
    forall i, j | 0 <= i < j < |after| ensures FamilyPair(after[i], after[j]) {
      if j < |refresh| { assert FamilyPair(refresh[i], refresh[j]); }
    }
    forall i | 0 <= i < |after| && after[i].consumedAt.Some? ensures HasSuccessor(after, i) {
      assert HasSuccessor(refresh, i);
      var j :| i < j < |refresh| && refresh[j].token.family == refresh[i].token.family;
      assert after[j].token.family == after[i].token.family;
    }
  }

  lemma SaveRefreshKeepsFamilies(s: Store, token: RefreshToken)
    requires Families(s) && token.family != ""
    requires forall i :: 0 <= i < |s.refresh| ==> s.refresh[i].token.family != token.family
    requires forall k :: 0 <= k < |s.access| ==> FamilyAccess(s.access[k], RefreshRecord(token, None, None))
    ensures Families(SaveRefresh(s, token))
  {
    SaveRefreshKeepsChains(s.refresh, token);
    hide Chains;
    var t := SaveRefresh(s, token);
    forall k, i | 0 <= k < |t.access| && 0 <= i < |t.refresh| ensures FamilyAccess(t.access[k], t.refresh[i]) {
      if i < |s.refresh| { assert FamilyAccess(s.access[k], s.refresh[i]); }
    }
  }
}
