/**
 Encrypted secret envelopes over an ideal authenticated cipher: only the key and context that sealed a box open it.
 */
module KeyRing {
  import opened Prelude

  type Key = nat
  type Plaintext = string

  /** What the cipher produces; equal boxes are equal ciphertexts. */
  datatype Box = Box(key: Key, nonce: nat, plain: Plaintext, aad: string)

  function Open(key: Key, box: Box, aad: string): Option<Plaintext> {
    if box.key == key && box.aad == aad then Some(box.plain) else None
  }

  /** The text form of a box (unpadded base64url), and the boxes among the raw ciphertexts from before key rings. */
  datatype Codec = Codec(encode: Box -> string, decode: string -> Option<Box>, raw: string -> Option<Box>)

  /** Texts round-trip, are not empty, and a text with a dot is none. */
  ghost predicate CodecOk(x: Codec) {
    && (forall b: Box :: x.decode(x.encode(b)) == Some(b) && x.encode(b) != "")
    && (forall s: string :: '.' in s ==> x.decode(s) == None)
  }

  /** No text that starts as an envelope does is a raw ciphertext. */
  ghost predicate RawOk(x: Codec) {
    forall s: string :: PREFIX <= s ==> x.raw(s) == None
  }

  datatype Ring = Ring(primary: string, keys: map<string, Key>)

  predicate Available(k: Ring) { k.primary != "" && k.primary in k.keys }

  const PREFIX: string := "certus-secret-v1."

  predicate Alphanumeric(c: char) { 'A' <= c <= 'Z' || 'a' <= c <= 'z' || '0' <= c <= '9' }

  predicate ValidKeyId(id: string) {
    1 <= |id| <= 32 && Alphanumeric(id[0]) && forall i :: 1 <= i < |id| ==> Alphanumeric(id[i]) || id[i] in "._-"
  }

  /** Key rings as parsed: valid identifiers only. */
  predicate Parsed(k: Ring) { forall id :: id in k.keys ==> ValidKeyId(id) }

  function Aad(purpose: string, record: Id, keyId: string): string { purpose + "\0" + record + "\0" + keyId }

  function FirstDot(s: string): nat { FirstIndex(s, (c: char) => c == '.') }

  function Parse(envelope: string, x: Codec): Option<(string, Box)> {
    if |envelope| < |PREFIX| || envelope[..|PREFIX|] != PREFIX then None
    else
      var rest := envelope[|PREFIX|..];
      var d := FirstDot(rest);
      if d == |rest| || !ValidKeyId(rest[..d]) || rest[d + 1..] == "" then None
      else
        var box := x.decode(rest[d + 1..]);
        if box.None? then None else Some((rest[..d], box.value))
  }

  function KeyIdOf(envelope: string, x: Codec): Option<string> {
    var p := Parse(envelope, x);
    if p.None? then None else Some(p.value.0)
  }

  function Seal(k: Ring, purpose: string, record: Id, plain: Plaintext, nonce: nat, x: Codec): string
    requires Available(k)
  {
    PREFIX + k.primary + "." + x.encode(Box(k.keys[k.primary], nonce, plain, Aad(purpose, record, k.primary)))
  }

  /** expected is the key the record is said to be under, or "" when it does not say. */
  function Decrypt(k: Ring, purpose: string, record: Id, envelope: string, expected: string,
                   x: Codec): Option<Plaintext> {
    var p := Parse(envelope, x);
    if p.None? || (expected != "" && expected != p.value.0) || p.value.0 !in k.keys then None
    else Open(k.keys[p.value.0], p.value.1, Aad(purpose, record, p.value.0))
  }

  lemma DotIs(s: string, d: nat)
    requires d < |s| && s[d] == '.' && forall i :: 0 <= i < d ==> s[i] != '.'
    ensures FirstDot(s) == d
  {
  }

  lemma DottedIsCut(keyId: string, text: string, x: Codec)
    requires CodecOk(x) && '.' in keyId
    ensures Parse(PREFIX + keyId + "." + text, x) == None
  {
    var envelope, rest := PREFIX + keyId + "." + text, keyId + "." + text;
    assert envelope == PREFIX + rest && envelope[|PREFIX|..] == rest;
    var d := FirstDot(keyId);
    var i :| 0 <= i < |keyId| && keyId[i] == '.';
    var p := (c: char) => c == '.';
    assert p(keyId[i]);
    assert forall n :: 0 <= n < |keyId| ==> rest[n] == keyId[n];
    DotIs(rest, d);
    assert rest[d + 1..][|keyId| - d - 1] == '.';
  }

  lemma PlainIsParsed(keyId: string, box: Box, x: Codec)
    requires CodecOk(x) && ValidKeyId(keyId) && '.' !in keyId
    ensures Parse(PREFIX + keyId + "." + x.encode(box), x) == Some((keyId, box))
  {
    var envelope, rest := PREFIX + keyId + "." + x.encode(box), keyId + "." + x.encode(box);
    assert envelope == PREFIX + rest && envelope[|PREFIX|..] == rest && envelope[..|PREFIX|] == PREFIX;
    assert forall n :: 0 <= n < |keyId| ==> rest[n] == keyId[n];
    DotIs(rest, |keyId|);
    assert rest[..|keyId|] == keyId && rest[|keyId| + 1..] == x.encode(box);
  }

  /**
   An envelope parses back to its key and box exactly when the key's identifier has no dot, which the pattern allows.
   */
  lemma EnvelopeRoundTrip(keyId: string, box: Box, x: Codec)
    requires CodecOk(x) && ValidKeyId(keyId)
    ensures Parse(PREFIX + keyId + "." + x.encode(box), x) == Some((keyId, box)) <==> '.' !in keyId
    ensures '.' in keyId ==> Parse(PREFIX + keyId + "." + x.encode(box), x) == None
  {
    hide Parse;
    if '.' in keyId { DottedIsCut(keyId, x.encode(box), x); } else { PlainIsParsed(keyId, box, x); }
  }

  /** What a ring seals for a record it opens again, unless its primary identifier has a dot. */
  lemma SealedOpens(k: Ring, purpose: string, record: Id, plain: Plaintext, nonce: nat, x: Codec)
    requires CodecOk(x) && Available(k) && Parsed(k)
    ensures var sealed := Seal(k, purpose, record, plain, nonce, x);
            && (Decrypt(k, purpose, record, sealed, k.primary, x) == Some(plain) <==> '.' !in k.primary)
            && (KeyIdOf(sealed, x) == Some(k.primary) <==> '.' !in k.primary)
            && ('.' in k.primary ==> Parse(sealed, x) == None)
  {
    EnvelopeRoundTrip(k.primary, Box(k.keys[k.primary], nonce, plain, Aad(purpose, record, k.primary)), x);
  }

  lemma LastNul(a: string, b: string, i: nat, j: nat)
    requires i < |a| && j < |b| && a == b && a[i] == '\0' && b[j] == '\0'
    requires forall n :: i < n < |a| ==> a[n] != '\0'
    requires forall n :: j < n < |b| ==> b[n] != '\0'
    ensures i == j
  {
  }

  lemma FirstNul(a: string, b: string, i: nat, j: nat)
    requires i < |a| && j < |b| && a == b && a[i] == '\0' && b[j] == '\0'
    requires forall n :: 0 <= n < i ==> a[n] != '\0'
    requires forall n :: 0 <= n < j ==> b[n] != '\0'
    ensures i == j
  {
    assert a[j] == '\0' && b[i] == '\0';
  }

  /** The context a box is sealed in determines its purpose, its record and its key. */
  lemma ContextIsBinding(p1: string, r1: Id, k1: string, p2: string, r2: Id, k2: string)
    requires '\0' !in p1 && '\0' !in p2 && ValidKeyId(k1) && ValidKeyId(k2)
    ensures Aad(p1, r1, k1) == Aad(p2, r2, k2) <==> p1 == p2 && r1 == r2 && k1 == k2
  {
    if Aad(p1, r1, k1) == Aad(p2, r2, k2) {
      assert Aad(p1, r1, k1) == p1 + ("\0" + (r1 + "\0" + k1)) && Aad(p2, r2, k2) == p2 + ("\0" + (r2 + "\0" + k2));
      SamePurpose(p1, r1 + "\0" + k1, p2, r2 + "\0" + k2);
      SameRecord(p1, r1, k1, r2, k2);
    }
  }

  lemma SamePurpose(p1: string, rest1: string, p2: string, rest2: string)
    requires '\0' !in p1 && '\0' !in p2 && p1 + ("\0" + rest1) == p2 + ("\0" + rest2)
    ensures p1 == p2
  {
    var a, b := p1 + ("\0" + rest1), p2 + ("\0" + rest2);
    assert forall n :: 0 <= n < |p1| ==> a[n] == p1[n];
    assert forall n :: 0 <= n < |p2| ==> b[n] == p2[n];
    FirstNul(a, b, |p1|, |p2|);
    assert p1 == a[..|p1|] == b[..|p2|] == p2;
  }

  lemma SameRecord(purpose: string, r1: Id, k1: string, r2: Id, k2: string)
    requires ValidKeyId(k1) && ValidKeyId(k2) && Aad(purpose, r1, k1) == Aad(purpose, r2, k2)
    ensures r1 == r2 && k1 == k2
  {
    var a, b := Aad(purpose, r1, k1), Aad(purpose, r2, k2);
    var i, j := |purpose| + 1 + |r1|, |purpose| + 1 + |r2|;
    assert forall n :: i < n < |a| ==> a[n] == k1[n - i - 1];
    assert forall n :: j < n < |b| ==> b[n] == k2[n - j - 1];
    LastNul(a, b, i, j);
    assert k1 == a[i + 1..] == b[j + 1..] == k2;
    assert r1 == a[|purpose| + 1..i] == b[|purpose| + 1..j] == r2;
  }

  /** So a secret copied to another record, or to the other kind of secret, does not open there. */
  lemma MovedSecretDoesNotOpen(k: Ring, p1: string, r1: Id, p2: string, r2: Id, plain: Plaintext, nonce: nat,
                               expected: string, x: Codec)
    requires CodecOk(x) && Available(k) && Parsed(k) && '\0' !in p1 && '\0' !in p2
    requires p1 != p2 || r1 != r2
    ensures Decrypt(k, p2, r2, Seal(k, p1, r1, plain, nonce, x), expected, x) == None
  {
    EnvelopeRoundTrip(k.primary, Box(k.keys[k.primary], nonce, plain, Aad(p1, r1, k.primary)), x);
    ContextIsBinding(p1, r1, k.primary, p2, r2, k.primary);
  }

  const SOURCE_PURPOSE: string := "identity-source-credential"
  const MFA_PURPOSE: string := "mfa-totp-secret"

  /** A TOTP secret never opens as an identity source's secret, nor the other way round, whatever the identifiers. */
  lemma PurposesAreApart(k: Ring, user: Id, source: Id, plain: Plaintext, nonce: nat, expected: string, x: Codec)
    requires CodecOk(x) && Available(k) && Parsed(k)
    ensures Decrypt(k, SOURCE_PURPOSE, source, Seal(k, MFA_PURPOSE, user, plain, nonce, x), expected, x) == None
    ensures Decrypt(k, MFA_PURPOSE, user, Seal(k, SOURCE_PURPOSE, source, plain, nonce, x), expected, x) == None
  {
    assert MFA_PURPOSE[0] != SOURCE_PURPOSE[0];
    MovedSecretDoesNotOpen(k, MFA_PURPOSE, user, SOURCE_PURPOSE, source, plain, nonce, expected, x);
    MovedSecretDoesNotOpen(k, SOURCE_PURPOSE, source, MFA_PURPOSE, user, plain, nonce, expected, x);
  }
}
