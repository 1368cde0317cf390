/** Types and searches every component shares. */
module Prelude {

  /** Identifiers of users, clients, sessions and refresh families. "" stands for an absent one. */
  type Id = string

  /** A token hash: a fixed-width digest, compared only for equality. */
  type Digest = nat

  /** An instant or a duration, in nanoseconds. */
  type Time = int

  const SECOND: Time := 1_000_000_000
  const MINUTE: Time := 60 * SECOND
  const HOUR: Time := 60 * MINUTE
  const DAY: Time := 24 * HOUR

  /** The zero time: the start of year one, counted from the Unix epoch. */
  const ZERO_TIME: Time := -62_135_596_800 * SECOND

  datatype Option<+T> = None | Some(value: T)

  datatype Result<+R, +E> = Ok(value: R) | Err(error: E)

  function Min(a: int, b: int): int { if a < b then a else b }

  function Max(a: int, b: int): int { if a < b then b else a }

  /** The index of the first element satisfying p, or |s| when there is none. */
  function FirstIndex<T>(s: seq<T>, p: T -> bool): (i: nat)
    ensures i <= |s|
    ensures forall j :: 0 <= j < i ==> !p(s[j])
    ensures i < |s| ==> p(s[i])
  {
    if s == [] || p(s[0]) then 0
    else
      var i := FirstIndex(s[1..], p);
      assert forall j :: 1 <= j < |s| ==> s[j] == s[1..][j - 1];
      i + 1
  }
}
