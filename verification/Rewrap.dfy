/**
 Moving stored secrets under the primary key: a compare-and-swap migration that several instances may run at once.
 Identity sources carry a key column and must be envelopes; MFA secrets may also be raw ciphertexts of the legacy key.
 */
module Rewrap {
  import opened Prelude
  import opened KeyRing

  datatype Kind = Sources | MfaSecrets(legacy: Option<Key>)

  datatype Record = Record(ciphertext: string, keyId: string)

  type Store = map<Id, Record>

  /** One instance's settings; the ring and codec are shared by all. */
  datatype Config = Config(kind: Kind, ring: Ring, purpose: string, x: Codec)

  ghost predicate ConfigOk(c: Config) { CodecOk(c.x) && Available(c.ring) && Parsed(c.ring) }

  // ---- One record ----

  function OpenLegacy(c: Config, id: Id, ciphertext: string): Option<Plaintext> {
    var box := c.x.raw(ciphertext);
    if c.kind.Sources? || c.kind.legacy.None? || box.None? then None else Open(c.kind.legacy.value, box.value, id)
  }

  /** What the service reads from a record. */
  function Reads(c: Config, id: Id, r: Record): Option<Plaintext> {
    match c.kind
    case Sources => Decrypt(c.ring, c.purpose, id, r.ciphertext, r.keyId, c.x)
    case MfaSecrets(_) =>
      var k := KeyIdOf(r.ciphertext, c.x);
      if k.Some? then Decrypt(c.ring, c.purpose, id, r.ciphertext, k.value, c.x) else OpenLegacy(c, id, r.ciphertext)
  }

  /** Already under the primary key, so left alone. */
  predicate Current(c: Config, r: Record) {
    KeyIdOf(r.ciphertext, c.x) == Some(c.ring.primary) &&
        (c.kind.Sources? ==> r.keyId == "" || r.keyId == c.ring.primary)
  }

  function Rewrapped(c: Config, id: Id, plain: Plaintext, nonce: nat): Record
    requires Available(c.ring)
  {
    Record(Seal(c.ring, c.purpose, id, plain, nonce, c.x), c.ring.primary)
  }

  /** Compare and swap on the ciphertext. */
  function Swap(s: Store, id: Id, current: string, replacement: Record): (Store, bool) {
    if id in s && s[id].ciphertext == current then (s[id := replacement], true) else (s, false)
  }

  // ---- Instances ----

  /** What an instance has listed and not yet dealt with, how many it has moved, and whether it has given up. */
  datatype Instance = Instance(todo: seq<(Id, Record)>, count: nat, failed: bool)

  datatype World = World(store: Store, instances: seq<Instance>)

  function Turn(c: Config, s: Store, i: Instance, nonce: nat): (Store, Instance)
    requires Available(c.ring)
  {
    if i.todo == [] || i.failed then (s, i)
    else
      var (id, r) := i.todo[0];
      var rest := i.(todo := i.todo[1..]);
      if Current(c, r) then (s, rest)
      else if Reads(c, id, r).None? then (s, i.(failed := true))
      else
        var out := Swap(s, id, r.ciphertext, Rewrapped(c, id, Reads(c, id, r).value, nonce));
        (out.0, if out.1 then rest.(count := i.count + 1) else rest)
  }

  datatype Event =
    | Begin(listing: seq<(Id, Record)>)
    | Work(instance: nat, nonce: nat)

  function Next(c: Config, w: World, e: Event): World
    requires Available(c.ring)
  {
    match e
    case Begin(listing) => w.(instances := w.instances + [Instance(listing, 0, false)])
    case Work(n, nonce) =>
      if n < |w.instances| then
        var out := Turn(c, w.store, w.instances[n], nonce);
        World(out.0, w.instances[n := out.1])
      else w
  }

  /** A listing shows every record, as it is at that moment. */
  predicate Lists(s: Store, listing: seq<(Id, Record)>) {
    && (forall k :: 0 <= k < |listing| ==> listing[k].0 in s && s[listing[k].0] == listing[k].1)
    && (forall id :: id in s ==> (id, s[id]) in listing)
  }

  predicate Legal(w: World, e: Event) { e.Begin? ==> Lists(w.store, e.listing) }

  function Run(c: Config, w: World, es: seq<Event>): World
    requires Available(c.ring)
    decreases |es|
  {
    if es == [] then w else Run(c, Next(c, w, es[0]), es[1..])
  }

  predicate LegalRun(c: Config, w: World, es: seq<Event>)
    requires Available(c.ring)
    decreases |es|
  {
    es == [] || (Legal(w, es[0]) && LegalRun(c, Next(c, w, es[0]), es[1..]))
  }

  // ---- What a swap does to a record ----

  lemma RewrappedReads(c: Config, id: Id, plain: Plaintext, nonce: nat)
    requires ConfigOk(c) && '.' !in c.ring.primary
    ensures var r := Rewrapped(c, id, plain, nonce); Reads(c, id, r) == Some(plain) && Current(c, r)
  {
    SealedOpens(c.ring, c.purpose, id, plain, nonce, c.x);
  }

  // ---- What is read, and what is left alone ----

  /**
   An envelope reads as what its box holds exactly when its key is known, the box was sealed with it for this record and
   the key column, where there is one, does not disagree; it is left alone exactly when that key is the primary one.
   */
  lemma EnvelopeReads(c: Config, id: Id, keyId: string, box: Box, column: string)
    requires ConfigOk(c) && ValidKeyId(keyId) && '.' !in keyId
    ensures var r := Record(PREFIX + keyId + "." + c.x.encode(box), column);
            && (Reads(c, id, r) ==
                if (c.kind.Sources? ==> column == "" || column == keyId) && keyId in c.ring.keys &&
                   box.key == c.ring.keys[keyId] && box.aad == c.purpose + "\0" + id + "\0" + keyId
                then Some(box.plain) else None)
            && (Current(c, r) <==>
                keyId == c.ring.primary && (c.kind.Sources? ==> column == "" || column == c.ring.primary))
  {
    PlainIsParsed(keyId, box, c.x);
  }

  /** A raw ciphertext reads as its content exactly when it is an MFA secret of this record under the legacy key. */
  lemma RawReads(c: Config, id: Id, text: string, column: string)
    requires ConfigOk(c) && RawOk(c.x) && c.x.raw(text).Some?
    ensures var r, box := Record(text, column), c.x.raw(text).value;
            && !Current(c, r)
            && (Reads(c, id, r) ==
                if c.kind.MfaSecrets? && c.kind.legacy == Some(box.key) && box.aad == id
                then Some(box.plain) else None)
  {
    assert !(PREFIX <= text);
    assert KeyIdOf(text, c.x) == None;
  }

  // ---- Invariants ----

  predicate SameReads(c: Config, s: Store, t: Store) {
    t.Keys == s.Keys && forall id :: id in s ==> Reads(c, id, t[id]) == Reads(c, id, s[id])
  }

  function Stale(c: Config, s: Store): set<Id> { set id | id in s && !Current(c, s[id]) }

  function Total(instances: seq<Instance>): nat {
    if instances == [] then 0 else Total(instances[..|instances| - 1]) + instances[|instances| - 1].count
  }

  /** A listed record is still stored as listed, or has been moved meanwhile from under another key. */
  predicate Tracks(c: Config, s: Store, id: Id, r: Record) {
    id in s && (s[id] == r || (Current(c, s[id]) && KeyIdOf(r.ciphertext, c.x) != Some(c.ring.primary) &&
        Reads(c, id, r).Some?))
  }

  predicate TodoTracks(c: Config, s: Store, todo: seq<(Id, Record)>) {
    forall k :: 0 <= k < |todo| ==> Tracks(c, s, todo[k].0, todo[k].1)
  }

  /** Every record not yet under the primary key is still ahead of this instance, unless it has given up. */
  predicate Ahead(c: Config, s: Store, i: Instance) {
    TodoTracks(c, s, i.todo) && (i.failed || forall id :: id in Stale(c, s) ==> (id, s[id]) in i.todo)
  }

  /** A record is as it was, or it was stale and readable and has been moved. */
  predicate Moved(c: Config, s0: Store, s: Store) {
    && SameReads(c, s0, s)
    && forall id :: id in s ==>
         s[id] == s0[id] || (id in Stale(c, s0) && Current(c, s[id]) && Reads(c, id, s0[id]).Some?)
  }

  predicate AllAhead(c: Config, s: Store, instances: seq<Instance>) {
    forall n :: 0 <= n < |instances| ==> Ahead(c, s, instances[n])
  }

  /** Only stale records were moved, they read the same, and every move was counted once. */
  predicate Faithful(c: Config, s0: Store, w: World) {
    && Moved(c, s0, w.store)
    && |Stale(c, w.store)| + Total(w.instances) == |Stale(c, s0)|
    && AllAhead(c, w.store, w.instances)
  }

  lemma {:induction false} TotalUpdate(instances: seq<Instance>, n: nat, i: Instance)
    requires n < |instances|
    ensures Total(instances[n := i]) == Total(instances) - instances[n].count + i.count
  {
    var m := |instances| - 1;
    if n < m {
      TotalUpdate(instances[..m], n, i);
      assert instances[n := i][..m] == instances[..m][n := i];
    } else {
      assert instances[n := i][..m] == instances[..m];
    }
  }

  function Swapped(c: Config, s: Store, id: Id, r: Record, nonce: nat): (Store, bool)
    requires Available(c.ring) && Reads(c, id, r).Some?
  {
    Swap(s, id, r.ciphertext, Rewrapped(c, id, Reads(c, id, r).value, nonce))
  }

  predicate Movable(c: Config, s: Store, id: Id, r: Record) {
    Available(c.ring) && !Current(c, r) && Reads(c, id, r).Some? && Tracks(c, s, id, r)
  }

  /** A swap goes through exactly when the record is still as listed; it moves that record and keeps what it reads. */
  lemma SwapEffect(c: Config, s: Store, id: Id, r: Record, nonce: nat)
    requires ConfigOk(c) && '.' !in c.ring.primary && Movable(c, s, id, r)
    ensures var out := Swapped(c, s, id, r, nonce);
            && (out.1 <==> s[id] == r) && (out.1 || out.0 == s)
            && out.0.Keys == s.Keys && (forall k :: k in s && k != id ==> out.0[k] == s[k])
            && (out.1 ==>
                  && Current(c, out.0[id]) && out.0[id].keyId == c.ring.primary
                  && Reads(c, id, out.0[id]) == Reads(c, id, r))
  {
    RewrappedReads(c, id, Reads(c, id, r).value, nonce);
  }

  lemma SwapShrinks(c: Config, s: Store, id: Id, r: Record, nonce: nat)
    requires ConfigOk(c) && '.' !in c.ring.primary && Movable(c, s, id, r)
    ensures var out := Swapped(c, s, id, r, nonce);
            && Stale(c, out.0) == Stale(c, s) - {id} && (out.1 <==> id in Stale(c, s))
            && forall k :: k in Stale(c, out.0) ==> k in s && k in out.0 && out.0[k] == s[k]
  {
    SwapEffect(c, s, id, r, nonce);
    hide Reads, Current, Swapped;
  }

  lemma MovedOne(c: Config, s: Store, t: Store, id: Id)
    requires id in s && t.Keys == s.Keys && (forall k :: k in s && k != id ==> t[k] == s[k])
    requires t[id] == s[id] || (id in Stale(c, s) && Current(c, t[id]) && Reads(c, id, s[id]).Some?)
    requires Reads(c, id, t[id]) == Reads(c, id, s[id])
    ensures Moved(c, s, t)
  {
    hide Reads, Current, Stale;
  }

  lemma SwapMoves(c: Config, s: Store, id: Id, r: Record, nonce: nat)
    requires ConfigOk(c) && '.' !in c.ring.primary && Movable(c, s, id, r)
    ensures var out := Swapped(c, s, id, r, nonce);
            && Moved(c, s, out.0)
            && Stale(c, out.0) == Stale(c, s) - {id}
            && |Stale(c, out.0)| + (if out.1 then 1 else 0) == |Stale(c, s)|
  {
    SwapEffect(c, s, id, r, nonce);
    SwapShrinks(c, s, id, r, nonce);
    hide Reads, Current, Swapped, Stale, Moved;
    MovedOne(c, s, Swapped(c, s, id, r, nonce).0, id);
  }

  lemma SwapKeepsTracks(c: Config, s: Store, id: Id, r: Record, nonce: nat, k: Id, q: Record)
    requires ConfigOk(c) && '.' !in c.ring.primary && Movable(c, s, id, r) && Tracks(c, s, k, q)
    ensures Tracks(c, Swapped(c, s, id, r, nonce).0, k, q)
  {
    SwapEffect(c, s, id, r, nonce);
    if k == id && s[id] == r && q == r { ReadableStaleIsElsewhere(c, id, r); }
    hide Reads, Current, Swapped;
  }

  /** A readable record that is not current is under another key: a wrong key column makes a source unreadable. */
  lemma ReadableStaleIsElsewhere(c: Config, id: Id, r: Record)
    requires !Current(c, r) && Reads(c, id, r).Some?
    ensures KeyIdOf(r.ciphertext, c.x) != Some(c.ring.primary)
  {
  }

  /** What a turn does to the store and the tally, and that no listing is invalidated. */
  ghost predicate TurnOk(c: Config, s: Store, i: Instance, t: Store, j: Instance) {
    && Moved(c, s, t)
    && Stale(c, t) <= Stale(c, s)
    && |Stale(c, t)| + j.count == |Stale(c, s)| + i.count
    && (forall k, q :: Tracks(c, s, k, q) ==> Tracks(c, t, k, q))
    && Ahead(c, t, j)
  }

  lemma AheadAfterSwap(c: Config, s: Store, i: Instance, nonce: nat, j: Instance)
    requires ConfigOk(c) && '.' !in c.ring.primary && Ahead(c, s, i) && i.todo != [] && !i.failed
    requires Movable(c, s, i.todo[0].0, i.todo[0].1) && j.todo == i.todo[1..] && !j.failed
    ensures Ahead(c, Swapped(c, s, i.todo[0].0, i.todo[0].1, nonce).0, j)
  {
    hide Tracks, Current, Swapped, Reads, Stale;
    var (id, r) := i.todo[0];
    var t := Swapped(c, s, id, r, nonce).0;
    SwapShrinks(c, s, id, r, nonce);
    forall k | 0 <= k < |j.todo| ensures Tracks(c, t, j.todo[k].0, j.todo[k].1) {
      SwapKeepsTracks(c, s, id, r, nonce, i.todo[k + 1].0, i.todo[k + 1].1);
    }
    forall k | k in Stale(c, t) ensures (k, t[k]) in j.todo {
      assert (k, s[k]) in i.todo;
    }
  }

  lemma SwapOk(c: Config, s: Store, i: Instance, nonce: nat, j: Instance)
    requires ConfigOk(c) && '.' !in c.ring.primary && Ahead(c, s, i) && i.todo != [] && !i.failed
    requires var (id, r) := i.todo[0];
             && Movable(c, s, id, r)
             && j == Instance(i.todo[1..], if Swapped(c, s, id, r, nonce).1 then i.count + 1 else i.count, false)
    ensures TurnOk(c, s, i, Swapped(c, s, i.todo[0].0, i.todo[0].1, nonce).0, j)
  {
    hide Ahead, Current, Tracks, Reads, Swapped, Moved, Stale;
    var (id, r) := i.todo[0];
    SwapMoves(c, s, id, r, nonce);
    AheadAfterSwap(c, s, i, nonce, j);
    forall k, q | Tracks(c, s, k, q) ensures Tracks(c, Swapped(c, s, id, r, nonce).0, k, q) {
      SwapKeepsTracks(c, s, id, r, nonce, k, q);
    }
  }

  lemma SwapTurn(c: Config, s: Store, i: Instance, nonce: nat)
    requires ConfigOk(c) && '.' !in c.ring.primary && Ahead(c, s, i) && i.todo != [] && !i.failed
    requires !Current(c, i.todo[0].1) && Reads(c, i.todo[0].0, i.todo[0].1).Some?
    ensures var out := Turn(c, s, i, nonce); TurnOk(c, s, i, out.0, out.1)
  {
    hide Current, Reads, TurnOk, Swap;
    var (id, r) := i.todo[0];
    assert Tracks(c, s, id, r);
    SwapOk(c, s, i, nonce, Turn(c, s, i, nonce).1);
  }

  lemma OtherTurn(c: Config, s: Store, i: Instance, nonce: nat)
    requires Available(c.ring) && Ahead(c, s, i)
    requires i.todo != [] ==> i.failed || Current(c, i.todo[0].1) || Reads(c, i.todo[0].0, i.todo[0].1).None?
    ensures var out := Turn(c, s, i, nonce); TurnOk(c, s, i, out.0, out.1) && out.0 == s
  {
  }

  lemma TurnEffect(c: Config, s: Store, i: Instance, nonce: nat)
    requires ConfigOk(c) && '.' !in c.ring.primary && Ahead(c, s, i)
    ensures var out := Turn(c, s, i, nonce); TurnOk(c, s, i, out.0, out.1)
  {
    hide Ahead, TurnOk, Turn, Current, Reads;
    if i.todo != [] && !i.failed && !Current(c, i.todo[0].1) && Reads(c, i.todo[0].0, i.todo[0].1).Some? {
      SwapTurn(c, s, i, nonce);
    } else {
      OtherTurn(c, s, i, nonce);
    }
  }

  lemma OthersAhead(c: Config, s: Store, t: Store, i: Instance)
    requires Ahead(c, s, i) && Stale(c, t) <= Stale(c, s) && Moved(c, s, t)
    requires forall k, q :: Tracks(c, s, k, q) ==> Tracks(c, t, k, q)
    ensures Ahead(c, t, i)
  {
  }

  lemma MovedTransitive(c: Config, r: Store, s: Store, t: Store)
    requires Moved(c, r, s) && Moved(c, s, t)
    ensures Moved(c, r, t)
  {
  }

  lemma WorkKeeps(c: Config, s0: Store, w: World, e: Event)
    requires ConfigOk(c) && '.' !in c.ring.primary && Faithful(c, s0, w) && e.Work?
    ensures Faithful(c, s0, Next(c, w, e))
  {
    hide Current, Reads, Turn, Tracks, Moved, Stale;
    if e.instance < |w.instances| {
      var i := w.instances[e.instance];
      var out := Turn(c, w.store, i, e.nonce);
      assert Ahead(c, w.store, i);
      TurnEffect(c, w.store, i, e.nonce);
      MovedTransitive(c, s0, w.store, out.0);
      forall n | 0 <= n < |w.instances| && n != e.instance ensures Ahead(c, out.0, w.instances[n]) {
        OthersAhead(c, w.store, out.0, w.instances[n]);
      }
      hide Ahead;
      TotalUpdate(w.instances, e.instance, out.1);
    }
  }

  lemma BeginKeeps(c: Config, s0: Store, w: World, e: Event)
    requires Faithful(c, s0, w) && e.Begin? && Legal(w, e) && Available(c.ring)
    ensures Faithful(c, s0, Next(c, w, e))
  {
  }

  lemma {:induction false} RunKeeps(c: Config, s0: Store, w: World, es: seq<Event>)
    requires ConfigOk(c) && '.' !in c.ring.primary && Faithful(c, s0, w) && LegalRun(c, w, es)
    ensures Faithful(c, s0, Run(c, w, es))
    decreases |es|
  {
    hide Faithful, Next, Legal;
    if es != [] {
      match es[0] {
        case Begin(_) => BeginKeeps(c, s0, w, es[0]);
        case Work(_, _) => WorkKeeps(c, s0, w, es[0]);
      }
      RunKeeps(c, s0, Next(c, w, es[0]), es[1..]);
    }
  }

  // ---- The migration ----

  /**
   However many instances run and however they interleave: no secret changes, each stale record is counted by exactly
   one instance, and an instance that got through its list leaves every record under the primary key.
   */
  lemma MigrationIsFaithful(c: Config, s0: Store, es: seq<Event>)
    requires ConfigOk(c) && '.' !in c.ring.primary && LegalRun(c, World(s0, []), es)
    ensures var w := Run(c, World(s0, []), es);
            && SameReads(c, s0, w.store)
            && Total(w.instances) == |Stale(c, s0)| - |Stale(c, w.store)|
            && forall n :: 0 <= n < |w.instances| && w.instances[n].todo == [] && !w.instances[n].failed ==>
                 Stale(c, w.store) == {} && Total(w.instances) == |Stale(c, s0)|
  {
    RunKeeps(c, s0, World(s0, []), es);
    var w := Run(c, World(s0, []), es);
    forall n | 0 <= n < |w.instances| && w.instances[n].todo == [] &&
        !w.instances[n].failed ensures Stale(c, w.store) == {} {
      assert Ahead(c, w.store, w.instances[n]);
    }
  }

  /** The configuration once the old keys have been taken away: the primary key alone. */
  function PrimaryOnly(c: Config): Config
    requires Available(c.ring)
  {
    c.(kind := if c.kind.Sources? then Sources else MfaSecrets(None),
       ring := Ring(c.ring.primary, map[c.ring.primary := c.ring.keys[c.ring.primary]]))
  }

  /** What migration is for: once an instance got through its list, every secret reads the same without the old keys. */
  lemma OldKeysCanGo(c: Config, s0: Store, es: seq<Event>, n: nat)
    requires ConfigOk(c) && '.' !in c.ring.primary && LegalRun(c, World(s0, []), es)
    requires var w := Run(c, World(s0, []), es);
             n < |w.instances| && w.instances[n].todo == [] && !w.instances[n].failed
    ensures var s := Run(c, World(s0, []), es).store;
            s.Keys == s0.Keys && forall id :: id in s0 ==> Reads(PrimaryOnly(c), id, s[id]) == Reads(c, id, s0[id])
  {
    hide Faithful, Run, LegalRun, Reads, Current;
    MigrationIsFaithful(c, s0, es);
    var s := Run(c, World(s0, []), es).store;
    forall id | id in s0 ensures Reads(PrimaryOnly(c), id, s[id]) == Reads(c, id, s0[id]) {
      assert id !in Stale(c, s);
      CurrentReadsAlone(c, id, s[id]);
    }
  }

  lemma CurrentReadsAlone(c: Config, id: Id, r: Record)
    requires ConfigOk(c) && Current(c, r)
    ensures Reads(PrimaryOnly(c), id, r) == Reads(c, id, r)
  {
  }

  lemma NobodyFails(c: Config, s0: Store, w: World, e: Event)
    requires ConfigOk(c) && Faithful(c, s0, w) && (forall n :: 0 <= n < |w.instances| ==> !w.instances[n].failed)
    requires forall id :: id in Stale(c, s0) ==> Reads(c, id, s0[id]).Some?
    ensures forall n :: 0 <= n < |Next(c, w, e).instances| ==> !Next(c, w, e).instances[n].failed
  {
    if e.Work? && e.instance < |w.instances| && w.instances[e.instance].todo != [] {
      var i := w.instances[e.instance];
      var (id, r) := i.todo[0];
      assert Ahead(c, w.store, i) && Tracks(c, w.store, id, r);
      hide Current, Reads, Swap, Rewrapped, Ahead;
      assert w.store[id] == r ==> w.store[id] == s0[id] || Current(c, r);
    }
  }

  lemma {:induction false} ReadableNeverFails(c: Config, s0: Store, w: World, es: seq<Event>)
    requires ConfigOk(c) && '.' !in c.ring.primary && Faithful(c, s0, w) && LegalRun(c, w, es)
    requires forall id :: id in Stale(c, s0) ==> Reads(c, id, s0[id]).Some?
    requires forall n :: 0 <= n < |w.instances| ==> !w.instances[n].failed
    ensures forall n :: 0 <= n < |Run(c, w, es).instances| ==> !Run(c, w, es).instances[n].failed
    decreases |es|
  {
    hide Faithful, Next, Stale, Legal;
    if es != [] {
      match es[0] {
        case Begin(_) => BeginKeeps(c, s0, w, es[0]);
        case Work(_, _) => WorkKeeps(c, s0, w, es[0]);
      }
      NobodyFails(c, s0, w, es[0]);
      ReadableNeverFails(c, s0, Next(c, w, es[0]), es[1..]);
    }
  }

  /**
   Once every instance has stopped, they all got through exactly when every stale record could be read to begin with.
   */
  lemma CompletionNeedsReadable(c: Config, s0: Store, es: seq<Event>)
    requires ConfigOk(c) && '.' !in c.ring.primary && LegalRun(c, World(s0, []), es)
    requires var w := Run(c, World(s0, []), es);
             w.instances != [] && forall n :: 0 <= n < |w.instances| ==>
                 w.instances[n].todo == [] || w.instances[n].failed
    ensures (forall n :: 0 <= n < |Run(c, World(s0, []), es).instances| ==>
              !Run(c, World(s0, []), es).instances[n].failed)
            <==> forall id :: id in Stale(c, s0) ==> Reads(c, id, s0[id]).Some?
  {
    var w := Run(c, World(s0, []), es);
    RunKeeps(c, s0, World(s0, []), es);
    hide Current, Reads;
    if forall id :: id in Stale(c, s0) ==> Reads(c, id, s0[id]).Some? { ReadableNeverFails(c, s0, World(s0, []), es); }
    if !w.instances[0].failed {
      MigrationIsFaithful(c, s0, es);
      forall id | id in Stale(c, s0) ensures Reads(c, id, s0[id]).Some? {
        assert id in w.store && id !in Stale(c, w.store);
      }
    }
  }

  /** When everything is under the primary key, a further run changes nothing and counts nothing. */
  lemma FurtherRunIsIdle(c: Config, s0: Store, es: seq<Event>)
    requires ConfigOk(c) && '.' !in c.ring.primary && LegalRun(c, World(s0, []), es) && Stale(c, s0) == {}
    ensures var w := Run(c, World(s0, []), es); w.store == s0 && Total(w.instances) == 0
  {
    RunKeeps(c, s0, World(s0, []), es);
    hide Current, Reads;
  }

  // ---- Primary identifiers with a dot ----

  /** An envelope that cannot be taken apart; it reads as nothing, whatever the key column says. */
  predicate Dead(c: Config, r: Record) { PREFIX <= r.ciphertext && Parse(r.ciphertext, c.x) == None }

  lemma DeadIsUnreadable(c: Config, id: Id, r: Record)
    requires RawOk(c.x) && Dead(c, r)
    ensures Reads(c, id, r) == None
  {
  }

  lemma DottedRewrapIsDead(c: Config, id: Id, plain: Plaintext, nonce: nat)
    requires ConfigOk(c) && '.' in c.ring.primary
    ensures Dead(c, Rewrapped(c, id, plain, nonce))
  {
    SealedOpens(c.ring, c.purpose, id, plain, nonce, c.x);
    var sealed := Seal(c.ring, c.purpose, id, plain, nonce, c.x);
    assert sealed == PREFIX + sealed[|PREFIX|..];
  }

  /** The record could be read and was moved, and now it cannot. */
  predicate Lost(c: Config, s0: Store, s: Store, id: Id) {
    id in Stale(c, s0) && id in s && Reads(c, id, s0[id]).Some? && Dead(c, s[id])
  }

  function LostIn(c: Config, s0: Store, s: Store): set<Id> { set id | id in s0 && Lost(c, s0, s, id) }

  predicate TodoKnown(c: Config, s0: Store, todo: seq<(Id, Record)>) {
    forall k :: 0 <= k < |todo| ==> var (id, r) := todo[k]; id in s0 && (r == s0[id] || Dead(c, r))
  }

  /** Under a dotted identifier every record is as it was or lost, and every counted move has lost one. */
  predicate Wrecked(c: Config, s0: Store, w: World) {
    && w.store.Keys == s0.Keys
    && (forall id :: id in s0 ==> w.store[id] == s0[id] || Lost(c, s0, w.store, id))
    && |LostIn(c, s0, w.store)| == Total(w.instances)
    && (forall n :: 0 <= n < |w.instances| ==> TodoKnown(c, s0, w.instances[n].todo))
  }

  /** A turn under a dotted identifier: nothing moves, or one readable record is lost. */
  lemma DottedTurn(c: Config, s0: Store, s: Store, i: Instance, nonce: nat)
    requires ConfigOk(c) && RawOk(c.x) && '.' in c.ring.primary && TodoKnown(c, s0, i.todo)
    requires s.Keys == s0.Keys && forall id :: id in s0 ==> s[id] == s0[id] || Lost(c, s0, s, id)
    ensures var (t, j) := Turn(c, s, i, nonce);
            && TodoKnown(c, s0, j.todo)
            && (j.count == i.count ==> t == s)
            && (j.count != i.count ==>
                  && j.count == i.count + 1 && i.todo != [] && i.todo[0].0 in s && i.todo[0].0 in t
                  && t == s[i.todo[0].0 := t[i.todo[0].0]]
                  && !Lost(c, s0, s, i.todo[0].0) && Lost(c, s0, t, i.todo[0].0))
  {
    if i.todo != [] && !i.failed {
      var (id, r) := i.todo[0];
      if Reads(c, id, r).Some? && !Current(c, r) {
        DottedRewrapIsDead(c, id, Reads(c, id, r).value, nonce);
        if Dead(c, r) { DeadIsUnreadable(c, id, r); }
        if s[id].ciphertext == r.ciphertext { assert !Dead(c, s[id]) && s[id] == s0[id] == r; }
      }
    }
  }

  lemma LostStays(c: Config, s0: Store, s: Store, t: Store, id: Id)
    requires s.Keys == s0.Keys && id in s && id in t && t == s[id := t[id]]
    requires !Lost(c, s0, s, id) && Lost(c, s0, t, id)
    ensures LostIn(c, s0, t) == LostIn(c, s0, s) + {id} && |LostIn(c, s0, t)| == |LostIn(c, s0, s)| + 1
    ensures forall k :: k in s0 && Lost(c, s0, s, k) ==> Lost(c, s0, t, k)
  {
    hide Reads, Current, Dead, Stale;
    assert LostIn(c, s0, t) == LostIn(c, s0, s) + {id} && id !in LostIn(c, s0, s);
  }

  lemma DottedBegin(c: Config, s0: Store, w: World, listing: seq<(Id, Record)>)
    requires Available(c.ring) && Wrecked(c, s0, w) && Lists(w.store, listing)
    ensures Wrecked(c, s0, Next(c, w, Begin(listing)))
  {
    var after := w.instances + [Instance(listing, 0, false)];
    assert after[..|w.instances|] == w.instances;
    hide Reads, Current, Dead, Stale;
    forall k | 0 <= k < |listing| ensures var (id, r) := listing[k]; id in s0 && (r == s0[id] || Dead(c, r)) {
      assert w.store[listing[k].0] == listing[k].1;
    }
  }

  lemma DottedWork(c: Config, s0: Store, w: World, n: nat, nonce: nat)
    requires ConfigOk(c) && RawOk(c.x) && '.' in c.ring.primary && Wrecked(c, s0, w) && n < |w.instances|
    ensures Wrecked(c, s0, Next(c, w, Work(n, nonce)))
  {
    hide Turn, Reads, Current, Lost, Dead, Stale, TodoKnown;
    var i := w.instances[n];
    DottedTurn(c, s0, w.store, i, nonce);
    var (t, j) := Turn(c, w.store, i, nonce);
    TotalUpdate(w.instances, n, j);
    if j.count != i.count {
      LostStays(c, s0, w.store, t, i.todo[0].0);
    }
  }

  lemma DottedStep(c: Config, s0: Store, w: World, e: Event)
    requires ConfigOk(c) && RawOk(c.x) && '.' in c.ring.primary && Wrecked(c, s0, w) && Legal(w, e)
    ensures Wrecked(c, s0, Next(c, w, e))
  {
    hide Wrecked;
    match e
    case Begin(listing) => DottedBegin(c, s0, w, listing);
    case Work(n, nonce) => if n < |w.instances| { DottedWork(c, s0, w, n, nonce); }
  }

  lemma {:induction false} DottedRun(c: Config, s0: Store, w: World, es: seq<Event>)
    requires ConfigOk(c) && RawOk(c.x) && '.' in c.ring.primary && Wrecked(c, s0, w) && LegalRun(c, w, es)
    ensures Wrecked(c, s0, Run(c, w, es))
    decreases |es|
  {
    hide Wrecked, Next, Legal;
    if es != [] {
      DottedStep(c, s0, w, es[0]);
      DottedRun(c, s0, Next(c, w, es[0]), es[1..]);
    }
  }

  /** The secrets a run has made unreadable. */
  function Destroyed(c: Config, s0: Store, s: Store): set<Id> {
    set id | id in s0 && Reads(c, id, s0[id]).Some? && id in s && Reads(c, id, s[id]).None?
  }

  /**
   Whatever the primary identifier and however the instances interleave: without a dot no secret is destroyed, with one
   every move that was counted as a success destroyed one, and no other secret changed.
   */
  lemma MovesDestroy(c: Config, s0: Store, es: seq<Event>)
    requires ConfigOk(c) && RawOk(c.x) && LegalRun(c, World(s0, []), es)
    ensures var w := Run(c, World(s0, []), es);
            && |Destroyed(c, s0, w.store)| == (if '.' in c.ring.primary then Total(w.instances) else 0)
            && w.store.Keys == s0.Keys
            && forall id :: id in s0 && id !in Destroyed(c, s0, w.store) ==>
                 Reads(c, id, w.store[id]) == Reads(c, id, s0[id])
  {
    var w := Run(c, World(s0, []), es);
    if '.' !in c.ring.primary {
      MigrationIsFaithful(c, s0, es);
      assert Destroyed(c, s0, w.store) == {};
    } else {
      DottedRun(c, s0, World(s0, []), es);
      LostIsDestroyed(c, s0, w.store);
    }
  }

  lemma LostIsDestroyed(c: Config, s0: Store, s: Store)
    requires RawOk(c.x) && s.Keys == s0.Keys
    requires forall id :: id in s0 ==> s[id] == s0[id] || Lost(c, s0, s, id)
    ensures Destroyed(c, s0, s) == LostIn(c, s0, s)
  {
    forall id | id in LostIn(c, s0, s) ensures Reads(c, id, s[id]).None? { DeadIsUnreadable(c, id, s[id]); }
    hide Reads, Current, Dead;
  }

  /** So a run keeps every secret exactly when the primary identifier has no dot or nothing was moved. */
  lemma SecretsSurvive(c: Config, s0: Store, es: seq<Event>)
    requires ConfigOk(c) && RawOk(c.x) && LegalRun(c, World(s0, []), es)
    ensures var w := Run(c, World(s0, []), es);
            SameReads(c, s0, w.store) <==> '.' !in c.ring.primary || Total(w.instances) == 0
  {
    hide Reads, Run, LegalRun;
    MovesDestroy(c, s0, es);
    var w := Run(c, World(s0, []), es);
    if Destroyed(c, s0, w.store) != {} { var id :| id in Destroyed(c, s0, w.store); }
  }

  lemma {:induction false} ListingOf(s: Store) returns (listing: seq<(Id, Record)>)
    ensures Lists(s, listing)
    decreases |s.Keys|
  {
    if s == map[] {
      listing := [];
    } else {
      assert s.Keys != {};
      var id :| id in s;
      var rest := s - {id};
      assert |s.Keys| == |rest.Keys| + 1 by { assert s.Keys == rest.Keys + {id}; }
      listing := ListingOf(rest);
      ListingWith(s, id, listing);
      listing := [(id, s[id])] + listing;
    }
  }

  lemma ListingWith(s: Store, id: Id, rest: seq<(Id, Record)>)
    requires id in s && Lists(s - {id}, rest)
    ensures Lists(s, [(id, s[id])] + rest)
  {
    var listing := [(id, s[id])] + rest;
    forall k | k in s ensures (k, s[k]) in listing {
      if k == id {
        assert listing[0] == (k, s[k]);
      } else {
        assert k in s - {id} && (k, s[k]) in rest && listing[1..] == rest;
      }
    }
    forall k | 0 <= k < |listing| ensures listing[k].0 in s && s[listing[k].0] == listing[k].1 {
      if k > 0 { assert listing[k] == rest[k - 1]; }
    }
  }

  lemma OneMoveIsCounted(c: Config, s0: Store, id: Id) returns (es: seq<Event>)
    requires Available(c.ring) && id in Stale(c, s0) && Reads(c, id, s0[id]).Some?
    ensures LegalRun(c, World(s0, []), es) && Total(Run(c, World(s0, []), es).instances) == 1
  {
    var rest := ListingOf(s0 - {id});
    ListingWith(s0, id, rest);
    var listing := [(id, s0[id])] + rest;
    var begin, work := Begin(listing), Work(0, 0);
    es := [begin, work];
    hide Reads, Current, Lists;
    var w1 := Next(c, World(s0, []), begin);
    assert es[1..] == [work] && [work][1..] == [];
    assert LegalRun(c, Next(c, w1, work), []) && LegalRun(c, w1, [work]);
    assert w1.instances == [Instance(listing, 0, false)];
    var w2 := Next(c, w1, work);
    assert Run(c, World(s0, []), es) == Run(c, w1, [work]) == Run(c, w2, []) == w2;
    assert w1.instances[0].todo[0] == (id, s0[id]) && !Current(c, s0[id]);
    assert w2.instances == [Turn(c, s0, w1.instances[0], 0).1] && w2.instances[0].count == 1;
    assert Total(w2.instances[..0]) == 0;
  }

  /** Exactly when every run keeps every secret: no dot, or no record that is not current could be read anyway. */
  lemma DottedPrimaryLosesSecrets(c: Config, s0: Store)
    requires ConfigOk(c) && RawOk(c.x)
    ensures (forall es :: LegalRun(c, World(s0, []), es) ==> SameReads(c, s0, Run(c, World(s0, []), es).store))
            <==> '.' !in c.ring.primary || forall id :: id in Stale(c, s0) ==> Reads(c, id, s0[id]) == None
  {
    hide Reads, Current, Run, LegalRun, SameReads;
    if '.' !in c.ring.primary || forall id :: id in Stale(c, s0) ==> Reads(c, id, s0[id]) == None {
      forall es | LegalRun(c, World(s0, []), es) ensures SameReads(c, s0, Run(c, World(s0, []), es).store) {
        NothingReadableNothingMoved(c, s0, es);
      }
    } else {
      var id :| id in Stale(c, s0) && Reads(c, id, s0[id]) != None;
      var es := OneMoveIsCounted(c, s0, id);
      SecretsSurvive(c, s0, es);
      assert !SameReads(c, s0, Run(c, World(s0, []), es).store);
    }
  }

  lemma NothingReadableNothingMoved(c: Config, s0: Store, es: seq<Event>)
    requires ConfigOk(c) && RawOk(c.x) && LegalRun(c, World(s0, []), es)
    requires '.' !in c.ring.primary || forall id :: id in Stale(c, s0) ==> Reads(c, id, s0[id]) == None
    ensures SameReads(c, s0, Run(c, World(s0, []), es).store)
  {
    SecretsSurvive(c, s0, es);
    if '.' in c.ring.primary { DottedRun(c, s0, World(s0, []), es); }
    hide Reads, Current, Run, LegalRun, SameReads, Dead;
  }

  const EXAMPLE_RING: Ring := Ring("k.1", map["k.1" := 1, "old" := 2])

  function ExampleConfig(kind: Kind, x: Codec): Config { Config(kind, EXAMPLE_RING, "purpose", x) }

  function ExampleRecord(x: Codec): Record {
    Record(Seal(Ring("old", EXAMPLE_RING.keys), "purpose", "id", "secret", 0, x), "old")
  }

  lemma ExampleReads(kind: Kind, x: Codec)
    requires CodecOk(x) && kind in {Sources, MfaSecrets(None)}
    ensures var c, r := ExampleConfig(kind, x), ExampleRecord(x);
            ConfigOk(c) && Reads(c, "id", r) == Some("secret") && !Current(c, r)
  {
    SealedOpens(Ring("old", EXAMPLE_RING.keys), "purpose", "id", "secret", 0, x);
  }

  /** For instance "k.1", a valid identifier: a secret under another key reads before the move and not after it. */
  lemma DottedExample(kind: Kind, x: Codec)
    requires CodecOk(x) && kind in {Sources, MfaSecrets(None)}
    ensures var c, r := ExampleConfig(kind, x), ExampleRecord(x);
            && ConfigOk(c) && Reads(c, "id", r) == Some("secret")
            && Reads(c, "id", Turn(c, map["id" := r], Instance([("id", r)], 0, false), 0).0["id"]) == None
  {
    var c, r := ExampleConfig(kind, x), ExampleRecord(x);
    ExampleReads(kind, x);
    DottedRewrapIsDead(c, "id", "secret", 0);
    hide Current, ExampleRecord, Rewrapped;
    assert Turn(c, map["id" := r], Instance([("id", r)], 0, false), 0).0["id"] == Rewrapped(c, "id", "secret", 0);
  }
}
