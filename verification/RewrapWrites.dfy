/** Re-encryption while others change the secrets: what the compare-and-swap is for. */
module RewrapWrites {
  import opened Prelude
  import opened KeyRing
  import opened Rewrap

  /** A turn of the migration, or what the rest of the system does: store a secret under some key, or remove it. */
  datatype Step =
    | Migrate(e: Event)
    | Write(id: Id, keyId: string, plain: Plaintext, nonce: nat)
    | Remove(id: Id)

  predicate KnownKey(c: Config, keyId: string) { keyId != "" && keyId in c.ring.keys }

  function Written(c: Config, id: Id, keyId: string, plain: Plaintext, nonce: nat): Record
    requires KnownKey(c, keyId)
  {
    Record(Seal(Ring(keyId, c.ring.keys), c.purpose, id, plain, nonce, c.x), keyId)
  }

  /** The steps that are not the migration's. */
  function Changed(c: Config, s: Store, x: Step): Store {
    match x
    case Migrate(_) => s
    case Write(id, keyId, plain, nonce) =>
      if KnownKey(c, keyId) then s[id := Written(c, id, keyId, plain, nonce)] else s
    case Remove(id) => s - {id}
  }

  function NextStep(c: Config, w: World, x: Step): World
    requires Available(c.ring)
  {
    if x.Migrate? then Next(c, w, x.e) else w.(store := Changed(c, w.store, x))
  }

  /** No instance has listed this ciphertext. */
  ghost predicate Unlisted(w: World, ciphertext: string) {
    forall n, k :: 0 <= n < |w.instances| && 0 <= k < |w.instances[n].todo| ==>
      w.instances[n].todo[k].1.ciphertext != ciphertext
  }

  /** Listings show what is stored, and nonces are fresh: a new ciphertext is none that was listed. */
  ghost predicate LegalStep(c: Config, w: World, x: Step) {
    match x
    case Migrate(e) => Legal(w, e)
    case Write(id, keyId, plain, nonce) =>
      KnownKey(c, keyId) ==> Unlisted(w, Written(c, id, keyId, plain, nonce).ciphertext)
    case Remove(_) => true
  }

  function RunSteps(c: Config, w: World, xs: seq<Step>): World
    requires Available(c.ring)
    decreases |xs|
  {
    if xs == [] then w else RunSteps(c, NextStep(c, w, xs[0]), xs[1..])
  }

  ghost predicate LegalSteps(c: Config, w: World, xs: seq<Step>)
    requires Available(c.ring)
    decreases |xs|
  {
    xs == [] || (LegalStep(c, w, xs[0]) && LegalSteps(c, NextStep(c, w, xs[0]), xs[1..]))
  }

  /** The same run without the migration. */
  function WithoutMigration(c: Config, s: Store, xs: seq<Step>): Store
    decreases |xs|
  {
    if xs == [] then s else WithoutMigration(c, Changed(c, s, xs[0]), xs[1..])
  }

  // ---- The invariant ----

  /** If the record is not as listed, a swap against the listed ciphertext will fail. */
  predicate Guarded(c: Config, s: Store, id: Id, r: Record) {
    id in s ==> s[id] == r || s[id].ciphertext != r.ciphertext || Current(c, s[id])
  }

  predicate AllGuarded(c: Config, w: World) {
    forall n, k :: 0 <= n < |w.instances| && 0 <= k < |w.instances[n].todo| ==>
      Guarded(c, w.store, w.instances[n].todo[k].0, w.instances[n].todo[k].1)
  }

  /** A swap goes through only against the very record that was listed, and then leaves what it reads. */
  lemma GuardedSwap(c: Config, s: Store, id: Id, r: Record, nonce: nat)
    requires ConfigOk(c) && '.' !in c.ring.primary && Guarded(c, s, id, r) && !Current(c, r) && Reads(c, id, r).Some?
    ensures var out := Swapped(c, s, id, r, nonce);
            && (out.1 <==> id in s && s[id] == r) && (!out.1 ==> out.0 == s)
            && out.0.Keys == s.Keys && (forall k :: k in s && k != id ==> out.0[k] == s[k])
            && (out.1 ==> Current(c, out.0[id]) && Reads(c, id, out.0[id]) == Reads(c, id, r))
  {
    RewrappedReads(c, id, Reads(c, id, r).value, nonce);
    ReadableStaleIsElsewhere(c, id, r);
  }

  /** A turn changes no plaintext and disturbs no listing. */
  lemma TurnIsInvisible(c: Config, s: Store, i: Instance, nonce: nat)
    requires ConfigOk(c) && '.' !in c.ring.primary
    requires i.todo != [] ==> Guarded(c, s, i.todo[0].0, i.todo[0].1)
    ensures var (t, j) := Turn(c, s, i, nonce);
            && SameReads(c, s, t)
            && (forall id, r :: Guarded(c, s, id, r) ==> Guarded(c, t, id, r))
            && (forall k :: 0 <= k < |j.todo| ==> j.todo[k] in i.todo)
  {
    if i.todo != [] && !i.failed {
      var (id, r) := i.todo[0];
      if !Current(c, r) && Reads(c, id, r).Some? {
        GuardedSwap(c, s, id, r, nonce);
        var t := Swapped(c, s, id, r, nonce).0;
        assert Turn(c, s, i, nonce).0 == t && Turn(c, s, i, nonce).1.todo == i.todo[1..];
        hide Turn, Swapped, Current, Reads;
      }
    }
  }

  lemma MigrateKeeps(c: Config, w: World, e: Event)
    requires ConfigOk(c) && '.' !in c.ring.primary && AllGuarded(c, w) && Legal(w, e)
    ensures AllGuarded(c, Next(c, w, e)) && SameReads(c, w.store, Next(c, w, e).store)
  {
    hide Turn, Reads, Current, SameReads;
    match e
    case Begin(listing) =>
      assert SameReads(c, w.store, w.store) by { SameReadsSelf(c, w.store); }
    case Work(n, nonce) =>
      if n < |w.instances| {
        var i := w.instances[n];
        TurnIsInvisible(c, w.store, i, nonce);
        hide Guarded;
        var z := Next(c, w, e);
        forall m, k | 0 <= m < |z.instances| && 0 <= k < |z.instances[m].todo|
          ensures Guarded(c, z.store, z.instances[m].todo[k].0, z.instances[m].todo[k].1)
        {
          assert z.instances[m].todo[k] in w.instances[m].todo;
        }
      } else {
        SameReadsSelf(c, w.store);
      }
  }

  lemma SameReadsSelf(c: Config, s: Store)
    ensures SameReads(c, s, s)
  {
  }

  lemma ChangeKeeps(c: Config, w: World, x: Step)
    requires AllGuarded(c, w) && !x.Migrate? && LegalStep(c, w, x) && Available(c.ring)
    ensures AllGuarded(c, NextStep(c, w, x))
  {
    hide Current, Written;
  }

  lemma SameChange(c: Config, s: Store, t: Store, x: Step)
    requires SameReads(c, s, t)
    ensures SameReads(c, Changed(c, s, x), Changed(c, t, x))
  {
    hide Reads, Written;
  }

  lemma SameReadsTransitive(c: Config, s: Store, t: Store, u: Store)
    requires SameReads(c, s, t) && SameReads(c, t, u)
    ensures SameReads(c, s, u)
  {
    hide Reads;
  }

  lemma {:induction false} MigrationIsInvisible(c: Config, w: World, u: Store, xs: seq<Step>)
    requires ConfigOk(c) && '.' !in c.ring.primary && AllGuarded(c, w) && SameReads(c, u, w.store)
    requires LegalSteps(c, w, xs)
    ensures SameReads(c, WithoutMigration(c, u, xs), RunSteps(c, w, xs).store)
    decreases |xs|
  {
    hide AllGuarded, SameReads, Legal, Unlisted;
    if xs != [] {
      var x := xs[0];
      if x.Migrate? {
        assert Legal(w, x.e);
        MigrateKeeps(c, w, x.e);
        SameReadsTransitive(c, u, w.store, Next(c, w, x.e).store);
      } else {
        ChangeKeeps(c, w, x);
        SameChange(c, u, w.store, x);
      }
      hide NextStep, Changed;
      MigrationIsInvisible(c, NextStep(c, w, x), Changed(c, u, x), xs[1..]);
    }
  }

  /**
   However many instances migrate and whoever stores and removes secrets meanwhile, under whatever key: in the end
   every secret reads as if there had been no migration. No update is lost to it and no removed secret comes back.
   */
  lemma NoUpdateIsLost(c: Config, s0: Store, xs: seq<Step>)
    requires ConfigOk(c) && '.' !in c.ring.primary && LegalSteps(c, World(s0, []), xs)
    ensures SameReads(c, WithoutMigration(c, s0, xs), RunSteps(c, World(s0, []), xs).store)
  {
    SameReadsSelf(c, s0);
    MigrationIsInvisible(c, World(s0, []), s0, xs);
  }

  // ---- Completion ----

  predicate UnderPrimary(c: Config, x: Step) { x.Write? ==> x.keyId == c.ring.primary }

  /** Every record not under the primary key is still ahead of an instance that has not given up. */
  predicate Covering(c: Config, s: Store, i: Instance) {
    i.failed || forall id :: id in Stale(c, s) ==> (id, s[id]) in i.todo
  }

  predicate AllCovering(c: Config, w: World) {
    forall n :: 0 <= n < |w.instances| ==> Covering(c, w.store, w.instances[n])
  }

  /** A turn leaves its own record under the primary key or gives up, and brings no other back under another. */
  lemma TurnCovers(c: Config, s: Store, i: Instance, nonce: nat, other: Instance)
    requires ConfigOk(c) && '.' !in c.ring.primary && Covering(c, s, i) && Covering(c, s, other)
    requires i.todo != [] ==> Guarded(c, s, i.todo[0].0, i.todo[0].1)
    ensures var (t, j) := Turn(c, s, i, nonce); Covering(c, t, j) && Covering(c, t, other)
  {
    if i.todo != [] && !i.failed {
      var (id, r) := i.todo[0];
      if !Current(c, r) && Reads(c, id, r).Some? {
        GuardedSwap(c, s, id, r, nonce);
        var t := Swapped(c, s, id, r, nonce).0;
        assert Turn(c, s, i, nonce).0 == t && Turn(c, s, i, nonce).1.todo == i.todo[1..];
        hide Turn, Swapped, Current, Reads;
      } else {
        hide Reads;
      }
    }
  }

  lemma StepCovers(c: Config, w: World, x: Step)
    requires ConfigOk(c) && '.' !in c.ring.primary && AllGuarded(c, w) && AllCovering(c, w)
    requires LegalStep(c, w, x) && UnderPrimary(c, x)
    ensures AllCovering(c, NextStep(c, w, x))
  {
    if x.Write? {
      if KnownKey(c, x.keyId) { RewrappedReads(c, x.id, x.plain, x.nonce); }
      hide Reads, Current, Seal;
    } else if x.Remove? {
      hide Current;
    } else if x.e.Begin? {
      hide Current;
    } else if x.e.instance < |w.instances| {
      var z := NextStep(c, w, x);
      forall m | 0 <= m < |z.instances| ensures Covering(c, z.store, z.instances[m]) {
        TurnCovers(c, w.store, w.instances[x.e.instance], x.e.nonce, w.instances[m]);
      }
      hide Covering, Turn;
    }
  }

  lemma {:induction false} CompletionAlong(c: Config, w: World, xs: seq<Step>, n: nat)
    requires ConfigOk(c) && '.' !in c.ring.primary && AllGuarded(c, w) && AllCovering(c, w) && LegalSteps(c, w, xs)
    requires forall k :: 0 <= k < |xs| ==> UnderPrimary(c, xs[k])
    requires var i := RunSteps(c, w, xs).instances; n < |i| && i[n].todo == [] && !i[n].failed
    ensures Stale(c, RunSteps(c, w, xs).store) == {}
    decreases |xs|
  {
    if xs == [] {
      assert Covering(c, w.store, w.instances[n]);
    } else {
      var x := xs[0];
      StepCovers(c, w, x);
      if x.Migrate? { MigrateKeeps(c, w, x.e); } else { ChangeKeeps(c, w, x); }
      hide AllGuarded, AllCovering, NextStep, Legal, Unlisted;
      CompletionAlong(c, NextStep(c, w, x), xs[1..], n);
    }
  }

  /**
   If the others store secrets under the primary key only, an instance that has got through its list leaves every record
   under it, theirs included.
   */
  lemma CompletionWithWrites(c: Config, s0: Store, xs: seq<Step>, n: nat)
    requires ConfigOk(c) && '.' !in c.ring.primary && LegalSteps(c, World(s0, []), xs)
    requires forall k :: 0 <= k < |xs| ==> UnderPrimary(c, xs[k])
    requires var i := RunSteps(c, World(s0, []), xs).instances; n < |i| && i[n].todo == [] && !i[n].failed
    ensures Stale(c, RunSteps(c, World(s0, []), xs).store) == {}
  {
    hide Stale, RunSteps, LegalSteps;
    CompletionAlong(c, World(s0, []), xs, n);
  }
}
