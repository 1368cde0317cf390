/** The re-wrapping loop over a repository, as one instance runs it undisturbed. */
module RewrapService {
  import opened Prelude
  import opened KeyRing
  import opened Rewrap

  class SecretRepository {
    var records: Store
    var order: seq<Id>

    predicate Valid()
      reads this
    {
      (forall id :: id in order ==> id in records) && (forall id :: id in records ==> id in order)
    }

    constructor ()
      ensures Valid() && records == map[]
    {
      records, order := map[], [];
    }

    method ListCiphertexts() returns (listing: seq<(Id, Record)>)
      requires Valid()
      ensures Lists(records, listing)
    {
      listing := [];
      for i := 0 to |order|
        invariant |listing| == i && forall k :: 0 <= k < i ==> listing[k] == (order[k], records[order[k]])
      {
        assert order[i] in order;
        listing := listing + [(order[i], records[order[i]])];
      }
      forall id | id in records ensures (id, records[id]) in listing {
        var k :| 0 <= k < |order| && order[k] == id;
        assert listing[k] == (id, records[id]);
      }
      forall k | 0 <= k < |listing| ensures listing[k].0 in records && records[listing[k].0] == listing[k].1 {
        assert order[k] in order;
      }
    }

    method ReplaceCiphertext(id: Id, current: string, replacement: Record) returns (replaced: bool)
      requires Valid()
      modifies `records
      ensures Valid() && (records, replaced) == Swap(old(records), id, current, replacement)
    {
      if id !in records || records[id].ciphertext != current { return false; }
      records := records[id := replacement];
      return true;
    }
  }

  /** The events are one instance's turns, from its listing until it has stopped; ok says that it got through. */
  ghost predicate RanAlone(c: Config, before: Store, es: seq<Event>, after: Store, count: nat, ok: bool)
    requires Available(c.ring)
  {
    && LegalRun(c, World(before, []), es)
    && var w := Run(c, World(before, []), es);
       && w.store == after && |w.instances| == 1 && w.instances[0].count == count
       && (if ok then !w.instances[0].failed && w.instances[0].todo == [] else w.instances[0].failed)
  }

  /** count secrets were moved; ok says that the loop reached the end. */
  method RewrapSecrets(repository: SecretRepository, c: Config, nonce: nat -> nat)
    returns (count: nat, ok: bool, ghost es: seq<Event>)
    requires repository.Valid() && CodecOk(c.x) && Parsed(c.ring)
    modifies repository
    ensures repository.Valid()
    ensures !Available(c.ring) ==>
              && repository.records == old(repository.records) && count == 0
              && (ok <==> !c.kind.Sources? || repository.records == map[])
    ensures Available(c.ring) ==> RanAlone(c, old(repository.records), es, repository.records, count, ok)
    ensures Available(c.ring) && '.' !in c.ring.primary ==>
              && SameReads(c, old(repository.records), repository.records)
              && count == |Stale(c, old(repository.records))| - |Stale(c, repository.records)|
              && (ok ==> Stale(c, repository.records) == {})
              && (ok <==> forall id :: id in Stale(c, old(repository.records)) ==>
                    Reads(c, id, old(repository.records)[id]).Some?)
    ensures Available(c.ring) && RawOk(c.x) ==>
              (SameReads(c, old(repository.records), repository.records) <==> '.' !in c.ring.primary || count == 0)
  {
    hide Current, Reads, SameReads, Stale, Lists, Parsed, CodecOk, Run, LegalRun, RawOk;
    ghost var before := repository.records;
    es := [];
    if !c.kind.Sources? && !Available(c.ring) { return 0, true, []; }
    var todo := repository.ListCiphertexts();
    if !Available(c.ring) {
      EmptyListing(before, todo);
      return 0, todo == [], [];
    }
    count, ok := 0, true;
    es := Started(c, before, todo);
    for k := 0 to |todo|
      invariant repository.Valid() && ok
      invariant LegalRun(c, World(before, []), es)
      invariant Run(c, World(before, []), es) == World(repository.records, [Instance(todo[k..], count, false)])
    {
      RunSnoc(c, World(before, []), es, Work(0, nonce(k)));
      es := es + [Work(0, nonce(k))];
      var (id, r) := todo[k];
      assert todo[k..][0] == todo[k] && todo[k..][1..] == todo[k + 1..];
      if Current(c, r) { continue; }
      var plain := Reads(c, id, r);
      if plain.None? {
        ok := false;
        break;
      }
      var replaced := repository.ReplaceCiphertext(id, r.ciphertext, Rewrapped(c, id, plain.value, nonce(k)));
      if replaced { count := count + 1; }
    }
    Outcome(c, before, es, repository.records, count, ok);
  }

  lemma Started(c: Config, s: Store, listing: seq<(Id, Record)>) returns (es: seq<Event>)
    requires Available(c.ring) && Lists(s, listing)
    ensures LegalRun(c, World(s, []), es) && Run(c, World(s, []), es) == World(s, [Instance(listing, 0, false)])
  {
    es := [Begin(listing)];
    var w := Next(c, World(s, []), es[0]);
    assert es[1..] == [] && LegalRun(c, w, []) && Run(c, w, []) == w;
  }

  lemma {:induction false} RunSnoc(c: Config, w: World, es: seq<Event>, e: Event)
    requires Available(c.ring)
    ensures Run(c, w, es + [e]) == Next(c, Run(c, w, es), e)
    ensures LegalRun(c, w, es) && Legal(Run(c, w, es), e) ==> LegalRun(c, w, es + [e])
    decreases |es|
  {
    hide Next, Legal;
    if es == [] {
      assert [] + [e] == [e] && [e][1..] == [];
      assert Run(c, Next(c, w, e), []) == Next(c, w, e) && LegalRun(c, Next(c, w, e), []);
    } else {
      assert (es + [e])[1..] == es[1..] + [e];
      RunSnoc(c, Next(c, w, es[0]), es[1..], e);
    }
  }

  lemma Outcome(c: Config, before: Store, es: seq<Event>, after: Store, count: nat, ok: bool)
    requires ConfigOk(c) && RanAlone(c, before, es, after, count, ok)
    ensures '.' !in c.ring.primary ==>
              && SameReads(c, before, after) && count == |Stale(c, before)| - |Stale(c, after)|
              && (ok ==> Stale(c, after) == {})
              && (ok <==> forall id :: id in Stale(c, before) ==> Reads(c, id, before[id]).Some?)
    ensures RawOk(c.x) ==> (SameReads(c, before, after) <==> '.' !in c.ring.primary || count == 0)
  {
    hide Current, Reads, SameReads, Run, LegalRun, Stale, CodecOk, Parsed, RawOk;
    var w := Run(c, World(before, []), es);
    assert Total(w.instances) == Total(w.instances[..0]) + count == count;
    if '.' !in c.ring.primary {
      MigrationIsFaithful(c, before, es);
      CompletionNeedsReadable(c, before, es);
    }
    if RawOk(c.x) { SecretsSurvive(c, before, es); }
  }

  lemma EmptyListing(s: Store, listing: seq<(Id, Record)>)
    requires Lists(s, listing)
    ensures listing == [] <==> s == map[]
  {
    if listing != [] { assert listing[0].0 in s; }
    if s != map[] {
      assert s.Keys != {};
      var id :| id in s;
      assert (id, s[id]) in listing;
    }
  }
}
