/** Login sessions: the repository and what its operations mean. */
module Sessions {
  import opened Prelude
  import opened GrantStore

  datatype Session = Session(
    user: Id, hash: Digest, auth: AuthContext, lastSeenAt: Time, expiresAt: Time, revokedAt: Option<Time>)

  type Table = map<Id, Session>

  /** The session with this id is this user's and was never revoked. */
  predicate Standing(t: Table, user: Id, id: Id) {
    id in t && t[id].user == user && t[id].revokedAt.None?
  }

  predicate Active(t: Table, user: Id, id: Id, now: Time) {
    Standing(t, user, id) && now < t[id].expiresAt
  }

  /** No two sessions have the same cookie hash, and none has the empty id or an empty user. */
  ghost predicate WellFormed(t: Table) {
    && (forall a, b :: a in t && b in t && t[a].hash == t[b].hash ==> a == b)
    && (forall a :: a in t ==> a != "" && t[a].user != "")
  }

  predicate Found(t: Table, id: Id, hash: Digest, now: Time) {
    id in t && t[id].hash == hash && t[id].revokedAt.None? && now < t[id].expiresAt
  }

  /** The session a cookie opens. */
  ghost function Lookup(t: Table, hash: Digest, now: Time): Option<Id> {
    if exists id :: Found(t, id, hash, now) then
      var id :| Found(t, id, hash, now);
      Some(id)
    else None
  }

  function Touch(t: Table, id: Id, now: Time): Table
    requires id in t
  {
    t[id := t[id].(lastSeenAt := now)]
  }

  function RevokeOne(t: Table, id: Id, now: Time): Table {
    if id in t then t[id := t[id].(revokedAt := Some(now))] else t
  }

  predicate Reached(t: Table, user: Id, exceptId: Id, now: Time, id: Id) {
    Active(t, user, id, now) && id != exceptId
  }

  /** The sessions a sign-out of all but one reaches. */
  function Others(t: Table, user: Id, exceptId: Id, now: Time): set<Id> {
    set id | id in t && Reached(t, user, exceptId, now, id)
  }

  function RevokeSet(t: Table, ids: set<Id>, now: Time): Table {
    map id | id in t :: if id in ids then t[id].(revokedAt := Some(now)) else t[id]
  }

  class SessionRepository {
    var records: Table

    constructor ()
      ensures records == map[]
    {
      records := map[];
    }

    method Create(id: Id, value: Session)
      requires id !in records && id != "" && value.user != ""
      requires forall other :: other in records ==> records[other].hash != value.hash
      requires WellFormed(records)
      modifies this
      ensures records == old(records)[id := value]
      ensures WellFormed(records)
    {
      records := records[id := value];
    }

    method Find(hash: Digest, now: Time) returns (res: Option<Id>)
      requires WellFormed(records)
      modifies this
      ensures res == Lookup(old(records), hash, now)
      ensures records == if res.Some? then Touch(old(records), res.value, now) else old(records)
    {
      var keys := records.Keys;
      while keys != {}
        invariant keys <= records.Keys && records == old(records)
        invariant forall id :: id in records && id !in keys ==> !Found(records, id, hash, now)
        decreases |keys|
      {
        var id :| id in keys;
        keys := keys - {id};
        if Found(records, id, hash, now) {
          records := Touch(records, id, now);
          return Some(id);
        }
      }
      return None;
    }

    method IsActive(user: Id, id: Id, now: Time) returns (active: bool)
      ensures active <==> Active(records, user, id, now)
    {
      active := id in records && records[id].user == user && records[id].revokedAt.None? && now < records[id].expiresAt;
    }

    /** The user's standing, unexpired sessions. The source orders them by last use; the order has no effect here. */
    method ListByUser(user: Id, now: Time) returns (ids: seq<Id>)
      ensures forall id :: id in ids <==> Active(records, user, id, now)
    {
      ids := [];
      var keys := records.Keys;
      while keys != {}
        invariant keys <= records.Keys
        invariant forall id :: id in ids <==> id in records && id !in keys && Active(records, user, id, now)
        decreases |keys|
      {
        var id :| id in keys;
        keys := keys - {id};
        if records[id].user == user && records[id].revokedAt.None? && now < records[id].expiresAt {
          ids := ids + [id];
        }
      }
    }

    method Revoke(id: Id, now: Time) returns (found: bool)
      modifies this
      ensures found <==> id in old(records)
      ensures records == RevokeOne(old(records), id, now)
    {
      if id !in records { return false; }
      records := records[id := records[id].(revokedAt := Some(now))];
      return true;
    }

    method RevokeForUser(user: Id, id: Id, now: Time) returns (found: bool)
      modifies this
      ensures found <==> id in old(records) && old(records)[id].user == user
      ensures records == if found then RevokeOne(old(records), id, now) else old(records)
    {
      if id !in records || records[id].user != user { return false; }
      records := records[id := records[id].(revokedAt := Some(now))];
      return true;
    }

    method RevokeAll(user: Id, exceptId: Id, now: Time) returns (count: nat)
      modifies this
      ensures records == RevokeSet(old(records), Others(old(records), user, exceptId, now), now)
      ensures count == |Others(old(records), user, exceptId, now)|
    {
      count := 0;
      ghost var before := records;
      ghost var done: set<Id> := {};
      var keys := records.Keys;
      while keys != {}
        invariant keys <= before.Keys == records.Keys
        invariant forall id :: id in keys ==> records[id] == before[id]
        invariant forall id :: id in done <==> id in before && id !in keys && Reached(before, user, exceptId, now, id)
        invariant forall id :: id in before && id !in keys ==>
                    records[id] == if id in done then before[id].(revokedAt := Some(now)) else before[id]
        invariant count == |done|
        decreases |keys|
      {
        var id :| id in keys;
        keys := keys - {id};
        var record := records[id];
        if record.user != user || id == exceptId || record.revokedAt.Some? || record.expiresAt <= now {
          continue;
        }
        records := records[id := record.(revokedAt := Some(now))];
        done := done + {id};
        count := count + 1;
      }
      assert done == Others(before, user, exceptId, now);
    }
  }
}
