/**
  The key-value store that every model works against, held in plain memory:
  one map per entity kind, keyed by numeric id, with fresh-id allocation for
  incomplete keys. A kind query returns entities in ascending key order; an
  equality filter keeps the matching ones in that order; a query cursor is
  the decimal text of an offset into that order.
 */
module Store {
  import opened Values

  /** A stored boat. `owner` is `Undefined` when the entity has no owner property. */
  datatype Boat = Boat(name: Value, boatType: Value, length: Value, owner: Value)

  /** A stored load. `carrier` is `None` for JSON null, otherwise the number saved there. */
  datatype Load = Load(volume: Value, item: Value, carrier: Option<nat>, creationDate: Value)

  /** A stored user. */
  datatype User = User(userId: Value, name: Value, email: Value)

  /** `if (load.carrier)`: a carrier counts as set when it is a non-zero number. */
  predicate Assigned(carrier: Option<nat>)
  {
    carrier.Some? && carrier.value != 0
  }

  predicate Increasing(s: seq<nat>)
  {
    forall i, j :: 0 <= i < j < |s| ==> s[i] < s[j]
  }

  /** The members of `keys` below `bound`, in ascending order. */
  function KeysBelow(keys: set<nat>, bound: nat): (r: seq<nat>)
    ensures forall i :: 0 <= i < |r| ==> r[i] in keys && r[i] < bound
    ensures forall k :: k in keys && k < bound ==> k in r
    ensures Increasing(r)
    decreases bound
  {
    if bound == 0 then []
    else KeysBelow(keys, bound - 1) + (if bound - 1 in keys then [bound - 1] else [])
  }

  /** The position of `k` in `s`. */
  function IndexOf(s: seq<nat>, k: nat): (i: nat)
    requires k in s
    ensures i < |s| && s[i] == k
  {
    if s[0] == k then 0 else 1 + IndexOf(s[1..], k)
  }

  /** The result of the query `filter("carrier", "=", boatId)` over the loads listed in `ids`. */
  function LoadsOn(loads: map<nat, Load>, ids: seq<nat>, boatId: nat): (r: seq<nat>)
    ensures forall i :: 0 <= i < |r| ==> r[i] in ids && r[i] in loads && loads[r[i]].carrier == Some(boatId)
    ensures forall k :: k in ids && k in loads && loads[k].carrier == Some(boatId) ==> k in r
    ensures Increasing(ids) ==> Increasing(r)
    decreases |ids|
  {
    if ids == [] then []
    else
      var rest := LoadsOn(loads, ids[1..], boatId);
      if ids[0] in loads && loads[ids[0]].carrier == Some(boatId) then
        assert Increasing(ids) ==> Increasing([ids[0]] + rest) by {
          if Increasing(ids) {
            PrependSmallest(ids, rest);
          }
        }
        [ids[0]] + rest
      else rest
  }

  /** The head of an increasing sequence put before a selection of its tail keeps it increasing. */
  lemma PrependSmallest(ids: seq<nat>, rest: seq<nat>)
    requires Increasing(ids) && ids != []
    requires Increasing(rest) && forall i :: 0 <= i < |rest| ==> rest[i] in ids[1..]
    ensures Increasing([ids[0]] + rest)
  {
    forall i | 0 <= i < |rest|
      ensures ids[0] < rest[i]
    {
      var j :| 0 <= j < |ids[1..]| && ids[1..][j] == rest[i];
      assert ids[j + 1] == rest[i];
    }
    var s := [ids[0]] + rest;
    forall i, j | 0 <= i < j < |s|
      ensures s[i] < s[j]
    {
      if i > 0 {
        assert s[i] == rest[i - 1] && s[j] == rest[j - 1];
      } else {
        assert s[j] == rest[j - 1];
      }
    }
  }

  /** In a linked store the query for a boat that is not stored finds nothing. */
  lemma {:induction false} NothingOnMissingBoat(boats: map<nat, Boat>, loads: map<nat, Load>, ids: seq<nat>, boatId: nat)
    requires Linked(boats, loads) && boatId !in boats
    ensures LoadsOn(loads, ids, boatId) == []
    decreases |ids|
  {
    if ids != [] {
      NothingOnMissingBoat(boats, loads, ids[1..], boatId);
      assert !(ids[0] in loads && loads[ids[0]].carrier == Some(boatId));
    }
  }

  /** Every key is a positive number below the next fresh id. */
  predicate KeysInRange(keys: set<nat>, bound: nat)
  {
    forall k | k in keys :: 0 < k < bound
  }

  /** Referential integrity: every non-null carrier names a stored boat. The
      store does not enforce it; the operations of the models preserve it. */
  predicate Linked(boats: map<nat, Boat>, loads: map<nat, Load>)
  {
    forall k | k in loads && loads[k].carrier.Some? :: loads[k].carrier.value in boats
  }

  /** Where boat keys are positive, every carrier of a linked store is truthy:
      the truthiness tests of the models then mean "carrier is not null". */
  lemma LinkedCarriersAssigned(boats: map<nat, Boat>, loads: map<nat, Load>, bound: nat, k: nat)
    requires KeysInRange(boats.Keys, bound) && Linked(boats, loads)
    requires k in loads
    ensures Assigned(loads[k].carrier) <==> loads[k].carrier.Some?
    ensures Assigned(loads[k].carrier) ==> loads[k].carrier.value in boats
  {
  }

  // Paging

  /** The offset a query starts from: `if (cursor) q.start(cursor)`. An absent
      or empty cursor starts at the top; a cursor that is not decimal text is refused. */
  function PageStart(cursor: Option<string>): (r: Option<nat>)
    ensures !Present(cursor) ==> r == Some(0)
  {
    if Present(cursor) then ParseNat(cursor.value) else Some(0)
  }

  /** The entities a query with `limit(size)` started at `start` returns. */
  function Page(ids: seq<nat>, start: nat, size: nat): (p: seq<nat>)
    ensures |p| <= size
    ensures forall i :: 0 <= i < |p| ==> start + i < |ids| && p[i] == ids[start + i]
    ensures start + size <= |ids| ==> p == ids[start..start + size]
    ensures start <= |ids| <= start + size ==> p == ids[start..]
    ensures |ids| <= start ==> p == []
  {
    if |ids| <= start then [] else if start + size <= |ids| then ids[start..start + size] else ids[start..]
  }

  /** The store reports more results when entities remain beyond the page. */
  predicate MoreResults(ids: seq<nat>, start: nat, size: nat)
  {
    start + size < |ids|
  }

  /** The cursor text the store issues as `endCursor` for the page at `start`. */
  function EndCursor(start: nat, size: nat): (c: string)
    ensures PageStart(Some(c)) == Some(start + size)
  {
    ParseNatToString(start + size);
    NatToString(start + size)
  }

  /** The ids seen by starting at `start` and following each page's end cursor
      while the store reports more results. */
  function Walk(ids: seq<nat>, start: nat, size: nat): seq<nat>
    requires size > 0
    decreases |ids| - start
  {
    if MoreResults(ids, start, size) then Page(ids, start, size) + Walk(ids, start + size, size)
    else Page(ids, start, size)
  }

  /** Following the cursors lists every entity from `start` on exactly once, in order. */
  lemma {:induction false} WalkListsAll(ids: seq<nat>, start: nat, size: nat)
    requires size > 0 && start <= |ids|
    ensures Walk(ids, start, size) == ids[start..]
    decreases |ids| - start
  {
    if MoreResults(ids, start, size) {
      WalkListsAll(ids, start + size, size);
      assert ids[start..] == ids[start..start + size] + ids[start + size..];
    }
  }

  /** Two successive pages of an ascending listing share no entity, and the
      second starts after the first ends. */
  lemma SuccessivePagesDisjoint(ids: seq<nat>, start: nat, size: nat, i: nat, j: nat)
    requires Increasing(ids)
    requires i < |Page(ids, start, size)| && j < |Page(ids, start + size, size)|
    ensures Page(ids, start, size)[i] < Page(ids, start + size, size)[j]
  {
    assert Page(ids, start, size)[i] == ids[start + i];
    assert Page(ids, start + size, size)[j] == ids[start + size + j];
  }

  /** The store: one map per kind and the next id it will hand out. */
  class Datastore {
    var boats: map<nat, Boat>
    var loads: map<nat, Load>
    var users: map<nat, User>
    var nextId: nat

    ghost predicate Valid()
      reads this
    {
      && 0 < nextId
      && KeysInRange(boats.Keys, nextId)
      && KeysInRange(loads.Keys, nextId)
      && KeysInRange(users.Keys, nextId)
    }

    constructor ()
      ensures Valid() && Linked(boats, loads)
      ensures boats == map[] && loads == map[] && users == map[]
    {
      boats, loads, users, nextId := map[], map[], map[], 1;
    }

    /** Completes an incomplete key: an id that no entity of any kind holds. */
    method AllocateId() returns (id: nat)
      requires Valid()
      modifies this`nextId
      ensures Valid()
      ensures 0 < id && id == old(nextId) && nextId == id + 1
      ensures id !in boats && id !in loads && id !in users
    {
      id := nextId;
      nextId := nextId + 1;
    }

    /** Saves a user under an incomplete key, which the store completes with a fresh id. */
    method SaveNewUser(u: User) returns (id: nat)
      requires Valid()
      modifies this`users, this`nextId
      ensures Valid()
      ensures id == old(nextId) && id !in old(users)
      ensures users == old(users)[id := u] && nextId == id + 1
    {
      id := AllocateId();
      users := users[id := u];
    }

    /** A kind query over boats, in key order. */
    function BoatOrder(): (r: seq<nat>)
      reads this
      requires Valid()
      ensures Increasing(r)
      ensures forall i :: 0 <= i < |r| ==> r[i] in boats
      ensures forall k :: k in boats ==> k in r
    {
      KeysBelow(boats.Keys, nextId)
    }

    /** A kind query over loads, in key order. */
    function LoadOrder(): (r: seq<nat>)
      reads this
      requires Valid()
      ensures Increasing(r)
      ensures forall i :: 0 <= i < |r| ==> r[i] in loads
      ensures forall k :: k in loads ==> k in r
    {
      KeysBelow(loads.Keys, nextId)
    }

    /** A kind query over users, in key order. */
    function UserOrder(): (r: seq<nat>)
      reads this
      requires Valid()
      ensures Increasing(r)
      ensures forall i :: 0 <= i < |r| ==> r[i] in users
      ensures forall k :: k in users ==> k in r
    {
      KeysBelow(users.Keys, nextId)
    }
  }
}
