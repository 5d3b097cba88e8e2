/**
  The boat model: creating, reading, listing, patching and deleting boats.
  A boat's `loads` list is derived, never stored: it is the query of the
  loads whose carrier equals the boat's id.
 */
module BoatModel {
  import opened Values
  import opened Store

  /** `RESULTS_PER_PAGE` of the boat listing. */
  const ResultsPerPage: nat := 3

  /** `createSelf(url, id, isLoad)` of the boat model: its flag is the reverse
      of the load model's, a load link when set and a boat link otherwise. */
  function CreateSelf(url: string, id: nat, isLoad: bool): string
  {
    url + (if isLoad then "/loads/" else "/boats/") + NatToString(id)
  }

  /** `{id, self}` of a load in a boat's `loads` list. */
  datatype LoadRef = LoadRef(id: nat, self: string)

  /** A rendered boat: the stored properties with `id` and `self`, and the
      `loads` list when the operation adds one (`None` when it does not). */
  datatype BoatView = BoatView(id: nat, boat: Boat, loads: Option<seq<LoadRef>>, self: string)

  /** `{boats, next}` of the listing; `next` is absent on the last page. */
  datatype BoatPage = BoatPage(boats: seq<BoatView>, next: Option<string>)

  /** The properties `patch_boat` spreads over the stored boat; `None` is a property the patch does not have. */
  datatype BoatPatch = BoatPatch(name: Option<Value>, boatType: Option<Value>, length: Option<Value>)

  /** No stored boat has an owner property: `post_boat` stores none and a patch cannot add one. */
  predicate NoOwners(boats: map<nat, Boat>)
  {
    forall k | k in boats :: boats[k].owner == Undefined
  }

  /** The `loads` list of a boat: `{id, self}` of each load in `ids`. */
  function LoadRefs(ids: seq<nat>, baseUrl: string): seq<LoadRef>
  {
    seq(|ids|, i requires 0 <= i < |ids| => LoadRef(ids[i], CreateSelf(baseUrl, ids[i], true)))
  }

  /** How `get_boat` and `get_boats` render stored boat `id`: its properties,
      and a `loads` list naming exactly the loads whose carrier is `id`, in key order. */
  function Rendered(boats: map<nat, Boat>, loads: map<nat, Load>, order: seq<nat>, id: nat, baseUrl: string): (v: BoatView)
    requires id in boats
    requires Increasing(order) && forall k :: k in loads ==> k in order
    ensures v.id == id && v.boat == boats[id] && v.self == CreateSelf(baseUrl, id, false)
    ensures v.loads.Some?
    ensures forall i :: 0 <= i < |v.loads.value| ==>
      var k := v.loads.value[i].id;
      k in loads && loads[k].carrier == Some(id) && v.loads.value[i].self == CreateSelf(baseUrl, k, true)
    ensures forall k :: k in loads && loads[k].carrier == Some(id) ==> exists i :: 0 <= i < |v.loads.value| && v.loads.value[i].id == k
    ensures forall i, j :: 0 <= i < j < |v.loads.value| ==> v.loads.value[i].id < v.loads.value[j].id
  {
    var ids := LoadsOn(loads, order, id);
    var refs := LoadRefs(ids, baseUrl);
    assert forall k :: k in loads && loads[k].carrier == Some(id) ==> refs[IndexOf(ids, k)].id == k;
    BoatView(id, boats[id], Some(refs), CreateSelf(baseUrl, id, false))
  }

  /** `post_boat`: saves exactly `{name, type, length}` under a fresh key and
      returns it with an empty `loads` list and its self link. */
  method PostBoat(ds: Datastore, name: Value, boatType: Value, length: Value, baseUrl: string) returns (v: BoatView)
    requires ds.Valid()
    modifies ds`boats, ds`nextId
    ensures ds.Valid()
    ensures v.id !in old(ds.boats) && 0 < v.id
    ensures ds.boats == old(ds.boats)[v.id := Boat(name, boatType, length, Undefined)]
    ensures v == BoatView(v.id, Boat(name, boatType, length, Undefined), Some([]), CreateSelf(baseUrl, v.id, false))
    ensures Linked(old(ds.boats), ds.loads) ==> Linked(ds.boats, ds.loads) && LoadsOn(ds.loads, ds.LoadOrder(), v.id) == []
    ensures NoOwners(old(ds.boats)) ==> NoOwners(ds.boats)
  {
    var id := ds.AllocateId();
    var newBoat := Boat(name, boatType, length, Undefined);
    if Linked(ds.boats, ds.loads) {
      NothingOnMissingBoat(ds.boats, ds.loads, KeysBelow(ds.loads.Keys, ds.nextId), id);
    }
    ds.boats := ds.boats[id := newBoat];
    v := BoatView(id, newBoat, Some([]), CreateSelf(baseUrl, id, false));
  }

  /** `get_boat`: `None` (null) for an absent id, otherwise the boat as `Rendered`. */
  method GetBoat(ds: Datastore, id: nat, baseUrl: string) returns (r: Option<BoatView>)
    requires ds.Valid()
    ensures r.None? <==> id !in ds.boats
    ensures r.Some? ==> r.value == Rendered(ds.boats, ds.loads, ds.LoadOrder(), id, baseUrl)
  {
    if id !in ds.boats {
      return None;
    }
    var entity := ds.boats[id];
    var loads := LoadsOn(ds.loads, ds.LoadOrder(), id);
    r := Some(BoatView(id, entity, Some(LoadRefs(loads, baseUrl)), CreateSelf(baseUrl, id, false)));
  }

  /** The body of `get_boats` after its query: a load query for each boat on
      the page (`loadPromises`), then each boat rendered with its loads. */
  method RenderBoats(boats: map<nat, Boat>, loads: map<nat, Load>, order: seq<nat>, page: seq<nat>, baseUrl: string)
    returns (views: seq<BoatView>)
    requires forall j :: 0 <= j < |page| ==> page[j] in boats
    requires Increasing(order) && forall k :: k in loads ==> k in order
    ensures |views| == |page|
    ensures forall j :: 0 <= j < |page| ==> views[j] == Rendered(boats, loads, order, page[j], baseUrl)
  {
    var carried: seq<seq<nat>> := [];
    var i := 0;
    while i < |page|
      invariant 0 <= i <= |page| && |carried| == i
      invariant forall j :: 0 <= j < i ==> carried[j] == LoadsOn(loads, order, page[j])
    {
      carried := carried + [LoadsOn(loads, order, page[i])];
      i := i + 1;
    }

    views := [];
    i := 0;
    while i < |page|
      invariant 0 <= i <= |page| && |views| == i
      invariant forall j :: 0 <= j < |page| ==> carried[j] == LoadsOn(loads, order, page[j])
      invariant forall j :: 0 <= j < i ==> views[j] == Rendered(boats, loads, order, page[j], baseUrl)
    {
      views := views + [BoatView(page[i], boats[page[i]], Some(LoadRefs(carried[i], baseUrl)), CreateSelf(baseUrl, page[i], false))];
      i := i + 1;
    }
  }

  /** `get_boats`: one page of at most three boats in key order, whoever owns
      them, each rendered as `Rendered`, with a `next` link exactly when the store has more. */
  method GetBoats(ds: Datastore, baseUrl: string, cursor: Option<string>) returns (r: Result<BoatPage>)
    requires ds.Valid()
    ensures r.DatastoreError? <==> PageStart(cursor).None?
    ensures r.Ok? ==>
      var start := PageStart(cursor).value;
      var page := Page(ds.BoatOrder(), start, ResultsPerPage);
      && |r.value.boats| == |page| <= ResultsPerPage
      && (forall j :: 0 <= j < |page| ==> r.value.boats[j] == Rendered(ds.boats, ds.loads, ds.LoadOrder(), page[j], baseUrl))
      && (r.value.next.Some? <==> MoreResults(ds.BoatOrder(), start, ResultsPerPage))
      && (r.value.next.Some? ==> r.value.next.value == baseUrl + "/boats?cursor=" + EndCursor(start, ResultsPerPage))
  {
    var start := PageStart(cursor);
    if start.None? {
      return DatastoreError;
    }
    var ids := ds.BoatOrder();
    var page := Page(ids, start.value, ResultsPerPage);
    assert forall j :: 0 <= j < |page| ==> page[j] in ds.boats;
    var boats := RenderBoats(ds.boats, ds.loads, ds.LoadOrder(), page, baseUrl);
    var next := if MoreResults(ids, start.value, ResultsPerPage)
      then Some(baseUrl + "/boats?cursor=" + EndCursor(start.value, ResultsPerPage)) else None;
    r := Ok(BoatPage(boats, next));
  }

  /** `{...currentBoat, ...boat}`: each property the patch has overwrites, every other stored property is kept. */
  function Merge(current: Boat, patch: BoatPatch): (m: Boat)
    ensures m.owner == current.owner
    ensures patch.name.Some? ==> m.name == patch.name.value
    ensures patch.name.None? ==> m.name == current.name
    ensures patch.boatType.Some? ==> m.boatType == patch.boatType.value
    ensures patch.boatType.None? ==> m.boatType == current.boatType
    ensures patch.length.Some? ==> m.length == patch.length.value
    ensures patch.length.None? ==> m.length == current.length
  {
    Boat(
      if patch.name.Some? then patch.name.value else current.name,
      if patch.boatType.Some? then patch.boatType.value else current.boatType,
      if patch.length.Some? then patch.length.value else current.length,
      current.owner)
  }

  /** Applying the same patch twice is applying it once; the empty patch changes nothing. */
  lemma MergeIdempotent(current: Boat, patch: BoatPatch)
    ensures Merge(Merge(current, patch), patch) == Merge(current, patch)
    ensures Merge(current, BoatPatch(None, None, None)) == current
  {
  }

  /** `patch_boat`: `None` (null) and no write for an absent id; otherwise the
      merged boat is stored and returned with its id and self link, without a `loads` list. */
  method PatchBoat(ds: Datastore, id: nat, patch: BoatPatch, baseUrl: string) returns (r: Option<BoatView>)
    requires ds.Valid()
    modifies ds`boats
    ensures ds.Valid()
    ensures r.None? <==> id !in old(ds.boats)
    ensures r.None? ==> ds.boats == old(ds.boats)
    ensures r.Some? ==> ds.boats == old(ds.boats)[id := Merge(old(ds.boats)[id], patch)]
    ensures r.Some? ==> r.value == BoatView(id, Merge(old(ds.boats)[id], patch), None, CreateSelf(baseUrl, id, false))
    ensures Linked(old(ds.boats), ds.loads) ==> Linked(ds.boats, ds.loads)
    ensures NoOwners(old(ds.boats)) ==> NoOwners(ds.boats)
  {
    if id !in ds.boats {
      return None;
    }
    var updated := Merge(ds.boats[id], patch);
    ds.boats := ds.boats[id := updated];
    r := Some(BoatView(id, updated, None, CreateSelf(baseUrl, id, false)));
  }

  /** The loads after the cascade of `delete_boat`: every carrier equal to
      `boatId` becomes null, every other load is kept as it was. */
  function Detached(loads: map<nat, Load>, boatId: nat): (r: map<nat, Load>)
    ensures r.Keys == loads.Keys
    ensures forall k :: k in r ==> r[k].carrier != Some(boatId)
    ensures forall k :: k in loads && loads[k].carrier != Some(boatId) ==> r[k] == loads[k]
    ensures forall k :: k in loads && loads[k].carrier == Some(boatId) ==> r[k] == loads[k].(carrier := None)
  {
    map k | k in loads :: if loads[k].carrier == Some(boatId) then loads[k].(carrier := None) else loads[k]
  }

  /** The cascade keeps the store linked once the boat is gone. */
  lemma DetachedStaysLinked(boats: map<nat, Boat>, loads: map<nat, Load>, boatId: nat)
    requires Linked(boats, loads)
    ensures Linked(boats - {boatId}, Detached(loads, boatId))
  {
    var after := Detached(loads, boatId);
    forall k | k in after && after[k].carrier.Some?
      ensures after[k].carrier.value in boats - {boatId}
    {
      assert loads[k].carrier != Some(boatId);
    }
  }

  /** Nulling the carrier of each load a query for `boatId` returned is the cascade. */
  lemma DetachedByList(before: map<nat, Load>, carried: seq<nat>, boatId: nat, after: map<nat, Load>)
    requires forall k :: k in carried ==> k in before && before[k].carrier == Some(boatId)
    requires forall k :: k in before && before[k].carrier == Some(boatId) ==> k in carried
    requires after.Keys == before.Keys
    requires forall k :: k in after ==> after[k] == (if k in carried then before[k].(carrier := None) else before[k])
    ensures after == Detached(before, boatId)
  {
  }

  /** The cascade's writes (`updatePromises`): each load listed in `carried` is saved with a null carrier. */
  method SaveWithoutCarrier(ds: Datastore, carried: seq<nat>)
    requires ds.Valid()
    requires forall i :: 0 <= i < |carried| ==> carried[i] in ds.loads
    modifies ds`loads
    ensures ds.Valid()
    ensures ds.loads.Keys == old(ds.loads).Keys
    ensures forall k :: k in ds.loads ==> ds.loads[k] == (if k in carried then old(ds.loads)[k].(carrier := None) else old(ds.loads)[k])
  {
    var i := 0;
    while i < |carried|
      invariant 0 <= i <= |carried|
      invariant ds.loads.Keys == old(ds.loads).Keys
      invariant forall k :: k in ds.loads ==> ds.loads[k] == (if k in carried[..i] then old(ds.loads)[k].(carrier := None) else old(ds.loads)[k])
    {
      var k := carried[i];
      assert carried[..i + 1] == carried[..i] + [k];
      ds.loads := ds.loads[k := ds.loads[k].(carrier := None)];
      i := i + 1;
    }
    assert carried[..i] == carried;
  }

  /** `delete_boat`: `false` (null) and no change for an absent id; otherwise
      each load carried by the boat is saved with a null carrier, then the boat is deleted. */
  method DeleteBoat(ds: Datastore, id: nat) returns (found: bool)
    requires ds.Valid()
    modifies ds`boats, ds`loads
    ensures ds.Valid()
    ensures found <==> id in old(ds.boats)
    ensures !found ==> ds.boats == old(ds.boats) && ds.loads == old(ds.loads)
    ensures found ==> ds.boats == old(ds.boats) - {id} && ds.loads == Detached(old(ds.loads), id)
    ensures Linked(old(ds.boats), old(ds.loads)) ==> Linked(ds.boats, ds.loads)
    ensures NoOwners(old(ds.boats)) ==> NoOwners(ds.boats)
  {
    if id !in ds.boats {
      return false;
    }
    var carried := LoadsOn(ds.loads, ds.LoadOrder(), id);
    ghost var before := ds.loads;
    SaveWithoutCarrier(ds, carried);
    DetachedByList(before, carried, id, ds.loads);
    ds.boats := ds.boats - {id};
    found := true;
    if Linked(old(ds.boats), old(ds.loads)) {
      DetachedStaysLinked(old(ds.boats), old(ds.loads), id);
    }
  }
}
