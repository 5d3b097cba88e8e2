/**
  The load model: creating, reading, listing and deleting loads, rendering a
  load with its carrying boat, and the guarded write that sets or clears a
  load's carrier.
 */
module LoadModel {
  import opened Values
  import opened Store

  /** `RESULTS_PER_PAGE` of the load listing. */
  const ResultsPerPage: nat := 5

  /** `createSelf(url, id, isBoat)` of the load model: a boat link when the flag is set, a load link otherwise. */
  function CreateSelf(url: string, id: nat, isBoat: bool): string
  {
    url + (if isBoat then "/boats/" else "/loads/") + NatToString(id)
  }

  /** A self link names one resource: equal links have equal kinds and ids. */
  lemma SelfLinkIdentifies(url: string, a: nat, b: nat, x: bool, y: bool)
    requires CreateSelf(url, a, x) == CreateSelf(url, b, y)
    ensures a == b && x == y
  {
    var s, t := CreateSelf(url, a, x), CreateSelf(url, b, y);
    var n := |url|;
    assert s[n + 1] == (if x then 'b' else 'l');
    assert t[n + 1] == (if y then 'b' else 'l');
    assert s[n + 7..] == NatToString(a);
    assert t[n + 7..] == NatToString(b);
    NatToStringInjective(a, b);
  }

  /** The `carrier` property of a rendered load: null, the bare stored number,
      or the `{id, name, self}` summary of the carrying boat. */
  datatype CarrierView = NoCarrier | CarrierId(id: nat) | CarrierSummary(id: nat, name: Value, self: string)

  /** A rendered load: the stored properties, the numeric `id` that `addId` adds, and `self`. */
  datatype LoadView = LoadView(id: nat, volume: Value, item: Value, carrier: CarrierView, creationDate: Value, self: string)

  /** `{loads, next}` of the listing; `next` is absent on the last page. */
  datatype LoadPage = LoadPage(loads: seq<LoadView>, next: Option<string>)

  /** `{loads}` of the loads on one boat. */
  datatype LoadList = LoadList(loads: seq<LoadView>)

  /** One element of `carrierPromises`: `null` when the load has no carrier to
      look up, otherwise what the boat lookup resolved to. */
  datatype CarrierLookup = NotLookedUp | LookedUp(boat: Option<Boat>)

  /** The carrier property as stored. */
  function StoredCarrier(c: Option<nat>): (v: CarrierView)
    ensures v.NoCarrier? <==> c.None?
    ensures c.Some? ==> v == CarrierId(c.value)
  {
    if c.Some? then CarrierId(c.value) else NoCarrier
  }

  /** The stored carrier can be read back from how it is shown. */
  lemma StoredCarrierIdentifies(a: Option<nat>, b: Option<nat>)
    ensures StoredCarrier(a) == StoredCarrier(b) <==> a == b
    ensures StoredCarrier(a).CarrierId? ==> a == Some(StoredCarrier(a).id)
  {
  }

  /** `{...addId(entity), self}` of a load whose carrier property now holds `carrier`. */
  function Render(id: nat, load: Load, carrier: CarrierView, baseUrl: string): LoadView
  {
    LoadView(id, load.volume, load.item, carrier, load.creationDate, CreateSelf(baseUrl, id, false))
  }

  /** The summary of boat `boatId` when it is the carrier. */
  function Summary(boatId: nat, boat: Boat, baseUrl: string): CarrierView
  {
    CarrierSummary(boatId, boat.name, CreateSelf(baseUrl, boatId, true))
  }

  /** How `get_load` renders a stored load: the carrier becomes the boat's
      summary when it is set and the boat exists; otherwise it stays as stored. */
  function Shown(boats: map<nat, Boat>, id: nat, load: Load, baseUrl: string): (v: LoadView)
    ensures v.id == id && v.volume == load.volume && v.item == load.item && v.creationDate == load.creationDate
    ensures v.self == CreateSelf(baseUrl, id, false)
    ensures v.carrier.CarrierSummary? <==> Assigned(load.carrier) && load.carrier.value in boats
    ensures v.carrier.CarrierSummary? ==> v.carrier == Summary(load.carrier.value, boats[load.carrier.value], baseUrl)
    ensures !v.carrier.CarrierSummary? ==> v.carrier == StoredCarrier(load.carrier)
  {
    if Assigned(load.carrier) && load.carrier.value in boats then
      Render(id, load, Summary(load.carrier.value, boats[load.carrier.value], baseUrl), baseUrl)
    else
      Render(id, load, StoredCarrier(load.carrier), baseUrl)
  }

  /** How the listings render a stored load: as `get_load` does, except that a
      set carrier whose boat is missing makes the rendering throw (`None`): the
      lookup resolves to a one-element array holding nothing, which is truthy,
      and reading its key fails. */
  function Listed(boats: map<nat, Boat>, id: nat, load: Load, baseUrl: string): (v: Option<LoadView>)
    ensures v.None? <==> Assigned(load.carrier) && load.carrier.value !in boats
    ensures v.Some? ==> v.value == Shown(boats, id, load, baseUrl)
  {
    if !Assigned(load.carrier) then Some(Render(id, load, StoredCarrier(load.carrier), baseUrl))
    else if load.carrier.value in boats then Some(Render(id, load, Summary(load.carrier.value, boats[load.carrier.value], baseUrl), baseUrl))
    else None
  }

  /** In a linked store the listings never throw and render as `get_load` does. */
  lemma ListedInLinkedStore(boats: map<nat, Boat>, loads: map<nat, Load>, id: nat, baseUrl: string)
    requires Linked(boats, loads) && id in loads
    ensures Listed(boats, id, loads[id], baseUrl) == Some(Shown(boats, id, loads[id], baseUrl))
  {
  }

  /** `post_load`: saves `{volume, item, carrier: null, creation_date}` under a
      fresh key and returns it with its id and self link. */
  method PostLoad(ds: Datastore, volume: Value, item: Value, creationDate: Value, baseUrl: string) returns (v: LoadView)
    requires ds.Valid()
    modifies ds`loads, ds`nextId
    ensures ds.Valid()
    ensures v.id !in old(ds.loads) && v.id !in ds.boats && 0 < v.id
    ensures ds.loads == old(ds.loads)[v.id := Load(volume, item, None, creationDate)]
    ensures v == LoadView(v.id, volume, item, NoCarrier, creationDate, CreateSelf(baseUrl, v.id, false))
    ensures Linked(ds.boats, old(ds.loads)) ==> Linked(ds.boats, ds.loads)
  {
    var id := ds.AllocateId();
    var newLoad := Load(volume, item, None, creationDate);
    ds.loads := ds.loads[id := newLoad];
    v := Render(id, newLoad, NoCarrier, baseUrl);
  }

  /** `get_load`: `None` (null) for an absent id, otherwise the load as `Shown`. */
  method GetLoad(ds: Datastore, id: nat, baseUrl: string) returns (r: Option<LoadView>)
    ensures r.None? <==> id !in ds.loads
    ensures r.Some? ==> r.value == Shown(ds.boats, id, ds.loads[id], baseUrl)
  {
    if id !in ds.loads {
      return None;
    }
    var entity := ds.loads[id];
    var carrier := StoredCarrier(entity.carrier);
    if Assigned(entity.carrier) {
      var boatId := entity.carrier.value;
      if boatId in ds.boats {
        carrier := Summary(boatId, ds.boats[boatId], baseUrl);
      }
    }
    r := Some(Render(id, entity, carrier, baseUrl));
  }

  /** `views` is `page` rendered as the listings render each load. */
  predicate RendersPage(boats: map<nat, Boat>, loads: map<nat, Load>, page: seq<nat>, baseUrl: string, views: seq<LoadView>)
    requires forall i :: 0 <= i < |page| ==> page[i] in loads
  {
    |views| == |page| && forall i :: 0 <= i < |page| ==> Listed(boats, page[i], loads[page[i]], baseUrl) == Some(views[i])
  }

  /** Rendering `page` throws: some load on it has a set carrier whose boat is missing. */
  predicate PageThrows(boats: map<nat, Boat>, loads: map<nat, Load>, page: seq<nat>, baseUrl: string)
    requires forall i :: 0 <= i < |page| ==> page[i] in loads
  {
    exists i :: 0 <= i < |page| && Listed(boats, page[i], loads[page[i]], baseUrl).None?
  }

  /** The body of `get_loads` after its query: a boat lookup for each load
      whose carrier is set (`carrierPromises`), then each load rendered with
      what its lookup returned. `None` when a rendering throws. */
  method RenderPage(boats: map<nat, Boat>, stored: map<nat, Load>, page: seq<nat>, baseUrl: string) returns (r: Option<seq<LoadView>>)
    requires forall j :: 0 <= j < |page| ==> page[j] in stored
    ensures r.None? <==> PageThrows(boats, stored, page, baseUrl)
    ensures r.Some? ==> RendersPage(boats, stored, page, baseUrl, r.value)
  {
    var carriers: seq<CarrierLookup> := [];
    var i := 0;
    while i < |page|
      invariant 0 <= i <= |page| && |carriers| == i
      invariant forall j :: 0 <= j < i ==> carriers[j] == Lookup(boats, stored[page[j]].carrier)
    {
      carriers := carriers + [Lookup(boats, stored[page[i]].carrier)];
      i := i + 1;
    }

    var loads: seq<LoadView> := [];
    i := 0;
    while i < |page|
      invariant 0 <= i <= |page| && |loads| == i
      invariant forall j :: 0 <= j < |page| ==> carriers[j] == Lookup(boats, stored[page[j]].carrier)
      invariant forall j :: 0 <= j < i ==> Listed(boats, page[j], stored[page[j]], baseUrl) == Some(loads[j])
    {
      var entity := stored[page[i]];
      var carrier := StoredCarrier(entity.carrier);
      if carriers[i].LookedUp? {
        if carriers[i].boat.None? {
          assert Listed(boats, page[i], entity, baseUrl).None?;
          return None;
        }
        carrier := Summary(entity.carrier.value, carriers[i].boat.value, baseUrl);
      }
      loads := loads + [Render(page[i], entity, carrier, baseUrl)];
      i := i + 1;
    }
    r := Some(loads);
  }

  /** `get_loads`: one page of at most five loads in key order, each rendered
      as `Listed`, with a `next` link exactly when the store has more. */
  method GetLoads(ds: Datastore, baseUrl: string, cursor: Option<string>) returns (r: Result<LoadPage>)
    requires ds.Valid()
    ensures PageStart(cursor).None? ==> r.DatastoreError?
    ensures PageStart(cursor).Some? ==>
      var start := PageStart(cursor).value;
      var page := Page(ds.LoadOrder(), start, ResultsPerPage);
      && (r.DatastoreError? <==> PageThrows(ds.boats, ds.loads, page, baseUrl))
      && (r.Ok? ==> RendersPage(ds.boats, ds.loads, page, baseUrl, r.value.loads))
      && (r.Ok? ==> (r.value.next.Some? <==> MoreResults(ds.LoadOrder(), start, ResultsPerPage)))
      && (r.Ok? && r.value.next.Some? ==> r.value.next.value == baseUrl + "/loads?cursor=" + EndCursor(start, ResultsPerPage))
    ensures Linked(ds.boats, ds.loads) && PageStart(cursor).Some? ==> r.Ok?
  {
    var start := PageStart(cursor);
    if start.None? {
      return DatastoreError;
    }
    var ids := ds.LoadOrder();
    var page := Page(ids, start.value, ResultsPerPage);
    assert forall j :: 0 <= j < |page| ==> page[j] in ds.loads;
    var loads := RenderPage(ds.boats, ds.loads, page, baseUrl);
    if loads.None? {
      return DatastoreError;
    }

    var next := if MoreResults(ids, start.value, ResultsPerPage)
      then Some(baseUrl + "/loads?cursor=" + EndCursor(start.value, ResultsPerPage)) else None;
    r := Ok(LoadPage(loads.value, next));
  }

  /** The lookup `get_loads` pushes for a carrier: none when it is falsy. */
  function Lookup(boats: map<nat, Boat>, carrier: Option<nat>): (l: CarrierLookup)
    ensures l.NotLookedUp? <==> !Assigned(carrier)
    ensures l.LookedUp? ==> (l.boat.Some? <==> carrier.value in boats)
    ensures l.LookedUp? && l.boat.Some? ==> l.boat.value == boats[carrier.value]
  {
    if !Assigned(carrier) then NotLookedUp
    else if carrier.value in boats then LookedUp(Some(boats[carrier.value]))
    else LookedUp(None)
  }

  /** `get_boat_loads`: exactly the loads whose carrier equals `boatId`, in key
      order, each with the boat's summary. The boat is looked up for each of
      them, so a missing boat with loads still pointing at it makes the call throw. */
  method GetBoatLoads(ds: Datastore, boatId: nat, baseUrl: string) returns (r: Result<LoadList>)
    requires ds.Valid()
    ensures var ids := LoadsOn(ds.loads, ds.LoadOrder(), boatId);
      && (r.DatastoreError? <==> boatId !in ds.boats && ids != [])
      && (r.Ok? ==> |r.value.loads| == |ids|)
      && (r.Ok? ==> forall i :: 0 <= i < |ids| ==> r.value.loads[i] == Shown(ds.boats, ids[i], ds.loads[ids[i]], baseUrl))
      && (r.Ok? ==> forall i :: 0 <= i < |ids| ==> r.value.loads[i].carrier == Summary(boatId, ds.boats[boatId], baseUrl))
  {
    var ids := LoadsOn(ds.loads, ds.LoadOrder(), boatId);
    var carriers := LookUpCarriers(ds.boats, ds.loads, ids);
    var loads := RenderCarried(ds.boats, ds.loads, ids, boatId, carriers, baseUrl);
    r := if loads.Some? then Ok(LoadList(loads.value)) else DatastoreError;
  }

  /** The first loop of `get_boat_loads`: the boat of each listed load is looked up. */
  method LookUpCarriers(boats: map<nat, Boat>, loads: map<nat, Load>, ids: seq<nat>) returns (carriers: seq<Option<Boat>>)
    requires forall j :: 0 <= j < |ids| ==> ids[j] in loads && loads[ids[j]].carrier.Some?
    ensures |carriers| == |ids|
    ensures forall j :: 0 <= j < |ids| ==>
      carriers[j] == (if loads[ids[j]].carrier.value in boats then Some(boats[loads[ids[j]].carrier.value]) else None)
  {
    carriers := [];
    var i := 0;
    while i < |ids|
      invariant 0 <= i <= |ids| && |carriers| == i
      invariant forall j :: 0 <= j < i ==>
        carriers[j] == (if loads[ids[j]].carrier.value in boats then Some(boats[loads[ids[j]].carrier.value]) else None)
    {
      var carrierId := loads[ids[i]].carrier.value;
      carriers := carriers + [if carrierId in boats then Some(boats[carrierId]) else None];
      i := i + 1;
    }
  }

  /** The second loop of `get_boat_loads`: each listed load rendered with the
      boat it was looked up with, or a throw at the first lookup that found nothing. */
  method RenderCarried(boats: map<nat, Boat>, loads: map<nat, Load>, ids: seq<nat>, boatId: nat, carriers: seq<Option<Boat>>, baseUrl: string)
    returns (r: Option<seq<LoadView>>)
    requires (boatId in boats ==> 0 < boatId) && |carriers| == |ids|
    requires forall j :: 0 <= j < |ids| ==> ids[j] in loads && loads[ids[j]].carrier == Some(boatId)
    requires forall j :: 0 <= j < |ids| ==> carriers[j] == (if boatId in boats then Some(boats[boatId]) else None)
    ensures r.None? <==> boatId !in boats && ids != []
    ensures r.Some? ==> |r.value| == |ids|
    ensures r.Some? ==> forall j :: 0 <= j < |ids| ==> r.value[j] == Shown(boats, ids[j], loads[ids[j]], baseUrl)
  {
    var views: seq<LoadView> := [];
    var i := 0;
    while i < |ids|
      invariant 0 <= i <= |ids| && |views| == i
      invariant i > 0 ==> boatId in boats
      invariant forall j :: 0 <= j < i ==> views[j] == Shown(boats, ids[j], loads[ids[j]], baseUrl)
    {
      if carriers[i].None? {
        return None;
      }
      var entity := loads[ids[i]];
      ShownOnBoat(boats, ids[i], entity, boatId, baseUrl);
      views := views + [Render(ids[i], entity, Summary(boatId, carriers[i].value, baseUrl), baseUrl)];
      i := i + 1;
    }
    r := Some(views);
  }

  /** A load carried by a stored boat with a positive key is shown with that boat's summary. */
  lemma ShownOnBoat(boats: map<nat, Boat>, id: nat, load: Load, boatId: nat, baseUrl: string)
    requires boatId in boats && 0 < boatId && load.carrier == Some(boatId)
    ensures Shown(boats, id, load, baseUrl) == Render(id, load, Summary(boatId, boats[boatId], baseUrl), baseUrl)
  {
  }

  /** The error `manage_load` throws, or `Managed` when it writes. `StoreFailure`
      stands for any exception of the store, which it does not catch. */
  datatype Outcome = Managed | NotFound | Forbidden | StoreFailure

  /** The checks of `manage_load`, in the order the code makes them. */
  function Verdict(boats: map<nat, Boat>, loads: map<nat, Load>, id: nat, boatId: nat, owner: Value, removeCarrier: bool): Outcome
  {
    if id !in loads || boatId !in boats then NotFound
    else if !StrictEquals(boats[boatId].owner, owner) then Forbidden
    else if !removeCarrier && Assigned(loads[id].carrier) then Forbidden
    else if removeCarrier && loads[id].carrier != Some(boatId) then NotFound
    else Managed
  }

  /** The write of `manage_load`: the load with only its carrier replaced. */
  function Rewritten(loads: map<nat, Load>, id: nat, boatId: nat, removeCarrier: bool): map<nat, Load>
    requires id in loads
  {
    loads[id := loads[id].(carrier := if removeCarrier then None else Some(boatId))]
  }

  /** `manage_load`: when every check passes, only the load's carrier changes,
      to null when unassigning and to the boat id when assigning; otherwise nothing changes. */
  method ManageLoad(ds: Datastore, id: nat, boatId: nat, owner: Value, removeCarrier: bool) returns (r: Outcome)
    requires ds.Valid()
    modifies ds`loads
    ensures ds.Valid()
    ensures r == Verdict(ds.boats, old(ds.loads), id, boatId, owner, removeCarrier)
    ensures r == Managed ==> ds.loads == Rewritten(old(ds.loads), id, boatId, removeCarrier)
    ensures r != Managed ==> ds.loads == old(ds.loads)
    ensures Linked(ds.boats, old(ds.loads)) ==> Linked(ds.boats, ds.loads)
  {
    var load := if id in ds.loads then Some(ds.loads[id]) else None;
    var boat := if boatId in ds.boats then Some(ds.boats[boatId]) else None;
    if load.None? || boat.None? {
      return NotFound;
    }
    if !StrictEquals(boat.value.owner, owner) {
      return Forbidden;
    }
    if !removeCarrier && Assigned(load.value.carrier) {
      return Forbidden;
    }
    if removeCarrier && load.value.carrier != Some(boatId) {
      return NotFound;
    }
    var updated := load.value.(carrier := if removeCarrier then None else Some(boatId));
    ds.loads := ds.loads[id := updated];
    r := Managed;
  }

  /** A missing load or boat is reported as not found whatever the owner and the mode. */
  lemma MissingBeforeOwner(boats: map<nat, Boat>, loads: map<nat, Load>, id: nat, boatId: nat, owner: Value, removeCarrier: bool)
    requires id !in loads || boatId !in boats
    ensures Verdict(boats, loads, id, boatId, owner, removeCarrier) == NotFound
  {
  }

  /** With both present, an owner mismatch is forbidden whatever the carrier and the mode. */
  lemma OwnerBeforeCarrier(boats: map<nat, Boat>, loads: map<nat, Load>, id: nat, boatId: nat, owner: Value, removeCarrier: bool)
    requires id in loads && boatId in boats && !StrictEquals(boats[boatId].owner, owner)
    ensures Verdict(boats, loads, id, boatId, owner, removeCarrier) == Forbidden
  {
  }

  /** Assigning succeeds exactly on an owned boat and an unassigned load; a
      load with a carrier is refused even when it is the same boat. */
  lemma AssignOnlyUnassigned(boats: map<nat, Boat>, loads: map<nat, Load>, id: nat, boatId: nat, owner: Value)
    ensures Verdict(boats, loads, id, boatId, owner, false) == Managed <==>
      id in loads && boatId in boats && StrictEquals(boats[boatId].owner, owner) && !Assigned(loads[id].carrier)
    ensures id in loads && boatId in boats && Assigned(loads[id].carrier) ==>
      Verdict(boats, loads, id, boatId, owner, false) == Forbidden
  {
  }

  /** Unassigning succeeds exactly when the carrier is this boat; a null
      carrier or another boat is reported as not found. */
  lemma UnassignExactMatch(boats: map<nat, Boat>, loads: map<nat, Load>, id: nat, boatId: nat, owner: Value)
    ensures Verdict(boats, loads, id, boatId, owner, true) == Managed <==>
      id in loads && boatId in boats && StrictEquals(boats[boatId].owner, owner) && loads[id].carrier == Some(boatId)
    ensures id in loads && boatId in boats && StrictEquals(boats[boatId].owner, owner) && loads[id].carrier != Some(boatId) ==>
      Verdict(boats, loads, id, boatId, owner, true) == NotFound
  {
  }

  /** The carrier moves only between null and a boat: a load that has a
      carrier can lose it but never be moved straight to another boat. */
  lemma NoDirectReassignment(boats: map<nat, Boat>, loads: map<nat, Load>, id: nat, boatId: nat, owner: Value, removeCarrier: bool)
    requires Verdict(boats, loads, id, boatId, owner, removeCarrier) == Managed
    ensures id in loads
    ensures Assigned(loads[id].carrier) ==> Rewritten(loads, id, boatId, removeCarrier)[id].carrier == None
    ensures !removeCarrier ==> Rewritten(loads, id, boatId, removeCarrier)[id].carrier == Some(boatId) && boatId in boats
  {
  }

  /** `delete_load`: `false` (null) and no change for an absent id,
      otherwise only that load is removed. */
  method DeleteLoad(ds: Datastore, id: nat) returns (found: bool)
    requires ds.Valid()
    modifies ds`loads
    ensures ds.Valid()
    ensures found <==> id in old(ds.loads)
    ensures !found ==> ds.loads == old(ds.loads)
    ensures found ==> ds.loads == old(ds.loads) - {id}
    ensures Linked(ds.boats, old(ds.loads)) ==> Linked(ds.boats, ds.loads)
  {
    if id !in ds.loads {
      return false;
    }
    ds.loads := ds.loads - {id};
    found := true;
  }
}
