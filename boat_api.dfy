/**
  The `/boats` routes: the presence check on request bodies, the mapping of
  each model result or thrown message to a response, and each handler run
  against the store.

  Every catch block of these routes ends in `error(res, err)`, but `error`
  is not among the exports of the helper module it is imported from, so
  that call throws in turn and no response is sent: such paths are `Escaped`.
 */
module BoatApi {
  import opened Values
  import opened Http
  import opened Store
  import LM = LoadModel
  import BM = BoatModel
  import EH = ErrorHandler

  const InvalidBoatId := "No boat with this boat_id exists"
  const MissingAttributes := "The request object is missing at least one of the required attributes"
  const AssignNotFound := "The specified boat and/or load does not exist"
  const AlreadyLoaded := "The load is already loaded on another boat"
  const NotLoadedHere := "No boat with this boat_id is loaded with the load with this load_id"

  /** The properties of a request body the boat routes read. */
  datatype BoatBody = BoatBody(name: Value, boatType: Value, length: Value)

  /** What the boat routes send as JSON. */
  datatype Payload = OneBoat(view: BM.BoatView) | Boats(page: BM.BoatPage) | LoadsOfBoat(list: LM.LoadList)

  /** `validateBoat`: a request goes on exactly when name, type and length are all truthy. */
  function ValidateBoat(body: BoatBody): (g: Gate)
    ensures g.Next? <==> Truthy(body.name) && Truthy(body.boatType) && Truthy(body.length)
    ensures g.Stop? ==> g == Stop(400, MissingAttributes)
  {
    if !Truthy(body.name) || !Truthy(body.boatType) || !Truthy(body.length) then Stop(400, MissingAttributes)
    else Next
  }

  /** A missing property, an empty string, zero, false or null each make the body incomplete. */
  lemma FalsyRefused(name: Value, boatType: Value, length: Value)
    ensures ValidateBoat(BoatBody(Undefined, boatType, length)).Stop?
    ensures ValidateBoat(BoatBody(name, Str(""), length)).Stop?
    ensures ValidateBoat(BoatBody(name, boatType, Num(0))).Stop?
    ensures ValidateBoat(BoatBody(Null, boatType, length)).Stop?
    ensures ValidateBoat(BoatBody(name, Bool(false), length)).Stop?
  {
  }

  // From model results to responses. A `DatastoreError` is what the models
  // throw; it reaches `error(res, err)` and escapes.

  /** POST `/`: 201 with the created boat. */
  function CreatedReply(r: Result<BM.BoatView>): (reply: Reply<Payload>)
    ensures r.Ok? <==> reply.Sent?
    ensures r.Ok? ==> reply == Sent(201, Payload(OneBoat(r.value)))
  {
    if r.Ok? then Sent(201, Payload(OneBoat(r.value))) else Escaped
  }

  /** GET `/:id`: 404 for a null boat, otherwise 200 with it. */
  function FoundReply(r: Result<Option<BM.BoatView>>): (reply: Reply<Payload>)
    ensures r.Ok? <==> reply.Sent?
    ensures r == Ok(None) <==> reply == Sent(404, ErrorBody(InvalidBoatId))
    ensures r.Ok? && r.value.Some? ==> reply == Sent(200, Payload(OneBoat(r.value.value)))
  {
    match r
    case DatastoreError => Escaped
    case Ok(None) => Sent(404, ErrorBody(InvalidBoatId))
    case Ok(Some(b)) => Sent(200, Payload(OneBoat(b)))
  }

  /** GET `/`: 200 with the page. */
  function ListedReply(r: Result<BM.BoatPage>): (reply: Reply<Payload>)
    ensures r.Ok? <==> reply.Sent?
    ensures r.Ok? ==> reply == Sent(200, Payload(Boats(r.value)))
  {
    if r.Ok? then Sent(200, Payload(Boats(r.value))) else Escaped
  }

  /** PATCH `/:id`: 204 with no body, whatever `patch_boat` returned. */
  function PatchedReply(r: Result<Option<BM.BoatView>>): (reply: Reply<Payload>)
    ensures r.Ok? <==> reply.Sent?
    ensures r.Ok? ==> reply == Sent(204, NoBody)
  {
    if r.Ok? then Sent(204, NoBody) else Escaped
  }

  /** DELETE `/:id`: 404 when nothing was deleted, otherwise 204. */
  function DeletedReply(r: Result<bool>): (reply: Reply<Payload>)
    ensures r.Ok? <==> reply.Sent?
    ensures r.Ok? ==> reply == (if r.value then Sent(204, NoBody) else Sent(404, ErrorBody(InvalidBoatId)))
  {
    match r
    case DatastoreError => Escaped
    case Ok(found) => if found then Sent(204, NoBody) else Sent(404, ErrorBody(InvalidBoatId))
  }

  /** GET `/:boat_id/loads`: 404 when the boat is null, otherwise 200 with the
      loads `get_boat_loads` returned; `loads` is only consulted for a found boat. */
  function BoatLoadsReply(boat: Result<Option<BM.BoatView>>, loads: Result<LM.LoadList>): (reply: Reply<Payload>)
    ensures boat == Ok(None) <==> reply == Sent(404, ErrorBody(InvalidBoatId))
    ensures boat.Ok? && boat.value.Some? ==> reply == (if loads.Ok? then Sent(200, Payload(LoadsOfBoat(loads.value))) else Escaped)
    ensures boat.DatastoreError? ==> reply.Escaped?
  {
    match boat
    case DatastoreError => Escaped
    case Ok(None) => Sent(404, ErrorBody(InvalidBoatId))
    case Ok(Some(_)) => if loads.Ok? then Sent(200, Payload(LoadsOfBoat(loads.value))) else Escaped
  }

  /** PUT `/:boat_id/loads/:load_id`: 204 when `manage_load` writes, 404 and
      403 with their messages for its two refusals. */
  function AssignedReply(o: LM.Outcome): (reply: Reply<Payload>)
    ensures o == LM.Managed <==> reply == Sent(204, NoBody)
    ensures o == LM.NotFound <==> reply == Sent(404, ErrorBody(AssignNotFound))
    ensures o == LM.Forbidden <==> reply == Sent(403, ErrorBody(AlreadyLoaded))
    ensures o == LM.StoreFailure <==> reply.Escaped?
  {
    match o
    case Managed => Sent(204, NoBody)
    case NotFound => Sent(404, ErrorBody(AssignNotFound))
    case Forbidden => Sent(403, ErrorBody(AlreadyLoaded))
    case StoreFailure => Escaped
  }

  /** DELETE `/:boat_id/loads/:load_id`: as PUT, with its own 404 message. */
  function RemovedReply(o: LM.Outcome): (reply: Reply<Payload>)
    ensures o == LM.Managed <==> reply == Sent(204, NoBody)
    ensures o == LM.NotFound <==> reply == Sent(404, ErrorBody(NotLoadedHere))
    ensures o == LM.Forbidden <==> reply == Sent(403, ErrorBody(AlreadyLoaded))
    ensures o == LM.StoreFailure <==> reply.Escaped?
  {
    match o
    case Managed => Sent(204, NoBody)
    case NotFound => Sent(404, ErrorBody(NotLoadedHere))
    case Forbidden => Sent(403, ErrorBody(AlreadyLoaded))
    case StoreFailure => Escaped
  }

  /** The messages of these routes are the ones of the boat table of `errorMessages`. */
  lemma MessagesFromTable()
    ensures EH.ErrorMessages(EH.BoatKind)["invalidBoatId"] == InvalidBoatId
    ensures EH.ErrorMessages(EH.BoatKind)["missingAttributes"] == MissingAttributes
    ensures EH.ErrorMessages(EH.BoatKind)["notFound"] == AssignNotFound
    ensures EH.ErrorMessages(EH.BoatKind)["alreadyLoaded"] == AlreadyLoaded
    ensures EH.ErrorMessages(EH.BoatKind)["mismatchedEntity"] == NotLoadedHere
  {
  }

  // The handlers, run against the store.

  /** POST `/`: an incomplete body is refused with 400 and nothing is stored;
      otherwise the boat is created and sent with 201. */
  method PostBoatRoute(ds: Datastore, body: BoatBody, baseUrl: string) returns (reply: Reply<Payload>)
    requires ds.Valid()
    modifies ds`boats, ds`nextId
    ensures ds.Valid()
    ensures ValidateBoat(body).Stop? ==> reply == Sent(400, ErrorBody(MissingAttributes)) && ds.boats == old(ds.boats)
    ensures ValidateBoat(body).Next? ==>
      && reply.Sent? && reply.status == 201 && reply.body.Payload? && reply.body.value.OneBoat?
      && var v := reply.body.value.view;
      && v.id !in old(ds.boats) && ds.boats == old(ds.boats)[v.id := Boat(body.name, body.boatType, body.length, Undefined)]
      && v == BM.BoatView(v.id, Boat(body.name, body.boatType, body.length, Undefined), Some([]), BM.CreateSelf(baseUrl, v.id, false))
    ensures BM.NoOwners(old(ds.boats)) ==> BM.NoOwners(ds.boats)
    ensures Linked(old(ds.boats), ds.loads) ==> Linked(ds.boats, ds.loads)
  {
    var gate := ValidateBoat(body);
    if gate.Stop? {
      return Sent(gate.status, ErrorBody(gate.message));
    }
    var v := BM.PostBoat(ds, body.name, body.boatType, body.length, baseUrl);
    reply := CreatedReply(Ok(v));
  }

  /** GET `/:id`: 404 exactly when no boat has the id, otherwise 200 with the boat and its loads. */
  method GetBoatRoute(ds: Datastore, id: nat, baseUrl: string) returns (reply: Reply<Payload>)
    requires ds.Valid()
    ensures id !in ds.boats <==> reply == Sent(404, ErrorBody(InvalidBoatId))
    ensures id in ds.boats ==> reply == Sent(200, Payload(OneBoat(BM.Rendered(ds.boats, ds.loads, ds.LoadOrder(), id, baseUrl))))
  {
    var b := BM.GetBoat(ds, id, baseUrl);
    reply := FoundReply(Ok(b));
  }

  /** GET `/`: 200 with the page of boats `get_boats` returns; a cursor that
      is not decimal text makes the query throw, and no response is sent. */
  method ListBoatsRoute(ds: Datastore, baseUrl: string, cursor: Option<string>) returns (reply: Reply<Payload>)
    requires ds.Valid()
    ensures reply.Escaped? <==> PageStart(cursor).None?
    ensures reply.Sent? ==>
      var start := PageStart(cursor).value;
      var page := Page(ds.BoatOrder(), start, BM.ResultsPerPage);
      && reply.status == 200 && reply.body.Payload? && reply.body.value.Boats?
      && |reply.body.value.page.boats| == |page| <= BM.ResultsPerPage
      && (forall j :: 0 <= j < |page| ==>
            reply.body.value.page.boats[j] == BM.Rendered(ds.boats, ds.loads, ds.LoadOrder(), page[j], baseUrl))
      && (reply.body.value.page.next.Some? <==> MoreResults(ds.BoatOrder(), start, BM.ResultsPerPage))
      && (reply.body.value.page.next.Some? ==>
            reply.body.value.page.next.value == baseUrl + "/boats?cursor=" + EndCursor(start, BM.ResultsPerPage))
  {
    var page := BM.GetBoats(ds, baseUrl, cursor);
    reply := ListedReply(page);
  }

  /** PATCH `/:id`: an incomplete body is refused with 400; otherwise the three
      properties are written over a stored boat, and the reply is 204 even when
      there was no boat to patch. */
  method PatchBoatRoute(ds: Datastore, id: nat, body: BoatBody, baseUrl: string) returns (reply: Reply<Payload>)
    requires ds.Valid()
    modifies ds`boats
    ensures ds.Valid()
    ensures ValidateBoat(body).Stop? ==> reply == Sent(400, ErrorBody(MissingAttributes)) && ds.boats == old(ds.boats)
    ensures ValidateBoat(body).Next? ==> reply == Sent(204, NoBody)
    ensures ValidateBoat(body).Next? && id in old(ds.boats) ==>
      ds.boats == old(ds.boats)[id := Boat(body.name, body.boatType, body.length, old(ds.boats)[id].owner)]
    ensures id !in old(ds.boats) ==> ds.boats == old(ds.boats)
    ensures BM.NoOwners(old(ds.boats)) ==> BM.NoOwners(ds.boats)
    ensures Linked(old(ds.boats), ds.loads) ==> Linked(ds.boats, ds.loads)
  {
    var gate := ValidateBoat(body);
    if gate.Stop? {
      return Sent(gate.status, ErrorBody(gate.message));
    }
    var patched := BM.PatchBoat(ds, id, BM.BoatPatch(Some(body.name), Some(body.boatType), Some(body.length)), baseUrl);
    reply := PatchedReply(Ok(patched));
  }

  /** DELETE `/:id`: 404 exactly when no boat has the id; otherwise the boat
      is deleted, its loads are unloaded, and the reply is 204. */
  method DeleteBoatRoute(ds: Datastore, id: nat) returns (reply: Reply<Payload>)
    requires ds.Valid()
    modifies ds`boats, ds`loads
    ensures ds.Valid()
    ensures id !in old(ds.boats) <==> reply == Sent(404, ErrorBody(InvalidBoatId))
    ensures id in old(ds.boats) <==> reply == Sent(204, NoBody)
    ensures id in old(ds.boats) ==> ds.boats == old(ds.boats) - {id} && ds.loads == BM.Detached(old(ds.loads), id)
    ensures id !in old(ds.boats) ==> ds.boats == old(ds.boats) && ds.loads == old(ds.loads)
    ensures Linked(old(ds.boats), old(ds.loads)) ==> Linked(ds.boats, ds.loads)
  {
    var found := BM.DeleteBoat(ds, id);
    reply := DeletedReply(Ok(found));
  }

  /** GET `/:boat_id/loads`: 404 exactly when no boat has the id; otherwise 200
      with exactly the loads whose carrier is the boat. */
  method BoatLoadsRoute(ds: Datastore, boatId: nat, baseUrl: string) returns (reply: Reply<Payload>)
    requires ds.Valid()
    ensures boatId !in ds.boats <==> reply == Sent(404, ErrorBody(InvalidBoatId))
    ensures boatId in ds.boats ==>
      var ids := LoadsOn(ds.loads, ds.LoadOrder(), boatId);
      && reply.Sent? && reply.status == 200 && reply.body.Payload? && reply.body.value.LoadsOfBoat?
      && |reply.body.value.list.loads| == |ids|
      && forall i :: 0 <= i < |ids| ==> reply.body.value.list.loads[i] == LM.Shown(ds.boats, ids[i], ds.loads[ids[i]], baseUrl)
  {
    var boat := BM.GetBoat(ds, boatId, baseUrl);
    if boat.None? {
      return BoatLoadsReply(Ok(boat), Ok(LM.LoadList([])));
    }
    var loads := LM.GetBoatLoads(ds, boatId, baseUrl);
    reply := BoatLoadsReply(Ok(boat), loads);
  }

  // Loading and unloading. The handlers call `manage_load(load_id, boat_id)`
  // and `manage_load(load_id, boat_id, true)`: the first passes no owner, the
  // second passes `true` as the owner and leaves `removeCarrier` false.

  /** The outcome of `manage_load` as PUT calls it. */
  function AssignOutcome(boats: map<nat, Boat>, loads: map<nat, Load>, boatId: nat, loadId: nat): LM.Outcome
  {
    LM.Verdict(boats, loads, loadId, boatId, Undefined, false)
  }

  /** The outcome of `manage_load` as DELETE calls it. */
  function RemoveOutcome(boats: map<nat, Boat>, loads: map<nat, Load>, boatId: nat, loadId: nat): LM.Outcome
  {
    LM.Verdict(boats, loads, loadId, boatId, Bool(true), false)
  }

  /** PUT `/:boat_id/loads/:load_id`. */
  method PutLoadRoute(ds: Datastore, boatId: nat, loadId: nat) returns (reply: Reply<Payload>)
    requires ds.Valid()
    modifies ds`loads
    ensures ds.Valid()
    ensures reply == AssignedReply(AssignOutcome(ds.boats, old(ds.loads), boatId, loadId))
    ensures reply == Sent(204, NoBody) ==> ds.loads == LM.Rewritten(old(ds.loads), loadId, boatId, false)
    ensures reply != Sent(204, NoBody) ==> ds.loads == old(ds.loads)
    ensures Linked(ds.boats, old(ds.loads)) ==> Linked(ds.boats, ds.loads)
  {
    var o := LM.ManageLoad(ds, loadId, boatId, Undefined, false);
    reply := AssignedReply(o);
  }

  /** DELETE `/:boat_id/loads/:load_id`. */
  method RemoveLoadRoute(ds: Datastore, boatId: nat, loadId: nat) returns (reply: Reply<Payload>)
    requires ds.Valid()
    modifies ds`loads
    ensures ds.Valid()
    ensures reply == RemovedReply(RemoveOutcome(ds.boats, old(ds.loads), boatId, loadId))
    ensures reply == Sent(204, NoBody) ==> ds.loads == LM.Rewritten(old(ds.loads), loadId, boatId, false)
    ensures reply != Sent(204, NoBody) ==> ds.loads == old(ds.loads)
    ensures Linked(ds.boats, old(ds.loads)) ==> Linked(ds.boats, ds.loads)
  {
    var o := LM.ManageLoad(ds, loadId, boatId, Bool(true), false);
    reply := RemovedReply(o);
  }

  /** Where no boat has an owner, as in every store these routes build, PUT
      loads exactly an unloaded load onto an existing boat; a missing boat or
      load is 404 and a load already on any boat, this one included, is 403. */
  lemma AssignOnOwnerlessBoats(boats: map<nat, Boat>, loads: map<nat, Load>, boatId: nat, loadId: nat)
    requires BM.NoOwners(boats)
    ensures AssignedReply(AssignOutcome(boats, loads, boatId, loadId)) == Sent(204, NoBody) <==>
      loadId in loads && boatId in boats && !Assigned(loads[loadId].carrier)
    ensures AssignedReply(AssignOutcome(boats, loads, boatId, loadId)).Sent?
    ensures AssignedReply(AssignOutcome(boats, loads, boatId, loadId)).status == 404 <==> loadId !in loads || boatId !in boats
    ensures AssignedReply(AssignOutcome(boats, loads, boatId, loadId)).status == 403 <==>
      loadId in loads && boatId in boats && Assigned(loads[loadId].carrier)
  {
    if loadId in loads && boatId in boats {
      assert StrictEquals(boats[boatId].owner, Undefined);
    }
  }

  /** Where no boat has an owner, DELETE never unloads anything: a missing
      boat or load is 404, and otherwise the owner check refuses with 403. */
  lemma RemoveOnOwnerlessBoats(boats: map<nat, Boat>, loads: map<nat, Load>, boatId: nat, loadId: nat)
    requires BM.NoOwners(boats)
    ensures RemovedReply(RemoveOutcome(boats, loads, boatId, loadId)) ==
      if loadId in loads && boatId in boats then Sent(403, ErrorBody(AlreadyLoaded)) else Sent(404, ErrorBody(NotLoadedHere))
  {
    if loadId in loads && boatId in boats {
      assert !StrictEquals(boats[boatId].owner, Bool(true));
    }
  }

  /** A boat with an owner of `true` has its unloaded loads loaded by a DELETE. */
  lemma RemoveLoadsOntoTrueOwner(boats: map<nat, Boat>, loads: map<nat, Load>, boatId: nat, loadId: nat)
    requires boatId in boats && boats[boatId].owner == Bool(true)
    requires loadId in loads && loads[loadId].carrier == None
    ensures RemoveOutcome(boats, loads, boatId, loadId) == LM.Managed
    ensures LM.Rewritten(loads, loadId, boatId, false)[loadId].carrier == Some(boatId)
  {
  }

  /** A concrete store: boat 1 carries load 2. Unloading it answers 403 and
      the load stays on the boat. */
  lemma RemoveRefusesCarriedLoad()
    ensures var boats := map[1 := Boat(Str("Sea Witch"), Str("Catamaran"), Num(28), Undefined)];
      var loads := map[2 := Load(Num(5), Str("LEGO Blocks"), Some(1), Str("10/18/2021"))];
      && BM.NoOwners(boats) && Linked(boats, loads)
      && RemovedReply(RemoveOutcome(boats, loads, 1, 2)) == Sent(403, ErrorBody(AlreadyLoaded))
  {
    var boats := map[1 := Boat(Str("Sea Witch"), Str("Catamaran"), Num(28), Undefined)];
    var loads := map[2 := Load(Num(5), Str("LEGO Blocks"), Some(1), Str("10/18/2021"))];
    RemoveOnOwnerlessBoats(boats, loads, 1, 2);
  }

  /** The unload the route evidently means: `manage_load(load_id, boat_id, undefined, true)`. */
  function IntendedRemoveOutcome(boats: map<nat, Boat>, loads: map<nat, Load>, boatId: nat, loadId: nat): LM.Outcome
  {
    LM.Verdict(boats, loads, loadId, boatId, Undefined, true)
  }

  /** Where no boat has an owner, the intended unload answers 204 exactly for a
      load on this boat and then leaves it without a carrier; a load on no boat
      or on another boat is 404. */
  lemma IntendedRemoveUnloads(boats: map<nat, Boat>, loads: map<nat, Load>, boatId: nat, loadId: nat)
    requires BM.NoOwners(boats)
    ensures RemovedReply(IntendedRemoveOutcome(boats, loads, boatId, loadId)) == Sent(204, NoBody) <==>
      loadId in loads && boatId in boats && loads[loadId].carrier == Some(boatId)
    ensures IntendedRemoveOutcome(boats, loads, boatId, loadId) == LM.Managed ==>
      LM.Rewritten(loads, loadId, boatId, true)[loadId] == loads[loadId].(carrier := None)
    ensures IntendedRemoveOutcome(boats, loads, boatId, loadId) != LM.Managed ==>
      RemovedReply(IntendedRemoveOutcome(boats, loads, boatId, loadId)) == Sent(404, ErrorBody(NotLoadedHere))
  {
    if loadId in loads && boatId in boats {
      assert StrictEquals(boats[boatId].owner, Undefined);
    }
  }

  /** On the concrete store above, the intended unload answers 204 and frees the load. */
  lemma IntendedRemoveFreesCarriedLoad()
    ensures var boats := map[1 := Boat(Str("Sea Witch"), Str("Catamaran"), Num(28), Undefined)];
      var loads := map[2 := Load(Num(5), Str("LEGO Blocks"), Some(1), Str("10/18/2021"))];
      && RemovedReply(IntendedRemoveOutcome(boats, loads, 1, 2)) == Sent(204, NoBody)
      && LM.Rewritten(loads, 2, 1, true)[2].carrier == None
  {
    var boats := map[1 := Boat(Str("Sea Witch"), Str("Catamaran"), Num(28), Undefined)];
    var loads := map[2 := Load(Num(5), Str("LEGO Blocks"), Some(1), Str("10/18/2021"))];
    IntendedRemoveUnloads(boats, loads, 1, 2);
  }

  /** The two models' self links agree once their flags are read the same way round. */
  lemma SelfLinksAgree(url: string, id: nat, isLoad: bool)
    ensures BM.CreateSelf(url, id, isLoad) == LM.CreateSelf(url, id, !isLoad)
  {
  }
}
