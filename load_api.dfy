/**
  The `/loads` routes: the presence check on request bodies, the mapping of
  each model result to a response, and each handler run against the store.
  Unlike the boat routes, every catch block here answers 500 itself.
 */
module LoadApi {
  import opened Values
  import opened Http
  import opened Store
  import LM = LoadModel
  import EH = ErrorHandler

  /** The route file's own `errors` table. */
  const Errors: map<string, string> := map[
    "server" := "Internal server error",
    "missingAttributes" := "The request object is missing at least one of the required attributes",
    "invalidLoadId" := "No load with this load_id exists"
  ]

  /** The route file's table is the load table of `errorMessages`. */
  lemma ErrorsAreLoadMessages()
    ensures Errors == EH.ErrorMessages(EH.LoadKind)
  {
  }

  /** `error(msg)`: the body `{Error: msg}`. */
  function Error<T>(msg: string): (b: Body<T>)
    ensures b.ErrorBody? && b.message == msg
  {
    ErrorBody(msg)
  }

  /** The properties of a request body the load routes read. */
  datatype LoadBody = LoadBody(volume: Value, item: Value, creationDate: Value)

  /** What the load routes send as JSON. */
  datatype Payload = OneLoad(view: LM.LoadView) | Loads(page: LM.LoadPage)

  /** `validateLoad`: a request goes on exactly when volume, item and creation_date are all truthy. */
  function ValidateLoad(body: LoadBody): (g: Gate)
    ensures g.Next? <==> Truthy(body.volume) && Truthy(body.item) && Truthy(body.creationDate)
    ensures g.Stop? ==> g == Stop(400, Errors["missingAttributes"])
  {
    if !Truthy(body.volume) || !Truthy(body.item) || !Truthy(body.creationDate) then Stop(400, Errors["missingAttributes"])
    else Next
  }

  /** A volume of zero is refused like a missing one. */
  lemma ZeroVolumeRefused(item: Value, creationDate: Value)
    ensures ValidateLoad(LoadBody(Num(0), item, creationDate)) == ValidateLoad(LoadBody(Undefined, item, creationDate))
    ensures ValidateLoad(LoadBody(Num(0), item, creationDate)).Stop?
  {
  }

  // From model results to responses; a `DatastoreError` is answered with 500.

  /** POST `/`: 201 with the created load. */
  function CreatedReply(r: Result<LM.LoadView>): (reply: Reply<Payload>)
    ensures r.Ok? ==> reply == Sent(201, Payload(OneLoad(r.value)))
    ensures r.DatastoreError? ==> reply == Sent(500, Error(Errors["server"]))
  {
    if r.Ok? then Sent(201, Payload(OneLoad(r.value))) else Sent(500, Error(Errors["server"]))
  }

  /** GET `/:id`: 404 for a null load, otherwise 200 with it. */
  function FoundReply(r: Result<Option<LM.LoadView>>): (reply: Reply<Payload>)
    ensures r == Ok(None) <==> reply == Sent(404, Error(Errors["invalidLoadId"]))
    ensures r.Ok? && r.value.Some? ==> reply == Sent(200, Payload(OneLoad(r.value.value)))
    ensures r.DatastoreError? ==> reply == Sent(500, Error(Errors["server"]))
  {
    match r
    case DatastoreError => Sent(500, Error(Errors["server"]))
    case Ok(None) => Sent(404, Error(Errors["invalidLoadId"]))
    case Ok(Some(l)) => Sent(200, Payload(OneLoad(l)))
  }

  /** GET `/`: 200 with the page. */
  function ListedReply(r: Result<LM.LoadPage>): (reply: Reply<Payload>)
    ensures r.Ok? ==> reply == Sent(200, Payload(Loads(r.value)))
    ensures r.DatastoreError? ==> reply == Sent(500, Error(Errors["server"]))
  {
    if r.Ok? then Sent(200, Payload(Loads(r.value))) else Sent(500, Error(Errors["server"]))
  }

  /** DELETE `/:id`: 404 when nothing was deleted, otherwise 204. */
  function DeletedReply(r: Result<bool>): (reply: Reply<Payload>)
    ensures r == Ok(false) <==> reply == Sent(404, Error(Errors["invalidLoadId"]))
    ensures r == Ok(true) <==> reply == Sent(204, NoBody)
    ensures r.DatastoreError? <==> reply == Sent(500, Error(Errors["server"]))
  {
    match r
    case DatastoreError => Sent(500, Error(Errors["server"]))
    case Ok(found) => if found then Sent(204, NoBody) else Sent(404, Error(Errors["invalidLoadId"]))
  }

  /** Every load route answers, failures included, and a failure is always 500. */
  lemma AlwaysAnswers(created: Result<LM.LoadView>, found: Result<Option<LM.LoadView>>, listed: Result<LM.LoadPage>, deleted: Result<bool>)
    ensures CreatedReply(created).Sent? && FoundReply(found).Sent? && ListedReply(listed).Sent? && DeletedReply(deleted).Sent?
    ensures CreatedReply(created).status == 500 <==> created.DatastoreError?
    ensures FoundReply(found).status == 500 <==> found.DatastoreError?
    ensures ListedReply(listed).status == 500 <==> listed.DatastoreError?
    ensures DeletedReply(deleted).status == 500 <==> deleted.DatastoreError?
  {
  }

  /** A reply carries an error body exactly when its status is an error
      status, and then the message is one of the route file's table. */
  predicate FromTable(reply: Reply<Payload>)
  {
    reply.Sent? && (reply.body.ErrorBody? <==> reply.status >= 400) &&
    (reply.body.ErrorBody? ==> reply.body.message in Errors.Values)
  }

  /** Every load route answers with its payload on success and with `error(msg)` of a table message otherwise. */
  lemma RefusalsFromTable(created: Result<LM.LoadView>, found: Result<Option<LM.LoadView>>, listed: Result<LM.LoadPage>, deleted: Result<bool>)
    ensures FromTable(CreatedReply(created)) && FromTable(FoundReply(found))
    ensures FromTable(ListedReply(listed)) && FromTable(DeletedReply(deleted))
  {
    assert Errors["server"] in Errors.Values && Errors["invalidLoadId"] in Errors.Values;
  }

  // The handlers, run against the store.

  /** POST `/`: an incomplete body is refused with 400 and nothing is stored;
      otherwise the load is created without a carrier and sent with 201. */
  method PostLoadRoute(ds: Datastore, body: LoadBody, baseUrl: string) returns (reply: Reply<Payload>)
    requires ds.Valid()
    modifies ds`loads, ds`nextId
    ensures ds.Valid()
    ensures ValidateLoad(body).Stop? ==> reply == Sent(400, Error(Errors["missingAttributes"])) && ds.loads == old(ds.loads)
    ensures ValidateLoad(body).Next? ==>
      && reply.Sent? && reply.status == 201 && reply.body.Payload? && reply.body.value.OneLoad?
      && var v := reply.body.value.view;
      && v.id !in old(ds.loads) && ds.loads == old(ds.loads)[v.id := Load(body.volume, body.item, None, body.creationDate)]
      && v == LM.LoadView(v.id, body.volume, body.item, LM.NoCarrier, body.creationDate, LM.CreateSelf(baseUrl, v.id, false))
    ensures Linked(ds.boats, old(ds.loads)) ==> Linked(ds.boats, ds.loads)
  {
    var gate := ValidateLoad(body);
    if gate.Stop? {
      return Sent(gate.status, Error(gate.message));
    }
    var v := LM.PostLoad(ds, body.volume, body.item, body.creationDate, baseUrl);
    reply := CreatedReply(Ok(v));
  }

  /** GET `/:id`: 404 exactly when no load has the id, otherwise 200 with the load and its carrier. */
  method GetLoadRoute(ds: Datastore, id: nat, baseUrl: string) returns (reply: Reply<Payload>)
    ensures id !in ds.loads <==> reply == Sent(404, Error(Errors["invalidLoadId"]))
    ensures id in ds.loads ==> reply == Sent(200, Payload(OneLoad(LM.Shown(ds.boats, id, ds.loads[id], baseUrl))))
  {
    var l := LM.GetLoad(ds, id, baseUrl);
    reply := FoundReply(Ok(l));
  }

  /** GET `/`: 200 with the page `get_loads` returns, and 500 when it throws:
      for a cursor that is not decimal text, or a page with a dangling carrier. */
  method ListLoadsRoute(ds: Datastore, baseUrl: string, cursor: Option<string>) returns (reply: Reply<Payload>)
    requires ds.Valid()
    ensures reply.Sent?
    ensures PageStart(cursor).None? ==> reply == Sent(500, Error(Errors["server"]))
    ensures PageStart(cursor).Some? ==>
      var start := PageStart(cursor).value;
      var page := Page(ds.LoadOrder(), start, LM.ResultsPerPage);
      && (reply == Sent(500, Error(Errors["server"])) <==> LM.PageThrows(ds.boats, ds.loads, page, baseUrl))
      && (!LM.PageThrows(ds.boats, ds.loads, page, baseUrl) ==>
            && reply.status == 200 && reply.body.Payload? && reply.body.value.Loads?
            && LM.RendersPage(ds.boats, ds.loads, page, baseUrl, reply.body.value.page.loads)
            && (reply.body.value.page.next.Some? <==> MoreResults(ds.LoadOrder(), start, LM.ResultsPerPage))
            && (reply.body.value.page.next.Some? ==>
                  reply.body.value.page.next.value == baseUrl + "/loads?cursor=" + EndCursor(start, LM.ResultsPerPage)))
    ensures Linked(ds.boats, ds.loads) && PageStart(cursor).Some? ==>
      && reply.status == 200 && reply.body.Payload? && reply.body.value.Loads?
      && |reply.body.value.page.loads| <= LM.ResultsPerPage
  {
    var page := LM.GetLoads(ds, baseUrl, cursor);
    if page.Ok? {
      assert |page.value.loads| == |Page(ds.LoadOrder(), PageStart(cursor).value, LM.ResultsPerPage)|;
    }
    reply := ListedReply(page);
  }

  /** DELETE `/:id`: 404 exactly when no load has the id; otherwise the load is removed and the reply is 204. */
  method DeleteLoadRoute(ds: Datastore, id: nat) returns (reply: Reply<Payload>)
    requires ds.Valid()
    modifies ds`loads
    ensures ds.Valid()
    ensures id !in old(ds.loads) <==> reply == Sent(404, Error(Errors["invalidLoadId"]))
    ensures id in old(ds.loads) <==> reply == Sent(204, NoBody)
    ensures ds.loads == old(ds.loads) - {id}
    ensures Linked(ds.boats, old(ds.loads)) ==> Linked(ds.boats, ds.loads)
  {
    var found := LM.DeleteLoad(ds, id);
    reply := DeletedReply(Ok(found));
  }
}
