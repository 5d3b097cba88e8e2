# Boats and loads: a Dafny model

This project models the core of a small REST service. The service keeps
**boats** and **loads** in a key-value store, where every entity is keyed
by a numeric id. It also keeps the **users** who have logged in. There is
one relationship: a load's `carrier` is either null or the id of the boat
carrying it. The service is made of these layers:

- **Models** read and write the store.
  - `post_*`, `get_*` and `delete_*` for boats and loads.
  - `patch_boat` merges new properties over a stored boat.
  - `delete_boat` first sets to null the carrier of every load on the boat, then deletes the boat.
  - `manage_load` is a guarded write that puts a load on a boat or takes it off.
  - For users, a check-then-insert on `user_id`.
- **Routes** turn model results, or the messages the models throw, into a status and a JSON body.
- **Helpers** provide:
  - the base URL;
  - the Accept-header middleware;
  - the error handler;
  - the table of messages.

The store is a class `Store.Datastore` with these fields:

- one `map<nat, _>` per entity kind;
- the next fresh id, shared by all kinds.

A kind query returns entities in ascending key order. A query cursor is the
decimal text of an offset, and the store reports more results exactly when
entities remain beyond the page. The referential-integrity predicate
`Store.Linked` says that every non-null carrier names a stored boat. The
store does not enforce it. Every mutating operation of the model has been
proved to preserve it.

Values that arrive in request bodies are JavaScript values
(`Values.Value`). Their truthiness (`Truthy`) and `===` (`StrictEquals`)
are modelled explicitly, because the code's checks depend on them:

- the presence validators reject `""`, `0`, `false` and `null`;
- `manage_load` tests a carrier by truthiness;
- `manage_load` compares a boat's owner with `!==`.

What the code does, as the model reproduces it:

- Boat pages hold 3 boats, load pages 5.
- The boat listing is not filtered by owner.
- `post_boat` stores no `owner`. A boat's `owner` is therefore `Undefined`, and `BoatModel.NoOwners` is preserved by every boat operation.
- PUT `/boats/:b/loads/:l` calls `manage_load(l, b)`. It passes no owner, so the owner check passes on every boat the service creates.
- DELETE `/boats/:b/loads/:l` calls `manage_load(l, b, true)`. This puts `true` in the owner position and leaves `removeCarrier` false, so the call takes the *loading* path and the owner check refuses it (see Findings).
- The boat routes' catch blocks call `error(res, err)`. The helper module does not export `error`, so that call throws again and no response is sent. The model writes this as `Http.Reply.Escaped`. The load routes answer 500 themselves.
- The listings look up each carrier with a `get` that resolves to an array (`Listed`, `PageThrows`). An array is always truthy, so a carrier id whose boat is missing would make the listing throw a "Datastore Error". `get_load`, in contrast, keeps such a carrier as a bare number. `LoadModel.GetLoads` is proved never to reach this case in a linked store.
- An existing user returned by `add_user` has no `id` property, and neither has any user returned by `get_users`. `UserModel.UserView.key` is `None` for such a user.
- Loading a load that is already carried is answered 403 FORBIDDEN; there is no separate conflict error.

## Model

| member | source | states |
|---|---|---|
| Values.NatToString | models/loadModel.js:11-14 | ids render as a non-empty run of decimal digits |
| Values.ParseNat | models/loadModel.js:71-73 | a cursor is accepted exactly when it is a non-empty run of digits |
| Values.ParseNatToString | models/loadModel.js:117-119 | reading back the decimal text of a number gives the number (a `next` cursor the service handed out is accepted) |
| Values.NatToStringInjective | models/loadModel.js:11-14 | distinct ids give distinct texts |
| Store.KeysBelow | models/loadModel.js:69 | the kind query lists exactly the stored keys, in ascending order |
| Store.LoadsOn | models/boatModel.js:42-45 | the `carrier = id` filter lists exactly the loads whose carrier is that id, in key order |
| Store.NothingOnMissingBoat | models/boatModel.js:25 | in a linked store the carrier filter for an id no boat has finds nothing, so a new boat has no loads |
| Store.LinkedCarriersAssigned | models/loadModel.js:46 | with positive boat keys, in a linked store a carrier is truthy exactly when it is set, and then it names a stored boat |
| Store.PageStart | models/loadModel.js:71-73 | an absent or empty cursor starts at offset 0 |
| Store.Page | models/loadModel.js:69-75 | a page holds at most `limit` entities, entity `i` of it being entity `start + i` of the listing |
| Store.EndCursor | models/loadModel.js:117-119 | the end cursor, handed back, starts the next page right after this one |
| Store.WalkListsAll | models/loadModel.js:113-119 | following the `next` cursors from any offset lists every later entity exactly once, in order |
| Store.SuccessivePagesDisjoint | models/boatModel.js:102-108 | every entity of a page comes before every entity of the page after it |
| Store.Datastore.constructor | models/loadModel.js:4 | a fresh store is empty, valid and linked |
| Store.Datastore.AllocateId | models/loadModel.js:19-28 | completing an incomplete key gives a positive id that no entity of its kind has (with one counter for all kinds, none of any kind has it) |
| Store.Datastore.SaveNewUser | models/userModel.js:21-22 | saving under an incomplete key stores the user under a fresh id and changes nothing else |
| Store.Datastore.BoatOrder | models/boatModel.js:65-66 | the boat query lists exactly the stored boats, in ascending key order |
| Store.Datastore.LoadOrder | models/loadModel.js:69 | the load query lists exactly the stored loads, in ascending key order |
| Store.Datastore.UserOrder | models/userModel.js:35-36 | the user query lists exactly the stored users, in ascending key order |
| LoadModel.SelfLinkIdentifies | models/loadModel.js:11-14 | `createSelf` of the load model: equal self links have equal ids and the same kind |
| LoadModel.StoredCarrierIdentifies | models/loadModel.js:23 | the carrier as shown (null or the bare number) determines the stored carrier, and a number shown is the stored id |
| LoadModel.Shown | models/loadModel.js:46-58 | `get_load` keeps volume, item and creation date, adds `id` and `self`, and replaces the carrier by `{id, name, self}` exactly when it is truthy and the boat exists; a dangling carrier stays a number |
| LoadModel.Listed | models/loadModel.js:93-111 | the listings render a load as `get_load` does, except that a truthy carrier whose boat is missing throws |
| LoadModel.ListedInLinkedStore | models/loadModel.js:91-105 | in a linked store the listings never throw and render as `get_load` does |
| LoadModel.PostLoad | models/loadModel.js:17-31 | stores exactly `{volume, item, carrier: null, creation_date}` under a fresh id and returns it with `id` and `self = baseUrl/loads/id`; the store stays linked |
| LoadModel.GetLoad | models/loadModel.js:38-58 | null exactly for an absent id, otherwise the load as `Shown`; nothing changes |
| LoadModel.RenderPage | models/loadModel.js:77-111 | the two loops of `get_loads`: each loaded page entry rendered as `Listed`, looked up by index, or a throw exactly when one rendering throws |
| LoadModel.GetLoads | models/loadModel.js:67-126 | at most 5 loads in key order from the cursor's offset, each as `Listed`; `next = baseUrl/loads?cursor=endCursor` is present exactly when more loads remain; a cursor that is not decimal text throws; a linked store never throws |
| LoadModel.Lookup | models/loadModel.js:79-89 | a boat lookup is pushed exactly for a truthy carrier, and finds the boat exactly when it is stored |
| LoadModel.GetBoatLoads | models/loadModel.js:128-164 | exactly the loads whose carrier equals the boat id, in key order, each with the boat's summary; it throws exactly when the boat is missing and loads still point at it |
| LoadModel.LookUpCarriers | models/loadModel.js:135-139 | the first loop of `get_boat_loads`: entry `j` is the boat the carrier of load `j` names, or nothing when that boat is missing |
| LoadModel.RenderCarried | models/loadModel.js:143-157 | the second loop: every load rendered as `Shown`, or a throw exactly when the boat is missing and some load still names it |
| LoadModel.ShownOnBoat | models/loadModel.js:143-151 | a load carried by a stored boat is shown with that boat's `{id, name, self}` |
| LoadModel.ManageLoad | models/loadModel.js:166-196 | the outcome is the checks in source order (`Verdict`); on success only the load's carrier changes, to null when unassigning and to the boat id when assigning; on a refusal nothing changes; the store stays linked |
| LoadModel.MissingBeforeOwner | models/loadModel.js:175-177 | a missing load or boat is NOT_FOUND whatever the owner and the mode |
| LoadModel.OwnerBeforeCarrier | models/loadModel.js:179-181 | with both present, a boat whose owner is not `===` the given owner is FORBIDDEN whatever the carrier and the mode |
| LoadModel.AssignOnlyUnassigned | models/loadModel.js:183-185 | assigning succeeds exactly on an owned boat and a load with a falsy carrier; a load already carried, even by the same boat, is FORBIDDEN |
| LoadModel.UnassignExactMatch | models/loadModel.js:187-189 | unassigning succeeds exactly when the carrier is this boat's id; otherwise NOT_FOUND |
| LoadModel.NoDirectReassignment | models/loadModel.js:191-194 | a successful call moves a carrier only between null and a boat: a carried load can only lose its carrier, and an assigned one gets this stored boat |
| LoadModel.DeleteLoad | models/loadModel.js:198-206 | null and no change for an absent id, otherwise only that load is removed; the store stays linked |
| BoatModel.Rendered | models/boatModel.js:42-54 | a boat is shown with its stored properties, `id`, `self = baseUrl/boats/id` and a `loads` list of `{id, self}` naming exactly the loads whose carrier is the boat's id, in key order |
| BoatModel.PostBoat | models/boatModel.js:17-27 | stores exactly `{name, type, length}` (no owner) under a fresh id and returns it with `loads: []`, which agrees with the query in a linked store; no boat gains an owner |
| BoatModel.GetBoat | models/boatModel.js:34-54 | null exactly for an absent id, otherwise the boat as `Rendered` |
| BoatModel.RenderBoats | models/boatModel.js:74-100 | the two loops of `get_boats`: boat `j` of the page is rendered with the load query pushed for it, looked up by index |
| BoatModel.GetBoats | models/boatModel.js:63-108 | at most 3 boats in key order from the cursor's offset, of any owner, each as `Rendered`; `next` is present exactly when more boats remain; a cursor that is not decimal text throws |
| BoatModel.Merge | models/boatModel.js:124 | each property the patch has overwrites, every other stored property, the owner included, is kept |
| BoatModel.MergeIdempotent | models/boatModel.js:124 | applying a patch twice is applying it once, and an empty patch changes nothing |
| BoatModel.PatchBoat | models/boatModel.js:117-136 | null and no write for an absent id; otherwise the merged boat is stored and returned with `id` and `self`; no boat gains an owner |
| BoatModel.Detached | models/boatModel.js:153-159 | after the cascade no load has the boat as carrier, loads it carried have a null carrier and are otherwise unchanged, other loads are untouched |
| BoatModel.DetachedStaysLinked | models/boatModel.js:148-162 | the cascade followed by the delete keeps a linked store linked |
| BoatModel.DetachedByList | models/boatModel.js:148-159 | nulling the carrier of each load the carrier query returned is exactly the cascade |
| BoatModel.SaveWithoutCarrier | models/boatModel.js:153-161 | each listed load is saved with a null carrier and nothing else changes |
| BoatModel.DeleteBoat | models/boatModel.js:139-167 | null and no change for an absent id; otherwise the cascade (`Detached`) and then the boat is removed; the store stays linked and ownerless boats stay ownerless |
| UserModel.UsersWith | models/userModel.js:10-14 | the `user_id = id` filter lists exactly the users with that `user_id`, in key order |
| UserModel.FoundIffStored | models/userModel.js:10-15 | the filter finds a user exactly when one with that `user_id` is stored |
| UserModel.Registration | models/userModel.js:15-26 | an existing user is returned as stored without an id; otherwise the new user with its key |
| UserModel.AddUser | models/userModel.js:6-31 | the first stored user with `user_id == id` is returned and nothing is saved; otherwise exactly `{user_id, name, email}` is saved under a fresh key and returned with it |
| UserModel.RegistrationKeepsExisting | models/userModel.js:15-18 | when the user exists, the new name and email have no effect on what is returned |
| UserModel.RegisteredExisting | models/userModel.js:15-18 | registering an existing `user_id` leaves the users unchanged |
| UserModel.RegisteredNew | models/userModel.js:21-22 | registering a new `user_id` leaves exactly one user with it |
| UserModel.RegisteredTwice | models/userModel.js:14-22 | two registrations with the same `user_id`, one after the other, leave exactly one user with it, the one the first created |
| UserModel.GetUsers | models/userModel.js:33-40 | every stored user exactly as stored, in key order |
| Utils.GetUrl | utils/utils.js:5-8 | `https://` + host when `PORT` is set and non-empty, `http://` + host otherwise |
| Utils.GetUrlParts | utils/utils.js:5-8 | the scheme of the URL tells whether `PORT` was set, and the host can be read back |
| Utils.Split | utils/utils.js:28 | `split` with one separator gives at least one piece, none of which holds the separator |
| Utils.JoinSplit | utils/utils.js:28 | joining the pieces with the separator gives the text back |
| Utils.SplitJoin | utils/utils.js:28 | splitting a join of separator-free pieces gives the pieces back |
| Utils.SplitNoSeparator | utils/utils.js:29 | text without the separator is one piece |
| Utils.SplitAfter | utils/utils.js:28 | a separator-free head and a separator start the list of pieces |
| Utils.Leading | utils/utils.js:29 | the count of leading ECMAScript white-space characters: all of them white space, the next not |
| Utils.Trailing | utils/utils.js:29 | the count of trailing ECMAScript white-space characters: all of them white space, the one before not |
| Utils.Trim | utils/utils.js:29 | `trim` removes exactly the leading and trailing white space, so the result neither starts nor ends with white space |
| Utils.TrimClean | utils/utils.js:29 | text that neither starts nor ends with white space is its own trim |
| Utils.MediaRange | utils/utils.js:29 | a part's media range is the trimmed text before its first `;` |
| Utils.AcceptedTypes | utils/utils.js:27-30 | the parsed Accept list (the header, or `""` when missing, split on `,`) holds only non-empty entries without parameters; that each entry is the media range of a part, in the parts' order, is `RangeSourcesSound` and `RangeSourcesIncreasing` |
| Utils.Ranges | utils/utils.js:29-30 | mapping parts to media ranges and dropping empty ones gives non-empty ranges, no more than there were parts |
| Utils.RangeSources | utils/utils.js:29-30 | the index of the header part each parsed media range comes from, one index per parsed entry |
| Utils.RangeSourcesSound | utils/utils.js:29-30 | parsed entry `i` is the media range of part `RangeSources(parts)[i]` |
| Utils.RangeSourcesIncreasing | utils/utils.js:29-30 | those indices strictly increase, so the parsed list keeps the header's order |
| Utils.RangeSourcesComplete | utils/utils.js:29-30 | every part with a non-empty media range is among those indices |
| Utils.RangesSound | utils/utils.js:29-30 | every parsed entry is the media range of some part |
| Utils.RangesComplete | utils/utils.js:29-30 | every non-empty media range of a part is kept |
| Utils.RefusalNamesTypes | utils/utils.js:21-24 | the 406 message of `acceptableRequestTypes` names every acceptable type and every type the request offered, and ends with the offered types joined by `,` and a full stop |
| Utils.OccursInJoin | utils/utils.js:22-23 | every piece of a list occurs in the list's join |
| Utils.ValidateMime | utils/utils.js:25-51 | the request goes on exactly when the acceptable list is empty or some parsed type is the wildcard or acceptable; otherwise 406 with the message listing the acceptable types joined by `, ` and the parsed types joined by `,` |
| Utils.EmptyListPasses | utils/utils.js:25 | with the default empty list every request passes |
| Utils.MissingHeaderRefused | utils/utils.js:27 | a missing or empty Accept header parses to nothing and is refused by any route that names acceptable types |
| Utils.AcceptedTypesOfList | utils/utils.js:27-30 | a header listing clean media ranges separated by commas parses back to exactly that list, the empty list included |
| Utils.RangesOfClean | utils/utils.js:29-30 | clean media ranges are their own media ranges and are all kept |
| Utils.WildcardPasses | utils/utils.js:32-37 | a `*/*` among the parsed media ranges lets the request through (one after a `;` is dropped with the parameters) |
| ErrorHandler.HandleError | utils/errorHandler.js:15-31 | every error is answered with `{Error: message}`: an unauthorized error with its own status, an `AppError` with its code, anything else with 500 |
| ErrorHandler.HandledStatus | utils/errorHandler.js:17-30 | the handler always answers, and only unauthorized and app errors can get a status other than 500 |
| ErrorHandler.AppErrorAnswered | utils/errorHandler.js:4-25 | an `AppError(code, message)` is answered with exactly that code and message |
| ErrorHandler.ErrorMessages | utils/errorHandler.js:33-51 | the boat table has seven entries and the load table three, among them `server` and `missingAttributes` |
| ErrorHandler.SharedMessages | utils/errorHandler.js:33-51 | the tables agree on every entry they share |
| BoatApi.ValidateBoat | apis/boatAPI.js:21-29 | a request goes on exactly when name, type and length are all truthy; otherwise 400 with the missing-attributes message |
| BoatApi.FalsyRefused | apis/boatAPI.js:23 | an absent, null, empty-string, zero or false property makes the body incomplete |
| BoatApi.CreatedReply | apis/boatAPI.js:31-43 | 201 with the created boat; a thrown error gets no response |
| BoatApi.FoundReply | apis/boatAPI.js:45-56 | 404 with "No boat with this boat_id exists" exactly for a null boat, otherwise 200 with it; a thrown error gets no response |
| BoatApi.ListedReply | apis/boatAPI.js:58-65 | 200 with the page; a thrown error gets no response |
| BoatApi.PatchedReply | apis/boatAPI.js:67-79 | 204 whatever `patch_boat` returned; a thrown error gets no response |
| BoatApi.DeletedReply | apis/boatAPI.js:81-92 | 404 exactly when nothing was deleted, otherwise 204 |
| BoatApi.BoatLoadsReply | apis/boatAPI.js:94-105 | 404 exactly for a null boat, otherwise 200 with the loads; a thrown error gets no response |
| BoatApi.AssignedReply | apis/boatAPI.js:107-120 | success is 204, NOT_FOUND 404 "The specified boat and/or load does not exist", FORBIDDEN 403 "The load is already loaded on another boat", any other error no response |
| BoatApi.RemovedReply | apis/boatAPI.js:122-135 | success is 204, NOT_FOUND 404 "No boat with this boat_id is loaded with the load with this load_id", FORBIDDEN 403, any other error no response |
| BoatApi.MessagesFromTable | utils/errorHandler.js:34-44 | the boat routes' messages are the boat entries of `errorMessages` |
| BoatApi.PostBoatRoute | apis/boatAPI.js:31-43 | an incomplete body is 400 and stores nothing; otherwise `{name, type, length}` is stored without an owner under a fresh id and sent with 201 as exactly that boat with `id`, `loads: []` and `self = baseUrl/boats/id` |
| BoatApi.GetBoatRoute | apis/boatAPI.js:45-56 | 404 exactly when no boat has the id, otherwise 200 with the boat as `Rendered` |
| BoatApi.ListBoatsRoute | apis/boatAPI.js:58-65 | for a decimal cursor, 200 with the page of `get_boats`: its at most 3 boats from the offset in key order, each as `Rendered`, and `next` exactly when more boats remain; no response exactly for a cursor that is not decimal text |
| BoatApi.PatchBoatRoute | apis/boatAPI.js:67-79 | an incomplete body is 400; otherwise name, type and length overwrite a stored boat, owner kept, and the reply is 204 even when no boat has the id |
| BoatApi.DeleteBoatRoute | apis/boatAPI.js:81-92 | 404 and no change exactly when no boat has the id; otherwise the boat is deleted, its loads unloaded, and the reply is 204 |
| BoatApi.BoatLoadsRoute | apis/boatAPI.js:94-105 | 404 exactly when no boat has the id, otherwise 200 with exactly the loads carried by the boat |
| BoatApi.PutLoadRoute | apis/boatAPI.js:107-120 | the reply maps `manage_load(load, boat)` with no owner; on 204 only the load's carrier changes, to the boat id; otherwise nothing changes |
| BoatApi.RemoveLoadRoute | apis/boatAPI.js:122-135 | the reply maps `manage_load(load, boat, true)`; on 204 the load's carrier is set to the boat id; otherwise nothing changes |
| BoatApi.AssignOnOwnerlessBoats | apis/boatAPI.js:107-120 | on ownerless boats PUT answers 204 exactly for an existing boat and a load on no boat, 404 exactly when either is missing, and 403 exactly when the load is on a boat |
| BoatApi.RemoveOnOwnerlessBoats | apis/boatAPI.js:122-135 | on ownerless boats the unload route answers 403 when both exist and 404 otherwise: it never unloads |
| BoatApi.RemoveLoadsOntoTrueOwner | apis/boatAPI.js:124 | on a boat whose owner is `true`, the unload route loads an unloaded load onto the boat |
| BoatApi.RemoveRefusesCarriedLoad | apis/boatAPI.js:124 | on a store where boat 1 carries load 2, unloading it answers 403 |
| BoatApi.IntendedRemoveUnloads | apis/boatAPI.js:122-135 | with `removeCarrier` set, the unload answers 204 exactly for a load on this boat and then leaves it without a carrier, and 404 otherwise |
| BoatApi.IntendedRemoveFreesCarriedLoad | apis/boatAPI.js:122-135 | on the same store, the intended unload answers 204 and nulls the carrier |
| BoatApi.SelfLinksAgree | models/boatModel.js:11-14 | the boat model's `createSelf(url, id, isLoad)` is the load model's with the flag reversed |
| LoadApi.ErrorsAreLoadMessages | apis/loadAPI.js:12-17 | the route file's `errors` table is the load table of `errorMessages` |
| LoadApi.RefusalsFromTable | apis/loadAPI.js:19-83 | every load reply carries `error(msg)` exactly when its status is 400 or above, and `msg` is then a message of the route file's table |
| LoadApi.ValidateLoad | apis/loadAPI.js:25-31 | a request goes on exactly when volume, item and creation_date are all truthy; otherwise 400 with the missing-attributes message |
| LoadApi.ZeroVolumeRefused | apis/loadAPI.js:27 | a zero volume is refused like a missing one |
| LoadApi.CreatedReply | apis/loadAPI.js:33-46 | 201 with the created load; any error 500 "Internal server error" |
| LoadApi.FoundReply | apis/loadAPI.js:48-60 | 404 "No load with this load_id exists" exactly for a null load, 200 with it otherwise, 500 on an error |
| LoadApi.ListedReply | apis/loadAPI.js:62-70 | 200 with the page, 500 on an error |
| LoadApi.DeletedReply | apis/loadAPI.js:72-83 | 404 exactly when nothing was deleted, 204 exactly when the load was, 500 exactly on an error |
| LoadApi.AlwaysAnswers | apis/loadAPI.js:42-82 | every load route answers, and its status is 500 exactly on an error |
| LoadApi.PostLoadRoute | apis/loadAPI.js:33-46 | an incomplete body is 400 and stores nothing; otherwise `{volume, item, carrier: null, creation_date}` is stored under a fresh id and sent with 201 as exactly that load with `id` and `self = baseUrl/loads/id` |
| LoadApi.GetLoadRoute | apis/loadAPI.js:48-60 | 404 exactly when no load has the id, otherwise 200 with the load as `Shown` |
| LoadApi.ListLoadsRoute | apis/loadAPI.js:62-70 | a cursor that is not decimal text is 500; for a decimal cursor, 500 exactly when a load of the page has a dangling carrier, otherwise 200 with the loads of the page rendered as `Listed` and `next` exactly when more loads remain; in a linked store a decimal cursor always gets 200 with at most 5 loads |
| LoadApi.DeleteLoadRoute | apis/loadAPI.js:72-83 | 404 exactly when no load has the id, otherwise 204; only that load is removed |

## Left out

- The store client itself is replaced by in-memory maps. This covers key allocation, cursors and the query engine. Cursors are decimal offsets and more results means entities remain beyond the page. Store failures are one abstract result (`DatastoreError`, or `StoreFailure` for `manage_load`, which does not catch them). The model never produces one except for a cursor that is not decimal text, or a listing page with a dangling carrier.
- `Promise.all` concurrency and races between requests are left out. Each operation runs sequentially, and the lookups a loop pushes are evaluated in order.
- `delete_all_boats` (models/boatModel.js:169-176) is left out: its deletes are fired without being awaited.
- `server.js` (Express wiring, OpenID configuration, page rendering, listening) is not part of this model. Neither are console logging and what Express does with a handler that throws, which the model leaves as `Escaped`.
- `checkJwt` (utils/utils.js:10-19) is left out: token verification is delegated to foreign libraries. The error it raises is an input of `ErrorHandler.HandleError`.
- Ids are naturals. The leniency of `parseInt`/`Number` on path parameters is not modelled, and neither is a request for an id that does not parse.
- `addId` is folded into the rendered views (`LoadView.id`, `BoatView.id`). The in-place overwrite of `entity.carrier` appears as the view's `carrier`.
- Floating-point numbers are not modelled: numbers in request bodies are integers.
- Property order and extra request-body properties are not modelled. `Compound` stands for any object or array. The user filter compares `user_id` values by equality.
- `getUrl` takes the `PORT` variable and the Host header as parameters.
- Ids are unique across kinds only because the model draws all of them from one counter. The store completes an incomplete key with an id unique within its kind, and no contract of the model relies on the stronger property.
- Cursors: any non-empty run of decimal digits is taken as an offset, including offsets no `next` link ever carried. The store's opaque cursors, and its rejection of forged ones, are not modelled.
- `errorHandler` (utils/errorHandler.js:15-31) and `validateMIME` (utils/utils.js:25-51) are modelled on their own. `server.js` never registers the error handler and no route mounts the Accept check, so no route of the model passes through either.

## Findings

| source | as written | input that shows it | evidently intended | confidence | as-written member | corrected member |
|---|---|---|---|---|---|---|
| apis/boatAPI.js:124 | `manage_load(req.params.load_id, req.params.boat_id, true)` puts `true` in the owner position and leaves `removeCarrier` false, so the unload route runs the loading checks | a store where boat 1 (no owner) carries load 2: DELETE `/boats/1/loads/2` answers 403 "The load is already loaded on another boat" and the load stays on the boat | `manage_load(load_id, boat_id, undefined, true)`: answer 204 and set the carrier to null exactly when the load is on this boat, 404 otherwise | high; not executed | BoatApi.RemoveRefusesCarriedLoad | BoatApi.IntendedRemoveUnloads |
