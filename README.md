# Ride lifecycle model

This project models, in Dafny, the ride lifecycle of a small ride-hailing
backend (Express and Mongoose, TypeScript). It covers four pieces:

- **The ride schema**: five statuses, the fields, and the defaults filled in at
  creation (module `RideModel`). The user schema contributes only the role
  (module `UserModel`).
- **The ride handlers**: request, accept, complete, cancel and history (module
  `RideController`). Each handler is a decision function of the ride
  collection before the call. Each returns an `Outcome`: `Unauthorized` (401),
  `BadRequest` (400), `NotFound` (404), `Forbidden` (403) or `Ok` with the
  document. The class `RideStore` holds the collection and applies each
  decision in place, as the handlers do with `findById`, field assignment and
  `save`.
- **The service layer's second workflow**: create, accept and complete, with
  their own guards and upper-case status strings (module `RideService`, class
  `ServiceStore`).
- **The role gate** `authorizedRoles` (module `Rbac`), as a pure function from
  the request's user and role and the allowed list to the responses written
  and whether `next` is called.

The acting user's id and role are parameters instead of `req.user`. The clock
is a parameter `now: int`. The database is a sequence of documents whose
position is the ride id, so a new ride gets the next id and `find` returns
rides in insertion order.

Each store keeps a ghost log of the calls made on it. Its `Valid()` ties the
store's rides to `Run(log)`, the collection that sequence of calls builds from
empty. Properties of every reachable collection are proved about `Run`:

- no controller handler ever writes `in_progress`, so the complete handler never
  succeeds;
- every service-written ride is consistent, and its driver is never reassigned.

The intended design is a strict state machine: guarded transitions, terminal
`completed`/`cancelled`, a driver assigned once. Where the code departs from
it, the model follows the code:

- `acceptRide` has no status guard. It re-accepts completed and cancelled rides
  and replaces an earlier driver.
- The cancel handler reports a terminal status (400) before an authorization
  failure (403).
- An empty history is a 404, not a successful empty list.
- History is ordered by `createdAt`, not `requestedAt`.
- There is no start transition, no version token and no conflict outcome.
- The schema's `timestamps` option (`src/models/ride.model.ts:75-77`) is
  modelled as Mongoose defines it. `createdAt` and `updatedAt` are set at
  creation, and `updatedAt` is refreshed by every `save` of a modified
  document. So accept and complete refresh `updatedAt` too, not only cancel's
  explicit assignment. An accept by the driver already holding an accepted
  ride assigns equal values, modifies nothing and keeps the old `updatedAt`.

## Model

| member | source | states |
|---|---|---|
| `Outcomes.Lookup` | src/controllers/ride.controllers.ts:63 | the store abstraction of `findById`: a document exactly for an id inside the collection, and it is the stored one |
| `Outcomes.Commit` | src/controllers/ride.controllers.ts:72 | the store abstraction of `save`: on success only the looked-up document is replaced, by the outcome's; otherwise the collection is unchanged |
| `RideModel.StatusName` | src/models/ride.model.ts:59-62 | every status is stored as one of the five enum strings |
| `RideModel.ParseStatus` | src/models/ride.model.ts:59-61 | the enum check admits a string exactly when it is one of the five values (case-sensitive) |
| `RideModel.ParseStatusName` | src/models/ride.model.ts:59-61 | the enum check gives back the status a stored string came from |
| `RideModel.StatusNameParse` | src/models/ride.model.ts:59-61 | every string the enum check admits is its status's stored name |
| `RideModel.Create` | src/models/ride.model.ts:35-78 | creation fails exactly when a required path (rider, pickup, dropoff) is empty |
| `RideModel.CreateDefaults` | src/models/ride.model.ts:36-77 | a created ride keeps the given paths; its status defaults to `requested` and `requestedAt` to the creation time; it has no driver and no completion time; its timestamps are the creation time |
| `UserModel.RoleName` | src/models/user.model.ts:3 | a role is stored as "rider" or "driver", and "rider" exactly for riders |
| `RideController.Request` | src/controllers/ride.controllers.ts:7-30 | 401 exactly without a truthy user id, checked first; 400 exactly when a user is present but pickup or dropoff is missing or empty; otherwise a ride for the caller with the given locations, status `requested`, no driver or notes, created, requested and updated now |
| `RideController.Accept` | src/controllers/ride.controllers.ts:44-72 | 401 without a user; 400 without a ride id; 404 for an unknown ride; otherwise `accepted` with the caller as driver, the trip fields unchanged, whatever the previous status; `updatedAt` refreshed when the document changes, and the stored document returned unchanged when the caller already holds the accepted ride |
| `RideController.Complete` | src/controllers/ride.controllers.ts:86-115 | 401 without a user; success exactly for an existing `in_progress` ride, whoever the caller, giving `completed` with the driver and trip fields unchanged; 404 in every other case |
| `RideController.Cancel` | src/controllers/ride.controllers.ts:129-169 | in this order: 401 without a user, 404 for an unknown ride, 400 for a completed or cancelled ride, 403 for a caller who is neither rider nor driver; otherwise `cancelled` with `updatedAt` refreshed and every other field unchanged |
| `RideController.Matching` | src/controllers/ride.controllers.ts:195-198 | the filter keeps exactly the rides where the caller is the rider (role "rider") or the driver (any other role), each as many times as the collection holds it, and no other ride |
| `RideController.Insert` | src/controllers/ride.controllers.ts:197-198 | inserting into a newest-first list keeps it newest first and adds exactly that ride |
| `RideController.SortNewest` | src/controllers/ride.controllers.ts:197-198 | the sort yields a newest-first permutation of its input |
| `RideController.History` | src/controllers/ride.controllers.ts:183-212 | 401 exactly without a user id or a role; 404 exactly when no ride matches; success exactly when some ride matches, with exactly the caller's rides (a permutation of the filter's result), most recently created first |
| `RideController.ApplyKeepsNoneInProgress` | src/controllers/ride.controllers.ts:26-30 | no handler call puts a ride into `in_progress` |
| `RideController.RunNoneInProgress` | src/controllers/ride.controllers.ts:63-169 | no collection built by the handlers holds an `in_progress` ride |
| `RideController.CompleteNeverSucceeds` | src/controllers/ride.controllers.ts:105-115 | on any collection built by the handlers, the complete handler fails for every caller and ride |
| `RideController.StoreCompleteNeverSucceeds` | src/controllers/ride.controllers.ts:105-112 | on any valid `RideStore`, the complete handler fails |
| `RideController.AcceptIgnoresStatus` | src/controllers/ride.controllers.ts:63-72 | every existing ride, in every status, is accepted by any signed-in caller |
| `RideController.ReacceptIsNoOp` | src/controllers/ride.controllers.ts:70-72 | re-accepting a ride the caller already holds succeeds and leaves the stored document, `updatedAt` included, unchanged |
| `RideController.SecondAcceptReplacesDriver` | src/controllers/ride.controllers.ts:70-72 | a second accept by another driver replaces the first driver |
| `RideController.CancelTwice` | src/controllers/ride.controllers.ts:151-169 | after a successful cancel the ride is `cancelled`, and cancelling it again reports 400 |
| `RideController.RequestShowsInHistory` | src/controllers/ride.controllers.ts:195-212 | a newly requested ride appears in its rider's history, which is therefore not a 404 |
| `RideController.NoRidesNoHistory` | src/controllers/ride.controllers.ts:200-206 | a caller who took part in no ride gets 404 |
| `RideController.RideStore.RequestRide` | src/controllers/ride.controllers.ts:26-36 | the reported outcome is `Request`'s; on success exactly one ride is appended under the next id and existing rides are untouched; otherwise nothing changes |
| `RideController.RideStore.AcceptRide` | src/controllers/ride.controllers.ts:63-78 | the reported outcome is `Accept`'s; only the accepted ride changes, to the outcome's document |
| `RideController.RideStore.CompleteRide` | src/controllers/ride.controllers.ts:105-121 | the reported outcome is `Complete`'s; only a completed ride changes |
| `RideController.RideStore.CancelRide` | src/controllers/ride.controllers.ts:145-175 | the reported outcome is `Cancel`'s; only the cancelled ride changes |
| `RideService.NewRide` | src/services/ride.service.ts:5-14 | the created ride has the caller as rider, pickup, dropoff and notes copied from the input, status "REQUESTED", `requestedAt` now, and no driver, acceptance or completion time |
| `RideService.Accept` | src/services/ride.service.ts:18-27 | 404 exactly for an unknown ride; 400 exactly for a ride not "REQUESTED"; otherwise the caller as driver, "ACCEPTED", `acceptedAt` now, and rider, pickup, dropoff, notes and request time unchanged |
| `RideService.Complete` | src/services/ride.service.ts:30-38 | 404 exactly for an unknown ride; 403 exactly when the ride's driver is absent or another user; otherwise "COMPLETED" with `completedAt` now, whatever the previous status, and every other field unchanged |
| `RideService.StatusesOutsideSchemaEnum` | src/services/ride.service.ts:11-34 | "REQUESTED", "ACCEPTED" and "COMPLETED" are not values of the schema's status enum |
| `RideService.NewRideFailsSchemaEnum` | src/services/ride.service.ts:11 | the status of every document the service creates fails the schema's enum check |
| `RideService.AcceptRejectsSchemaStatuses` | src/services/ride.service.ts:21 | a ride whose status is a schema enum value is never accepted by the service (400) |
| `RideService.ApplyKeepsConsistent` | src/services/ride.service.ts:5-37 | each service call keeps every ride consistent: a service status; a driver and acceptance time exactly past "REQUESTED"; a completion time exactly at "COMPLETED" |
| `RideService.RunConsistent` | src/services/ride.service.ts:5-37 | every collection the service builds is consistent |
| `RideService.ApplyKeepsDriver` | src/services/ride.service.ts:21-22 | a consistent ride's driver, once set, survives any service call |
| `RideService.DriverNeverReassigned` | src/services/ride.service.ts:21-23 | on every collection the service builds, a driver once set is never replaced or removed |
| `RideService.SecondAcceptFails` | src/services/ride.service.ts:19-23 | after a successful accept, a second accept reports 400 and the first driver stays |
| `RideService.CompleteRightAfterAccept` | src/services/ride.service.ts:33-37 | the accepting driver completes the ride directly from "ACCEPTED" |
| `RideService.NewRideAcceptable` | src/services/ride.service.ts:5-21 | a freshly created ride can be accepted by any driver |
| `RideService.StoreConsistent` | src/services/ride.service.ts:5-37 | every ride of a valid `ServiceStore` is consistent |
| `RideService.ServiceStore.CreateRide` | src/services/ride.service.ts:5-15 | the returned ride is `NewRide`'s, appended under the next id, with the rest unchanged |
| `RideService.ServiceStore.AcceptRide` | src/services/ride.service.ts:18-27 | the outcome is `Accept`'s; only the accepted ride changes |
| `RideService.ServiceStore.CompleteRide` | src/services/ride.service.ts:30-38 | the outcome is `Complete`'s; only the completed ride changes |
| `Rbac.AuthorizedRoles` | src/middlewares/rbac.middleware.ts:9-33 | `next` is called exactly when the role is truthy and exactly one of the list, and then nothing is written; without a user two 401s are written; without a role one 401; for a role outside the list one 403 |
| `Rbac.NoUserRespondsTwice` | src/middlewares/rbac.middleware.ts:12-24 | a request without a user gets two responses written and `next` is not called |
| `Rbac.AuthorizedRolesFixed` | src/middlewares/rbac.middleware.ts:12-17 | with the missing `return` added, the gate writes exactly one response or calls `next`, and without a user writes a single 401 |
| `Rbac.FixedDiffersOnlyWithoutUser` | src/middlewares/rbac.middleware.ts:12-32 | the corrected gate agrees with the written one whenever a user is present; without one, both refuse and the written gate adds a second 401 |
| `Rbac.WiderListKeepsAdmission` | src/middlewares/rbac.middleware.ts:25 | enlarging the allowed list never turns an admission into a refusal |
| `Rbac.ProfileGateRefusesEveryRole` | src/routes/user.routes.ts:60 | the list "Driver", "Rider" refuses every stored role with 403 |
| `Rbac.ChangeEmailGateRefusesBothNames` | src/routes/user.routes.ts:212 | the single string "Driver, Rider" admits neither "Driver" nor "Rider" |
| `Rbac.IntendedGateAdmitsEveryRole` | src/models/user.model.ts:3 | the list of stored role names admits every user |

## Left out

- Concurrency: the handlers' load, mutate and `save` has no version token, so only sequential calls are modelled.
- Server errors (500): a malformed ride id (a cast error in `findById`), an invalid user id passed to `ObjectId` at `src/controllers/ride.controllers.ts:71`, and database failures are not modelled.
- `fare`: a JavaScript number that no modelled operation writes, so it is dropped from the ride.
- Ride ids are positions in the collection rather than ObjectIds. `findById` with no id finds nothing, so a missing id is `NotFound` in complete and cancel.
- Request bodies are strings or absent. Mongoose's casting of other JSON values to strings is not modelled.
- Response messages and the `success` flag are not modelled. Only the status codes, as `Outcome`, and the returned documents are.
- RideController.History: the order of rides with equal `createdAt` is left open, as the database leaves it; the contract states sortedness and the permutation only.
- RideService: the schema validation that `save` and `create` would apply to the service's documents is not modelled. The service module records the assignments and guards as written; `NewRideFailsSchemaEnum` states that the schema's enum rejects them.
- RideService: `acceptedAt` is not a path of the schema, so whether it is persisted is not modelled. The timestamps the schema maintains (`createdAt`, `updatedAt`) are not modelled on service documents.
- Rbac.AuthorizedRoles: the second 401 write would fail in Express because the headers were already sent. The decision records the write attempt, not the resulting error.
- The wiring in `src/routes/`, the server, the Swagger docs, the database connection, token verification and password hashing are not part of this model.

## Findings

| source | as written | input that shows it | evidently intended | confidence | as-written member | corrected member |
|---|---|---|---|---|---|---|
| src/middlewares/rbac.middleware.ts:12-17 | the 401 for a missing user has no `return`, so the role check runs too and writes a second 401 | a request with no user | one 401, then stop | not executed | `Rbac.NoUserRespondsTwice` | `Rbac.AuthorizedRolesFixed` |
| src/routes/user.routes.ts:60 | the gate is given "Driver", "Rider", but roles are stored as "rider" and "driver" and matching is exact | a user whose role is "rider" | admit riders and drivers | not executed | `Rbac.ProfileGateRefusesEveryRole` | `Rbac.IntendedGateAdmitsEveryRole` |
