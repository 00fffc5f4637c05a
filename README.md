# Location allocation and tracking, modelled in Dafny

This project models the allocation and tracking core of a small Express
server (`server/server.js`). Administrators allocate locations (routes) to
users. A user then starts and stops tracking on an allocation. Each stop
records a session in the user's history. Separately, the user's last
reported position is overwritten on every report.

Allocate, start, stop and the live-location PUT load the whole users
collection, find the user by id (`find`, first match), change that user in
place and write the whole collection back. Register looks for a user with
the same email and, when there is none, appends a new user and writes the
collection back. The two read routes (the live-location GET and the
allocated-locations list) write nothing. A failing route answers before
anything is written.

The model has two layers:

- `Handlers` gives each route as a function from the loaded collection and
  the request to either an error or the collection written back.
  `StartUser` and `StopUser` are the per-user halves of start and stop.
- `Server.Store` holds the two collections as `seq` fields. It has one
  method per state-changing route, and the method performs the in-place
  steps of the source. Each method is proved to leave exactly the
  collection its `Handlers` function describes, to leave the collection
  untouched on failure, and to keep the store invariant.

`Invariants` states what every route preserves starting from an empty
users file:

- a record is live exactly when it has a start time;
- only the first record of a location can be live, so a duplicate
  allocation never goes live;
- history ids are 1..n in order;
- user ids are 1..n in order;
- emails are distinct.

`Properties` relates consecutive requests. It covers double start and
double stop, start followed by stop, allocate followed by start and stop,
PUT followed by GET, and what a new user looks like.

The two read routes are the functions `Handlers.LiveLocation` and
`Handlers.AllocatedLocations`, applied to the store's collections.

Modules, leaf first: `Common` (common.dfy), `Clock` (clock.dfy), `Entities`
(entities.dfy), `Handlers` (handlers.dfy), `Invariants` (invariants.dfy),
`Properties` (properties.dfy), `Server` (store.dfy).

Behaviours of the code that a reader might not expect, all kept in the
model:

- A start on a location the user was never allocated fails with the same
  400 error as a start on a live record. A stop on such a location fails
  like a stop on an offline record. Neither answers "not found".
- A stop whose time is earlier than the start time is not rejected. The
  duration wraps around midnight.
- Allocating a location twice adds a second record. Start and stop only
  ever act on the first one (`Properties.AllocateKeepsTarget`).
- Allocate, start and stop answer with a message, not with the created
  record.
- The user's status is overwritten by every start and stop. It is not "some
  record is live" (`Properties.StopOverridesOtherSessions`).

## Model

| member | source | states |
|---|---|---|
| `Common.IndexOf` | server/server.js:138-140 | `find` as an index: the result is the first position holding the key, and `None` exactly when the key is absent |
| `Entities.FindUser` | server/server.js:135 | the first user whose id matches, or `None` exactly when no user has that id |
| `Entities.FindAllocation` | server/server.js:164-166 | the first allocation record of that location, or `None` exactly when the user has no such record |
| `Clock.Elapsed` | server/server.js:174-179 | the session length is end − start when end is not earlier, and end − start + 86400 otherwise (the difference wraps around midnight) |
| `Clock.FormatClock` | server/server.js:180 | the "HH:mm:ss" rendering has two digits per field, hours < 24, minutes and seconds < 60, and the fields add back up to the rendered time |
| `Clock.ParseClock` | server/server.js:180 | reads the stored "HH:mm:ss" duration back; it succeeds exactly on strings of that shape with hours < 24 and minutes and seconds < 60 |
| `Clock.ParseFormat` | server/server.js:180 | reading back a rendered time gives that time |
| `Clock.FormatParse` | server/server.js:180 | every string that reads as a time is the rendering of that time, so each time has one spelling |
| `Clock.Duration` | server/server.js:174-180 | the stored duration reads back as `Elapsed(start, end)`; with no start time it is "Invalid date" |
| `Handlers.RoleOrDefault` | server/server.js:39 | the stored role is the one sent, or "user" when the request has none |
| `Handlers.Register` | server/server.js:38-61 | fails with `EmailTaken` exactly when some user already has the email; otherwise appends one user with id n + 1, role defaulting to "user", no allocations, no history, null position, status offline |
| `Handlers.Allocate` | server/server.js:222-239 | fails with `UserNotFound` exactly when the user is unknown; otherwise appends exactly one record `{id, date: "", time, offline, reversed}` with no start time to that user's list, and nothing else changes |
| `Handlers.StartUser` | server/server.js:138-150 | succeeds exactly when the first record of the location exists and is offline; that record goes live with the given start time, the user goes live, and nothing else changes |
| `Handlers.Start` | server/server.js:131-154 | `UserNotFound` for an unknown user; otherwise the first matching user changes as `StartUser` says, and no other user changes |
| `Handlers.StopUser` | server/server.js:164-192 | succeeds exactly when the first record of the location exists and is live; it appends exactly one history entry (id = old length + 1, the location, start and end time, the duration), the record goes offline with no start time, the user goes offline, and nothing else changes |
| `Handlers.Session` | server/server.js:182-188 | the history entry has id n + 1, the request's location id, the start and end times, and a duration that reads back as `Elapsed(start, end)`, or "Invalid date" with no start time (see `Properties.SessionLength`) |
| `Handlers.Stop` | server/server.js:157-196 | `UserNotFound` for an unknown user; otherwise the first matching user changes as `StopUser` says, and no other user changes |
| `Handlers.PutLiveLocation` | server/server.js:199-209 | fails only for an unknown user; otherwise overwrites that user's position unconditionally and changes nothing else |
| `Handlers.LiveLocation` | server/server.js:212-219 | fails only for an unknown user; otherwise returns the stored position |
| `Handlers.LocationName` | server/server.js:87 | only the first location with the id decides: its name when present and not empty, otherwise "Unknown"; "Unknown" also when no location has the id; the result is never empty |
| `Handlers.Project` | server/server.js:85-89 | one view per allocation, same length and order, copying the id and status and naming each by `LocationName` |
| `Handlers.AllocatedLocations` | server/server.js:78-92 | `UserNotFound` exactly for an unknown user; otherwise the user's records projected in order |
| `Invariants.FindUserInValidStore` | server/server.js:47 | with ids numbered 1..n, as registration assigns them, id `k` resolves to position `k - 1`, and any other id to nothing |
| `Invariants.LaterDuplicateOffline` | server/server.js:138-140 | under the store invariant, every record after the first of its location is offline, so at most one record per location is live |
| `Invariants.AppendOfflineKeepsOnlyFirstLive` | server/server.js:229-235 | appending an offline record keeps only first records live |
| `Invariants.SetFirstKeepsOnlyFirstLive` | server/server.js:138-150 | rewriting the first record of a location keeps only first records live |
| `Invariants.StartUserKeepsValid` | server/server.js:138-150 | a start on one user keeps its records consistent, only first records live and its history numbered |
| `Invariants.StopUserKeepsValid` | server/server.js:164-192 | a stop on one user keeps its records consistent, only first records live and its history numbered 1..n |
| `Invariants.RegisterKeepsValid` | server/server.js:42-58 | registration keeps ids 1..n, emails distinct, and every new user consistent |
| `Invariants.AllocateKeepsValid` | server/server.js:229-235 | allocation keeps every record live exactly when it has a start time, and only first records live |
| `Invariants.StartKeepsValid` | server/server.js:148-150 | a start keeps every record live exactly when it has a start time, and only first records live |
| `Invariants.StopKeepsValid` | server/server.js:182-192 | a stop keeps history ids 1..n in order, every record live exactly when it has a start time, and only first records live |
| `Invariants.PutLiveLocationKeepsValid` | server/server.js:206 | a position update keeps the store invariant |
| `Properties.StartTwiceFails` | server/server.js:141-145 | a second start with no stop in between fails with `AlreadyLiveOrNotAllocated`, whatever its time |
| `Properties.StopTwiceFails` | server/server.js:167-171 | a second stop with no start in between fails with `AlreadyOfflineOrNotAllocated` |
| `Properties.StartStopRestores` | server/server.js:138-192 | start then stop on a consistent record gives the record back exactly (a missing and a null start time are both `None`), sets the user offline and appends one session |
| `Properties.NewRecordRoundTrip` | server/server.js:138-192 | start then stop on a newly appended record succeeds and leaves that record as it was allocated, with no start time |
| `Properties.AllocateStartStop` | server/server.js:131-239 | allocate, start, stop on a new location: the user ends with the new offline record, one more history entry and status offline; if the stop time is not earlier, the duration is stop − start |
| `Properties.AllocateKeepsTarget` | server/server.js:138-140 | after an allocation, start and stop act on the same record as before; the new record is their target only if the user had no record of that location |
| `Properties.StopOverridesOtherSessions` | server/server.js:192 | a stop sets the user offline while another allocation is still live |
| `Properties.SessionLength` | server/server.js:182-188 | a session entry holds the start and end times and a duration reading back as their difference modulo one day |
| `Properties.DurationExample` | server/server.js:174-180 | a session from 08:05:00 to 09:20:00 is recorded as "01:15:00" |
| `Properties.DurationAcrossMidnight` | server/server.js:174-180 | a session from 23:30:00 to 00:15:00 wraps around midnight and is recorded as "00:45:00" |
| `Properties.PutThenGet` | server/server.js:206-217 | GET after PUT returns the value written |
| `Properties.PutIdempotent` | server/server.js:206 | a repeated identical PUT leaves the collection as the first PUT left it |
| `Properties.PutKeepsAllocations` | server/server.js:199-209 | a PUT leaves every user's allocated-locations answer unchanged |
| `Properties.StartKeepsPositions` | server/server.js:147-152 | a start leaves every user's position unchanged |
| `Properties.StopKeepsPositions` | server/server.js:182-194 | a stop leaves every user's position unchanged |
| `Properties.RegisteredUserIsFresh` | server/server.js:46-56 | a new user is found under its id, has a null position and an empty (not failing) allocated-locations answer, and cannot start tracking |
| `Properties.NameIgnoresLaterLocations` | server/server.js:87 | once some location has the id, appending more locations never changes the name shown |
| `Properties.UnnamedFirstMatch` | server/server.js:87 | a first match without a name shows "Unknown" even when a later location with the id has a name |
| `Properties.StartShownLive` | server/server.js:85-89 | after a start, the allocated-locations answer shows the started record as live |
| `Server.Store.constructor` | server/server.js:16 | the store holds the collections as loaded; a store over an empty users file is valid |
| `Server.Store.RegisterUser` | server/server.js:38-61 | leaves the users `Handlers.Register` describes, or answers its error and writes nothing; keeps the invariant |
| `Server.Store.AllocateLocation` | server/server.js:222-239 | leaves the users `Handlers.Allocate` describes, or answers `UserNotFound` and writes nothing; keeps the invariant |
| `Server.Store.StartTracking` | server/server.js:131-154 | leaves the users `Handlers.Start` describes, or answers its error and writes nothing; keeps the invariant |
| `Server.Store.StopTracking` | server/server.js:157-196 | leaves the users `Handlers.Stop` describes, or answers its error and writes nothing; keeps the invariant |
| `Server.Store.UpdateLiveLocation` | server/server.js:199-209 | leaves the users `Handlers.PutLiveLocation` describes, or answers `UserNotFound` and writes nothing; keeps the invariant |

## Left out

- Login (`/auth/login`) compares credentials and changes nothing. It is not modelled; passwords are opaque strings.
- `GET /users`, `GET /users/:user_id`, `GET /users/:user_id/location/:location_id`, `GET /locations` and `POST /location/create` are outside the allocation and tracking core. The locations collection is taken as given and never written.
- Express, CORS, HTTP status codes and JSON response bodies are not modelled. Outcomes are the `Error` datatype.
- Reading and writing the JSON files is replaced by the store's in-memory collections. Each route's write is one whole-collection assignment. Concurrent requests and lost updates are not modelled.
- moment's parsing of timestamp strings comes from a library that is not part of this model. Timestamps are seconds after midnight (0..86399), so malformed timestamps, daylight-saving shifts and a midnight between the two parses are not modelled. The stored start and end times are these numbers, not the request strings.
- Clock.ParseClock: reads only the canonical two-digit "HH:mm:ss" rendering the server stores as a duration. It is not moment's lenient parse of request timestamps, which also accepts forms such as "8:05:00", "08:05" or "24:00:00"; request timestamps enter the model already as seconds after midnight.
- JavaScript's loose `==` between string and number ids is not modelled. Ids are integers.
- A `start_time` key that was never written (a fresh allocation) and one set to null (after a stop) are both `None`. So `Properties.StartStopRestores` and `Properties.NewRecordRoundTrip` give the record back "as allocated" only up to this difference; `GET /users/:user_id` would show `start_time: null` after a session.
- Status fields hold only the two values the server writes, so records with any other status are not modelled.
- A location name can be missing (`None`) or a string. Other falsy JSON values are not modelled.
- A reported position is an opaque coordinate pair or null (`None`). Other JSON values are not modelled.
- The client (React screens, routing, HTTP calls, local storage) is presentation code and is not part of this model.
