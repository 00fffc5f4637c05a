/** What each route does to the users collection, as a function of the
    collection it loads and the request it receives. A route either fails,
    in which case nothing is written back, or succeeds with the collection
    it writes back whole. */
module Handlers {
  import opened Common
  import opened Clock
  import opened Entities

  /* ---------- /auth/register ---------- */

  /** The role a registration stores: the one sent, or "user" when the
      request has none. */
  function RoleOrDefault(role: Option<string>): (r: string)
    ensures role.None? ==> r == "user"
    ensures role.Some? ==> r == role.value
  {
    match role
    case Some(r) => r
    case None => "user"
  }

  /** A new user gets the next id, no allocations, no history, no position
      and the offline status; the model keeps the password as given. */
  function Register(users: seq<User>, username: string, email: string, password: string, role: Option<string>)
    : (r: Result<seq<User>, Error>)
    ensures r.Failure? <==> exists j :: 0 <= j < |users| && users[j].email == email
    ensures r.Failure? ==> r.error == EmailTaken
    ensures r.Success? ==> |r.value| == |users| + 1 && r.value[..|users|] == users
    ensures r.Success? ==>
      var u := r.value[|users|];
      && u.id == |users| + 1
      && u.email == email && u.username == username && u.password == password
      && u.role == RoleOrDefault(role)
      && u.places == [] && u.status == Offline && u.liveLocation == None && u.history == []
  {
    if IndexOf(Map(users, UserEmail), email).Some? then
      Failure(EmailTaken)
    else
      var newUser := User(|users| + 1, email, username, password, RoleOrDefault(role), [], Offline, None, []);
      Success(users + [newUser])
  }

  /* ---------- /location/allocate ---------- */

  /** Appends one offline allocation of `locId` to the first user with id
      `userId`; the location id is not checked, and a location may be
      allocated more than once. */
  function Allocate(users: seq<User>, userId: int, locId: int, time: string, reversed: bool)
    : (r: Result<seq<User>, Error>)
    ensures r.Failure? <==> FindUser(users, userId).None?
    ensures r.Failure? ==> r.error == UserNotFound
    ensures r.Success? ==>
      var i := FindUser(users, userId).value;
      && SameExcept(users, r.value, i)
      && r.value[i] == users[i].(places := r.value[i].places)
      && |r.value[i].places| == |users[i].places| + 1
      && r.value[i].places[..|users[i].places|] == users[i].places
      && r.value[i].places[|users[i].places|] == Allocation(locId, "", time, Offline, reversed, None)
  {
    match FindUser(users, userId)
    case None => Failure(UserNotFound)
    case Some(i) =>
      var record := Allocation(locId, "", time, Offline, reversed, None);
      Success(users[i := users[i].(places := users[i].places + [record])])
  }

  /* ---------- /location/start ---------- */

  /** Start tracking on one user: the FIRST allocation of `locId` must exist
      and be offline; it goes live with start time `t`, and so does the user. */
  function StartUser(u: User, locId: int, t: SecondOfDay): (r: Result<User, Error>)
    ensures r.Failure? ==> r.error == AlreadyLiveOrNotAllocated
    ensures r.Success? <==>
      FindAllocation(u.places, locId).Some? && u.places[FindAllocation(u.places, locId).value].status == Offline
    ensures r.Success? ==>
      var k := FindAllocation(u.places, locId).value;
      && r.value == u.(status := Live, places := r.value.places)
      && SameExcept(u.places, r.value.places, k)
      && r.value.places[k] == u.places[k].(status := Live, startTime := Some(t))
  {
    match FindAllocation(u.places, locId)
    case None => Failure(AlreadyLiveOrNotAllocated)
    case Some(k) =>
      if u.places[k].status == Live then
        Failure(AlreadyLiveOrNotAllocated)
      else
        assert u.places[k].status == Offline;
        var started := u.places[k].(status := Live, startTime := Some(t));
        Success(u.(places := u.places[k := started], status := Live))
  }

  function Start(users: seq<User>, userId: int, locId: int, t: SecondOfDay): (r: Result<seq<User>, Error>)
    ensures FindUser(users, userId).None? ==> r == Failure(UserNotFound)
    ensures FindUser(users, userId).Some? ==>
      var i := FindUser(users, userId).value;
      && (r.Failure? <==> StartUser(users[i], locId, t).Failure?)
      && (r.Failure? ==> r.error == AlreadyLiveOrNotAllocated)
      && (r.Success? ==> SameExcept(users, r.value, i) && StartUser(users[i], locId, t) == Success(r.value[i]))
  {
    match FindUser(users, userId)
    case None => Failure(UserNotFound)
    case Some(i) =>
      match StartUser(users[i], locId, t)
      case Failure(e) => Failure(e)
      case Success(u) => Success(users[i := u])
  }

  /* ---------- /location/stop ---------- */

  /** The session record a stop at `t` appends to a history of `n` entries. */
  function Session(n: nat, locId: int, start: Option<SecondOfDay>, t: SecondOfDay): (h: HistoryEntry)
    ensures h.id == n + 1 && h.locationId == locId && h.startTime == start && h.endTime == t
    ensures start.Some? ==> ParseClock(h.totalDuration) == Some(Elapsed(start.value, t))
    ensures start.None? ==> h.totalDuration == "Invalid date"
  {
    HistoryEntry(n + 1, locId, start, t, Duration(start, t))
  }

  /** Stop tracking on one user: the FIRST allocation of `locId` must exist
      and be live; one history entry is appended, the record goes offline
      with no start time, and the user goes offline whatever the state of
      the user's other allocations. */
  function StopUser(u: User, locId: int, t: SecondOfDay): (r: Result<User, Error>)
    ensures r.Failure? ==> r.error == AlreadyOfflineOrNotAllocated
    ensures r.Success? <==>
      FindAllocation(u.places, locId).Some? && u.places[FindAllocation(u.places, locId).value].status == Live
    ensures r.Success? ==>
      var k := FindAllocation(u.places, locId).value;
      var a := u.places[k];
      && r.value == u.(status := Offline, places := r.value.places, history := r.value.history)
      && SameExcept(u.places, r.value.places, k)
      && r.value.places[k] == a.(status := Offline, startTime := None)
      && |r.value.history| == |u.history| + 1
      && r.value.history[..|u.history|] == u.history
      && var h := r.value.history[|u.history|];
        h.id == |u.history| + 1 && h.locationId == locId && h.startTime == a.startTime && h.endTime == t
        && (a.startTime.Some? ==> ParseClock(h.totalDuration) == Some(Elapsed(a.startTime.value, t)))
        && (a.startTime.None? ==> h.totalDuration == "Invalid date")
  {
    match FindAllocation(u.places, locId)
    case None => Failure(AlreadyOfflineOrNotAllocated)
    case Some(k) =>
      var a := u.places[k];
      if a.status == Offline then
        Failure(AlreadyOfflineOrNotAllocated)
      else
        assert a.status == Live;
        var history := u.history + [Session(|u.history|, locId, a.startTime, t)];
        var stopped := a.(status := Offline, startTime := None);
        Success(u.(history := history, places := u.places[k := stopped], status := Offline))
  }

  function Stop(users: seq<User>, userId: int, locId: int, t: SecondOfDay): (r: Result<seq<User>, Error>)
    ensures FindUser(users, userId).None? ==> r == Failure(UserNotFound)
    ensures FindUser(users, userId).Some? ==>
      var i := FindUser(users, userId).value;
      && (r.Failure? <==> StopUser(users[i], locId, t).Failure?)
      && (r.Failure? ==> r.error == AlreadyOfflineOrNotAllocated)
      && (r.Success? ==> SameExcept(users, r.value, i) && StopUser(users[i], locId, t) == Success(r.value[i]))
  {
    match FindUser(users, userId)
    case None => Failure(UserNotFound)
    case Some(i) =>
      match StopUser(users[i], locId, t)
      case Failure(e) => Failure(e)
      case Success(u) => Success(users[i := u])
  }

  /* ---------- /location/live-location ---------- */

  /** PUT: overwrites the user's position with whatever was sent. */
  function PutLiveLocation(users: seq<User>, userId: int, current: Option<Position>): (r: Result<seq<User>, Error>)
    ensures r.Failure? <==> FindUser(users, userId).None?
    ensures r.Failure? ==> r.error == UserNotFound
    ensures r.Success? ==>
      var i := FindUser(users, userId).value;
      SameExcept(users, r.value, i) && r.value[i] == users[i].(liveLocation := current)
  {
    match FindUser(users, userId)
    case None => Failure(UserNotFound)
    case Some(i) => Success(users[i := users[i].(liveLocation := current)])
  }

  /** GET: the user's stored position, `None` standing for null. */
  function LiveLocation(users: seq<User>, userId: int): (r: Result<Option<Position>, Error>)
    ensures r.Failure? <==> FindUser(users, userId).None?
    ensures r.Failure? ==> r.error == UserNotFound
    ensures r.Success? ==> r.value == users[FindUser(users, userId).value].liveLocation
  {
    match FindUser(users, userId)
    case None => Failure(UserNotFound)
    case Some(i) => Success(users[i].liveLocation)
  }

  /* ---------- /users/:user_id/locations ---------- */

  /** `locations.find((loc) => loc._id == id)?.name || "Unknown"`: the name
      of the first location with that id, unless there is none or it is
      missing or empty. */
  function LocationName(locations: seq<Location>, id: int): (name: string)
    ensures name != ""
    ensures (forall j :: 0 <= j < |locations| ==> locations[j].id != id) ==> name == "Unknown"
    ensures name != "Unknown" ==>
      exists j :: 0 <= j < |locations| && locations[j].id == id && locations[j].name == Some(name)
    ensures forall j ::
      (0 <= j < |locations| && locations[j].id == id && forall j' :: 0 <= j' < j ==> locations[j'].id != id) ==>
      name == if locations[j].name.Some? && locations[j].name.value != "" then locations[j].name.value else "Unknown"
  {
    match IndexOf(Map(locations, LocationId), id)
    case None => "Unknown"
    case Some(j) =>
      match locations[j].name
      case Some(n) => if n != "" then n else "Unknown"
      case None => "Unknown"
  }

  /** `allocated_places.map(...)`: one view per allocation, in order. */
  function Project(records: seq<Allocation>, locations: seq<Location>): (views: seq<LocationView>)
    ensures |views| == |records|
    ensures forall k :: 0 <= k < |records| ==>
      && views[k].id == records[k].id
      && views[k].status == records[k].status
      && views[k].name == LocationName(locations, records[k].id)
  {
    if records == [] then
      []
    else
      var head := records[0];
      [LocationView(head.id, LocationName(locations, head.id), head.status)] + Project(records[1..], locations)
  }

  function AllocatedLocations(users: seq<User>, locations: seq<Location>, userId: int)
    : (r: Result<seq<LocationView>, Error>)
    ensures r.Failure? <==> FindUser(users, userId).None?
    ensures r.Failure? ==> r.error == UserNotFound
    ensures r.Success? ==>
      var places := users[FindUser(users, userId).value].places;
      && |r.value| == |places|
      && forall k :: 0 <= k < |places| ==>
        && r.value[k].id == places[k].id
        && r.value[k].status == places[k].status
        && r.value[k].name == LocationName(locations, places[k].id)
  {
    match FindUser(users, userId)
    case None => Failure(UserNotFound)
    case Some(i) => Success(Project(users[i].places, locations))
  }
}
