/** The records kept in the users and locations collections, as the server
    writes them into its JSON files. */
module Entities {
  import opened Common
  import opened Clock

  /** The two values the server ever writes into a `status` field. */
  datatype Status = Offline | Live

  /** A reported coordinate; the server stores it without looking inside. */
  datatype Position = Position(latitude: real, longitude: real)

  /** One entry of a user's `allocated_places`. `startTime` is `None` both
      where the field was never written (a fresh allocation) and where it was
      set to null (a stopped session). */
  datatype Allocation = Allocation(
    id: int,
    date: string,
    time: string,
    status: Status,
    reversed: bool,
    startTime: Option<SecondOfDay>)

  /** One entry of a user's `history`: a finished tracking session. */
  datatype HistoryEntry = HistoryEntry(
    id: int,
    locationId: int,
    startTime: Option<SecondOfDay>,
    endTime: SecondOfDay,
    totalDuration: string)

  datatype User = User(
    id: int,
    email: string,
    username: string,
    password: string,
    role: string,
    places: seq<Allocation>,
    status: Status,
    liveLocation: Option<Position>,
    history: seq<HistoryEntry>)

  /** A route; `name` is `None` when the stored record has none. */
  datatype Location = Location(
    id: int,
    name: Option<string>,
    source: string,
    destination: string,
    points: seq<Position>)

  /** One entry of the allocated-locations answer. */
  datatype LocationView = LocationView(id: int, name: string, status: Status)

  /** The failures the routes report; each is answered before the users
      collection is written back. */
  datatype Error =
    | UserNotFound                  // 404 "User not found"
    | AlreadyLiveOrNotAllocated     // 400 from /location/start
    | AlreadyOfflineOrNotAllocated  // 400 from /location/stop
    | EmailTaken                    // 400 "Email already exists" from /auth/register

  /* Keys that the routes look records up by. */
  function UserId(u: User): int { u.id }
  function UserEmail(u: User): string { u.email }
  function AllocationId(a: Allocation): int { a.id }
  function LocationId(l: Location): int { l.id }

  /** `users.find((u) => u._id == id)`, as an index. */
  function FindUser(users: seq<User>, id: int): (r: Option<nat>)
    ensures r.Some? ==> r.value < |users| && users[r.value].id == id
    ensures r.Some? ==> forall j :: 0 <= j < r.value ==> users[j].id != id
    ensures r.None? <==> forall j :: 0 <= j < |users| ==> users[j].id != id
  {
    IndexOf(Map(users, UserId), id)
  }

  /** `user.allocated_places.find((place) => place.id == locId)`, as an index. */
  function FindAllocation(records: seq<Allocation>, locId: int): (r: Option<nat>)
    ensures r.Some? ==> r.value < |records| && records[r.value].id == locId
    ensures r.Some? ==> forall k :: 0 <= k < r.value ==> records[k].id != locId
    ensures r.None? <==> forall k :: 0 <= k < |records| ==> records[k].id != locId
  {
    IndexOf(Map(records, AllocationId), locId)
  }
}
