/** The server's routes as they run: the users and locations collections
    are held by a `Store`, and each route finds the user, changes the
    records in place and writes the whole collection back, or answers with
    an error before writing anything. Each method is proved to do exactly
    what the corresponding function of `Handlers` describes, and to keep
    the store invariant of `Invariants`. */
module Server {
  import opened Common
  import opened Clock
  import opened Entities
  import Handlers
  import opened Invariants

  class Store {
    /** The content of the users file. */
    var users: seq<User>
    /** The content of the locations file; no route of this model writes it. */
    var locations: seq<Location>

    ghost predicate Valid()
      reads this
    {
      StoreValid(users)
    }

    /** A store over the collections as the files hold them. */
    constructor (users: seq<User>, locations: seq<Location>)
      ensures this.users == users && this.locations == locations
      ensures users == [] ==> Valid()
    {
      this.users := users;
      this.locations := locations;
    }

    /** POST /auth/register */
    method RegisterUser(username: string, email: string, password: string, role: Option<string>)
      returns (r: Outcome<Error>)
      modifies this
      ensures locations == old(locations)
      ensures match Handlers.Register(old(users), username, email, password, role)
        case Success(written) => r == Pass && users == written
        case Failure(e) => r == Fail(e) && users == old(users)
      ensures old(Valid()) ==> Valid()
    {
      if IndexOf(Map(users, UserEmail), email).Some? {
        return Fail(EmailTaken);
      }
      var newUser := User(|users| + 1, email, username, password, Handlers.RoleOrDefault(role), [], Offline, None, []);
      users := users + [newUser];
      r := Pass;
      if old(Valid()) {
        RegisterKeepsValid(old(users), username, email, password, role);
      }
    }

    /** POST /location/allocate */
    method AllocateLocation(userId: int, locId: int, time: string, reversed: bool) returns (r: Outcome<Error>)
      modifies this
      ensures locations == old(locations)
      ensures match Handlers.Allocate(old(users), userId, locId, time, reversed)
        case Success(written) => r == Pass && users == written
        case Failure(e) => r == Fail(e) && users == old(users)
      ensures old(Valid()) ==> Valid()
    {
      var i := FindUser(users, userId);
      if i.None? {
        return Fail(UserNotFound);
      }
      var user := users[i.value];
      user := user.(places := user.places + [Allocation(locId, "", time, Offline, reversed, None)]);
      users := users[i.value := user];
      r := Pass;
      if old(Valid()) {
        AllocateKeepsValid(old(users), userId, locId, time, reversed);
      }
    }

    /** POST /location/start */
    method StartTracking(userId: int, locId: int, t: SecondOfDay) returns (r: Outcome<Error>)
      modifies this
      ensures locations == old(locations)
      ensures match Handlers.Start(old(users), userId, locId, t)
        case Success(written) => r == Pass && users == written
        case Failure(e) => r == Fail(e) && users == old(users)
      ensures old(Valid()) ==> Valid()
    {
      var i := FindUser(users, userId);
      if i.None? {
        return Fail(UserNotFound);
      }
      var user := users[i.value];
      var k := FindAllocation(user.places, locId);
      if k.None? || user.places[k.value].status == Live {
        return Fail(AlreadyLiveOrNotAllocated);
      }
      var record := user.places[k.value];
      record := record.(status := Live);
      record := record.(startTime := Some(t));
      user := user.(places := user.places[k.value := record]);
      user := user.(status := Live);
      users := users[i.value := user];
      r := Pass;
      if old(Valid()) {
        StartKeepsValid(old(users), userId, locId, t);
      }
    }

    /** POST /location/stop */
    method StopTracking(userId: int, locId: int, t: SecondOfDay) returns (r: Outcome<Error>)
      modifies this
      ensures locations == old(locations)
      ensures match Handlers.Stop(old(users), userId, locId, t)
        case Success(written) => r == Pass && users == written
        case Failure(e) => r == Fail(e) && users == old(users)
      ensures old(Valid()) ==> Valid()
    {
      var i := FindUser(users, userId);
      if i.None? {
        return Fail(UserNotFound);
      }
      var user := users[i.value];
      var k := FindAllocation(user.places, locId);
      if k.None? || user.places[k.value].status == Offline {
        return Fail(AlreadyOfflineOrNotAllocated);
      }
      var record := user.places[k.value];
      var duration := Duration(record.startTime, t);
      var session := HistoryEntry(|user.history| + 1, locId, record.startTime, t, duration);
      user := user.(history := user.history + [session]);
      record := record.(status := Offline);
      record := record.(startTime := None);
      user := user.(places := user.places[k.value := record]);
      user := user.(status := Offline);
      users := users[i.value := user];
      r := Pass;
      if old(Valid()) {
        StopKeepsValid(old(users), userId, locId, t);
      }
    }

    /** PUT /location/live-location */
    method UpdateLiveLocation(userId: int, current: Option<Position>) returns (r: Outcome<Error>)
      modifies this
      ensures locations == old(locations)
      ensures match Handlers.PutLiveLocation(old(users), userId, current)
        case Success(written) => r == Pass && users == written
        case Failure(e) => r == Fail(e) && users == old(users)
      ensures old(Valid()) ==> Valid()
    {
      var i := FindUser(users, userId);
      if i.None? {
        return Fail(UserNotFound);
      }
      users := users[i.value := users[i.value].(liveLocation := current)];
      r := Pass;
      if old(Valid()) {
        PutLiveLocationKeepsValid(old(users), userId, current);
      }
    }
  }
}
