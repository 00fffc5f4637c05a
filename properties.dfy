/** Properties that relate several requests: what one route leaves behind
    for the next one to find. */
module Properties {
  import opened Common
  import opened Clock
  import opened Entities
  import opened Handlers
  import opened Invariants

  /* ---------- lookups only see ids ---------- */

  lemma SameIdsSameUser(a: seq<User>, b: seq<User>, id: int)
    requires |a| == |b| && forall j :: 0 <= j < |a| ==> a[j].id == b[j].id
    ensures FindUser(a, id) == FindUser(b, id)
  {
    assert Map(a, UserId) == Map(b, UserId);
  }

  lemma SameIdsSameAllocation(a: seq<Allocation>, b: seq<Allocation>, locId: int)
    requires |a| == |b| && forall k :: 0 <= k < |a| ==> a[k].id == b[k].id
    ensures FindAllocation(a, locId) == FindAllocation(b, locId)
  {
    assert Map(a, AllocationId) == Map(b, AllocationId);
  }

  /* ---------- the tracking state machine ---------- */

  /** Two starts without a stop in between: the second one fails, whatever
      its timestamp. */
  lemma StartTwiceFails(users: seq<User>, userId: int, locId: int, t: SecondOfDay, t': SecondOfDay)
    requires Start(users, userId, locId, t).Success?
    ensures Start(Start(users, userId, locId, t).value, userId, locId, t') == Failure(AlreadyLiveOrNotAllocated)
  {
    var after := Start(users, userId, locId, t).value;
    var i := FindUser(users, userId).value;
    SameIdsSameUser(users, after, userId);
    SameIdsSameAllocation(users[i].places, after[i].places, locId);
  }

  /** Two stops without a start in between: the second one fails. */
  lemma StopTwiceFails(users: seq<User>, userId: int, locId: int, t: SecondOfDay, t': SecondOfDay)
    requires Stop(users, userId, locId, t).Success?
    ensures Stop(Stop(users, userId, locId, t).value, userId, locId, t') == Failure(AlreadyOfflineOrNotAllocated)
  {
    var after := Stop(users, userId, locId, t).value;
    var i := FindUser(users, userId).value;
    SameIdsSameUser(users, after, userId);
    SameIdsSameAllocation(users[i].places, after[i].places, locId);
  }

  /** A start followed by a stop gives the started record back exactly as
      it was (when it was consistent, as every record of a valid store is),
      sets the user offline and adds exactly one session to the history. */
  lemma StartStopRestores(u: User, locId: int, t0: SecondOfDay, t1: SecondOfDay)
    requires StartUser(u, locId, t0).Success?
    requires RecordConsistent(u.places[FindAllocation(u.places, locId).value])
    ensures StopUser(StartUser(u, locId, t0).value, locId, t1)
         == Success(u.(status := Offline, history := u.history + [Session(|u.history|, locId, Some(t0), t1)]))
  {
    var v := StartUser(u, locId, t0).value;
    SameIdsSameAllocation(u.places, v.places, locId);
    var w := StopUser(v, locId, t1).value;
    assert w.places == u.places;
  }

  /** Allocate, start and stop in a row, for a location the user did not
      have yet: the user ends with the new offline record, one more history
      entry (whose length `SessionLength` gives) and the offline status. */
  lemma AllocateStartStop(users: seq<User>, userId: int, locId: int, time: string, reversed: bool,
                          t0: SecondOfDay, t1: SecondOfDay)
    requires Allocate(users, userId, locId, time, reversed).Success?
    requires FindAllocation(users[FindUser(users, userId).value].places, locId).None?
    ensures
      var i := FindUser(users, userId).value;
      var u := users[i];
      var record := Allocation(locId, "", time, Offline, reversed, None);
      var session := Session(|u.history|, locId, Some(t0), t1);
      var started := Start(Allocate(users, userId, locId, time, reversed).value, userId, locId, t0);
      && started.Success?
      && Stop(started.value, userId, locId, t1)
         == Success(users[i := u.(places := u.places + [record], status := Offline, history := u.history + [session])])
  {
    var i := FindUser(users, userId).value;
    var u := users[i];
    var record := Allocation(locId, "", time, Offline, reversed, None);
    var v := u.(places := u.places + [record]);
    NewRecordRoundTrip(u, record, t0, t1);
    AllocateThenStart(users, userId, locId, time, reversed, t0);
    var w := v.(status := Offline, history := u.history + [Session(|u.history|, locId, Some(t0), t1)]);
    StopAt(users, i, userId, locId, StartUser(v, locId, t0).value, t1, w);
  }

  /** The first two steps of `AllocateStartStop`. */
  lemma AllocateThenStart(users: seq<User>, userId: int, locId: int, time: string, reversed: bool, t0: SecondOfDay)
    requires Allocate(users, userId, locId, time, reversed).Success?
    requires FindAllocation(users[FindUser(users, userId).value].places, locId).None?
    ensures
      var i := FindUser(users, userId).value;
      var v := users[i].(places := users[i].places + [Allocation(locId, "", time, Offline, reversed, None)]);
      && StartUser(v, locId, t0).Success?
      && Start(Allocate(users, userId, locId, time, reversed).value, userId, locId, t0)
         == Success(users[i := StartUser(v, locId, t0).value])
  {
    var i := FindUser(users, userId).value;
    var u := users[i];
    var record := Allocation(locId, "", time, Offline, reversed, None);
    var v := u.(places := u.places + [record]);
    NewRecordRoundTrip(u, record, t0, 0);
    AllocateAsUpdate(users, userId, locId, time, reversed);
    StartAt(users, i, userId, locId, v, t0, StartUser(v, locId, t0).value);
  }

  /** A start on user `i` of a collection that differs from `users` only there. */
  lemma StartAt(users: seq<User>, i: nat, userId: int, locId: int, v: User, t0: SecondOfDay, live: User)
    requires FindUser(users, userId) == Some(i)
    requires v.id == users[i].id
    requires StartUser(v, locId, t0) == Success(live)
    ensures Start(users[i := v], userId, locId, t0) == Success(users[i := live])
  {
    SameIdsSameUser(users, users[i := v], userId);
    assert users[i := v][i := live] == users[i := live];
  }

  lemma AllocateAsUpdate(users: seq<User>, userId: int, locId: int, time: string, reversed: bool)
    requires Allocate(users, userId, locId, time, reversed).Success?
    ensures
      var i := FindUser(users, userId).value;
      var record := Allocation(locId, "", time, Offline, reversed, None);
      Allocate(users, userId, locId, time, reversed).value == users[i := users[i].(places := users[i].places + [record])]
  {
  }

  /** A stop on user `i` of a collection that differs from `users` only there. */
  lemma StopAt(users: seq<User>, i: nat, userId: int, locId: int, live: User, t1: SecondOfDay, w: User)
    requires FindUser(users, userId) == Some(i)
    requires live.id == users[i].id
    requires StopUser(live, locId, t1) == Success(w)
    ensures Stop(users[i := live], userId, locId, t1) == Success(users[i := w])
  {
    SameIdsSameUser(users, users[i := live], userId);
    assert users[i := live][i := w] == users[i := w];
  }

  /** The user-level half of `AllocateStartStop`. */
  lemma NewRecordRoundTrip(u: User, record: Allocation, t0: SecondOfDay, t1: SecondOfDay)
    requires record.status == Offline && record.startTime == None
    requires FindAllocation(u.places, record.id).None?
    ensures
      var v := u.(places := u.places + [record]);
      && StartUser(v, record.id, t0).Success?
      && StopUser(StartUser(v, record.id, t0).value, record.id, t1)
         == Success(v.(status := Offline, history := u.history + [Session(|u.history|, record.id, Some(t0), t1)]))
  {
    var v := u.(places := u.places + [record]);
    assert Map(v.places, AllocationId) == Map(u.places, AllocationId) + [record.id];
    IndexOfAppend(Map(u.places, AllocationId), record.id, record.id);
    assert FindAllocation(v.places, record.id) == Some(|u.places|);
    StartStopRestores(v, record.id, t0, t1);
  }

  /** `find` picks the first record, so after an allocation the record that
      start and stop act on is the one they acted on before; the new record
      is their target only when the user had no record of that location. */
  lemma AllocateKeepsTarget(users: seq<User>, userId: int, locId: int, time: string, reversed: bool, anyLoc: int)
    requires Allocate(users, userId, locId, time, reversed).Success?
    ensures
      var i := FindUser(users, userId).value;
      var was := users[i].places;
      var now := Allocate(users, userId, locId, time, reversed).value[i].places;
      FindAllocation(now, anyLoc)
        == if FindAllocation(was, anyLoc).Some? then FindAllocation(was, anyLoc)
           else if anyLoc == locId then Some(|was|) else None
  {
    var i := FindUser(users, userId).value;
    var was := users[i].places;
    var now := Allocate(users, userId, locId, time, reversed).value[i].places;
    assert Map(now, AllocationId) == Map(was, AllocationId) + [locId];
    IndexOfAppend(Map(was, AllocationId), locId, anyLoc);
  }

  /** The user's status is not "some record is live": a stop sets it to
      offline while another location's session is still running. */
  lemma StopOverridesOtherSessions()
    ensures
      var u := User(1, "driver@example.com", "driver", "secret", "user",
                    [Allocation(1, "", "08:00 AM", Offline, false, None),
                     Allocation(2, "", "09:00 AM", Offline, false, None)],
                    Offline, None, []);
      var first := StartUser(u, 1, 100);
      && first.Success?
      && var second := StartUser(first.value, 2, 200);
      && second.Success?
      && var stopped := StopUser(second.value, 1, 300);
      && stopped.Success?
      && stopped.value.status == Offline
      && stopped.value.places[1].status == Live
  {
    var a := Allocation(1, "", "08:00 AM", Offline, false, None);
    var b := Allocation(2, "", "09:00 AM", Offline, false, None);
    var u := User(1, "driver@example.com", "driver", "secret", "user", [a, b], Offline, None, []);
    assert Map(u.places, AllocationId) == [1, 2];
    var v := StartUser(u, 1, 100).value;
    assert Map(v.places, AllocationId) == [1, 2];
    var w := StartUser(v, 2, 200).value;
    assert Map(w.places, AllocationId) == [1, 2];
  }

  /** A stop ends the session the start began: the history entry holds the
      start and stop times and, for a session within one day, their
      difference; a session that crosses midnight wraps around. */
  lemma SessionLength(n: nat, locId: int, t0: SecondOfDay, t1: SecondOfDay)
    ensures var s := Session(n, locId, Some(t0), t1);
      && s.id == n + 1 && s.startTime == Some(t0) && s.endTime == t1
      && ParseClock(s.totalDuration) == Some(if t0 <= t1 then t1 - t0 else t1 - t0 + SecondsPerDay)
  {
  }

  /** 08:05:00 to 09:20:00 is recorded as 01:15:00. */
  lemma DurationExample()
    ensures Duration(Some(8 * 3600 + 5 * 60), 9 * 3600 + 20 * 60) == "01:15:00"
  {
    assert ParseClock("01:15:00") == Some(4500);
    FormatParse("01:15:00");
  }

  /** 23:30:00 to 00:15:00 crosses midnight and is recorded as 00:45:00. */
  lemma DurationAcrossMidnight()
    ensures Duration(Some(23 * 3600 + 30 * 60), 15 * 60) == "00:45:00"
  {
    assert ParseClock("00:45:00") == Some(2700);
    FormatParse("00:45:00");
  }

  /* ---------- the live position ---------- */

  /** GET returns what the last PUT wrote. */
  lemma PutThenGet(users: seq<User>, userId: int, current: Option<Position>)
    requires PutLiveLocation(users, userId, current).Success?
    ensures LiveLocation(PutLiveLocation(users, userId, current).value, userId) == Success(current)
  {
    SameIdsSameUser(users, PutLiveLocation(users, userId, current).value, userId);
  }

  /** Repeating a PUT changes nothing more. */
  lemma PutIdempotent(users: seq<User>, userId: int, current: Option<Position>)
    requires PutLiveLocation(users, userId, current).Success?
    ensures PutLiveLocation(PutLiveLocation(users, userId, current).value, userId, current)
         == PutLiveLocation(users, userId, current)
  {
    var after := PutLiveLocation(users, userId, current).value;
    var i := FindUser(users, userId).value;
    SameIdsSameUser(users, after, userId);
    assert after[i := after[i].(liveLocation := current)] == after;
  }

  /** The position is independent of tracking: a PUT leaves every user's
      allocated-locations answer unchanged, and start and stop leave every
      user's position unchanged. */
  lemma PutKeepsAllocations(users: seq<User>, locations: seq<Location>, userId: int, current: Option<Position>, anyId: int)
    requires PutLiveLocation(users, userId, current).Success?
    ensures AllocatedLocations(PutLiveLocation(users, userId, current).value, locations, anyId)
         == AllocatedLocations(users, locations, anyId)
  {
    var after := PutLiveLocation(users, userId, current).value;
    SameIdsSameUser(users, after, anyId);
  }

  lemma StartKeepsPositions(users: seq<User>, userId: int, locId: int, t: SecondOfDay, anyId: int)
    requires Start(users, userId, locId, t).Success?
    ensures LiveLocation(Start(users, userId, locId, t).value, anyId) == LiveLocation(users, anyId)
  {
    SameIdsSameUser(users, Start(users, userId, locId, t).value, anyId);
  }

  lemma StopKeepsPositions(users: seq<User>, userId: int, locId: int, t: SecondOfDay, anyId: int)
    requires Stop(users, userId, locId, t).Success?
    ensures LiveLocation(Stop(users, userId, locId, t).value, anyId) == LiveLocation(users, anyId)
  {
    SameIdsSameUser(users, Stop(users, userId, locId, t).value, anyId);
  }

  /* ---------- registration ---------- */

  /** A newly registered user can be found under the id it was given, has
      no position, an empty allocated-locations answer (not an error), and
      cannot start tracking anything yet. */
  lemma RegisteredUserIsFresh(users: seq<User>, locations: seq<Location>, username: string, email: string,
                              password: string, role: Option<string>, locId: int, t: SecondOfDay)
    requires StoreValid(users)
    requires Register(users, username, email, password, role).Success?
    ensures
      var after := Register(users, username, email, password, role).value;
      var id := |users| + 1;
      && LiveLocation(after, id) == Success(None)
      && AllocatedLocations(after, locations, id) == Success([])
      && Start(after, id, locId, t) == Failure(AlreadyLiveOrNotAllocated)
  {
    var after := Register(users, username, email, password, role).value;
    RegisterKeepsValid(users, username, email, password, role);
    FindUserInValidStore(after, |users| + 1);
  }

  /* ---------- the allocated-locations answer ---------- */

  /** `find` stops at the first location with the id, so locations listed
      after it never change the name shown, even when the first one's name
      is missing and a later one has a name. */
  lemma NameIgnoresLaterLocations(locations: seq<Location>, more: seq<Location>, id: int)
    requires exists j :: 0 <= j < |locations| && locations[j].id == id
    ensures LocationName(locations + more, id) == LocationName(locations, id)
  {
    var j := IndexOf(Map(locations, LocationId), id).value;
    assert (locations + more)[j] == locations[j];
    forall j' | 0 <= j' < j ensures (locations + more)[j'].id != id {
      assert (locations + more)[j'] == locations[j'];
    }
  }

  /** A first match without a name is shown as "Unknown", even though a
      later location with the same id has a name. */
  lemma UnnamedFirstMatch()
    ensures
      var locations := [Location(1, None, "Depot", "Market", []), Location(1, Some("Harbour run"), "Depot", "Harbour", [])];
      LocationName(locations, 1) == "Unknown"
  {
  }

  /** After a start, the answer shows the started record as live. */
  lemma StartShownLive(users: seq<User>, locations: seq<Location>, userId: int, locId: int, t: SecondOfDay)
    requires Start(users, userId, locId, t).Success?
    ensures
      var k := FindAllocation(users[FindUser(users, userId).value].places, locId).value;
      var r := AllocatedLocations(Start(users, userId, locId, t).value, locations, userId);
      r.Success? && k < |r.value| && r.value[k].id == locId && r.value[k].status == Live
  {
    SameIdsSameUser(users, Start(users, userId, locId, t).value, userId);
  }
}
