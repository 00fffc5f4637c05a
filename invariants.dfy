/** The state invariants that every route keeps, starting from an empty
    users collection: each allocation has a start time exactly when it is
    live, only the first record of a location can be live, each history is
    numbered 1..n in order, user ids are 1..n in order
    and no two users share an email. */
module Invariants {
  import opened Common
  import opened Clock
  import opened Entities
  import opened Handlers

  /** A live record carries its session's start time; an offline one none. */
  predicate RecordConsistent(a: Allocation) {
    a.status == Live <==> a.startTime.Some?
  }

  /** History ids are exactly 1, 2, ..., n, in order. */
  predicate HistoryNumbered(history: seq<HistoryEntry>) {
    forall j :: 0 <= j < |history| ==> history[j].id == j + 1
  }

  /** Only the first record of a location can be live: start and stop act
      on the record `find` returns, and allocation appends offline records,
      so a later duplicate never goes live. */
  predicate OnlyFirstLive(places: seq<Allocation>) {
    forall k :: 0 <= k < |places| && places[k].status == Live ==> FindAllocation(places, places[k].id) == Some(k)
  }

  predicate UserValid(u: User) {
    && (forall k :: 0 <= k < |u.places| ==> RecordConsistent(u.places[k]))
    && OnlyFirstLive(u.places)
    && HistoryNumbered(u.history)
  }

  predicate StoreValid(users: seq<User>) {
    && (forall j :: 0 <= j < |users| ==> users[j].id == j + 1 && UserValid(users[j]))
    && (forall j, j' :: 0 <= j < j' < |users| ==> users[j].email != users[j'].email)
  }

  /** With ids numbered 1..n, a user id resolves to its position. */
  lemma FindUserInValidStore(users: seq<User>, id: int)
    requires StoreValid(users)
    ensures FindUser(users, id) == if 1 <= id <= |users| then Some(id - 1) else None
  {
    var r := FindUser(users, id);
    if 1 <= id <= |users| {
      assert users[id - 1].id == id;
      assert r.Some?;
    }
  }

  /** Every record after the first of its location is offline, so at most
      one record per location is live at a time. */
  lemma LaterDuplicateOffline(places: seq<Allocation>, k: nat, k': nat)
    requires OnlyFirstLive(places)
    requires k < k' < |places| && places[k].id == places[k'].id
    ensures places[k'].status == Offline
  {
  }

  /** Appending an offline record keeps only first records live. */
  lemma {:induction false} AppendOfflineKeepsOnlyFirstLive(places: seq<Allocation>, record: Allocation)
    requires OnlyFirstLive(places) && record.status == Offline
    ensures OnlyFirstLive(places + [record])
  {
    var now := places + [record];
    assert Map(now, AllocationId) == Map(places, AllocationId) + [record.id];
    forall k | 0 <= k < |now| && now[k].status == Live
      ensures FindAllocation(now, now[k].id) == Some(k)
    {
      assert k < |places| && now[k] == places[k];
      assert Map(places, AllocationId)[k] == places[k].id;
      IndexOfAppend(Map(places, AllocationId), record.id, places[k].id);
    }
  }

  /** Rewriting the status and start time of the first record of a location
      keeps only first records live. */
  lemma {:induction false} SetFirstKeepsOnlyFirstLive(places: seq<Allocation>, k: nat, record: Allocation)
    requires OnlyFirstLive(places) && k < |places|
    requires FindAllocation(places, places[k].id) == Some(k) && record.id == places[k].id
    ensures OnlyFirstLive(places[k := record])
  {
    var now := places[k := record];
    assert Map(now, AllocationId) == Map(places, AllocationId);
  }

  lemma StartUserKeepsValid(u: User, locId: int, t: SecondOfDay)
    requires UserValid(u) && StartUser(u, locId, t).Success?
    ensures UserValid(StartUser(u, locId, t).value)
  {
    var k := FindAllocation(u.places, locId).value;
    SetFirstKeepsOnlyFirstLive(u.places, k, StartUser(u, locId, t).value.places[k]);
    assert StartUser(u, locId, t).value.places == u.places[k := StartUser(u, locId, t).value.places[k]];
  }

  lemma StopUserKeepsValid(u: User, locId: int, t: SecondOfDay)
    requires UserValid(u) && StopUser(u, locId, t).Success?
    ensures UserValid(StopUser(u, locId, t).value)
  {
    var v := StopUser(u, locId, t).value;
    var k := FindAllocation(u.places, locId).value;
    SetFirstKeepsOnlyFirstLive(u.places, k, v.places[k]);
    assert v.places == u.places[k := v.places[k]];
    var h, h' := u.history, v.history;
    forall j | 0 <= j < |h'| ensures h'[j].id == j + 1 {
      if j < |h| { assert h'[j] == h'[..|h|][j]; }
    }
  }

  /** Replacing one user keeps the store valid when the replacement keeps
      the user's id and email and is itself valid. */
  lemma ReplaceKeepsValid(users: seq<User>, i: nat, u: User)
    requires StoreValid(users) && i < |users|
    requires u.id == users[i].id && u.email == users[i].email && UserValid(u)
    ensures StoreValid(users[i := u])
  {
  }

  lemma RegisterKeepsValid(users: seq<User>, username: string, email: string, password: string, role: Option<string>)
    requires StoreValid(users)
    requires Register(users, username, email, password, role).Success?
    ensures StoreValid(Register(users, username, email, password, role).value)
  {
    var after := Register(users, username, email, password, role).value;
    var n := |users|;
    forall j | 0 <= j < n ensures after[j] == users[j] {
      assert after[j] == after[..n][j];
    }
    forall j | 0 <= j < n ensures users[j].email != email {
    }
  }

  lemma AllocateKeepsValid(users: seq<User>, userId: int, locId: int, time: string, reversed: bool)
    requires StoreValid(users)
    requires Allocate(users, userId, locId, time, reversed).Success?
    ensures StoreValid(Allocate(users, userId, locId, time, reversed).value)
  {
    var after := Allocate(users, userId, locId, time, reversed).value;
    var i := FindUser(users, userId).value;
    var was, now := users[i].places, after[i].places;
    forall k | 0 <= k < |now| ensures RecordConsistent(now[k]) {
      if k < |was| { assert now[k] == now[..|was|][k]; }
    }
    assert now == was + [now[|was|]];
    AppendOfflineKeepsOnlyFirstLive(was, now[|was|]);
    ReplaceKeepsValid(users, i, after[i]);
    assert users[i := after[i]] == after;
  }

  lemma StartKeepsValid(users: seq<User>, userId: int, locId: int, t: SecondOfDay)
    requires StoreValid(users)
    requires Start(users, userId, locId, t).Success?
    ensures StoreValid(Start(users, userId, locId, t).value)
  {
    var after := Start(users, userId, locId, t).value;
    var i := FindUser(users, userId).value;
    StartUserKeepsValid(users[i], locId, t);
    ReplaceKeepsValid(users, i, after[i]);
    assert users[i := after[i]] == after;
  }

  lemma StopKeepsValid(users: seq<User>, userId: int, locId: int, t: SecondOfDay)
    requires StoreValid(users)
    requires Stop(users, userId, locId, t).Success?
    ensures StoreValid(Stop(users, userId, locId, t).value)
  {
    var after := Stop(users, userId, locId, t).value;
    var i := FindUser(users, userId).value;
    StopUserKeepsValid(users[i], locId, t);
    ReplaceKeepsValid(users, i, after[i]);
    assert users[i := after[i]] == after;
  }

  lemma PutLiveLocationKeepsValid(users: seq<User>, userId: int, current: Option<Position>)
    requires StoreValid(users)
    requires PutLiveLocation(users, userId, current).Success?
    ensures StoreValid(PutLiveLocation(users, userId, current).value)
  {
    var after := PutLiveLocation(users, userId, current).value;
    var i := FindUser(users, userId).value;
    ReplaceKeepsValid(users, i, after[i]);
    assert users[i := after[i]] == after;
  }
}
