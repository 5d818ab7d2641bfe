/**
 * The Result-style version of the service (ResultCode.kt): every operation
 * yields `Success(v)` or `Failure(e)`, and operations are composed with
 * `map`/`flatMap`, which stop at the first failure.  Each operation returns
 * its outcome together with the requests it made to the data source.
 */
module ResultCode {
  import opened DataSource

  /** The domain model: a full profile when one was fetched, otherwise the short form. */
  datatype UserLogic =
    | Full(id: string, name: string, friendsCount: int)
    | Short(id: string, name: string)

  /** mapToUserLogic(profile): never fails, copies all three fields. */
  function MapProfileToUserLogic(profile: Profile): (r: Result<UserLogic>)
    ensures r.Success? && r.value.Full?
    ensures r.value.id == profile.id && r.value.name == profile.name
    ensures r.value.friendsCount == profile.friendsCount
  {
    Success(Full(profile.id, profile.name, profile.friendsCount))
  }

  /** mapToUserLogic(user): never fails, gives the short form with the same id and name. */
  function MapUserToUserLogic(user: User): (r: Result<UserLogic>)
    ensures r.Success? && r.value.Short?
    ensures r.value.id == user.id && r.value.name == user.name
  {
    Success(Short(user.id, user.name))
  }

  /**
   * Result.flatMap.  Kotlin inlines the transform, so what it asks of the
   * data source is asked at this point, and only when it is applied.
   */
  function FlatMap<R, T>(r: Result<R>, transform: R -> Logged<Result<T>>): (o: Logged<Result<T>>)
    ensures r.Success? ==> o == transform(r.value)
    ensures r.Failure? ==> o.value == Failure(r.cause) && o.calls == []
  {
    r.Fold(transform, (e: Cause) => Pure(Failure(e)))
  }

  /** Result.map, with a transform that cannot fail but may ask the data source. */
  function Map<R, T>(r: Result<R>, transform: R -> Logged<T>): (o: Logged<Result<T>>)
    ensures r.Success? ==> o.value == Success(transform(r.value).value) && o.calls == transform(r.value).calls
    ensures r.Failure? ==> o.value == Failure(r.cause) && o.calls == []
  {
    FlatMap(r, (v: R) => transform(v).Then((t: T) => Pure(Success(t))))
  }

  /** flatMap with `Success` as the transform changes nothing and asks nothing. */
  lemma FlatMapRightIdentity<T>(r: Result<T>)
    ensures FlatMap(r, (v: T) => Pure(Success(v))) == Pure(r)
  {
  }

  /** Two flatMaps in sequence are one flatMap of the composed transform. */
  lemma FlatMapAssociative<A, B, C>(r: Result<A>, f: A -> Logged<Result<B>>, g: B -> Logged<Result<C>>)
    ensures FlatMap(r, f).Then((rb: Result<B>) => FlatMap(rb, g))
         == FlatMap(r, (a: A) => f(a).Then((rb: Result<B>) => FlatMap(rb, g)))
  {
  }
}

/** UserRepositoryImpl of the Result-style version, over the data-source oracle. */
module ResultRepository {
  import opened DataSource
  import opened Lists
  import opened ResultCode

  /** getCurrentUserId: the current user's id; the data source's failure unchanged. */
  function GetCurrentUserId(ds: Oracle): (r: Logged<Result<string>>)
    ensures r.calls == [CurrentUserCall]
    ensures r.value.Success? <==> ds.currentUser.Success?
    ensures ds.currentUser.Success? ==> r.value.value == ds.currentUser.value.id
    ensures ds.currentUser.Failure? ==> r.value == Failure(ds.currentUser.cause)
  {
    ds.GetCurrentUser().Then((fetched: Result<User>) => Map(fetched, (user: User) => Pure(user.id)))
  }

  /** getUser: fails exactly when the profile fetch fails; otherwise the full model of that profile. */
  function GetUser(ds: Oracle, id: string): (r: Logged<Result<UserLogic>>)
    ensures r.calls == [ProfileCall(id)]
    ensures r.value.Success? <==> ds.profile(id).Success?
    ensures ds.profile(id).Failure? ==> r.value == Failure(ds.profile(id).cause)
    ensures ds.profile(id).Success? ==>
      var p := ds.profile(id).value;
      r.value.value == Full(p.id, p.name, p.friendsCount)
  {
    ds.GetProfile(id).Then((fetched: Result<Profile>) => FlatMap(fetched, (p: Profile) => Pure(MapProfileToUserLogic(p))))
  }

  /** The lambda of findUsersByName's mapNotNull: getUser(user.id).getOrNull(). */
  function LookupOrNull(ds: Oracle, user: User): (r: Logged<Option<UserLogic>>)
    ensures r.calls == [ProfileCall(user.id)]
    ensures r.value.Some? <==> ds.profile(user.id).Success?
    ensures r.value.Some? ==> GetUser(ds, user.id).value == Success(r.value.value)
  {
    GetUser(ds, user.id).Then((got: Result<UserLogic>) => Pure(got.GetOrNull()))
  }

  /** The users found by name whose profile could be fetched; the others are dropped. */
  function FindUsersByName(ds: Oracle, name: string): (r: Logged<Result<seq<UserLogic>>>)
    ensures r.value.Success? <==> ds.usersByName(name).Success?
    ensures ds.usersByName(name).Failure? ==>
      r.value == Failure(ds.usersByName(name).cause) && r.calls == [UsersByNameCall(name)]
    ensures ds.usersByName(name).Success? ==> |r.value.value| <= |ds.usersByName(name).value|
  {
    ds.GetUsersByName(name).Then((fetched: Result<seq<User>>) =>
      Map(fetched, (users: seq<User>) => MapNotNull(users, (u: User) => LookupOrNull(ds, u))))
  }

  /** addFriend: the data source's outcome, unchanged. */
  function AddFriend(ds: Oracle, userId: string, friendId: string): (r: Logged<Result<()>>)
    ensures r.value == ds.addFriendForCurrent(userId, friendId)
    ensures r.calls == [AddFriendCall(userId, friendId)]
  {
    ds.AddFriendForCurrent(userId, friendId)
  }

  /**
   * The lambda of getUserFriends' mapNotNull: the full model when the
   * friend's profile can be fetched, the short model of the friend otherwise.
   */
  function EnrichOrNull(ds: Oracle, user: User): (r: Logged<Option<UserLogic>>)
    ensures r.calls == [ProfileCall(user.id)]
    ensures r.value.Some?
    ensures ds.profile(user.id).Success? ==> r.value.value.Full? && r.value.value.friendsCount == ds.profile(user.id).value.friendsCount
    ensures ds.profile(user.id).Success? ==> r.value.value.id == ds.profile(user.id).value.id && r.value.value.name == ds.profile(user.id).value.name
    ensures ds.profile(user.id).Failure? ==> r.value.value == Short(user.id, user.name)
  {
    ds.GetProfile(user.id).Then((fetched: Result<Profile>) =>
      Pure(fetched.Fold(MapProfileToUserLogic, (_: Cause) => MapUserToUserLogic(user)).GetOrNull()))
  }

  /** The friends of `id`, each enriched with its profile where that lookup succeeds. */
  function GetUserFriends(ds: Oracle, id: string): (r: Logged<Result<seq<UserLogic>>>)
    ensures r.value.Success? <==> ds.userFriends(id).Success?
    ensures ds.userFriends(id).Failure? ==>
      r.value == Failure(ds.userFriends(id).cause) && r.calls == [FriendsCall(id)]
  {
    ds.GetUserFriends(id).Then((fetched: Result<seq<User>>) =>
      Map(fetched, (users: seq<User>) => MapNotNull(users, (u: User) => EnrichOrNull(ds, u))))
  }

  /** When the data source returns the profile that was asked for, getUser keeps the requested id. */
  lemma GetUserKeepsId(ds: Oracle, id: string)
    requires ds.profile(id).Success? ==> ds.profile(id).value.id == id
    ensures GetUser(ds, id).value.Success? ==> GetUser(ds, id).value.value.id == id
  {
  }

  /**
   * Drop policy: the result lists, in order, the users found whose getUser
   * succeeded, and only those; `found` gives their positions among the
   * matches.  One profile request is made per match, in order.
   */
  lemma {:induction false} FindUsersByNameDrops(ds: Oracle, name: string) returns (found: seq<int>)
    requires ds.usersByName(name).Success?
    ensures var users := ds.usersByName(name).value;
      var r := FindUsersByName(ds, name);
      && r.value.Success?
      && r.calls == [UsersByNameCall(name)] + ProfileCalls(users)
      && |found| == |r.value.value| <= |users|
      && StrictlyIncreasing(found)
      && (forall k :: 0 <= k < |found| ==>
            0 <= found[k] < |users| && GetUser(ds, users[found[k]].id).value == Success(r.value.value[k]))
      && (forall i :: 0 <= i < |users| && ds.profile(users[i].id).Success? ==> i in found)
  {
    var users := ds.usersByName(name).value;
    var lookup := (u: User) => LookupOrNull(ds, u);
    var r := FindUsersByName(ds, name);
    assert r.value.value == MapNotNull(users, lookup).value;
    assert r.calls == [UsersByNameCall(name)] + CallsOf(users, lookup);
    found := MapNotNullKeepsInOrder(users, lookup);
    assert KeptAt(users, lookup, r.value.value, found);
    assert NoneDropped(users, lookup, found);
    CallsOfOneEach(users, lookup, (u: User) => ProfileCall(u.id));
    forall k | 0 <= k < |found|
      ensures GetUser(ds, users[found[k]].id).value == Success(r.value.value[k])
    {
      assert lookup(users[found[k]]).value == Some(r.value.value[k]);
    }
    forall i | 0 <= i < |users| && ds.profile(users[i].id).Success?
      ensures i in found
    {
      assert lookup(users[i]).value.Some?;
    }
  }

  /** When every match's profile can be fetched, nothing is dropped: one full model per match, in order. */
  lemma {:induction false} FindUsersByNameAllFound(ds: Oracle, name: string)
    requires ds.usersByName(name).Success?
    requires forall i :: 0 <= i < |ds.usersByName(name).value| ==> ds.profile(ds.usersByName(name).value[i].id).Success?
    ensures var users := ds.usersByName(name).value;
      var r := FindUsersByName(ds, name);
      && r.value.Success?
      && |r.value.value| == |users|
      && forall i :: 0 <= i < |users| ==>
           var p := ds.profile(users[i].id).value;
           r.value.value[i] == Full(p.id, p.name, p.friendsCount)
  {
    var users := ds.usersByName(name).value;
    var lookup := (u: User) => LookupOrNull(ds, u);
    assert forall i :: 0 <= i < |users| ==> lookup(users[i]).value.Some?;
    MapNotNullKeepsAll(users, lookup);
  }

  /**
   * Degrade policy: exactly one entry per friend, in order, never dropped;
   * the full model when that friend's profile lookup succeeds, otherwise the
   * short model of the friend record.  One profile request per friend.
   */
  lemma {:induction false} GetUserFriendsDegrades(ds: Oracle, id: string)
    requires ds.userFriends(id).Success?
    ensures var friends := ds.userFriends(id).value;
      var r := GetUserFriends(ds, id);
      && r.value.Success?
      && r.calls == [FriendsCall(id)] + ProfileCalls(friends)
      && |r.value.value| == |friends|
      && forall i :: 0 <= i < |friends| ==>
           r.value.value[i] ==
             match ds.profile(friends[i].id)
             case Success(p) => Full(p.id, p.name, p.friendsCount)
             case Failure(_) => Short(friends[i].id, friends[i].name)
  {
    var friends := ds.userFriends(id).value;
    var enrich := (u: User) => EnrichOrNull(ds, u);
    assert forall i :: 0 <= i < |friends| ==> enrich(friends[i]).value.Some?;
    MapNotNullKeepsAll(friends, enrich);
    CallsOfOneEach(friends, enrich, (u: User) => ProfileCall(u.id));
  }
}

/** UserInteractor of the Result-style version: use cases over the repository; it holds no state. */
module ResultInteractor {
  import opened DataSource
  import opened Lists
  import opened ResultCode
  import ResultRepository

  /** The current user: its id, then getUser of that id; a failing id request stops everything. */
  function GetCurrentUser(ds: Oracle): (r: Logged<Result<UserLogic>>)
    ensures ds.currentUser.Failure? ==> r == Logged(Failure(ds.currentUser.cause), [CurrentUserCall])
    ensures ds.currentUser.Success? ==>
      var got := ResultRepository.GetUser(ds, ds.currentUser.value.id);
      r.value == got.value && r.calls == [CurrentUserCall] + got.calls
  {
    ResultRepository.GetCurrentUserId(ds).Then((current: Result<string>) =>
      FlatMap(current, (id: string) => ResultRepository.GetUser(ds, id)))
  }

  /** getUser: the repository's getUser, unchanged. */
  function GetUser(ds: Oracle, userId: string): (r: Logged<Result<UserLogic>>)
    ensures r == ResultRepository.GetUser(ds, userId)
  {
    ResultRepository.GetUser(ds, userId)
  }

  /** The current user's friends; a failing id request stops everything and no friend list is fetched. */
  function GetMyFriends(ds: Oracle): (r: Logged<Result<seq<UserLogic>>>)
    ensures ds.currentUser.Failure? ==> r == Logged(Failure(ds.currentUser.cause), [CurrentUserCall])
    ensures ds.currentUser.Success? ==>
      var friends := ResultRepository.GetUserFriends(ds, ds.currentUser.value.id);
      r.value == friends.value && r.calls == [CurrentUserCall] + friends.calls
  {
    ResultRepository.GetCurrentUserId(ds).Then((current: Result<string>) =>
      FlatMap(current, (id: string) => ResultRepository.GetUserFriends(ds, id)))
  }

  /** getUserFriends: the repository's getUserFriends, unchanged. */
  function GetUserFriends(ds: Oracle, id: string): (r: Logged<Result<seq<UserLogic>>>)
    ensures r == ResultRepository.GetUserFriends(ds, id)
  {
    ResultRepository.GetUserFriends(ds, id)
  }

  /** The lambda of addToMeAllFriendsWithName's mapNotNull: addFriend(...).getOrNull(). */
  function AddOrNull(ds: Oracle, currentUserId: string, user: UserLogic): (r: Logged<Option<()>>)
    ensures r.calls == [AddFriendCall(currentUserId, user.id)]
    ensures r.value.Some? <==> ds.addFriendForCurrent(currentUserId, user.id).Success?
  {
    ResultRepository.AddFriend(ds, currentUserId, user.id).Then((added: Result<()>) => Pure(added.GetOrNull()))
  }

  /** Adds every user found by name as a friend of the current user; the number of additions that succeeded. */
  function AddToMeAllFriendsWithName(ds: Oracle, name: string): (r: Logged<Result<int>>)
    ensures r.value.Success? <==> ds.currentUser.Success? && ds.usersByName(name).Success?
    ensures ds.currentUser.Failure? ==> r == Logged(Failure(ds.currentUser.cause), [CurrentUserCall])
    ensures ds.currentUser.Success? && ds.usersByName(name).Failure? ==>
      r == Logged(Failure(ds.usersByName(name).cause), [CurrentUserCall, UsersByNameCall(name)])
  {
    ResultRepository.GetCurrentUserId(ds).Then((current: Result<string>) =>
      FlatMap(current, (currentUserId: string) => AddFoundUsers(ds, currentUserId, name)))
  }

  /** The body of the flatMap: the search, then the count over the users found. */
  function AddFoundUsers(ds: Oracle, currentUserId: string, name: string): (r: Logged<Result<int>>)
    ensures r.value.Success? <==> ds.usersByName(name).Success?
    ensures ds.usersByName(name).Failure? ==> r == Logged(Failure(ds.usersByName(name).cause), [UsersByNameCall(name)])
    ensures ds.usersByName(name).Success? ==> 0 <= r.value.value <= |ds.usersByName(name).value|
  {
    ResultRepository.FindUsersByName(ds, name).Then((found: Result<seq<UserLogic>>) =>
      Map(found, (users: seq<UserLogic>) => CountAdded(ds, currentUserId, users)))
  }

  /** The body of the map: users.mapNotNull { addFriend(...).getOrNull() }.size */
  function CountAdded(ds: Oracle, currentUserId: string, users: seq<UserLogic>): (r: Logged<int>)
    ensures 0 <= r.value <= |users|
    ensures r.calls == AddFriendCalls(currentUserId, users)
  {
    CallsOfOneEach(users, (u: UserLogic) => AddOrNull(ds, currentUserId, u), (u: UserLogic) => AddFriendCall(currentUserId, u.id));
    MapNotNull(users, (u: UserLogic) => AddOrNull(ds, currentUserId, u)).Then((added: seq<()>) => Pure(|added|))
  }

  /** The addFriend request for each user, in order, from the current user. */
  function AddFriendCalls(currentUserId: string, users: seq<UserLogic>): seq<Call>
  {
    OneCallEach(users, (u: UserLogic) => AddFriendCall(currentUserId, u.id))
  }

  /**
   * After the id and the search succeed: addFriend is asked once for each
   * user found, in order; the count is the number of those requests that
   * succeeded (`added` names them, in order), so at most the number found.
   */
  lemma {:induction false} AddToMeAllFriendsWithNameCounts(ds: Oracle, name: string) returns (added: seq<int>)
    requires ds.currentUser.Success? && ds.usersByName(name).Success?
    ensures var me := ds.currentUser.value.id;
      var found := ResultRepository.FindUsersByName(ds, name);
      var r := AddToMeAllFriendsWithName(ds, name);
      && found.value.Success?
      && r.value.Success?
      && r.calls == [CurrentUserCall] + found.calls + AddFriendCalls(me, found.value.value)
      && r.value.value == |added| <= |found.value.value|
      && StrictlyIncreasing(added)
      && (forall k :: 0 <= k < |added| ==>
            0 <= added[k] < |found.value.value| && ds.addFriendForCurrent(me, found.value.value[added[k]].id).Success?)
      && (forall i :: 0 <= i < |found.value.value| && ds.addFriendForCurrent(me, found.value.value[i].id).Success? ==>
            i in added)
  {
    var me := ds.currentUser.value.id;
    var users := ResultRepository.FindUsersByName(ds, name).value.value;
    var add := (u: UserLogic) => AddOrNull(ds, me, u);
    AddToMeUnfolds(ds, name);
    added := MapNotNullKeepsInOrder(users, add);
    AddedAreSuccesses(ds, me, users, MapNotNull(users, add).value, added);
    CallsOfOneEach(users, add, (u: UserLogic) => AddFriendCall(me, u.id));
  }

  /** Once the id and the search succeed, the count is the size of the mapNotNull over addFriend. */
  lemma AddToMeUnfolds(ds: Oracle, name: string)
    requires ds.currentUser.Success? && ds.usersByName(name).Success?
    ensures var me := ds.currentUser.value.id;
      var found := ResultRepository.FindUsersByName(ds, name);
      var adds := MapNotNull(found.value.value, (u: UserLogic) => AddOrNull(ds, me, u));
      AddToMeAllFriendsWithName(ds, name) == Logged(Success(|adds.value|), [CurrentUserCall] + found.calls + adds.calls)
  {
    var me := ds.currentUser.value.id;
    var found := ResultRepository.FindUsersByName(ds, name);
    var count := CountAdded(ds, me, found.value.value);
    assert AddFoundUsers(ds, me, name) == Logged(Success(count.value), found.calls + count.calls);
    CallsAssociate([CurrentUserCall], found.calls, count.calls);
  }

  /** The positions mapNotNull keeps over addFriend are exactly those whose addFriend succeeded. */
  lemma AddedAreSuccesses(ds: Oracle, me: string, users: seq<UserLogic>, kept: seq<()>, added: seq<int>)
    requires KeptAt(users, (u: UserLogic) => AddOrNull(ds, me, u), kept, added)
    requires NoneDropped(users, (u: UserLogic) => AddOrNull(ds, me, u), added)
    ensures forall k :: 0 <= k < |added| ==>
      0 <= added[k] < |users| && ds.addFriendForCurrent(me, users[added[k]].id).Success?
    ensures forall i :: 0 <= i < |users| && ds.addFriendForCurrent(me, users[i].id).Success? ==> i in added
  {
    var add := (u: UserLogic) => AddOrNull(ds, me, u);
    forall k | 0 <= k < |added|
      ensures ds.addFriendForCurrent(me, users[added[k]].id).Success?
    {
      assert add(users[added[k]]).value.Some?;
    }
    forall i | 0 <= i < |users| && ds.addFriendForCurrent(me, users[i].id).Success?
      ensures i in added
    {
      assert add(users[i]).value.Some?;
    }
  }
}
