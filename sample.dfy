/**
 * The exception-style version of the service (Sample.kt).  Data-source
 * calls either return or throw; a throw is modelled as a `Failure` that the
 * calling method returns at once, so it travels up unchanged.  The
 * repository builds its lists by loops that append, and the interactor
 * keeps the current user in a field once it has been fetched.
 *
 * Each method is proved against a specification function (`...Outcome`)
 * giving its result and the requests it makes; the lemmas say what those
 * functions promise.
 */
module Sample {
  import opened DataSource
  import opened Lists

  /** The domain model of this version: always the full record. */
  datatype UserLogic = UserLogic(id: string, name: string, friendsCount: int)

  /** mapToUser: copies id, name and friendsCount from the profile. */
  function MapToUser(profile: Profile): (u: UserLogic)
    ensures u.id == profile.id && u.name == profile.name && u.friendsCount == profile.friendsCount
  {
    UserLogic(profile.id, profile.name, profile.friendsCount)
  }

  /** getCurrentUserId: the current user's id, or the data source's exception. */
  function CurrentUserIdOutcome(o: Oracle): (r: Logged<Result<string>>)
    ensures r.calls == [CurrentUserCall]
    ensures r.value.Success? <==> o.currentUser.Success?
    ensures o.currentUser.Success? ==> r.value.value == o.currentUser.value.id
    ensures o.currentUser.Failure? ==> r.value.cause == o.currentUser.cause
  {
    var fetched := o.GetCurrentUser();
    match fetched.value
    case Failure(e) => Logged(Failure(e), fetched.calls)
    case Success(user) => Logged(Success(user.id), fetched.calls)
  }

  /** getUser: the mapped profile, or the data source's exception. */
  function GetUserOutcome(o: Oracle, id: string): (r: Logged<Result<UserLogic>>)
    ensures r.calls == [ProfileCall(id)]
    ensures r.value.Success? <==> o.profile(id).Success?
    ensures o.profile(id).Success? ==> r.value.value == MapToUser(o.profile(id).value)
    ensures o.profile(id).Failure? ==> r.value.cause == o.profile(id).cause
  {
    var fetched := o.GetProfile(id);
    match fetched.value
    case Failure(e) => Logged(Failure(e), fetched.calls)
    case Success(profile) => Logged(Success(MapToUser(profile)), fetched.calls)
  }

  /**
   * The first n turns of the loop of findUsersByName and getUserFriends:
   * the mapped profiles of users[..n], or the first throw, after which no
   * turn runs.
   */
  function ProfilesUpTo(o: Oracle, users: seq<User>, n: nat): (r: Logged<Result<seq<UserLogic>>>)
    requires n <= |users|
    ensures |r.calls| <= n && r.calls == ProfileCalls(users)[..|r.calls|]
    ensures r.value.Success? ==> |r.calls| == n && |r.value.value| == n
    decreases n
  {
    if n == 0 then Logged(Success([]), [])
    else
      var prev := ProfilesUpTo(o, users, n - 1);
      match prev.value
      case Failure(_) => prev
      case Success(dto) =>
        var user := GetUserOutcome(o, users[n - 1].id);
        assert prev.calls + user.calls == ProfileCalls(users)[..n];
        match user.value
        case Failure(e) => Logged(Failure(e), prev.calls + user.calls)
        case Success(u) => Logged(Success(dto + [u]), prev.calls + user.calls)
  }

  /** The whole loop of findUsersByName and getUserFriends over `users`. */
  function ProfilesOutcome(o: Oracle, users: seq<User>): (r: Logged<Result<seq<UserLogic>>>)
    ensures |r.calls| <= |users| && r.calls == ProfileCalls(users)[..|r.calls|]
    ensures r.value.Success? ==> r.calls == ProfileCalls(users) && |r.value.value| == |users|
  {
    var r := ProfilesUpTo(o, users, |users|);
    assert ProfileCalls(users)[..|users|] == ProfileCalls(users);
    r
  }

  /** A list request, then the loop over the users it returned. */
  function FetchedProfilesOutcome(o: Oracle, fetched: Logged<Result<seq<User>>>): (r: Logged<Result<seq<UserLogic>>>)
    ensures r.value.Success? ==> fetched.value.Success? && |r.value.value| == |fetched.value.value|
    ensures r.value.Success? ==> r.calls == fetched.calls + ProfileCalls(fetched.value.value)
    ensures fetched.value.Failure? ==> r == Logged(Failure(fetched.value.cause), fetched.calls)
    ensures |fetched.calls| <= |r.calls| && r.calls[..|fetched.calls|] == fetched.calls
  {
    match fetched.value
    case Failure(e) => Logged(Failure(e), fetched.calls)
    case Success(users) =>
      var all := ProfilesOutcome(o, users);
      Logged(all.value, fetched.calls + all.calls)
  }

  /** findUsersByName: the users by that name, then the loop over them. */
  function FindUsersOutcome(o: Oracle, name: string): (r: Logged<Result<seq<UserLogic>>>)
    ensures o.usersByName(name).Failure? ==> r == Logged(Failure(o.usersByName(name).cause), [UsersByNameCall(name)])
    ensures r.value.Success? ==> o.usersByName(name).Success? && |r.value.value| == |o.usersByName(name).value|
    ensures 0 < |r.calls| && r.calls[0] == UsersByNameCall(name)
  {
    FetchedProfilesOutcome(o, o.GetUsersByName(name))
  }

  /** getUserFriends: the friends of `id`, then the loop over them. */
  function FriendsOutcome(o: Oracle, id: string): (r: Logged<Result<seq<UserLogic>>>)
    ensures o.userFriends(id).Failure? ==> r == Logged(Failure(o.userFriends(id).cause), [FriendsCall(id)])
    ensures r.value.Success? ==> o.userFriends(id).Success? && |r.value.value| == |o.userFriends(id).value|
    ensures 0 < |r.calls| && r.calls[0] == FriendsCall(id)
  {
    FetchedProfilesOutcome(o, o.GetUserFriends(id))
  }

  /** Once a turn has thrown, later turns change nothing. */
  lemma {:induction false} ProfilesFailureSticks(o: Oracle, users: seq<User>, n: nat, m: nat)
    requires n <= m <= |users|
    requires ProfilesUpTo(o, users, n).value.Failure?
    ensures ProfilesUpTo(o, users, m) == ProfilesUpTo(o, users, n)
    decreases m
  {
    if m > n {
      ProfilesFailureSticks(o, users, n, m - 1);
    }
  }

  /** A throw in any of the first n turns makes them fail. */
  lemma {:induction false} ProfilesFailAfter(o: Oracle, users: seq<User>, n: nat, i: nat)
    requires i < n <= |users|
    requires o.profile(users[i].id).Failure?
    ensures ProfilesUpTo(o, users, n).value.Failure?
    decreases n
  {
    if i < n - 1 {
      ProfilesFailAfter(o, users, n - 1, i);
    }
  }

  /** When the first n fetches succeed: one mapped profile each, in order, after one request each. */
  lemma {:induction false} ProfilesUpToComplete(o: Oracle, users: seq<User>, n: nat)
    requires n <= |users|
    requires forall k :: 0 <= k < n ==> o.profile(users[k].id).Success?
    ensures var r := ProfilesUpTo(o, users, n);
      && r.value.Success?
      && r.calls == ProfileCalls(users)[..n]
      && |r.value.value| == n
      && forall k :: 0 <= k < n ==> r.value.value[k] == MapToUser(o.profile(users[k].id).value)
    decreases n
  {
    if n > 0 {
      ProfilesUpToComplete(o, users, n - 1);
      assert ProfileCalls(users)[..n] == ProfileCalls(users)[..n - 1] + [ProfileCall(users[n - 1].id)];
    }
  }

  /**
   * All or nothing: the loop succeeds exactly when every profile fetch does,
   * and then gives one mapped profile per user, in order, after one profile
   * request per user.
   */
  lemma ProfilesAllOrNothing(o: Oracle, users: seq<User>)
    ensures ProfilesOutcome(o, users).value.Success? <==> forall i :: 0 <= i < |users| ==> o.profile(users[i].id).Success?
    ensures ProfilesOutcome(o, users).value.Success? ==>
      && ProfilesOutcome(o, users).calls == ProfileCalls(users)
      && |ProfilesOutcome(o, users).value.value| == |users|
      && forall i :: 0 <= i < |users| ==> ProfilesOutcome(o, users).value.value[i] == MapToUser(o.profile(users[i].id).value)
  {
    if forall i :: 0 <= i < |users| ==> o.profile(users[i].id).Success? {
      ProfilesUpToComplete(o, users, |users|);
      assert ProfileCalls(users)[..|users|] == ProfileCalls(users);
    } else {
      var i :| 0 <= i < |users| && o.profile(users[i].id).Failure?;
      ProfilesFailAfter(o, users, |users|, i);
    }
  }

  /**
   * A throw aborts the loop: when the profile of users[i] is the first that
   * cannot be fetched, the loop fails with that cause, returns no list, and
   * no user after users[i] is fetched.
   */
  lemma ProfilesAbortAtFirstFailure(o: Oracle, users: seq<User>, i: nat)
    requires i < |users|
    requires forall k :: 0 <= k < i ==> o.profile(users[k].id).Success?
    requires o.profile(users[i].id).Failure?
    ensures ProfilesOutcome(o, users) == Logged(Failure(o.profile(users[i].id).cause), ProfileCalls(users)[..i + 1])
  {
    ProfilesUpToComplete(o, users, i);
    assert ProfileCalls(users)[..i + 1] == ProfileCalls(users)[..i] + [ProfileCall(users[i].id)];
    ProfilesFailureSticks(o, users, i + 1, |users|);
  }

  /**
   * The loop after a list request that succeeded, all or nothing: it
   * succeeds exactly when every profile fetch does, and then gives one
   * mapped profile per listed user, in order; when users[i] is the first
   * whose fetch throws, that cause and no request after its profile request.
   */
  lemma FetchedProfilesAllOrNothing(o: Oracle, fetched: Logged<Result<seq<User>>>)
    requires fetched.value.Success?
    ensures var users := fetched.value.value;
      var r := FetchedProfilesOutcome(o, fetched);
      && (r.value.Success? <==> forall i :: 0 <= i < |users| ==> o.profile(users[i].id).Success?)
      && (r.value.Success? ==>
            && r.calls == fetched.calls + ProfileCalls(users)
            && |r.value.value| == |users|
            && forall i :: 0 <= i < |users| ==> r.value.value[i] == MapToUser(o.profile(users[i].id).value))
      && forall i :: 0 <= i < |users| && o.profile(users[i].id).Failure? &&
                     (forall k :: 0 <= k < i ==> o.profile(users[k].id).Success?) ==>
           r == Logged(Failure(o.profile(users[i].id).cause), fetched.calls + ProfileCalls(users)[..i + 1])
  {
    var users := fetched.value.value;
    ProfilesAllOrNothing(o, users);
    forall i | 0 <= i < |users| && o.profile(users[i].id).Failure? &&
               (forall k :: 0 <= k < i ==> o.profile(users[k].id).Success?)
      ensures FetchedProfilesOutcome(o, fetched)
           == Logged(Failure(o.profile(users[i].id).cause), fetched.calls + ProfileCalls(users)[..i + 1])
    {
      ProfilesAbortAtFirstFailure(o, users, i);
    }
  }

  /**
   * findUsersByName, all or nothing: after a successful search it succeeds
   * exactly when every match's profile can be fetched, with one mapped
   * profile per match, in order; the first throwing fetch ends it.
   */
  lemma FindUsersAllOrNothing(o: Oracle, name: string)
    requires o.usersByName(name).Success?
    ensures var users := o.usersByName(name).value;
      var r := FindUsersOutcome(o, name);
      && (r.value.Success? <==> forall i :: 0 <= i < |users| ==> o.profile(users[i].id).Success?)
      && (r.value.Success? ==>
            && r.calls == [UsersByNameCall(name)] + ProfileCalls(users)
            && |r.value.value| == |users|
            && forall i :: 0 <= i < |users| ==> r.value.value[i] == MapToUser(o.profile(users[i].id).value))
      && forall i :: 0 <= i < |users| && o.profile(users[i].id).Failure? &&
                     (forall k :: 0 <= k < i ==> o.profile(users[k].id).Success?) ==>
           r == Logged(Failure(o.profile(users[i].id).cause), [UsersByNameCall(name)] + ProfileCalls(users)[..i + 1])
  {
    FetchedProfilesAllOrNothing(o, o.GetUsersByName(name));
  }

  /**
   * getUserFriends, all or nothing: after a successful friend-list fetch it
   * succeeds exactly when every friend's profile can be fetched, with one
   * mapped profile per friend, in order; the first throwing fetch ends it.
   */
  lemma FriendsAllOrNothing(o: Oracle, id: string)
    requires o.userFriends(id).Success?
    ensures var friends := o.userFriends(id).value;
      var r := FriendsOutcome(o, id);
      && (r.value.Success? <==> forall i :: 0 <= i < |friends| ==> o.profile(friends[i].id).Success?)
      && (r.value.Success? ==>
            && r.calls == [FriendsCall(id)] + ProfileCalls(friends)
            && |r.value.value| == |friends|
            && forall i :: 0 <= i < |friends| ==> r.value.value[i] == MapToUser(o.profile(friends[i].id).value))
      && forall i :: 0 <= i < |friends| && o.profile(friends[i].id).Failure? &&
                     (forall k :: 0 <= k < i ==> o.profile(friends[k].id).Success?) ==>
           r == Logged(Failure(o.profile(friends[i].id).cause), [FriendsCall(id)] + ProfileCalls(friends)[..i + 1])
  {
    FetchedProfilesAllOrNothing(o, o.GetUserFriends(id));
  }

  /**
   * The interactor's getCurrentUser when its cache holds `cache`: the cached
   * user without asking anything, or else the id and then that user.
   */
  function CurrentUserOutcome(cache: Option<UserLogic>, o: Oracle): (r: Logged<Result<UserLogic>>)
    ensures cache.Some? ==> r == Logged(Success(cache.value), [])
    ensures cache.None? && o.currentUser.Failure? ==> r == Logged(Failure(o.currentUser.cause), [CurrentUserCall])
    ensures cache.None? && o.currentUser.Success? ==>
      var id := o.currentUser.value.id;
      r.calls == [CurrentUserCall, ProfileCall(id)] && r.value == GetUserOutcome(o, id).value
  {
    match cache
    case Some(user) => Logged(Success(user), [])
    case None =>
      var id := CurrentUserIdOutcome(o);
      match id.value
      case Failure(e) => Logged(Failure(e), id.calls)
      case Success(userId) =>
        var user := GetUserOutcome(o, userId);
        Logged(user.value, id.calls + user.calls)
  }

  /** The interactor's cache, and whether addToMeAllFriendsWithName has thrown so far. */
  datatype AddState = AddState(cache: Option<UserLogic>, outcome: Result<()>)

  /**
   * One turn of the loop of addToMeAllFriendsWithName from a cache holding
   * `cache`: getCurrentUser, then addFriend from that user to `friendId`.
   */
  function AddOneOutcome(cache: Option<UserLogic>, o: Oracle, friendId: string): (r: Logged<AddState>)
    ensures var me := CurrentUserOutcome(cache, o);
      me.value.Failure? ==> r == Logged(AddState(cache, Failure(me.value.cause)), me.calls)
    ensures var me := CurrentUserOutcome(cache, o);
      me.value.Success? ==>
        var added := o.addFriendForCurrent(me.value.value.id, friendId);
        && r.value.cache == Some(me.value.value)
        && r.calls == me.calls + [AddFriendCall(me.value.value.id, friendId)]
        && (added.Success? ==> r.value.outcome == Success(()))
        && (added.Failure? ==> r.value.outcome == Failure(added.cause))
    ensures cache.Some? ==> r.value.cache == cache
    ensures r.value.outcome.Success? ==> r.value.cache.Some?
  {
    var me := CurrentUserOutcome(cache, o);
    match me.value
    case Failure(e) => Logged(AddState(cache, Failure(e)), me.calls)
    case Success(user) =>
      var added := o.AddFriendForCurrent(user.id, friendId);
      match added.value
      case Failure(e) => Logged(AddState(Some(user), Failure(e)), me.calls + added.calls)
      case Success(_) => Logged(AddState(Some(user), Success(())), me.calls + added.calls)
  }

  /** The first n turns of the loop over `friends`; after a throw no turn runs. */
  function AddToFoundUpTo(cache: Option<UserLogic>, o: Oracle, friends: seq<UserLogic>, n: nat): (r: Logged<AddState>)
    requires n <= |friends|
    ensures n == 0 ==> r == Logged(AddState(cache, Success(())), [])
    ensures cache.Some? ==> r.value.cache == cache
    ensures 0 < n && r.value.outcome.Success? ==> r.value.cache.Some?
    decreases n
  {
    if n == 0 then Logged(AddState(cache, Success(())), [])
    else
      var prev := AddToFoundUpTo(cache, o, friends, n - 1);
      if prev.value.outcome.Failure? then prev
      else
        var turn := AddOneOutcome(prev.value.cache, o, friends[n - 1].id);
        Logged(turn.value, prev.calls + turn.calls)
  }

  /** The loop of addToMeAllFriendsWithName over the users found. */
  function AddToFoundOutcome(cache: Option<UserLogic>, o: Oracle, friends: seq<UserLogic>): (r: Logged<AddState>)
    ensures friends == [] ==> r == Logged(AddState(cache, Success(())), [])
    ensures cache.Some? ==> r.value.cache == cache
    ensures friends != [] && r.value.outcome.Success? ==> r.value.cache.Some?
  {
    AddToFoundUpTo(cache, o, friends, |friends|)
  }

  /** addToMeAllFriendsWithName: find the users by name, then the loop over them. */
  function AddToMeOutcome(cache: Option<UserLogic>, o: Oracle, name: string): (r: Logged<AddState>)
    ensures o.usersByName(name).Failure? ==>
      r == Logged(AddState(cache, Failure(o.usersByName(name).cause)), [UsersByNameCall(name)])
    ensures var found := FindUsersOutcome(o, name);
      found.value.Failure? ==> r == Logged(AddState(cache, Failure(found.value.cause)), found.calls)
    ensures r.value.outcome.Success? ==> FindUsersOutcome(o, name).value.Success?
    ensures cache.Some? ==> r.value.cache == cache
    ensures var found := FindUsersOutcome(o, name);
      |found.calls| <= |r.calls| && r.calls[..|found.calls|] == found.calls
  {
    var found := FindUsersOutcome(o, name);
    match found.value
    case Failure(e) => Logged(AddState(cache, Failure(e)), found.calls)
    case Success(friends) => found.Then(_ => AddToFoundOutcome(cache, o, friends))
  }

  /** The addFriend request for each friend, in order, from the current user. */
  function AddFriendCalls(currentUserId: string, friends: seq<UserLogic>): seq<Call>
  {
    OneCallEach(friends, (f: UserLogic) => AddFriendCall(currentUserId, f.id))
  }

  /** Once a turn has thrown, later turns change nothing. */
  lemma {:induction false} AddToFoundFailureSticks(cache: Option<UserLogic>, o: Oracle, friends: seq<UserLogic>, n: nat, m: nat)
    requires n <= m <= |friends|
    requires AddToFoundUpTo(cache, o, friends, n).value.outcome.Failure?
    ensures AddToFoundUpTo(cache, o, friends, m) == AddToFoundUpTo(cache, o, friends, n)
    decreases m
  {
    if m > n {
      AddToFoundFailureSticks(cache, o, friends, n, m - 1);
    }
  }

  /**
   * When the current user is found and the first n addFriends succeed: the
   * user is cached, the current user is asked for once, at the start, and
   * then one addFriend per friend, in order.
   */
  lemma {:induction false} AddToFoundUpToAdds(cache: Option<UserLogic>, o: Oracle, friends: seq<UserLogic>, n: nat)
    requires 0 < n <= |friends|
    requires CurrentUserOutcome(cache, o).value.Success?
    requires var me := CurrentUserOutcome(cache, o).value.value.id;
      forall k :: 0 <= k < n ==> o.addFriendForCurrent(me, friends[k].id).Success?
    ensures var current := CurrentUserOutcome(cache, o);
      var me := current.value.value;
      AddToFoundUpTo(cache, o, friends, n)
        == Logged(AddState(Some(me), Success(())), current.calls + AddFriendCalls(me.id, friends)[..n])
    decreases n
  {
    var me := CurrentUserOutcome(cache, o).value.value;
    if n == 1 {
      assert AddFriendCalls(me.id, friends)[..1] == [AddFriendCall(me.id, friends[0].id)];
    } else {
      AddToFoundUpToAdds(cache, o, friends, n - 1);
      var call := AddFriendCall(me.id, friends[n - 1].id);
      assert AddFriendCalls(me.id, friends)[..n] == AddFriendCalls(me.id, friends)[..n - 1] + [call];
      assert [] + [call] == [call];
      CallsAssociate(CurrentUserOutcome(cache, o).calls, AddFriendCalls(me.id, friends)[..n - 1], [call]);
    }
  }

  /**
   * When the current user cannot be fetched and someone was found, the loop
   * fails with that cause in its first turn: no addFriend is attempted and
   * nothing is cached.
   */
  lemma AddToMeNoCurrentUser(cache: Option<UserLogic>, o: Oracle, friends: seq<UserLogic>)
    requires friends != []
    requires CurrentUserOutcome(cache, o).value.Failure?
    ensures var current := CurrentUserOutcome(cache, o);
      AddToFoundOutcome(cache, o, friends) == Logged(AddState(None, Failure(current.value.cause)), current.calls)
  {
    AddToFoundFailureSticks(cache, o, friends, 1, |friends|);
  }

  /**
   * When the current user is `user` and the addFriend of friends[i] is the
   * first to fail, the loop fails with that cause, the user stays cached,
   * and the friends after friends[i] are never attempted.
   */
  lemma AddToMeStopsAtFirstFailure(cache: Option<UserLogic>, o: Oracle, friends: seq<UserLogic>, i: nat)
    requires CurrentUserOutcome(cache, o).value.Success?
    requires var me := CurrentUserOutcome(cache, o).value.value.id;
      && i < |friends|
      && (forall k :: 0 <= k < i ==> o.addFriendForCurrent(me, friends[k].id).Success?)
      && o.addFriendForCurrent(me, friends[i].id).Failure?
    ensures var current := CurrentUserOutcome(cache, o);
      var me := current.value.value;
      AddToFoundOutcome(cache, o, friends)
        == Logged(AddState(Some(me), Failure(o.addFriendForCurrent(me.id, friends[i].id).cause)),
                  current.calls + AddFriendCalls(me.id, friends)[..i + 1])
  {
    var me := CurrentUserOutcome(cache, o).value.value;
    if i == 0 {
      assert AddFriendCalls(me.id, friends)[..1] == [AddFriendCall(me.id, friends[0].id)];
    } else {
      AddToFoundUpToAdds(cache, o, friends, i);
      var call := AddFriendCall(me.id, friends[i].id);
      assert AddFriendCalls(me.id, friends)[..i + 1] == AddFriendCalls(me.id, friends)[..i] + [call];
      assert [] + [call] == [call];
      CallsAssociate(CurrentUserOutcome(cache, o).calls, AddFriendCalls(me.id, friends)[..i], [call]);
    }
    AddToFoundFailureSticks(cache, o, friends, i + 1, |friends|);
  }

  /**
   * When every addFriend succeeds, the loop succeeds after the current user
   * (asked for once, and only if someone was found) and one addFriend per
   * friend, in order.
   */
  lemma AddToMeAddsAll(cache: Option<UserLogic>, o: Oracle, friends: seq<UserLogic>)
    requires CurrentUserOutcome(cache, o).value.Success?
    requires var me := CurrentUserOutcome(cache, o).value.value.id;
      forall k :: 0 <= k < |friends| ==> o.addFriendForCurrent(me, friends[k].id).Success?
    ensures var current := CurrentUserOutcome(cache, o);
      var me := current.value.value;
      AddToFoundOutcome(cache, o, friends)
        == if friends == [] then Logged(AddState(cache, Success(())), [])
           else Logged(AddState(Some(me), Success(())), current.calls + AddFriendCalls(me.id, friends))
  {
    if friends != [] {
      var me := CurrentUserOutcome(cache, o).value.value;
      AddToFoundUpToAdds(cache, o, friends, |friends|);
      assert AddFriendCalls(me.id, friends)[..|friends|] == AddFriendCalls(me.id, friends);
    }
  }

  /** How many of `calls` ask the data source for the current user. */
  function CurrentUserRequests(calls: seq<Call>): nat
    decreases |calls|
  {
    if calls == [] then 0
    else (if calls[0] == CurrentUserCall then 1 else 0) + CurrentUserRequests(calls[1..])
  }

  lemma {:induction false} CurrentUserRequestsAppend(a: seq<Call>, b: seq<Call>)
    ensures CurrentUserRequests(a + b) == CurrentUserRequests(a) + CurrentUserRequests(b)
    decreases |a|
  {
    if a == [] {
      assert a + b == b;
    } else {
      assert (a + b)[1..] == a[1..] + b;
      CurrentUserRequestsAppend(a[1..], b);
    }
  }

  /** getCurrentUser asks the data source for the current user exactly when the cache is empty. */
  lemma CurrentUserAsks(cache: Option<UserLogic>, o: Oracle)
    ensures CurrentUserRequests(CurrentUserOutcome(cache, o).calls) == (if cache.None? then 1 else 0)
  {
    assert CurrentUserRequests([CurrentUserCall]) == 1 by {
      assert [CurrentUserCall][1..] == [];
    }
    if cache.None? && o.currentUser.Success? {
      var id := o.currentUser.value.id;
      assert [CurrentUserCall, ProfileCall(id)] == [CurrentUserCall] + [ProfileCall(id)];
      assert CurrentUserRequests([ProfileCall(id)]) == 0 by {
        assert [ProfileCall(id)][1..] == [];
      }
      CurrentUserRequestsAppend([CurrentUserCall], [ProfileCall(id)]);
    }
  }

  /**
   * k calls of getCurrentUser in a row from a cache holding `cache`: the
   * cache afterwards, and every request made.
   */
  function CurrentUserRepeated(cache: Option<UserLogic>, o: Oracle, k: nat): (r: Logged<Option<UserLogic>>)
    ensures cache.Some? ==> r == Logged(cache, [])
    ensures r.value.Some? ==> cache.Some? || CurrentUserOutcome(None, o).value == Success(r.value.value)
    decreases k
  {
    if k == 0 then Logged(cache, [])
    else
      var prev := CurrentUserRepeated(cache, o, k - 1);
      var got := CurrentUserOutcome(prev.value, o);
      Logged(if got.value.Success? then Some(got.value.value) else None, prev.calls + got.calls)
  }

  /**
   * Compute once: over k calls of getCurrentUser from an empty cache, the
   * current user is asked for once when the first call succeeds, and then
   * stays cached; when fetching it fails, nothing is cached and every call
   * asks again.  From a full cache nothing is asked and the cache is kept.
   */
  lemma {:induction false} CurrentUserComputedOnce(cache: Option<UserLogic>, o: Oracle, k: nat)
    ensures var first := CurrentUserOutcome(None, o);
      var r := CurrentUserRepeated(cache, o, k);
      && r.value == (if cache.None? && 0 < k && first.value.Success? then Some(first.value.value) else cache)
      && CurrentUserRequests(r.calls) ==
           (if cache.Some? || k == 0 then 0 else if first.value.Success? then 1 else k)
    decreases k
  {
    if k > 0 {
      var prev := CurrentUserRepeated(cache, o, k - 1);
      CurrentUserComputedOnce(cache, o, k - 1);
      CurrentUserAsks(prev.value, o);
      CurrentUserRequestsAppend(prev.calls, CurrentUserOutcome(prev.value, o).calls);
    }
  }

  /** One turn asks for the current user exactly when the cache is empty. */
  lemma AddOneAsks(cache: Option<UserLogic>, o: Oracle, friendId: string)
    ensures CurrentUserRequests(AddOneOutcome(cache, o, friendId).calls) == (if cache.None? then 1 else 0)
  {
    var me := CurrentUserOutcome(cache, o);
    CurrentUserAsks(cache, o);
    if me.value.Success? {
      var added := AddFriendCall(me.value.value.id, friendId);
      assert CurrentUserRequests([added]) == 0 by {
        assert [added][1..] == [];
      }
      CurrentUserRequestsAppend(me.calls, [added]);
    }
  }

  /** The profile loop never asks for the current user. */
  lemma {:induction false} ProfilesAskNoCurrentUser(o: Oracle, users: seq<User>, n: nat)
    requires n <= |users|
    ensures CurrentUserRequests(ProfilesUpTo(o, users, n).calls) == 0
    decreases n
  {
    if n > 0 {
      var prev := ProfilesUpTo(o, users, n - 1);
      ProfilesAskNoCurrentUser(o, users, n - 1);
      CurrentUserRequestsAppend(prev.calls, [ProfileCall(users[n - 1].id)]);
    }
  }

  /**
   * The cache at work in the loop of addToMeAllFriendsWithName: over the
   * first n turns the current user is asked for once when the cache starts
   * empty and someone is to be added, and never when it starts full.
   */
  lemma {:induction false} AddToFoundAsksOnce(cache: Option<UserLogic>, o: Oracle, friends: seq<UserLogic>, n: nat)
    requires n <= |friends|
    ensures CurrentUserRequests(AddToFoundUpTo(cache, o, friends, n).calls) == (if cache.None? && 0 < n then 1 else 0)
    decreases n
  {
    if n > 0 {
      var prev := AddToFoundUpTo(cache, o, friends, n - 1);
      AddToFoundAsksOnce(cache, o, friends, n - 1);
      if prev.value.outcome.Success? {
        var turn := AddOneOutcome(prev.value.cache, o, friends[n - 1].id);
        AddOneAsks(prev.value.cache, o, friends[n - 1].id);
        CurrentUserRequestsAppend(prev.calls, turn.calls);
      }
    }
  }

  /**
   * addToMeAllFriendsWithName asks the data source for the current user at
   * most once, and not at all when the user is already cached.
   */
  lemma AddToMeAsksCurrentUserAtMostOnce(cache: Option<UserLogic>, o: Oracle, name: string)
    ensures CurrentUserRequests(AddToMeOutcome(cache, o, name).calls) <= 1
    ensures cache.Some? ==> CurrentUserRequests(AddToMeOutcome(cache, o, name).calls) == 0
  {
    var fetched := o.GetUsersByName(name);
    if fetched.value.Success? {
      var users := fetched.value.value;
      var all := ProfilesOutcome(o, users);
      ProfilesAskNoCurrentUser(o, users, |users|);
      CurrentUserRequestsAppend(fetched.calls, all.calls);
      var found := FindUsersOutcome(o, name);
      if found.value.Success? {
        AddToFoundAsksOnce(cache, o, found.value.value, |found.value.value|);
        CurrentUserRequestsAppend(found.calls, AddToFoundOutcome(cache, o, found.value.value).calls);
      }
    }
  }

  /** The data source: answers each request from the oracle and records it. */
  class UserDataSource {
    const oracle: Oracle
    var log: seq<Call>

    constructor (oracle: Oracle)
      ensures this.oracle == oracle && log == []
    {
      this.oracle := oracle;
      log := [];
    }

    method GetUsersByName(name: string) returns (r: Result<seq<User>>)
      modifies this
      ensures r == oracle.usersByName(name) && log == old(log) + [UsersByNameCall(name)]
    {
      r := oracle.usersByName(name);
      log := log + [UsersByNameCall(name)];
    }

    method GetProfile(id: string) returns (r: Result<Profile>)
      modifies this
      ensures r == oracle.profile(id) && log == old(log) + [ProfileCall(id)]
    {
      r := oracle.profile(id);
      log := log + [ProfileCall(id)];
    }

    method GetUserFriends(id: string) returns (r: Result<seq<User>>)
      modifies this
      ensures r == oracle.userFriends(id) && log == old(log) + [FriendsCall(id)]
    {
      r := oracle.userFriends(id);
      log := log + [FriendsCall(id)];
    }

    method GetCurrentUser() returns (r: Result<User>)
      modifies this
      ensures r == oracle.currentUser && log == old(log) + [CurrentUserCall]
    {
      r := oracle.currentUser;
      log := log + [CurrentUserCall];
    }

    method AddFriendForCurrent(userId: string, friendId: string) returns (r: Result<()>)
      modifies this
      ensures r == oracle.addFriendForCurrent(userId, friendId) && log == old(log) + [AddFriendCall(userId, friendId)]
    {
      r := oracle.addFriendForCurrent(userId, friendId);
      log := log + [AddFriendCall(userId, friendId)];
    }
  }

  class UserRepositoryImpl {
    const userDataSource: UserDataSource

    constructor (userDataSource: UserDataSource)
      ensures this.userDataSource == userDataSource
    {
      this.userDataSource := userDataSource;
    }

    method GetCurrentUserId() returns (r: Result<string>)
      modifies userDataSource
      ensures r == CurrentUserIdOutcome(userDataSource.oracle).value
      ensures userDataSource.log == old(userDataSource.log) + CurrentUserIdOutcome(userDataSource.oracle).calls
    {
      var user := userDataSource.GetCurrentUser();
      if user.Failure? {
        return Failure(user.cause);
      }
      return Success(user.value.id);
    }

    method GetUser(id: string) returns (r: Result<UserLogic>)
      modifies userDataSource
      ensures r == GetUserOutcome(userDataSource.oracle, id).value
      ensures userDataSource.log == old(userDataSource.log) + GetUserOutcome(userDataSource.oracle, id).calls
    {
      var profile := userDataSource.GetProfile(id);
      if profile.Failure? {
        return Failure(profile.cause);
      }
      return Success(MapToUser(profile.value));
    }

    method FindUsersByName(name: string) returns (r: Result<seq<UserLogic>>)
      modifies userDataSource
      ensures r == FindUsersOutcome(userDataSource.oracle, name).value
      ensures userDataSource.log == old(userDataSource.log) + FindUsersOutcome(userDataSource.oracle, name).calls
    {
      var users := userDataSource.GetUsersByName(name);
      if users.Failure? {
        return Failure(users.cause);
      }
      ghost var o := userDataSource.oracle;
      ghost var start := userDataSource.log;
      var usersDto: seq<UserLogic> := [];
      for i := 0 to |users.value|
        invariant ProfilesUpTo(o, users.value, i).value == Success(usersDto)
        invariant userDataSource.log == start + ProfilesUpTo(o, users.value, i).calls
      {
        CallsAssociate(start, ProfilesUpTo(o, users.value, i).calls, [ProfileCall(users.value[i].id)]);
        var profile := userDataSource.GetProfile(users.value[i].id);
        if profile.Failure? {
          ProfilesFailureSticks(o, users.value, i + 1, |users.value|);
          CallsAssociate(old(userDataSource.log), [UsersByNameCall(name)], ProfilesOutcome(o, users.value).calls);
          return Failure(profile.cause);
        }
        usersDto := usersDto + [MapToUser(profile.value)];
      }
      CallsAssociate(old(userDataSource.log), [UsersByNameCall(name)], ProfilesOutcome(o, users.value).calls);
      return Success(usersDto);
    }

    method AddFriend(userId: string, friendId: string) returns (r: Result<()>)
      modifies userDataSource
      ensures r == userDataSource.oracle.addFriendForCurrent(userId, friendId)
      ensures userDataSource.log == old(userDataSource.log) + [AddFriendCall(userId, friendId)]
    {
      r := userDataSource.AddFriendForCurrent(userId, friendId);
    }

    method GetUserFriends(id: string) returns (r: Result<seq<UserLogic>>)
      modifies userDataSource
      ensures r == FriendsOutcome(userDataSource.oracle, id).value
      ensures userDataSource.log == old(userDataSource.log) + FriendsOutcome(userDataSource.oracle, id).calls
    {
      var friends := userDataSource.GetUserFriends(id);
      if friends.Failure? {
        return Failure(friends.cause);
      }
      ghost var o := userDataSource.oracle;
      ghost var start := userDataSource.log;
      var usersDto: seq<UserLogic> := [];
      for i := 0 to |friends.value|
        invariant ProfilesUpTo(o, friends.value, i).value == Success(usersDto)
        invariant userDataSource.log == start + ProfilesUpTo(o, friends.value, i).calls
      {
        CallsAssociate(start, ProfilesUpTo(o, friends.value, i).calls, [ProfileCall(friends.value[i].id)]);
        var profile := userDataSource.GetProfile(friends.value[i].id);
        if profile.Failure? {
          ProfilesFailureSticks(o, friends.value, i + 1, |friends.value|);
          CallsAssociate(old(userDataSource.log), [FriendsCall(id)], ProfilesOutcome(o, friends.value).calls);
          return Failure(profile.cause);
        }
        usersDto := usersDto + [MapToUser(profile.value)];
      }
      CallsAssociate(old(userDataSource.log), [FriendsCall(id)], ProfilesOutcome(o, friends.value).calls);
      return Success(usersDto);
    }
  }

  class UserInteractor {
    const repository: UserRepositoryImpl
    /** The current user, once fetched; never cleared. */
    var currentUser: Option<UserLogic>

    constructor (repository: UserRepositoryImpl)
      ensures this.repository == repository && currentUser == None
    {
      this.repository := repository;
      currentUser := None;
    }

    /**
     * getCurrentUser: the cached user without asking anything; otherwise
     * fetched, and kept only when the fetch succeeds.
     */
    method GetCurrentUser() returns (r: Result<UserLogic>)
      modifies this, repository.userDataSource
      ensures r == CurrentUserOutcome(old(currentUser), repository.userDataSource.oracle).value
      ensures repository.userDataSource.log == old(repository.userDataSource.log) + CurrentUserOutcome(old(currentUser), repository.userDataSource.oracle).calls
      ensures currentUser == if r.Success? then Some(r.value) else None
    {
      if currentUser.None? {
        var currentUserId := repository.GetCurrentUserId();
        if currentUserId.Failure? {
          return Failure(currentUserId.cause);
        }
        var user := GetUser(currentUserId.value);
        if user.Failure? {
          return Failure(user.cause);
        }
        currentUser := Some(user.value);
      }
      return Success(currentUser.value);
    }

    method GetUser(userId: string) returns (r: Result<UserLogic>)
      modifies repository.userDataSource
      ensures r == GetUserOutcome(repository.userDataSource.oracle, userId).value
      ensures repository.userDataSource.log == old(repository.userDataSource.log) + GetUserOutcome(repository.userDataSource.oracle, userId).calls
    {
      r := repository.GetUser(userId);
    }

    /** getMyFriends: getUserFriends of the (cached) current user's id. */
    method GetMyFriends() returns (r: Result<seq<UserLogic>>)
      modifies this, repository.userDataSource
      ensures var me := CurrentUserOutcome(old(currentUser), repository.userDataSource.oracle);
        && (me.value.Failure? ==>
              r == Failure(me.value.cause) && repository.userDataSource.log == old(repository.userDataSource.log) + me.calls && currentUser == None)
        && (me.value.Success? ==>
              var friends := FriendsOutcome(repository.userDataSource.oracle, me.value.value.id);
              && r == friends.value
              && repository.userDataSource.log == old(repository.userDataSource.log) + me.calls + friends.calls
              && currentUser == Some(me.value.value))
    {
      var me := GetCurrentUser();
      if me.Failure? {
        return Failure(me.cause);
      }
      r := GetUserFriends(me.value.id);
    }

    method GetUserFriends(id: string) returns (r: Result<seq<UserLogic>>)
      modifies repository.userDataSource
      ensures r == FriendsOutcome(repository.userDataSource.oracle, id).value
      ensures repository.userDataSource.log == old(repository.userDataSource.log) + FriendsOutcome(repository.userDataSource.oracle, id).calls
    {
      r := repository.GetUserFriends(id);
    }

    /**
     * addToMeAllFriendsWithName: for each user found, in order, the current
     * user (through the cache) and addFriend; the first throw ends it.
     */
    method AddToMeAllFriendsWithName(name: string) returns (r: Result<()>)
      modifies this, repository.userDataSource
      ensures var spec := AddToMeOutcome(old(currentUser), repository.userDataSource.oracle, name);
        && r == spec.value.outcome
        && currentUser == spec.value.cache
        && repository.userDataSource.log == old(repository.userDataSource.log) + spec.calls
    {
      var friends := repository.FindUsersByName(name);
      if friends.Failure? {
        return Failure(friends.cause);
      }
      r := AddToFound(friends.value);
      CallsAssociate(old(repository.userDataSource.log), FindUsersOutcome(repository.userDataSource.oracle, name).calls,
        AddToFoundOutcome(old(currentUser), repository.userDataSource.oracle, friends.value).calls);
    }

    /** The loop of addToMeAllFriendsWithName over the users found. */
    method AddToFound(friends: seq<UserLogic>) returns (r: Result<()>)
      modifies this, repository.userDataSource
      ensures var spec := AddToFoundOutcome(old(currentUser), repository.userDataSource.oracle, friends);
        && r == spec.value.outcome
        && currentUser == spec.value.cache
        && repository.userDataSource.log == old(repository.userDataSource.log) + spec.calls
    {
      var ds := repository.userDataSource;
      ghost var o := ds.oracle;
      ghost var cache := currentUser;
      for i := 0 to |friends|
        invariant AddToFoundUpTo(cache, o, friends, i).value == AddState(currentUser, Success(()))
        invariant ds.log == old(ds.log) + AddToFoundUpTo(cache, o, friends, i).calls
      {
        ghost var before := AddToFoundUpTo(cache, o, friends, i).calls;
        ghost var me := CurrentUserOutcome(currentUser, o);
        var current := GetCurrentUser();
        if current.Failure? {
          AddToFoundFailureSticks(cache, o, friends, i + 1, |friends|);
          CallsAssociate(old(ds.log), before, me.calls);
          return Failure(current.cause);
        }
        var added := repository.AddFriend(current.value.id, friends[i].id);
        CallsAssociate(old(ds.log) + before, me.calls, [AddFriendCall(current.value.id, friends[i].id)]);
        CallsAssociate(old(ds.log), before, me.calls + [AddFriendCall(current.value.id, friends[i].id)]);
        if added.Failure? {
          AddToFoundFailureSticks(cache, o, friends, i + 1, |friends|);
          return Failure(added.cause);
        }
      }
      return Success(());
    }
  }
}
