/**
 * The records the service exchanges with its data source, and the data
 * source itself.  No implementation of the data source exists, so it is an
 * oracle: a fixed answer for every request.  Every request is recorded as a
 * `Call`, so that what an operation asks of the data source, and in which
 * order, is part of what it computes.
 */
module DataSource {

  /** Why an operation failed (a Kotlin Throwable); kinds are not distinguished. */
  datatype Cause = Cause(message: string)

  datatype Option<+T> = None | Some(value: T)

  /** Kotlin's Result: a value, or the cause of a failure. */
  datatype Result<+T> = Success(value: T) | Failure(cause: Cause)
  {
    /** Result.getOrNull: the value, or null (None) on a failure. */
    function GetOrNull(): (o: Option<T>)
      ensures o.Some? <==> Success?
      ensures o.Some? ==> this == Success(o.value)
    {
      match this
      case Success(v) => Some(v)
      case Failure(_) => None
    }

    /** Result.fold: exactly one of the two handlers is applied. */
    function Fold<U>(onSuccess: T -> U, onFailure: Cause -> U): (u: U)
      ensures Success? ==> u == onSuccess(value)
      ensures Failure? ==> u == onFailure(cause)
    {
      match this
      case Success(v) => onSuccess(v)
      case Failure(e) => onFailure(e)
    }
  }

  /** The minimal remote identity record. */
  datatype User = User(id: string, name: string)

  /** The richer remote record of one user. */
  datatype Profile = Profile(id: string, name: string, friendsCount: int)

  /** One request to the data source. */
  datatype Call =
    | UsersByNameCall(name: string)
    | ProfileCall(id: string)
    | FriendsCall(id: string)
    | CurrentUserCall
    | AddFriendCall(userId: string, friendId: string)

  /** A value together with the requests made to the data source to compute it, oldest first. */
  datatype Logged<+T> = Logged(value: T, calls: seq<Call>)
  {
    /** Runs `next` on the value after this computation's requests. */
    function Then<U>(next: T -> Logged<U>): (r: Logged<U>)
      ensures r.value == next(value).value
      ensures r.calls == calls + next(value).calls
    {
      var n := next(value);
      Logged(n.value, calls + n.calls)
    }
  }

  /** Requests logged in three stretches, however they are grouped. */
  lemma CallsAssociate(a: seq<Call>, b: seq<Call>, c: seq<Call>)
    ensures (a + b) + c == a + (b + c)
  {
  }

  /** A value computed without asking the data source anything. */
  function Pure<T>(v: T): Logged<T>
  {
    Logged(v, [])
  }

  /**
   * The data source interface as an oracle: each field is the outcome the
   * data source gives for a request.  The same request always has the same
   * outcome.
   */
  datatype Oracle = Oracle(
    usersByName: string -> Result<seq<User>>,
    profile: string -> Result<Profile>,
    userFriends: string -> Result<seq<User>>,
    currentUser: Result<User>,
    addFriendForCurrent: (string, string) -> Result<()>)
  {
    function GetUsersByName(name: string): Logged<Result<seq<User>>>
    {
      Logged(usersByName(name), [UsersByNameCall(name)])
    }

    function GetProfile(id: string): Logged<Result<Profile>>
    {
      Logged(profile(id), [ProfileCall(id)])
    }

    function GetUserFriends(id: string): Logged<Result<seq<User>>>
    {
      Logged(userFriends(id), [FriendsCall(id)])
    }

    function GetCurrentUser(): Logged<Result<User>>
    {
      Logged(currentUser, [CurrentUserCall])
    }

    function AddFriendForCurrent(userId: string, friendId: string): Logged<Result<()>>
    {
      Logged(addFriendForCurrent(userId, friendId), [AddFriendCall(userId, friendId)])
    }
  }
}
