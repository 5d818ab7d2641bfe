# User and friends service: a Dafny model

The repository holds two versions of one small Android service. Each
version fetches users, their profiles and their friends from a data source.
It maps them to a domain model `UserLogic` and adds friends for the current
user.

- **Result-style version** (`ResultCode.kt`): every data-source call yields
  a `Result`. Operations are composed with `map`, `flatMap`, `fold`,
  `mapNotNull` and `getOrNull`. The two list operations of the repository
  treat a failed per-item lookup differently:
  - `findUsersByName` drops the item;
  - `getUserFriends` degrades it to the short model.
  The interactor counts how many friend additions succeeded.
- **Exception-style version** (`Sample.kt`): data-source calls return or
  throw. The repository builds its lists by loops that append. The
  interactor keeps the current user in a field once it has been fetched.

The data-source interface has no implementation in the repository, so the
model treats it as an **oracle** (`DataSource.Oracle`): a fixed outcome for
every request. Every request is recorded as a `Call`. This way the model
states which requests an operation makes, in which order, and which ones it
never makes. Examples: the transform of a failed `flatMap`, or friends after
the first failing `addFriend`.

Modules:

- `DataSource` (`datasource.dfy`): the records, `Result`, `Option`, the
  request log `Logged<T>` and the oracle. The oracle's five request
  functions (`GetUsersByName`, `GetProfile`, `GetUserFriends`,
  `GetCurrentUser`, `AddFriendForCurrent`) are the interface of
  ResultCode.kt:6-12: each gives the oracle's outcome with that one request
  logged.
- `Lists` (`lists.dfy`): Kotlin's `mapNotNull` with a lambda that asks the
  data source, and its characterisation as an in-order subsequence.
- `ResultCode`, `ResultRepository`, `ResultInteractor` (`result_code.dfy`):
  the Result-style version. All of it is pure functions, as in the source.
- `Sample` (`sample.dfy`): the exception-style version.
  - Classes `UserDataSource` (the oracle plus the request log),
    `UserRepositoryImpl` (its loops) and `UserInteractor` (the `currentUser`
    field).
  - A throw is modelled as a `Failure` that each method returns at once.
  - Every method is proved against a specification function (`...Outcome`,
    `...UpTo`). It gives the result, the new `currentUser` and the exact
    requests made. The lemmas beside those functions state what the
    source promises.

In both versions the interactor is modelled over this repository
(`ResultRepository` and `Sample.UserRepositoryImpl`), not over an arbitrary
implementation of the `UserRepository` interface.

## Model

| member | source | states |
|---|---|---|
| DataSource.Result.GetOrNull | app/src/main/java/com/example/myapplication/ResultCode.kt:58 | null exactly on a failure; on a success, the value itself |
| DataSource.Result.Fold | app/src/main/java/com/example/myapplication/ResultCode.kt:39-42 | applies exactly one handler: `onSuccess` to the value of a success, `onFailure` to the cause of a failure |
| Lists.MapNotNull | app/src/main/java/com/example/myapplication/ResultCode.kt:57-59 | never longer than the input; the lambda runs on each element once, in order, and its requests are made in that order |
| Lists.MapNotNullKeepsInOrder | app/src/main/java/com/example/myapplication/ResultCode.kt:57-59 | the result is the in-order subsequence of the values the lambda gave: positions strictly increasing, each kept value is the lambda's value at its position, and no position with a value is dropped |
| Lists.MapNotNullKeepsAll | app/src/main/java/com/example/myapplication/ResultCode.kt:57-59 | when the lambda never gives null, every element is kept, in place |
| ResultCode.MapProfileToUserLogic | app/src/main/java/com/example/myapplication/ResultCode.kt:27-30 | always succeeds; gives `Full` with the profile's id, name and friendsCount |
| ResultCode.MapUserToUserLogic | app/src/main/java/com/example/myapplication/ResultCode.kt:32-35 | always succeeds; gives `Short` with the user's id and name |
| ResultCode.FlatMap | app/src/main/java/com/example/myapplication/ResultCode.kt:38-42 | on a success, exactly the transform applied to the value; on a failure, a failure with the same cause, and the transform makes no request |
| ResultCode.Map | app/src/main/java/com/example/myapplication/ResultCode.kt:50 | on a success, the transformed value wrapped in `Success`, after the transform's requests; on a failure, the same cause and no request |
| ResultCode.FlatMapRightIdentity | app/src/main/java/com/example/myapplication/ResultCode.kt:38-42 | flatMap with `Success` as the transform returns its input and asks nothing |
| ResultCode.FlatMapAssociative | app/src/main/java/com/example/myapplication/ResultCode.kt:38-42 | two flatMaps in sequence equal one flatMap of the composed transform, requests included |
| ResultRepository.GetCurrentUserId | app/src/main/java/com/example/myapplication/ResultCode.kt:49-50 | one current-user request; succeeds exactly when it does, with the user's id; a failure keeps its cause |
| ResultRepository.GetUser | app/src/main/java/com/example/myapplication/ResultCode.kt:52-53 | one profile request for that id; fails exactly when getProfile fails, with its cause; on success, `Full` with the fetched profile's fields |
| ResultRepository.GetUserKeepsId | app/src/main/java/com/example/myapplication/ResultCode.kt:52-53 | when the data source returns the profile asked for, a successful getUser carries the requested id |
| ResultRepository.FindUsersByName | app/src/main/java/com/example/myapplication/ResultCode.kt:55-60 | fails exactly when getUsersByName fails, with its cause and after that one request; on success no longer than the matches |
| ResultRepository.LookupOrNull | app/src/main/java/com/example/myapplication/ResultCode.kt:58 | one profile request for the user; a value exactly when that profile can be fetched, and then the value getUser gives |
| ResultRepository.FindUsersByNameDrops | app/src/main/java/com/example/myapplication/ResultCode.kt:55-60 | drop policy: the result is the in-order subsequence of the matches whose getUser succeeded, each entry being that getUser's value, and no such match is missing; requests are the search and then one profile request per match, in order |
| ResultRepository.FindUsersByNameAllFound | app/src/main/java/com/example/myapplication/ResultCode.kt:55-60 | when every match's profile can be fetched, one `Full` per match, in order |
| ResultRepository.AddFriend | app/src/main/java/com/example/myapplication/ResultCode.kt:62-63 | the data source's outcome, unchanged, after exactly that request |
| ResultRepository.GetUserFriends | app/src/main/java/com/example/myapplication/ResultCode.kt:65-73 | fails exactly when the friend-list fetch fails, with its cause and after that one request |
| ResultRepository.EnrichOrNull | app/src/main/java/com/example/myapplication/ResultCode.kt:67-71 | one profile request for the friend; never null; `Full` with the profile's id, name and friendsCount when it can be fetched, `Short(friend.id, friend.name)` otherwise |
| ResultRepository.GetUserFriendsDegrades | app/src/main/java/com/example/myapplication/ResultCode.kt:65-73 | degrade policy: exactly one entry per friend, in order; `Full` of the profile when its lookup succeeds, `Short(friend.id, friend.name)` otherwise; one profile request per friend |
| ResultInteractor.GetCurrentUser | app/src/main/java/com/example/myapplication/ResultCode.kt:107-108 | a failing id request gives its failure, and getUser is never asked; otherwise the value of getUser of that id, after both requests |
| ResultInteractor.GetUser | app/src/main/java/com/example/myapplication/ResultCode.kt:110 | the repository's getUser, requests included |
| ResultInteractor.GetMyFriends | app/src/main/java/com/example/myapplication/ResultCode.kt:112-113 | a failing id request gives its failure, and no friend list is fetched; otherwise the repository's getUserFriends of that id |
| ResultInteractor.GetUserFriends | app/src/main/java/com/example/myapplication/ResultCode.kt:116-117 | the repository's getUserFriends, requests included |
| ResultInteractor.AddToMeAllFriendsWithName | app/src/main/java/com/example/myapplication/ResultCode.kt:119-126 | succeeds exactly when the id and the search both succeed; a failing id stops before the search; a failing search stops before any addFriend |
| ResultInteractor.AddFoundUsers | app/src/main/java/com/example/myapplication/ResultCode.kt:121-125 | succeeds exactly when the search does; a failing search gives its cause after that one request; a success counts at most the number of matches |
| ResultInteractor.CountAdded | app/src/main/java/com/example/myapplication/ResultCode.kt:122-124 | the count is at most the number of users, after exactly one addFriend(currentUserId, u.id) per user, in order |
| ResultInteractor.AddOrNull | app/src/main/java/com/example/myapplication/ResultCode.kt:123 | exactly the addFriend request; a value exactly when that addFriend succeeds |
| ResultInteractor.AddToMeUnfolds | app/src/main/java/com/example/myapplication/ResultCode.kt:119-126 | after a successful id and search, the outcome is the size of the mapNotNull over addFriend, after the id, search and addFriend requests in that order |
| ResultInteractor.AddedAreSuccesses | app/src/main/java/com/example/myapplication/ResultCode.kt:122-124 | the positions mapNotNull keeps over addFriend are exactly those whose addFriend succeeded |
| ResultInteractor.AddToMeAllFriendsWithNameCounts | app/src/main/java/com/example/myapplication/ResultCode.kt:119-126 | after a successful id and search: addFriend(currentUserId, u.id) is asked once per found user, in order; the count is exactly the number of those that succeeded, at most the number found |
| Sample.MapToUser | app/src/main/java/com/example/myapplication/Sample.kt:25 | copies id, name and friendsCount from the profile |
| Sample.CurrentUserIdOutcome | app/src/main/java/com/example/myapplication/Sample.kt:32-35 | one current-user request; succeeds exactly when it does, with the user's id; a throw keeps its cause |
| Sample.GetUserOutcome | app/src/main/java/com/example/myapplication/Sample.kt:37-40 | one profile request for that id; succeeds exactly when it does, with `mapToUser` of that profile; a throw keeps its cause |
| Sample.ProfilesUpTo | app/src/main/java/com/example/myapplication/Sample.kt:45-48 | the first n turns of the profile loop: the requests made are the first profile requests, one per user in order, at most n of them; on success exactly n requests and n entries |
| Sample.ProfilesOutcome | app/src/main/java/com/example/myapplication/Sample.kt:45-48 | the whole loop: its requests are a prefix of one profile request per user; on success all of them and one entry per user |
| Sample.FetchedProfilesOutcome | app/src/main/java/com/example/myapplication/Sample.kt:43-48 | the list request comes first; its throw is returned with no profile fetched; on success one entry per listed user, after one profile request per user |
| Sample.FindUsersOutcome | app/src/main/java/com/example/myapplication/Sample.kt:42-50 | findUsersByName: a throwing search gives its cause after that one request; on success one entry per match; the search is the first request |
| Sample.FriendsOutcome | app/src/main/java/com/example/myapplication/Sample.kt:56-64 | getUserFriends: a throwing friend-list fetch gives its cause after that one request; on success one entry per friend; the friend-list fetch is the first request |
| Sample.ProfilesFailureSticks | app/src/main/java/com/example/myapplication/Sample.kt:45-48 | once a profile fetch has thrown, no later turn of the loop runs or changes the outcome |
| Sample.ProfilesFailAfter | app/src/main/java/com/example/myapplication/Sample.kt:45-48 | a throw in any turn makes the loop fail |
| Sample.ProfilesUpToComplete | app/src/main/java/com/example/myapplication/Sample.kt:45-48 | after n turns whose fetches succeed: n entries, entry k the mapped profile of users[k], and one profile request per user, in order (the loop invariant `usersDto.size == i`) |
| Sample.ProfilesAllOrNothing | app/src/main/java/com/example/myapplication/Sample.kt:42-50 | the loop succeeds exactly when every profile fetch does; then one mapped profile per user, in order, after one request per user |
| Sample.ProfilesAbortAtFirstFailure | app/src/main/java/com/example/myapplication/Sample.kt:56-64 | when users[i] is the first whose profile fetch throws: that cause, no partial list, and no user after users[i] is fetched |
| Sample.FetchedProfilesAllOrNothing | app/src/main/java/com/example/myapplication/Sample.kt:43-48 | after a successful list request: success exactly when every profile fetch succeeds, then one mapped profile per listed user, in order, after the list request and one profile request each; the first throwing fetch gives its cause and no later request |
| Sample.FindUsersAllOrNothing | app/src/main/java/com/example/myapplication/Sample.kt:42-50 | findUsersByName after a successful search: succeeds exactly when every match's profile fetch does, with entry i the mapped profile of match i; the first throwing fetch gives its cause, with no partial list and no later request |
| Sample.FriendsAllOrNothing | app/src/main/java/com/example/myapplication/Sample.kt:56-64 | getUserFriends after a successful friend-list fetch: succeeds exactly when every friend's profile fetch does, with entry i the mapped profile of friend i; the first throwing fetch gives its cause, with no partial list and no later request |
| Sample.ProfilesAskNoCurrentUser | app/src/main/java/com/example/myapplication/Sample.kt:45-48 | the profile loop never asks for the current user |
| Sample.CurrentUserOutcome | app/src/main/java/com/example/myapplication/Sample.kt:89-95 | a cached user is returned without any request; otherwise the current-user request (its failure stops here) and then getUser of its id |
| Sample.CurrentUserRepeated | app/src/main/java/com/example/myapplication/Sample.kt:87-95 | k successive calls: a full cache is kept and nothing is asked; the only user ever cached is the one a fetch from an empty cache gives |
| Sample.CurrentUserAsks | app/src/main/java/com/example/myapplication/Sample.kt:90-93 | getCurrentUser asks for the current user exactly when the cache is empty |
| Sample.CurrentUserComputedOnce | app/src/main/java/com/example/myapplication/Sample.kt:87-95 | over k successive calls from an empty cache: when the first succeeds, the current user is asked for once and stays cached; when fetching fails, nothing is cached and every call asks again; a full cache is never changed and nothing is asked |
| Sample.AddOneAsks | app/src/main/java/com/example/myapplication/Sample.kt:108 | one loop turn asks for the current user exactly when the cache is empty |
| Sample.AddOneOutcome | app/src/main/java/com/example/myapplication/Sample.kt:108 | one loop turn: a failing getCurrentUser leaves the cache and makes no addFriend; otherwise the user is cached, then exactly addFriend(user.id, friendId) is made and its outcome taken; a full cache is kept |
| Sample.AddToFoundUpTo | app/src/main/java/com/example/myapplication/Sample.kt:107-109 | the first n turns of the loop: zero turns succeed, ask nothing and keep the cache; a full cache is kept; after a successful turn the cache is full |
| Sample.AddToFoundOutcome | app/src/main/java/com/example/myapplication/Sample.kt:107-109 | the whole loop: with no friends, success and no request; a full cache is kept; when someone was added, the cache is full |
| Sample.AddToMeOutcome | app/src/main/java/com/example/myapplication/Sample.kt:105-110 | a throwing findUsersByName (its search or any of its profile fetches) gives that cause after only the search's requests: no current-user or addFriend request, and the cache unchanged; success needs a successful findUsersByName; a full cache is kept |
| Sample.AddToFoundFailureSticks | app/src/main/java/com/example/myapplication/Sample.kt:107-109 | once a turn has thrown, no later friend is attempted |
| Sample.AddToFoundUpToAdds | app/src/main/java/com/example/myapplication/Sample.kt:107-109 | when the current user is found and the first n addFriends succeed: the user is cached, and the requests are the current user once, then addFriend(me.id, friends[k].id) for k < n, in order |
| Sample.AddToFoundAsksOnce | app/src/main/java/com/example/myapplication/Sample.kt:107-109 | over the first n turns the current user is asked for once when the cache starts empty and n > 0, never when it starts full |
| Sample.AddToMeNoCurrentUser | app/src/main/java/com/example/myapplication/Sample.kt:105-110 | when someone is found but the current user cannot be fetched: that cause, no addFriend, nothing cached |
| Sample.AddToMeStopsAtFirstFailure | app/src/main/java/com/example/myapplication/Sample.kt:105-110 | when the addFriend of friends[i] is the first to fail: that cause, the user stays cached, and exactly the addFriends of friends[0..i] were made, in order |
| Sample.AddToMeAddsAll | app/src/main/java/com/example/myapplication/Sample.kt:105-110 | when every addFriend succeeds: success after the current user (asked for only if someone was found) and one addFriend per friend, in order |
| Sample.AddToMeAsksCurrentUserAtMostOnce | app/src/main/java/com/example/myapplication/Sample.kt:105-110 | addToMeAllFriendsWithName asks for the current user at most once, and never when it is cached |
| Sample.UserDataSource.GetUsersByName | app/src/main/java/com/example/myapplication/Sample.kt:5 | the oracle's answer; the request is appended to the log |
| Sample.UserDataSource.GetProfile | app/src/main/java/com/example/myapplication/Sample.kt:6 | the oracle's answer; the request is appended to the log |
| Sample.UserDataSource.GetUserFriends | app/src/main/java/com/example/myapplication/Sample.kt:7 | the oracle's answer; the request is appended to the log |
| Sample.UserDataSource.GetCurrentUser | app/src/main/java/com/example/myapplication/Sample.kt:8 | the oracle's answer; the request is appended to the log |
| Sample.UserDataSource.AddFriendForCurrent | app/src/main/java/com/example/myapplication/Sample.kt:9 | the oracle's answer; the request is appended to the log |
| Sample.UserRepositoryImpl.GetCurrentUserId | app/src/main/java/com/example/myapplication/Sample.kt:32-35 | the current user's id or its throw, after that one request |
| Sample.UserRepositoryImpl.GetUser | app/src/main/java/com/example/myapplication/Sample.kt:37-40 | the mapped profile or its throw, after that one request |
| Sample.UserRepositoryImpl.FindUsersByName | app/src/main/java/com/example/myapplication/Sample.kt:42-50 | the loop's result and requests are those of `FindUsersOutcome`, so `ProfilesAllOrNothing` and `ProfilesAbortAtFirstFailure` hold of it |
| Sample.UserRepositoryImpl.AddFriend | app/src/main/java/com/example/myapplication/Sample.kt:52-54 | the data source's outcome, after exactly that request |
| Sample.UserRepositoryImpl.GetUserFriends | app/src/main/java/com/example/myapplication/Sample.kt:56-64 | the loop's result and requests are those of `FriendsOutcome`: one mapped profile per friend in order, or the first throw |
| Sample.UserInteractor.GetCurrentUser | app/src/main/java/com/example/myapplication/Sample.kt:89-95 | result and requests of `CurrentUserOutcome` from the old cache; afterwards `currentUser` holds the user exactly when the call succeeded |
| Sample.UserInteractor.GetUser | app/src/main/java/com/example/myapplication/Sample.kt:97 | the repository's getUser, requests included |
| Sample.UserInteractor.GetMyFriends | app/src/main/java/com/example/myapplication/Sample.kt:99-101 | getUserFriends of the (cached) current user's id; when the current user cannot be fetched, that cause, nothing cached and no friend list fetched |
| Sample.UserInteractor.GetUserFriends | app/src/main/java/com/example/myapplication/Sample.kt:103 | the repository's getUserFriends, requests included |
| Sample.UserInteractor.AddToMeAllFriendsWithName | app/src/main/java/com/example/myapplication/Sample.kt:105-110 | outcome, new `currentUser` and requests are those of `AddToMeOutcome`: the search, then the loop that the lemmas above describe |
| Sample.UserInteractor.AddToFound | app/src/main/java/com/example/myapplication/Sample.kt:107-109 | the loop of addToMeAllFriendsWithName: outcome, new `currentUser` and requests are those of `AddToFoundOutcome` |

## Left out

- Coroutine `suspend` semantics. Every call is a synchronous call to the oracle.
- Concrete data sources. Only the interfaces exist (ResultCode.kt:6-12, Sample.kt:4-10), so the data source is an oracle. It gives the same outcome for the same request every time, so a data source whose answers change between calls is not modelled.
- The `sample` callers (ResultCode.kt:130-139, Sample.kt:114-122). Their handlers are empty.
- `runCatching` inside the Result-style mapper. The constructors it wraps cannot throw, so the mapper always succeeds.
- Exception types. A failure carries an opaque `Cause`, and no kinds are distinguished. In the exception-style version a throw is a `Failure` that each method returns unchanged at once.
- Thread-safety of the `currentUser` cache. Calls are sequential.
- The unused `isStudent` field of `Profile`.
- The `MapperUserLogic` instances. The mapper is stateless, so it is modelled as plain functions.
- Kotlin's 32-bit `Int` for `friendsCount` and for the count of additions. Both are copied or counted and never overflow in practice, so they are unbounded `int`.
- `Sample.UserInteractor.AddToMeAllFriendsWithName` returns `Result<()>` for the Kotlin `Unit` function. A `Failure` stands for the exception it lets escape.
- `Sample.UserInteractor.AddToFound` is the loop of `addToMeAllFriendsWithName` (Sample.kt:107-109) taken out as its own method. The source has it inline.

Two properties one might expect of this service hold only under a condition. The model follows the code:

- Repeated `getCurrentUser` calls ask the data source at most once only when the first fetch succeeds. Sample.kt:90-93 caches only a successful fetch, so after a failure every call asks again (`Sample.CurrentUserComputedOnce`).
- `getUser(id)` returns a user with the id asked for only when the data source returns that profile. The code copies `profile.id` (`ResultRepository.GetUserKeepsId` carries that as its precondition).
