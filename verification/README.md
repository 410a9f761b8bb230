# GitHub users — a Dafny model of the data layer and the two view models

This project models the logic at the core of a small iOS client for the GitHub users
API. It has a list screen that pages through `/users` and a detail screen for
`/users/{username}`. The model covers five parts:

- **The single-slot user cache.** A `UserStore` holds at most one list of cached users
  with the instant it was written. `InMemoryUserStore` implements it as an optional
  slot. `LocalUserLoader` sits on top: `save` deletes then inserts, `load` returns the
  cached users when the cache policy accepts them, and `validateCache` deletes a stale
  or unreadable cache. `toLocal` and `toModels` convert between domain users and the
  cache's own records.
- **The repository's fetch decision** (`DefaultUserRepository`). For the first page
  with a usable cache, the cached list is emitted first and the network is still asked;
  the remote list follows only when its logins differ. Successful first pages are
  written back to the cache, and cache errors are swallowed. Later pages and user
  details come from the network only.
- **The list view model's paging state machine** (`UserListViewModel`): page counter,
  rows, loading state, requests to the use case, errors and selection.
- **The detail view model** (`UserDetailViewModel`): the optional current user; a
  success replaces it and a failure publishes an error and keeps it.
- **The pure mappings.** These are the DTO-to-domain mappers, the list and detail
  sections and cell items, and the user cell's two configurations. They also include
  `NetworkError.from` and the error type's custom `==`, the `UserAPI` endpoint
  description, and the request-encoding and validation choice of `MultiTargetAdapter`.

Every operation is a pure function over immutable values. Things the code reads from
outside become parameters:

- the clock reading is a `Timestamp` argument, an integer standing for Swift's
  floating-point `Date`;
- the cache policy's validity rule is a `Validator` function argument, whose body the
  model leaves open, so every statement holds for any rule;
- whether a store call throws is a `Fault` argument;
- what the network returns is a `Remote` argument;
- `UUID()` is a counter in the list view model's state.

The model assumes that a store call that throws leaves the store as it was. The
in-memory store never throws, and the store protocol says nothing about failures, so
this is the model's own assumption (see "Left out" for the Core Data store).

Each view model is an event fold. Inputs (`viewDidLoad`, `loadMore`, `refresh`,
`didSelectUser(at:)`) and the pending fetch's results (a delivered list, completion,
failure) arrive as one ordered list of events. Each event moves the state and appends
the outputs the view model publishes: loading-state changes, item lists, use-case
requests, errors and selections. RxSwift's `flatMapLatest` is modelled as "a new
trigger supersedes the pending fetch". A result that arrives while no fetch is pending
is ignored.

Behaviour of the code worth noting:

- The repository never skips the network on a cache hit. It never falls back to the
  cache when the network fails. It has no `forceRefresh` parameter: it takes
  `since` and `perPage` only.
- The list view model does not drop a trigger while a load is in progress. A busy view
  model keeps its current loading state and fetches again, superseding the pending
  fetch.
- A refresh asks for `since = 20 × page counter`, with the counter read before the
  refresh resets it to 0. It does not ask for page 0.
- A failed fetch still moves the page counter on, because the error is caught into an
  empty list that goes through `handleNewItems`.

Modules: `Wrappers` (`Option`, `Result`), `Domain`, `UserStore`, `InMemoryUserStore`,
`LocalUserMapping`, `LocalUserLoader`, `ResponseMapper`, `Moya` (the parts of Moya's
error and response types the classification reads), `NetworkErrors`, `NetworkClient`,
`UserApi`, `UserRepository`, `UserListSection`, `UserDetailSection`, `UserCell`,
`UserListViewModel`, `UserDetailViewModel`.

## Model

| member | source | states |
|---|---|---|
| UserStore.Retrieve | Modules/LocalStorage/LocalStorage/Classes/Coredata/UserStore.swift:13 | Delivers the slot's content and never changes the store; a failing call passes its error on. |
| UserStore.Insert | Modules/LocalStorage/LocalStorage/Classes/Coredata/UserStore.swift:12 | On success the slot holds exactly the given users and instant, whatever it held before; a failing call leaves the store unchanged. |
| UserStore.DeleteCachedUsers | Modules/LocalStorage/LocalStorage/Classes/Coredata/UserStore.swift:11 | On success the store is empty, whatever it held; a failing call leaves it unchanged. |
| UserStore.RetrieveFromEmptyDeliversNothing | Modules/LocalStorage/Tests/LocalStorageTests/CoreDataUserStoreTests.swift:23-26 | Retrieving from an empty store delivers nothing. |
| UserStore.RetrieveTwiceAgrees | Modules/LocalStorage/Tests/LocalStorageTests/CoreDataUserStoreTests.swift:47-58 | Retrieval has no side effects: retrieving twice delivers the same result as once, on any store. |
| UserStore.RetrieveAfterInsert | Modules/LocalStorage/Tests/LocalStorageTests/CoreDataUserStoreTests.swift:35-45 | After an insert, retrieval delivers exactly the inserted users and instant. |
| UserStore.InsertOverrides | Modules/LocalStorage/Tests/LocalStorageTests/CoreDataUserStoreTests.swift:75-86 | A second insert overrides the first: the result is the same as if only the second had happened. |
| UserStore.DeleteEmptyStore | Modules/LocalStorage/Tests/LocalStorageTests/CoreDataUserStoreTests.swift:88-96 | Deleting an empty store succeeds and leaves it empty. |
| UserStore.DeleteEmptiesInserted | Modules/LocalStorage/Tests/LocalStorageTests/CoreDataUserStoreTests.swift:98-110 | Deleting after an insert succeeds, and retrieval then delivers nothing. |
| UserStore.DeleteIdempotent | Modules/LocalStorage/LocalStorage/Classes/Inmemory/InMemoryUserStore.swift:17-19 | Deleting twice is the same as deleting once. |
| InMemoryUserStore.DeleteCachedUsers | Modules/LocalStorage/LocalStorage/Classes/Inmemory/InMemoryUserStore.swift:17-19 | Always succeeds and empties the slot; agrees with the store contract's delete. |
| InMemoryUserStore.Insert | Modules/LocalStorage/LocalStorage/Classes/Inmemory/InMemoryUserStore.swift:21-23 | Always succeeds and replaces the slot by the given users and instant; agrees with the store contract's insert. |
| InMemoryUserStore.Retrieve | Modules/LocalStorage/LocalStorage/Classes/Inmemory/InMemoryUserStore.swift:25-27 | Always succeeds, delivers the slot and leaves it unchanged; agrees with the store contract's retrieve. |
| LocalUserMapping.ToLocal | Modules/LocalStorage/LocalStorage/Classes/Coredata/Extension.swift:11-15 | One cache record per user, same length and order, with login, avatar and profile url copied. |
| LocalUserMapping.ToModels | Modules/LocalStorage/LocalStorage/Classes/Coredata/Extension.swift:17-21 | One domain user per cache record, same length and order, every field copied. |
| LocalUserMapping.ModelsOfLocal | Modules/LocalStorage/LocalStorage/Classes/Coredata/Extension.swift:11-21 | Converting users to cache records and back gives the same users. |
| LocalUserMapping.LocalOfModels | Modules/LocalStorage/LocalStorage/Classes/Coredata/Extension.swift:11-21 | Converting cache records to users and back gives the same records. |
| LocalUserLoader.Save | Modules/LocalStorage/LocalStorage/Classes/Coredata/LocalUserLoader.swift:21-24 | Succeeds iff both the delete and the insert do. A failing delete stops the save before the insert and leaves the store as it was. A failing insert leaves it empty. On success the slot holds the converted users stamped with the clock reading. |
| LocalUserLoader.Load | Modules/LocalStorage/LocalStorage/Classes/Coredata/LocalUserLoader.swift:26-31 | Never changes the store and passes a retrieval error on. Otherwise it returns the cached users converted to domain users when a cache exists and the policy accepts its instant, and no users otherwise. |
| LocalUserLoader.ValidateCache | Modules/LocalStorage/LocalStorage/Classes/Coredata/LocalUserLoader.swift:33-41 | Deletes the cache when retrieval throws or the policy rejects the cache, and passes only the delete's error on. Leaves the store alone when the cache is absent or accepted. |
| LocalUserLoader.LoadAfterSave | Modules/LocalStorage/LocalStorage/Classes/Coredata/LocalUserLoader.swift:21-31 | A load after a successful save returns exactly the saved users when the policy accepts the save's instant, and nothing otherwise. |
| LocalUserLoader.SecondSaveWins | Modules/LocalStorage/LocalStorage/Classes/Coredata/LocalUserLoader.swift:21-31 | After two saves, a load sees only the second list: no merge with the first. |
| LocalUserLoader.SweepKeepsLoad | Modules/LocalStorage/LocalStorage/Classes/Coredata/LocalUserLoader.swift:26-41 | After a successful sweep the store is empty or holds an accepted cache, and a load at the same instant returns what it returned before. |
| Domain.SameLoginsIffLoginsEqual | Modules/Data/Sources/Data/Repositoty/UserRepository.swift:53 | The step-wise `elementsEqual` by login holds iff the two lists have the same login sequence, length included. |
| ResponseMapper.MapUser | Modules/Data/Sources/Data/DataMapper/ResponseMapper.swift:18-24 | Copies login, `avatar_url` to `avatarUrl` and `html_url` to `htmlUrl`. |
| ResponseMapper.MapUserDetail | Modules/Data/Sources/Data/DataMapper/ResponseMapper.swift:26-35 | Copies login and both urls, keeps location (including its absence), and copies followers and following unchanged. |
| ResponseMapper.MapUserIsBijective | Modules/Data/Sources/Data/DataMapper/ResponseMapper.swift:18-24 | Mapping a user DTO loses nothing, and every domain user is the mapping of some DTO. |
| ResponseMapper.MapUserDetailIsBijective | Modules/Data/Sources/Data/DataMapper/ResponseMapper.swift:26-35 | Mapping a detail DTO loses nothing, and every domain detail is the mapping of some DTO. |
| UserRepository.MapUsers | Modules/Data/Sources/Data/Repositoty/UserRepository.swift:73-77 | The remote users are the DTOs mapped element by element, keeping count and order. |
| UserRepository.CachedFirstPage | Modules/Data/Sources/Data/Repositoty/UserRepository.swift:44-46 | A cached first page is usable iff the load succeeds, a cache exists, the policy accepts it and it is non-empty; it is then the cached users converted. |
| UserRepository.FetchRemoteUsers | Modules/Data/Sources/Data/Repositoty/UserRepository.swift:70-83 | A network failure is passed on with the store untouched. A success gives the mapped users and, only for `since == 0`, stores them through a save. |
| UserRepository.FetchUsers | Modules/Data/Sources/Data/Repositoty/UserRepository.swift:43-60 | Always sends `users(since, perPage)`, and fails iff the network does. Without a usable cached first page it emits just the mapped remote list. With one, it emits the cached list first, then the remote list iff its logins differ. At most two lists are emitted. Only a successful first page changes the store. |
| UserRepository.LaterPagesIgnoreCache | Modules/Data/Sources/Data/Repositoty/UserRepository.swift:43-60 | For `since != 0`, what is emitted and whether it fails do not depend on the store, the clock or store faults, and the store is untouched. |
| UserRepository.LoadFailureActsAsEmptyCache | Modules/Data/Sources/Data/Repositoty/UserRepository.swift:45 | A failing cache load gives the same emissions and error as an empty cache. |
| UserRepository.SaveFailureIsSwallowed | Modules/Data/Sources/Data/Repositoty/UserRepository.swift:78-82 | Whether the save's delete or insert fails changes neither the emissions nor the error. |
| UserRepository.FirstPageIsCached | Modules/Data/Sources/Data/Repositoty/UserRepository.swift:78-82 | After a successful first page saved without fault, a load at the save's instant (when the policy accepts it) returns exactly the mapped users. |
| UserRepository.FetchUserDetail | Modules/Data/Sources/Data/Repositoty/UserRepository.swift:62-68 | One `userDetail(username)` request. A success is the mapped detail; a failure is passed on unchanged; no cache is involved. |
| UserRepository.FetchUserDetailRoundTrip | Modules/Data/Sources/Data/Repositoty/UserRepository.swift:62-68 | The request's path reads back as exactly the requested username, and a successful result maps back to the very record the network returned. |
| UserListViewModel.TriggerState | Modules/Users/Sources/Users/Presentation/ViewModels/UserListViewModel.swift:169-175 | Load-more maps to pagination, the other triggers to initial; never to none. |
| UserListViewModel.IsRefresh | Modules/Users/Sources/Users/Presentation/ViewModels/UserListViewModel.swift:177-183 | Only a refresh forces a refresh. |
| UserListViewModel.EffectiveState | Modules/Users/Sources/Users/Presentation/ViewModels/UserListViewModel.swift:132-136 | The trigger's state when idle, the current state when busy; never none, so no trigger is dropped. |
| UserListViewModel.StartFetch | Modules/Users/Sources/Users/Presentation/ViewModels/UserListViewModel.swift:185-195 | Sets the effective loading state and starts a fetch. A refresh empties the rows, publishes the empty list and zeroes the counter. The request is `since = 20 × counter` as it was before any reset, `perPage = 20`, and `forceRefresh` only for a refresh. |
| UserListViewModel.Deliver | Modules/Users/Sources/Users/Presentation/ViewModels/UserListViewModel.swift:197-214 | A delivered list ends loading, keeps the old rows as a prefix, and appends rows showing exactly the delivered users. It moves the counter on by one. It is ignored when no fetch is pending. |
| UserListViewModel.DeliverKeepsValid | Modules/Users/Sources/Users/Presentation/ViewModels/UserListViewModel.swift:197-214 | The appended rows get identifiers never drawn before, so every row identifier stays drawn and no two rows share one. |
| UserListViewModel.Fail | Modules/Users/Sources/Users/Presentation/ViewModels/UserListViewModel.swift:202-214 | A failure publishes the error once, ends loading, republishes the unchanged rows, and still moves the counter on by one. |
| UserListViewModel.Select | Modules/Users/Sources/Users/Presentation/ViewModels/UserListViewModel.swift:158-163 | Selecting index i publishes the row at i iff 0 ≤ i < number of rows, and nothing otherwise; the state is unchanged. |
| UserListViewModel.StepInvariants | Modules/Users/Sources/Users/Presentation/ViewModels/UserListViewModel.swift:185-214 | Every event keeps row identifiers drawn and distinct. Only a refresh empties the rows or lowers the counter; every other event keeps the rows as a prefix. |
| UserListViewModel.RunInvariants | Modules/Users/Sources/Users/Presentation/ViewModels/UserListViewModel.swift:132-214 | Over any run the row identifiers stay drawn and distinct. A run without refresh only appends rows and never lowers the counter. |
| UserListViewModel.StepRequests | Modules/Users/Sources/Users/Presentation/ViewModels/UserListViewModel.swift:193-195 | Each trigger makes exactly one request, for the page the counter stands at, and no other event makes one. |
| UserListViewModel.FetchRound | Modules/Users/Sources/Users/Presentation/ViewModels/UserListViewModel.swift:185-214 | A trigger answered by one list and completion makes exactly the trigger's request. It publishes the trigger's outputs followed by the delivery's, and leaves the state as the delivery does with no fetch pending. |
| UserListViewModel.PagingAppendsPages | Modules/Users/Sources/Users/Presentation/ViewModels/UserListViewModel.swift:193-214 | From idle, n load-more rounds request pages counter, counter+1, … in order. The rows then show the earlier users followed by every page's users, and the counter has moved on by n. |
| UserListViewModel.FirstLoad | Modules/Users/Tests/UsersTests/UserListViewModelTests.swift:67-76 | The first load requests `since` 0, 20 per page, not forced. Loading goes initial then none, the rows show the delivered users, and the counter is 1. |
| UserListViewModel.FirstLoadThenLoadMore | Modules/Users/Tests/UsersTests/UserListViewModelTests.swift:134-143 | After 20 users and a load-more of 20, the second request is `since` 20. Loading goes initial, none, pagination, none, and there are 40 rows. |
| UserListViewModel.FirstLoadFails | Modules/Users/Tests/UsersTests/UserListViewModelTests.swift:176-178 | A failing first load publishes the error once, loading goes initial then none, no rows appear, and the counter still moves to 1. |
| UserListViewModel.RefreshRequestsCounterPage | Modules/Users/Sources/Users/Presentation/ViewModels/UserListViewModel.swift:185-195 | A refresh requests `since = 20 × counter`, read before the reset, not page 0. The delivered users replace the rows and the counter ends at 1. |
| UserListViewModel.LoadMoreWhileLoadingRefetches | Modules/Users/Sources/Users/Presentation/ViewModels/UserListViewModel.swift:132-146 | A load-more during the first load is not dropped: it keeps the initial loading state and requests the same page again. |
| UserListViewModel.FailedPageIsSkipped | Modules/Users/Sources/Users/Presentation/ViewModels/UserListViewModel.swift:202-214 | After a failed load-more the next load-more requests the following page, and the rows are untouched. |
| UserListViewModel.FailedLoadMore | Modules/Users/Sources/Users/Presentation/ViewModels/UserListViewModel.swift:185-214 | From an idle state, a load-more that fails publishes pagination and asks for the counter's page, then the error, none and the unchanged rows; the counter still moves on by one. |
| UserListViewModel.LoadMoreFails | Modules/Users/Tests/UsersTests/UserListViewModelTests.swift:181-241 | A first load that succeeds followed by a load-more that fails gives two use-case calls (since 0, then since 20), loading states initial, none, pagination, none, and the error published once, after the pagination state; the first page's rows stay. |
| UserListSection.RawValue | Modules/Users/Sources/Users/Presentation/ViewControllers/UserList/UserListSection.swift:11-14 | A section's raw value is its position in declaration order: users 0, loader 1. |
| UserListSection.SectionOfRaw | Modules/Users/Sources/Users/Presentation/ViewControllers/UserList/UserListSection.swift:11-14 | A raw value names a section iff it is 0 or 1, and then the section with that raw value. |
| UserListSection.RawValueRoundTrip | Modules/Users/Sources/Users/Presentation/ViewControllers/UserList/UserListSection.swift:11-14 | Raw value and section convert both ways without loss. |
| UserListSection.CellItem | Modules/Users/Sources/Users/Presentation/ViewControllers/UserList/UserListSection.swift:59-69 | A row copies login, avatar and profile url from the user and carries the drawn identifier. |
| UserListSection.CellItemIdentity | Modules/Users/Sources/Users/Presentation/ViewControllers/UserList/UserListSection.swift:59-69 | A row shows exactly its user. Two rows are equal iff built from equal users with the same identifier, so rows for equal users with fresh identifiers differ. |
| UserListSection.UsersOfCellItems | Modules/Users/Sources/Users/Presentation/ViewControllers/UserList/UserListSection.swift:65-69 | The rows built from a list of users show exactly those users, in order. |
| UserDetailSection.RawValue | Modules/Users/Sources/Users/Presentation/ViewControllers/UserDetail/UserDetailSection.swift:11-15 | Header is 0, stats 1, blog 2. |
| UserDetailSection.SectionOfRaw | Modules/Users/Sources/Users/Presentation/ViewControllers/UserDetail/UserDetailSection.swift:11-15 | A raw value names a section iff it is 0, 1 or 2, and then the section with that raw value. |
| UserDetailSection.RawValueRoundTrip | Modules/Users/Sources/Users/Presentation/ViewControllers/UserDetail/UserDetailSection.swift:11-15 | Raw value and section convert both ways without loss. |
| UserDetailSection.HeaderItem | Modules/Users/Sources/Users/Presentation/ViewControllers/UserDetail/UserDetailSection.swift:47-51 | Copies avatar url, login and the optional location. |
| UserDetailSection.StatsItem | Modules/Users/Sources/Users/Presentation/ViewControllers/UserDetail/UserDetailSection.swift:58-61 | Copies followers and following unchanged. |
| UserDetailSection.BlogItem | Modules/Users/Sources/Users/Presentation/ViewControllers/UserDetail/UserDetailSection.swift:67-69 | Holds exactly the url it was built with. |
| UserDetailSection.HeaderAndStatsDetermineDetail | Modules/Users/Sources/Users/Presentation/ViewControllers/UserDetail/UserDetailSection.swift:42-62 | For two details with the same profile url, the header and stats items are equal iff the details are. |
| UserCell.AvatarUrl | Modules/Users/Sources/Users/Presentation/ViewControllers/Views/UserCell.swift:28-35 | The wrapped item's avatar url, for both configurations. |
| UserCell.Name | Modules/Users/Sources/Users/Presentation/ViewControllers/Views/UserCell.swift:37-44 | The login, for both configurations. |
| UserCell.Url | Modules/Users/Sources/Users/Presentation/ViewControllers/Views/UserCell.swift:46-53 | The profile url for a list row, absent for a header. |
| UserCell.Location | Modules/Users/Sources/Users/Presentation/ViewControllers/Views/UserCell.swift:55-62 | Absent for a list row, the header's location for a header. |
| UserCell.RowShowsUser | Modules/Users/Sources/Users/Presentation/ViewControllers/Views/UserCell.swift:27-63 | A cell built from a user's row shows that user's login, avatar and profile url, and no location. |
| UserCell.HeaderShowsDetail | Modules/Users/Sources/Users/Presentation/ViewControllers/Views/UserCell.swift:27-63 | A cell built from a detail's header shows its login, avatar and location, and no link. |
| UserDetailViewModel.Init | Modules/Users/Sources/Users/Presentation/ViewModels/UserDetailViewModel.swift:43-53 | A new view model keeps the given username, holds no user and has no fetch pending. |
| UserDetailViewModel.Replayed | Modules/Users/Sources/Users/Presentation/ViewModels/UserDetailViewModel.swift:78 | A new subscriber to the user output is given the held user, or nothing while none is held. |
| UserDetailViewModel.StartFetch | Modules/Users/Sources/Users/Presentation/ViewModels/UserDetailViewModel.swift:86-93 | Both triggers request the username given at construction and leave the user as it is. |
| UserDetailViewModel.Succeed | Modules/Users/Sources/Users/Presentation/ViewModels/UserDetailViewModel.swift:103-105 | A success replaces the user and publishes it with every field intact; it is ignored when no fetch is pending. |
| UserDetailViewModel.Fail | Modules/Users/Sources/Users/Presentation/ViewModels/UserDetailViewModel.swift:95-98 | A failure publishes the error and no user, and keeps the user. |
| UserDetailViewModel.StepFacts | Modules/Users/Sources/Users/Presentation/ViewModels/UserDetailViewModel.swift:86-109 | Per event: a trigger makes exactly one request, for the username. A pending success publishes and stores its user. A pending failure publishes only its error and keeps the user. |
| UserDetailViewModel.RunRequests | Modules/Users/Sources/Users/Presentation/ViewModels/UserDetailViewModel.swift:86-93 | Over any run the username never changes, the number of requests equals the number of triggers, and every request is for the construction username. |
| UserDetailViewModel.RunKeepsLatestUser | Modules/Users/Sources/Users/Presentation/ViewModels/UserDetailViewModel.swift:91-105 | Over any run the user held at the end is the last one published, the latest replacing the earlier, or the starting one when none was published. |
| UserDetailViewModel.NoSuccessNoUser | Modules/Users/Sources/Users/Presentation/ViewModels/UserDetailViewModel.swift:95-98 | A run with no success publishes no user and keeps the user. |
| UserDetailViewModel.FreshRunReplaysLatest | Modules/Users/Sources/Users/Presentation/ViewModels/UserDetailViewModel.swift:43 | From a new view model, a late subscriber is given exactly the last user published. Before any success it is given nothing, since the initial absence is filtered out. |
| UserDetailViewModel.ViewDidLoadFetchesDetail | Modules/Users/Tests/UsersTests/UserDetailViewModelTests.swift:55-69 | A successful first load makes one request for the username and publishes the user with every field intact. |
| UserDetailViewModel.ViewDidLoadFailureEmitsNoUser | Modules/Users/Tests/UsersTests/UserDetailViewModelTests.swift:72-93 | A failing first load makes one request, publishes the error and no user. |
| UserDetailViewModel.SuccessiveLoadsEmitInOrder | Modules/Users/Tests/UsersTests/UserDetailViewModelTests.swift:95-130 | Two loads make two requests and publish both users in order; the later one is held. |
| UserDetailViewModel.FailedRefreshKeepsUser | Modules/Users/Sources/Users/Presentation/ViewModels/UserDetailViewModel.swift:95-98 | A refresh that fails after a successful load publishes the error and keeps the loaded user. |
| NetworkErrors.From | Modules/NetworkService/Sources/NetworkService/Networking/NetworkError.swift:29-51 | Status-code failures keep code and body. An underlying error becomes no-internet iff it is a not-connected URL error, and underlying otherwise. Object, encodable and parameter-encoding errors become underlying; image, JSON and string mapping errors become decoding failures; request mapping becomes invalid response. A non-Moya error becomes underlying. Unauthorized is never produced. |
| NetworkErrors.EqualIffSameKey | Modules/NetworkService/Sources/NetworkService/Networking/NetworkError.swift:55-69 | `==` holds iff both errors are the same case and agree on code and body, or on the underlying error's description; different cases are unequal. |
| NetworkErrors.EqualIsIdentityOffUnderlying | Modules/NetworkService/Sources/NetworkService/Networking/NetworkError.swift:55-69 | When at most one side is an underlying error, `==` is plain equality. |
| NetworkErrors.EqualIsEquivalence | Modules/NetworkService/Sources/NetworkService/Networking/NetworkError.swift:55-69 | `==` is reflexive, symmetric and transitive. |
| NetworkErrors.FromRespectsDescription | Modules/NetworkService/Sources/NetworkService/Networking/NetworkError.swift:50-65 | Two non-Moya errors classify to `==` network errors iff their localized descriptions agree. |
| NetworkClient.TaskOf | Modules/NetworkService/Sources/NetworkService/Networking/NetworkClient.swift:87-98 | No parameters gives a plain request whatever the method. GET with parameters uses URL encoding, and POST, PUT or PATCH use JSON encoding. Any other method gives a plain request. Sent parameters are the target's own. |
| NetworkClient.ParametersSentIff | Modules/NetworkService/Sources/NetworkService/Networking/NetworkClient.swift:87-98 | Parameters reach the request iff there are some and the method is GET, POST, PUT or PATCH. |
| NetworkClient.ValidationTypeOf | Modules/NetworkService/Sources/NetworkService/Networking/NetworkClient.swift:100-102 | Every target validates on success codes. |
| UserApi.Path | Modules/Domain/Sources/Domain/Network/UserAPI.swift:20-27 | The list path is `/users` whatever the paging values; the detail path is `/users/` followed by the username verbatim. |
| UserApi.PathNamesRequest | Modules/Domain/Sources/Domain/Network/UserAPI.swift:20-27 | A detail path gives back its username, and the list path is never read as a detail path. |
| UserApi.Method | Modules/Domain/Sources/Domain/Network/UserAPI.swift:29-31 | Every request is a GET. |
| UserApi.Parameters | Modules/Domain/Sources/Domain/Network/UserAPI.swift:33-43 | The list request has exactly the keys `since` and `per_page` with its two values; the detail request has none. |
| UserApi.Headers | Modules/Domain/Sources/Domain/Network/UserAPI.swift:45-47 | Every request sends only the JSON UTF-8 Content-Type header. |
| UserApi.AuthorizationType | Modules/Domain/Sources/Domain/Network/UserAPI.swift:49-51 | No request carries an authorization type. |
| UserApi.RequestShape | Modules/Domain/Sources/Domain/Network/UserAPI.swift:16-51 | Both requests go to `https://api.github.com` as GETs and validate on success codes. The list request sends `since` and `per_page` URL-encoded; the detail request is plain. |

## Left out

- Core Data: the Core Data store, its managed objects and the persistent-container helpers are framework calls. The store model describes a store whose failing calls change nothing, which the Core Data store does not always do (next line).
- A store call that fails part-way: a failing call is modelled as leaving the store unchanged. This is the model's own assumption; the store protocol states nothing about failures. The Core Data `insert` first deletes the old cache and saves that deletion, then saves the new one; if that last save throws, the old cache is already gone rather than kept.
- `Date`: Swift's `Date` is a floating-point `TimeInterval`; the model uses an integer `Timestamp`. Only the cache policy's validity rule reads it, and that rule is an open parameter here, so no statement depends on the representation.
- `UserCachePolicy.validate`: its definition is not part of this model. It is a function parameter, and no maximum age or clock rule is assumed.
- RxSwift scheduling and lifetime: `observe(on:)`, `subscribe(on:)`, disposal and the `weak self` early returns are concurrency plumbing. Inputs and fetch results are one sequential event list. A view model released mid-fetch is not modelled.
- The `withLatestFrom` refresh flag: the model takes each trigger's own refresh flag, which is what the merged stream yields when triggers arrive one at a time.
- The detail view model's `onError` branch: it cannot fire, because every use-case error is caught first.
- The use-case wrappers: they pass calls straight through and their signatures disagree. The list view model is modelled against the three-argument call it makes. The use-case result is an abstract event: a delivered list, completion or failure.
- UserRepository.FetchUsers: "the remote list is emitted iff its logins differ" compares logins code point by code point, as Dafny strings compare. Swift's `String ==` compares by Unicode canonical equivalence, so a remote login `"cafe\u{301}"` against a cached `"caf\u{E9}"` is a difference here and not in Swift. The two agree on GitHub's logins, which are ASCII.
- NetworkErrors.EqualIffSameKey: the underlying-error case compares localized descriptions code point by code point, while Swift's `String ==` identifies canonically equivalent descriptions. The two agree when both descriptions are ASCII, or are both already in the same normalization form (such as NFC); otherwise, for instance the Angstrom sign `"\u{212B}"` against `"\u{00C5}"`, or combining marks in a different order, Swift calls them equal and the model does not.
- NetworkErrors.FromRespectsDescription: "the descriptions agree" means code-point equality here; Swift's `==` also identifies canonically equivalent descriptions, as for EqualIffSameKey.
- `errorDescription` strings and localization: these are display text.
- Numbers are unbounded integers. `since = page × 20` cannot overflow Swift's `Int` for any reachable page counter, so no wrap-around is modelled.
- Request parameters are narrowed from `[String: Any]` to integer values, the only kind the endpoints send.
- `UUID()` is modelled as a counter of identifiers drawn. Only freshness matters, not randomness.
- Moya errors and URL errors are reduced to the fields the classification reads. Response bodies are byte sequences.
- The Moya request pipeline, `NetworkLogger`, `NetworkConfiguration`, coordinators, the DI container, view controllers, cell layout, the infinite-scroll threshold and `Design.swift` are UI, I/O or framework glue.
