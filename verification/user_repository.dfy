/** `DefaultUserRepository`: the first page served from the cache and then from the
    network, every other page and every detail from the network, and successful first
    pages written back to the cache. Each fetch is one pure step from the inputs it sees
    to what it emits and the store it leaves. */
module UserRepository {
  import opened Wrappers
  import opened Domain
  import opened UserStore
  import opened LocalUserMapping
  import opened LocalUserLoader
  import opened ResponseMapper
  import opened NetworkErrors
  import opened UserApi

  /** What the network client delivers for one request. */
  datatype Remote<T> = Received(value: T) | RequestFailed(error: NetworkError)

  /** The cache side of one fetch: the policy's rule, the clock when loading and when
      saving, and whether each store call fails. */
  datatype CacheEnv = CacheEnv(
    validate: Validator,
    loadNow: Timestamp,
    saveNow: Timestamp,
    retrieveFault: Fault,
    deleteFault: Fault,
    insertFault: Fault)

  /** One `fetchUsers` run: the request it sends, the lists it emits in order, the error
      that ends it (if any), and the store afterwards. */
  datatype UsersFetch = UsersFetch(
    request: UserAPI,
    emissions: seq<seq<User>>,
    error: Option<NetworkError>,
    store: Store)

  /** `dtos.map(mapper.map)`. */
  function MapUsers(dtos: seq<UserDTO>): (us: seq<User>)
    ensures |us| == |dtos|
    ensures forall i :: 0 <= i < |dtos| ==> us[i] == MapUser(dtos[i])
  {
    seq(|dtos|, i requires 0 <= i < |dtos| => MapUser(dtos[i]))
  }

  /** `try? cache.load()` kept only when non-empty: the usable cached first page. A failing
      load counts as no cache. */
  function CachedFirstPage(store: Store, env: CacheEnv): (c: Option<seq<User>>)
    ensures c.Some? <==>
              env.retrieveFault.NoFault? && HoldsValid(store, env.loadNow, env.validate)
              && |store.cache.value.users| > 0
    ensures c.Some? ==> c.value == ToModels(store.cache.value.users)
  {
    match Load(store, env.loadNow, env.validate, env.retrieveFault).result
    case Success(users) => if users != [] then Some(users) else None
    case Failure(_) => None
  }

  /** `fetchRemoteUsers`: one request; on success the mapped users, and for the first
      page a save whose failure is swallowed (`try?`). */
  function FetchRemoteUsers(since: int, perPage: int, store: Store, remote: Remote<seq<UserDTO>>, env: CacheEnv)
    : (r: (Result<seq<User>, NetworkError>, Store))
    ensures remote.RequestFailed? ==> r == (Failure(remote.error), store)
    ensures remote.Received? ==> r.0 == Success(MapUsers(remote.value))
    ensures remote.Received? && since != 0 ==> r.1 == store
    ensures remote.Received? && since == 0 ==>
              r.1 == Save(store, MapUsers(remote.value), env.saveNow, env.deleteFault, env.insertFault).store
  {
    match remote
    case RequestFailed(e) => (Failure(e), store)
    case Received(dtos) =>
      var users := MapUsers(dtos);
      var saved := if since == 0 then Save(store, users, env.saveNow, env.deleteFault, env.insertFault).store
                   else store;
      (Success(users), saved)
  }

  /** `fetchUsers(since:perPage:)`. The network is asked in every case. For the first page
      with a usable cache, the cached list comes first and the remote list follows only if
      its logins differ. */
  function FetchUsers(since: int, perPage: int, store: Store, remote: Remote<seq<UserDTO>>, env: CacheEnv)
    : (r: UsersFetch)
    ensures r.request == Users(since, perPage)
    ensures r.error.Some? <==> remote.RequestFailed?
    ensures remote.RequestFailed? ==> r.error == Some(remote.error) && r.store == store
    ensures since != 0 || remote.RequestFailed? ==> r.store == store
    ensures since == 0 && remote.Received? ==>
              r.store == Save(store, MapUsers(remote.value), env.saveNow, env.deleteFault, env.insertFault).store
    ensures (since != 0 || CachedFirstPage(store, env).None?) ==>
              r.emissions == (if remote.Received? then [MapUsers(remote.value)] else [])
    ensures since == 0 && CachedFirstPage(store, env).Some? ==>
              |r.emissions| >= 1 && r.emissions[0] == CachedFirstPage(store, env).value
    ensures since == 0 && CachedFirstPage(store, env).Some? ==>
              (|r.emissions| == 2 <==>
                 remote.Received? && !SameLogins(MapUsers(remote.value), CachedFirstPage(store, env).value))
    ensures |r.emissions| == 2 ==> r.emissions[1] == MapUsers(remote.value)
    ensures |r.emissions| <= 2
  {
    var fetched := FetchRemoteUsers(since, perPage, store, remote, env);
    var remoteEmission := match fetched.0 case Success(users) => [users] case Failure(_) => [];
    var error := match fetched.0 case Success(_) => None case Failure(e) => Some(e);
    var cached := if since == 0 then CachedFirstPage(store, env) else None;
    match cached
    case Some(cachedUsers) =>
      var differs := match fetched.0
                     case Success(users) => !SameLogins(users, cachedUsers)
                     case Failure(_) => false;
      UsersFetch(Users(since, perPage), [cachedUsers] + (if differs then remoteEmission else []), error, fetched.1)
    case None =>
      UsersFetch(Users(since, perPage), remoteEmission, error, fetched.1)
  }

  /** Pages after the first neither read nor write the cache: what is emitted does not
      depend on the store or its clock and faults, and the store is left as it was. */
  lemma LaterPagesIgnoreCache(since: int, perPage: int, s1: Store, s2: Store, remote: Remote<seq<UserDTO>>,
                              e1: CacheEnv, e2: CacheEnv)
    requires since != 0
    ensures FetchUsers(since, perPage, s1, remote, e1).emissions == FetchUsers(since, perPage, s2, remote, e2).emissions
    ensures FetchUsers(since, perPage, s1, remote, e1).error == FetchUsers(since, perPage, s2, remote, e2).error
    ensures FetchUsers(since, perPage, s1, remote, e1).store == s1
  {
  }

  /** A failing cache load is treated exactly like an empty cache. */
  lemma LoadFailureActsAsEmptyCache(since: int, perPage: int, store: Store, remote: Remote<seq<UserDTO>>,
                                    env: CacheEnv)
    requires env.retrieveFault.Fails?
    ensures FetchUsers(since, perPage, store, remote, env).emissions
            == FetchUsers(since, perPage, Empty, remote, env.(retrieveFault := NoFault)).emissions
    ensures FetchUsers(since, perPage, store, remote, env).error
            == FetchUsers(since, perPage, Empty, remote, env.(retrieveFault := NoFault)).error
  {
  }

  /** A failing cache save changes neither what the fetch emits nor whether it fails. */
  lemma SaveFailureIsSwallowed(since: int, perPage: int, store: Store, remote: Remote<seq<UserDTO>>,
                               env: CacheEnv, deleteFault: Fault, insertFault: Fault)
    ensures FetchUsers(since, perPage, store, remote, env).emissions
            == FetchUsers(since, perPage, store, remote, env.(deleteFault := deleteFault, insertFault := insertFault)).emissions
    ensures FetchUsers(since, perPage, store, remote, env).error
            == FetchUsers(since, perPage, store, remote, env.(deleteFault := deleteFault, insertFault := insertFault)).error
  {
  }

  /** A successful first page that is saved without fault is what the next load at the
      save's instant returns, when the policy accepts that instant. */
  lemma FirstPageIsCached(perPage: int, store: Store, dtos: seq<UserDTO>, env: CacheEnv)
    requires env.deleteFault.NoFault? && env.insertFault.NoFault?
    requires env.validate(env.saveNow, env.saveNow)
    ensures Load(FetchUsers(0, perPage, store, Received(dtos), env).store, env.saveNow, env.validate, NoFault).result
            == Success(MapUsers(dtos))
  {
    LoadAfterSave(store, MapUsers(dtos), env.saveNow, env.saveNow, env.validate);
  }

  /** `fetchUserDetail(username:)`: one request for that user, mapped; the cache is not
      involved and a failure is passed on unchanged. */
  function FetchUserDetail(username: string, remote: Remote<UserDetailDTO>): (r: (UserAPI, Result<UserDetail, NetworkError>))
    ensures r.0 == UserApi.UserDetail(username)
    ensures remote.Received? ==> r.1 == Success(MapUserDetail(remote.value))
    ensures remote.RequestFailed? ==> r.1 == Failure(remote.error)
  {
    match remote
    case Received(dto) => (UserApi.UserDetail(username), Success(MapUserDetail(dto)))
    case RequestFailed(e) => (UserApi.UserDetail(username), Failure(e))
  }

  /** The detail request names exactly the requested user, and a success maps back to
      the record the network returned. */
  lemma FetchUserDetailRoundTrip(username: string, remote: Remote<UserDetailDTO>)
    ensures UsernameOfPath(Path(FetchUserDetail(username, remote).0)) == Some(username)
    ensures remote.Received? ==> FetchUserDetail(username, remote).1.Success?
                                 && UserDetailDTOOf(FetchUserDetail(username, remote).1.value) == remote.value
  {
    PathNamesRequest(UserApi.UserDetail(username));
    if remote.Received? {
      MapUserDetailIsBijective(remote.value, MapUserDetail(remote.value));
    }
  }
}
