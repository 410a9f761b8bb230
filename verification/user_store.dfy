/** The single-slot user cache every store implements: at most one list of cached
    users with the instant it was written. Any store call may fail (the Core Data
    store can); a `Fault` names the failure a call meets, and a failing call leaves
    the slot as it was. */
module UserStore {
  import opened Wrappers

  /** The cache's own copy of a user. */
  datatype LocalUser = LocalUser(login: string, avatarURL: string, htmlURL: string)

  /** An instant, as the injected clock reports it. */
  type Timestamp = int

  /** `CachedUsers`: the stored users and the instant they were stored. */
  datatype CachedUsers = CachedUsers(users: seq<LocalUser>, timestamp: Timestamp)

  /** The store's one slot. */
  datatype Store = Store(cache: Option<CachedUsers>)

  const Empty: Store := Store(None)

  datatype StoreError = StoreError(description: string)

  /** Whether a store call succeeds or throws the given error. */
  datatype Fault = NoFault | Fails(error: StoreError)

  /** What a store call returns, and the store afterwards. */
  datatype Step<T> = Step(result: Result<T, StoreError>, store: Store)

  /** `retrieve()`: the slot's content; never changes the store. */
  function Retrieve(s: Store, fault: Fault): (r: Step<Option<CachedUsers>>)
    ensures r.store == s
    ensures r.result.Success? <==> fault.NoFault?
    ensures fault.Fails? ==> r.result.error == fault.error
    ensures r.result.Success? ==> r.result.value == s.cache
  {
    match fault
    case NoFault => Step(Success(s.cache), s)
    case Fails(e) => Step(Failure(e), s)
  }

  /** `insert(_:timestamp:)`: replaces whatever the slot held by exactly the given users
      and instant. */
  function Insert(s: Store, users: seq<LocalUser>, timestamp: Timestamp, fault: Fault): (r: Step<()>)
    ensures r.result.Success? <==> fault.NoFault?
    ensures fault.NoFault? ==> r.store.cache == Some(CachedUsers(users, timestamp))
    ensures fault.Fails? ==> r == Step(Failure(fault.error), s)
  {
    match fault
    case NoFault => Step(Success(()), Store(Some(CachedUsers(users, timestamp))))
    case Fails(e) => Step(Failure(e), s)
  }

  /** `deleteCachedUsers()`: empties the slot, whether or not it held anything. */
  function DeleteCachedUsers(s: Store, fault: Fault): (r: Step<()>)
    ensures r.result.Success? <==> fault.NoFault?
    ensures fault.NoFault? ==> r.store == Empty
    ensures fault.Fails? ==> r == Step(Failure(fault.error), s)
  {
    match fault
    case NoFault => Step(Success(()), Empty)
    case Fails(e) => Step(Failure(e), s)
  }

  // The store laws every implementation is held to, stated for calls that succeed.

  /** Retrieving from an empty store delivers nothing. */
  lemma RetrieveFromEmptyDeliversNothing()
    ensures Retrieve(Empty, NoFault).result == Success(None)
  {
  }

  /** Retrieving twice delivers the same thing twice and leaves the store as it was. */
  lemma RetrieveTwiceAgrees(s: Store)
    ensures Retrieve(Retrieve(s, NoFault).store, NoFault) == Retrieve(s, NoFault)
  {
  }

  /** Retrieving after an insert delivers exactly the inserted users and instant. */
  lemma RetrieveAfterInsert(s: Store, users: seq<LocalUser>, timestamp: Timestamp)
    ensures Retrieve(Insert(s, users, timestamp, NoFault).store, NoFault).result
            == Success(Some(CachedUsers(users, timestamp)))
  {
  }

  /** A second insert overrides the first: nothing of the first survives. */
  lemma InsertOverrides(s: Store, first: seq<LocalUser>, t1: Timestamp, latest: seq<LocalUser>, t2: Timestamp)
    ensures Insert(Insert(s, first, t1, NoFault).store, latest, t2, NoFault)
            == Insert(s, latest, t2, NoFault)
  {
  }

  /** Deleting an empty store succeeds and leaves it empty. */
  lemma DeleteEmptyStore()
    ensures DeleteCachedUsers(Empty, NoFault) == Step(Success(()), Empty)
  {
  }

  /** Deleting after an insert succeeds and retrieval then delivers nothing. */
  lemma DeleteEmptiesInserted(s: Store, users: seq<LocalUser>, timestamp: Timestamp)
    ensures DeleteCachedUsers(Insert(s, users, timestamp, NoFault).store, NoFault).result.Success?
    ensures Retrieve(DeleteCachedUsers(Insert(s, users, timestamp, NoFault).store, NoFault).store, NoFault).result
            == Success(None)
  {
  }

  /** Deleting twice is the same as deleting once. */
  lemma DeleteIdempotent(s: Store)
    ensures DeleteCachedUsers(DeleteCachedUsers(s, NoFault).store, NoFault) == DeleteCachedUsers(s, NoFault)
  {
  }
}
