/** `LocalUserLoader`: saves, loads and sweeps the user cache over any store, with the
    clock reading and the cache policy's validity rule supplied by the caller. */
module LocalUserLoader {
  import opened Wrappers
  import opened Domain
  import opened UserStore
  import opened LocalUserMapping

  /** `UserCachePolicy.validate(timestamp, against: now)`. Its rule is not part of this
      model, so every statement here holds for whichever rule the policy uses. */
  type Validator = (Timestamp, Timestamp) -> bool

  /** Whether the store holds a cache the policy accepts at `now`. */
  predicate HoldsValid(s: Store, now: Timestamp, validate: Validator)
  {
    s.cache.Some? && validate(s.cache.value.timestamp, now)
  }

  /** `save(_:)`: delete, then insert the users stamped with `now`. A failing delete
      stops the save before the insert. */
  function Save(s: Store, users: seq<User>, now: Timestamp, deleteFault: Fault, insertFault: Fault): (r: Step<()>)
    ensures r.result.Success? <==> deleteFault.NoFault? && insertFault.NoFault?
    ensures deleteFault.Fails? ==> r == Step(Failure(deleteFault.error), s)
    ensures deleteFault.NoFault? && insertFault.Fails? ==> r == Step(Failure(insertFault.error), Empty)
    ensures r.result.Success? ==> r.store.cache == Some(CachedUsers(ToLocal(users), now))
  {
    var deleted := DeleteCachedUsers(s, deleteFault);
    if deleted.result.Failure? then Step(Failure(deleted.result.error), deleted.store)
    else Insert(deleted.store, ToLocal(users), now, insertFault)
  }

  /** `load()`: the cached users when a cache exists and the policy accepts it, otherwise
      no users; a failing retrieval is passed on. Never changes the store. */
  function Load(s: Store, now: Timestamp, validate: Validator, retrieveFault: Fault): (r: Step<seq<User>>)
    ensures r.store == s
    ensures r.result.Success? <==> retrieveFault.NoFault?
    ensures retrieveFault.Fails? ==> r.result.error == retrieveFault.error
    ensures r.result.Success? && HoldsValid(s, now, validate) ==> r.result.value == ToModels(s.cache.value.users)
    ensures r.result.Success? && !HoldsValid(s, now, validate) ==> r.result.value == []
  {
    var retrieved := Retrieve(s, retrieveFault);
    match retrieved.result
    case Failure(e) => Step(Failure(e), retrieved.store)
    case Success(cache) =>
      if cache.Some? && validate(cache.value.timestamp, now) then
        Step(Success(ToModels(cache.value.users)), retrieved.store)
      else
        Step(Success([]), retrieved.store)
  }

  /** `validateCache()`: deletes the cache when retrieval fails or the policy rejects the
      cache; otherwise leaves the store alone. Only the delete's failure is passed on. */
  function ValidateCache(s: Store, now: Timestamp, validate: Validator, retrieveFault: Fault, deleteFault: Fault): (r: Step<()>)
    ensures retrieveFault.NoFault? && (s.cache.None? || HoldsValid(s, now, validate)) ==>
              r == Step(Success(()), s)
    ensures (retrieveFault.Fails? || (s.cache.Some? && !HoldsValid(s, now, validate))) && deleteFault.NoFault? ==>
              r == Step(Success(()), Empty)
    ensures (retrieveFault.Fails? || (s.cache.Some? && !HoldsValid(s, now, validate))) && deleteFault.Fails? ==>
              r == Step(Failure(deleteFault.error), s)
  {
    var retrieved := Retrieve(s, retrieveFault);
    var expiredOrThrew :=
      match retrieved.result
      case Failure(_) => true
      case Success(cache) => cache.Some? && !validate(cache.value.timestamp, now);
    if expiredOrThrew then DeleteCachedUsers(retrieved.store, deleteFault)
    else Step(Success(()), retrieved.store)
  }

  /** Loading right after a successful save gives back exactly the saved users when the
      policy accepts the save's instant at load time, and nothing otherwise. */
  lemma LoadAfterSave(s: Store, users: seq<User>, saved: Timestamp, now: Timestamp, validate: Validator)
    ensures Load(Save(s, users, saved, NoFault, NoFault).store, now, validate, NoFault).result
            == Success(if validate(saved, now) then users else [])
  {
    ModelsOfLocal(users);
  }

  /** After two saves a load sees only the second: never the first, never a merge. */
  lemma SecondSaveWins(s: Store, first: seq<User>, t1: Timestamp, second: seq<User>, t2: Timestamp,
                       now: Timestamp, validate: Validator)
    requires validate(t2, now)
    ensures Load(Save(Save(s, first, t1, NoFault, NoFault).store, second, t2, NoFault, NoFault).store,
                 now, validate, NoFault).result == Success(second)
  {
    LoadAfterSave(Save(s, first, t1, NoFault, NoFault).store, second, t2, now, validate);
  }

  /** A successful sweep leaves either nothing or a cache the policy accepts, and never
      changes what a load at the same instant returns. */
  lemma SweepKeepsLoad(s: Store, now: Timestamp, validate: Validator, retrieveFault: Fault)
    ensures var swept := ValidateCache(s, now, validate, retrieveFault, NoFault).store;
            && (swept.cache.None? || HoldsValid(swept, now, validate))
            && (retrieveFault.NoFault? ==> Load(swept, now, validate, NoFault).result == Load(s, now, validate, NoFault).result)
  {
  }
}
