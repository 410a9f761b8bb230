/** The in-memory store: an optional slot that no operation can make fail. */
module InMemoryUserStore {
  import opened Wrappers
  import opened UserStore

  function DeleteCachedUsers(s: Store): (r: Step<()>)
    ensures r.result.Success? && r.store == Empty
    ensures r == UserStore.DeleteCachedUsers(s, NoFault)
  {
    Step(Success(()), Store(None))
  }

  function Insert(s: Store, users: seq<LocalUser>, timestamp: Timestamp): (r: Step<()>)
    ensures r.result.Success? && r.store.cache == Some(CachedUsers(users, timestamp))
    ensures r == UserStore.Insert(s, users, timestamp, NoFault)
  {
    Step(Success(()), Store(Some(CachedUsers(users, timestamp))))
  }

  function Retrieve(s: Store): (r: Step<Option<CachedUsers>>)
    ensures r.result == Success(s.cache) && r.store == s
    ensures r == UserStore.Retrieve(s, NoFault)
  {
    Step(Success(s.cache), s)
  }
}
