/** The conversions between domain users and the cache's own records. */
module LocalUserMapping {
  import opened Domain
  import opened UserStore

  /** `[User].toLocal()`: one cache record per user, in order, field by field. */
  function ToLocal(us: seq<User>): (ls: seq<LocalUser>)
    ensures |ls| == |us|
    ensures forall i :: 0 <= i < |us| ==>
              ls[i].login == us[i].login && ls[i].avatarURL == us[i].avatarUrl && ls[i].htmlURL == us[i].htmlUrl
  {
    if us == [] then []
    else [LocalUser(us[0].login, us[0].avatarUrl, us[0].htmlUrl)] + ToLocal(us[1..])
  }

  /** `[LocalUser].toModels()`: one domain user per cache record, in order, field by field. */
  function ToModels(ls: seq<LocalUser>): (us: seq<User>)
    ensures |us| == |ls|
    ensures forall i :: 0 <= i < |ls| ==>
              us[i].login == ls[i].login && us[i].avatarUrl == ls[i].avatarURL && us[i].htmlUrl == ls[i].htmlURL
  {
    if ls == [] then []
    else [User(ls[0].login, ls[0].avatarURL, ls[0].htmlURL)] + ToModels(ls[1..])
  }

  /** Caching users and reading them back gives the same users. */
  lemma {:induction false} ModelsOfLocal(us: seq<User>)
    ensures ToModels(ToLocal(us)) == us
  {
    var back := ToModels(ToLocal(us));
    assert |back| == |us|;
    forall i | 0 <= i < |us|
      ensures back[i] == us[i]
    {
    }
  }

  /** Reading cache records as users and caching them again gives the same records. */
  lemma {:induction false} LocalOfModels(ls: seq<LocalUser>)
    ensures ToLocal(ToModels(ls)) == ls
  {
    var back := ToLocal(ToModels(ls));
    assert |back| == |ls|;
    forall i | 0 <= i < |ls|
      ensures back[i] == ls[i]
    {
    }
  }
}
