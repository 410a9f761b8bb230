/** Domain records shared by every layer: the user list entry and the user detail. */
module Domain {
  import opened Wrappers

  /** One entry of the GitHub user list. */
  datatype User = User(login: string, avatarUrl: string, htmlUrl: string)

  /** The detail page of one user; `location` is absent when GitHub has none. */
  datatype UserDetail = UserDetail(
    login: string,
    avatarUrl: string,
    htmlUrl: string,
    location: Option<string>,
    followers: int,
    following: int)

  /** Swift's `elementsEqual(_:by:)` with the predicate "same login": walks both
      lists in step and stops at the first mismatch or at the end of either. */
  predicate SameLogins(a: seq<User>, b: seq<User>)
  {
    if a == [] || b == [] then a == [] && b == []
    else a[0].login == b[0].login && SameLogins(a[1..], b[1..])
  }

  /** The logins of a list, in order. */
  function Logins(us: seq<User>): (ls: seq<string>)
    ensures |ls| == |us|
    ensures forall i :: 0 <= i < |us| ==> ls[i] == us[i].login
  {
    seq(|us|, i requires 0 <= i < |us| => us[i].login)
  }

  /** The step-wise comparison agrees with comparing the two login sequences:
      equal length and the same login at every position. */
  lemma {:induction false} SameLoginsIffLoginsEqual(a: seq<User>, b: seq<User>)
    ensures SameLogins(a, b) <==> Logins(a) == Logins(b)
  {
    if a == [] || b == [] {
    } else {
      SameLoginsIffLoginsEqual(a[1..], b[1..]);
      assert Logins(a) == [a[0].login] + Logins(a[1..]);
      assert Logins(b) == [b[0].login] + Logins(b[1..]);
    }
  }
}
