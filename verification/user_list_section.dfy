/** The list screen's sections and items. */
module UserListSection {
  import opened Wrappers
  import opened Domain

  /** `UserListSection`: raw values follow declaration order. */
  datatype Section = UsersSection | LoaderSection

  function RawValue(s: Section): (n: int)
    ensures 0 <= n < |AllSections()| && AllSections()[n] == s
  {
    match s
    case UsersSection => 0
    case LoaderSection => 1
  }

  /** `UserListSection.allCases`: users first, then the loader. */
  function AllSections(): seq<Section>
  {
    [UsersSection, LoaderSection]
  }

  /** `UserListSection(rawValue:)`. */
  function SectionOfRaw(n: int): (s: Option<Section>)
    ensures s.Some? <==> 0 <= n < |AllSections()|
    ensures s.Some? ==> RawValue(s.value) == n
  {
    if n == 0 then Some(UsersSection) else if n == 1 then Some(LoaderSection) else None
  }

  /** Raw values and sections convert both ways without loss: `init(rawValue:)` recovers
      every section from its raw value, and every raw value it accepts is one. */
  lemma RawValueRoundTrip(s: Section, n: int)
    ensures SectionOfRaw(RawValue(s)) == Some(s)
    ensures SectionOfRaw(n).Some? ==> RawValue(SectionOfRaw(n).value) == n
  {
  }

  /** A row of the user list. `uuid` is the `UUID()` drawn when the row is built. */
  datatype UserCellItem = UserCellItem(uuid: nat, login: string, avatarUrl: string, htmlUrl: string)

  /** `UserCellItem(from:)`, with the freshly drawn identifier passed in. */
  function CellItem(user: User, uuid: nat): (item: UserCellItem)
    ensures item.uuid == uuid
    ensures item.login == user.login && item.avatarUrl == user.avatarUrl && item.htmlUrl == user.htmlUrl
  {
    UserCellItem(uuid, user.login, user.avatarUrl, user.htmlUrl)
  }

  /** The user a row shows. */
  function UserOf(item: UserCellItem): User
  {
    User(item.login, item.avatarUrl, item.htmlUrl)
  }

  /** A row shows exactly the user it was built from, and two rows are equal only when
      built from equal users with the same identifier: rows for equal users with
      different identifiers differ. */
  lemma CellItemIdentity(u1: User, id1: nat, u2: User, id2: nat)
    ensures UserOf(CellItem(u1, id1)) == u1
    ensures CellItem(u1, id1) == CellItem(u2, id2) <==> u1 == u2 && id1 == id2
  {
  }

  /** `UserListSectionItem`: a user row or the single loader row. */
  datatype SectionItem = UserRow(item: UserCellItem) | LoaderRow

  /** The rows built from a list of users, identifiers drawn in order from `firstUuid`. */
  function CellItems(users: seq<User>, firstUuid: nat): (items: seq<UserCellItem>)
    ensures |items| == |users|
    ensures forall i :: 0 <= i < |users| ==> items[i] == CellItem(users[i], firstUuid + i)
  {
    seq(|users|, i requires 0 <= i < |users| => CellItem(users[i], firstUuid + i))
  }

  /** The users a list of rows shows, in order. */
  function UsersOf(items: seq<UserCellItem>): (us: seq<User>)
    ensures |us| == |items|
    ensures forall i :: 0 <= i < |items| ==> us[i] == UserOf(items[i])
  {
    seq(|items|, i requires 0 <= i < |items| => UserOf(items[i]))
  }

  /** Building rows and reading their users back gives the users. */
  lemma UsersOfCellItems(users: seq<User>, firstUuid: nat)
    ensures UsersOf(CellItems(users, firstUuid)) == users
  {
    var back := UsersOf(CellItems(users, firstUuid));
    forall i | 0 <= i < |users|
      ensures back[i] == users[i]
    {
      CellItemIdentity(users[i], firstUuid + i, users[i], firstUuid + i);
    }
  }

  /** Reading users distributes over concatenated row lists. */
  lemma UsersOfAppend(a: seq<UserCellItem>, b: seq<UserCellItem>)
    ensures UsersOf(a + b) == UsersOf(a) + UsersOf(b)
  {
  }
}
