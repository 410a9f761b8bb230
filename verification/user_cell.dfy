/** What a user cell displays for each of its two configurations. */
module UserCell {
  import opened Wrappers
  import opened Domain
  import UserListSection
  import UserDetailSection

  /** `UserCellConfiguration`: a list row or a detail header. */
  datatype Configuration =
    | UserConfig(item: UserListSection.UserCellItem)
    | HeaderConfig(header: UserDetailSection.UserHeaderCellItem)

  function AvatarUrl(c: Configuration): (a: string)
    ensures c.UserConfig? ==> a == c.item.avatarUrl
    ensures c.HeaderConfig? ==> a == c.header.avatarUrl
  {
    match c
    case UserConfig(item) => item.avatarUrl
    case HeaderConfig(header) => header.avatarUrl
  }

  function Name(c: Configuration): (n: string)
    ensures c.UserConfig? ==> n == c.item.login
    ensures c.HeaderConfig? ==> n == c.header.login
  {
    match c
    case UserConfig(item) => item.login
    case HeaderConfig(header) => header.login
  }

  function Url(c: Configuration): (u: Option<string>)
    ensures c.UserConfig? ==> u == Some(c.item.htmlUrl)
    ensures c.HeaderConfig? ==> u.None?
  {
    match c
    case UserConfig(item) => Some(item.htmlUrl)
    case HeaderConfig(_) => None
  }

  function Location(c: Configuration): (l: Option<string>)
    ensures c.UserConfig? ==> l.None?
    ensures c.HeaderConfig? ==> l == c.header.location
  {
    match c
    case UserConfig(_) => None
    case HeaderConfig(header) => header.location
  }

  /** A list row displays its user's login, avatar and profile link, and no location. */
  lemma RowShowsUser(u: User, uuid: nat)
    ensures var c := UserConfig(UserListSection.CellItem(u, uuid));
            Name(c) == u.login && AvatarUrl(c) == u.avatarUrl && Url(c) == Some(u.htmlUrl) && Location(c).None?
  {
  }

  /** A detail header displays the detail's login, avatar and location, and no link. */
  lemma HeaderShowsDetail(d: UserDetail)
    ensures var c := HeaderConfig(UserDetailSection.HeaderItem(d));
            Name(c) == d.login && AvatarUrl(c) == d.avatarUrl && Url(c).None? && Location(c) == d.location
  {
  }
}
