/** The wire records GitHub returns and their mapping to domain records. */
module ResponseMapper {
  import opened Wrappers
  import opened Domain

  /** One entry of the `/users` response. */
  datatype UserDTO = UserDTO(login: string, avatar_url: string, html_url: string)

  /** The `/users/{username}` response. */
  datatype UserDetailDTO = UserDetailDTO(
    login: string,
    avatar_url: string,
    html_url: string,
    location: Option<string>,
    followers: int,
    following: int)

  /** `DefaultResponseMapper.map(_: UserDTO)`. */
  function MapUser(dto: UserDTO): (u: User)
    ensures u.login == dto.login && u.avatarUrl == dto.avatar_url && u.htmlUrl == dto.html_url
  {
    User(dto.login, dto.avatar_url, dto.html_url)
  }

  /** `DefaultResponseMapper.map(_: UserDetailDTO)`; an absent location stays absent. */
  function MapUserDetail(dto: UserDetailDTO): (d: UserDetail)
    ensures d.login == dto.login && d.avatarUrl == dto.avatar_url && d.htmlUrl == dto.html_url
    ensures d.location == dto.location
    ensures d.followers == dto.followers && d.following == dto.following
  {
    UserDetail(dto.login, dto.avatar_url, dto.html_url, dto.location, dto.followers, dto.following)
  }

  /** The wire record a domain user was mapped from. */
  function UserDTOOf(u: User): UserDTO
  {
    UserDTO(u.login, u.avatarUrl, u.htmlUrl)
  }

  /** The wire record a user detail was mapped from. */
  function UserDetailDTOOf(d: UserDetail): UserDetailDTO
  {
    UserDetailDTO(d.login, d.avatarUrl, d.htmlUrl, d.location, d.followers, d.following)
  }

  /** Mapping a user loses nothing and covers every domain user. */
  lemma MapUserIsBijective(dto: UserDTO, u: User)
    ensures UserDTOOf(MapUser(dto)) == dto
    ensures MapUser(UserDTOOf(u)) == u
  {
  }

  /** Mapping a user detail loses nothing and covers every domain detail. */
  lemma MapUserDetailIsBijective(dto: UserDetailDTO, d: UserDetail)
    ensures UserDetailDTOOf(MapUserDetail(dto)) == dto
    ensures MapUserDetail(UserDetailDTOOf(d)) == d
  {
  }
}
