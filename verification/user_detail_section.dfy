/** The detail screen's sections and the three item kinds built from a user detail. */
module UserDetailSection {
  import opened Wrappers
  import opened Domain

  /** `UserDetailSection`: raw values follow declaration order. */
  datatype Section = HeaderSection | StatsSection | BlogSection

  function RawValue(s: Section): (n: int)
    ensures 0 <= n < |AllSections()| && AllSections()[n] == s
  {
    match s
    case HeaderSection => 0
    case StatsSection => 1
    case BlogSection => 2
  }

  /** `UserDetailSection.allCases`: header, stats, blog. */
  function AllSections(): seq<Section>
  {
    [HeaderSection, StatsSection, BlogSection]
  }

  /** `UserDetailSection(rawValue:)`. */
  function SectionOfRaw(n: int): (s: Option<Section>)
    ensures s.Some? <==> 0 <= n < |AllSections()|
    ensures s.Some? ==> RawValue(s.value) == n
  {
    if n == 0 then Some(HeaderSection)
    else if n == 1 then Some(StatsSection)
    else if n == 2 then Some(BlogSection)
    else None
  }

  /** Raw values and sections convert both ways without loss: `init(rawValue:)` recovers
      every section from its raw value, and every raw value it accepts is one. */
  lemma RawValueRoundTrip(s: Section, n: int)
    ensures SectionOfRaw(RawValue(s)) == Some(s)
    ensures SectionOfRaw(n).Some? ==> RawValue(SectionOfRaw(n).value) == n
  {
  }

  datatype UserHeaderCellItem = UserHeaderCellItem(avatarUrl: string, login: string, location: Option<string>)
  datatype UserStatsCellItem = UserStatsCellItem(followers: int, following: int)
  datatype UserBlogCellItem = UserBlogCellItem(url: string)

  /** `UserDetailSectionItem`. */
  datatype SectionItem = Header(header: UserHeaderCellItem) | Stats(stats: UserStatsCellItem) | Blog(blog: UserBlogCellItem)

  /** `UserHeaderCellItem(user:)`. */
  function HeaderItem(d: UserDetail): (h: UserHeaderCellItem)
    ensures h.avatarUrl == d.avatarUrl && h.login == d.login && h.location == d.location
  {
    UserHeaderCellItem(d.avatarUrl, d.login, d.location)
  }

  /** `UserStatsCellItem(user:)`. */
  function StatsItem(d: UserDetail): (s: UserStatsCellItem)
    ensures s.followers == d.followers && s.following == d.following
  {
    UserStatsCellItem(d.followers, d.following)
  }

  /** `UserBlogCellItem(url:)`. */
  function BlogItem(url: string): (b: UserBlogCellItem)
    ensures b.url == url
  {
    UserBlogCellItem(url)
  }

  /** The header and stats items together lose nothing of a detail but its profile url:
      two details with the same profile url and the same items are the same detail. */
  lemma HeaderAndStatsDetermineDetail(d1: UserDetail, d2: UserDetail)
    requires d1.htmlUrl == d2.htmlUrl
    ensures HeaderItem(d1) == HeaderItem(d2) && StatsItem(d1) == StatsItem(d2) <==> d1 == d2
  {
  }
}
