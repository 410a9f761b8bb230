/** The GitHub endpoints the app calls, and the Moya target each becomes. */
module UserApi {
  import opened Wrappers
  import NetworkClient

  datatype UserAPI = Users(since: int, perPage: int) | UserDetail(username: string)

  const BaseURL: string := "https://api.github.com"
  const ContentType: string := "application/json;charset=utf-8"

  function Path(api: UserAPI): (p: string)
    ensures api.Users? ==> p == "/users"
    ensures api.UserDetail? ==> |p| == 7 + |api.username| && p[..7] == "/users/" && p[7..] == api.username
  {
    match api
    case Users(_, _) => "/users"
    case UserDetail(username) => "/users/" + username
  }

  /** The username a detail path names, if it is one. */
  function UsernameOfPath(p: string): Option<string>
  {
    if |p| >= 7 && p[..7] == "/users/" then Some(p[7..]) else None
  }

  /** A detail path gives back its username verbatim, and the list path is never
      mistaken for a detail path. */
  lemma PathNamesRequest(api: UserAPI)
    ensures UsernameOfPath(Path(api)) == (if api.UserDetail? then Some(api.username) else None)
  {
  }

  function Method(api: UserAPI): (m: NetworkClient.Method)
    ensures m == NetworkClient.Get
  {
    NetworkClient.Get
  }

  function Parameters(api: UserAPI): (p: Option<NetworkClient.Parameters>)
    ensures api.UserDetail? ==> p.None?
    ensures api.Users? ==> p.Some? && p.value.Keys == {"since", "per_page"}
    ensures api.Users? ==> p.value["since"] == api.since && p.value["per_page"] == api.perPage
  {
    match api
    case Users(since, perPage) => Some(map["since" := since, "per_page" := perPage])
    case UserDetail(_) => None
  }

  function Headers(api: UserAPI): (h: Option<map<string, string>>)
    ensures h == Some(map["Content-Type" := ContentType])
  {
    Some(map["Content-Type" := ContentType])
  }

  function AuthorizationType(api: UserAPI): (a: Option<NetworkClient.AuthorizationType>)
    ensures a.None?
  {
    None
  }

  /** `NetworkClient.makeTarget`: the adapter built from a requestable's fields. */
  function TargetOf(api: UserAPI): NetworkClient.Target
  {
    NetworkClient.Target(BaseURL, Path(api), Method(api), Parameters(api), Headers(api),
                         AuthorizationType(api), [])
  }

  /** A list request sends `since` and `per_page` URL-encoded; a detail request is plain;
      both are GETs to the GitHub API host, validated on 2xx. */
  lemma RequestShape(api: UserAPI)
    ensures TargetOf(api).baseURL == BaseURL && TargetOf(api).httpMethod == NetworkClient.Get
    ensures api.Users? ==>
              NetworkClient.TaskOf(TargetOf(api))
              == NetworkClient.RequestParameters(map["since" := api.since, "per_page" := api.perPage],
                                                 NetworkClient.URLEncodingDefault)
    ensures api.UserDetail? ==> NetworkClient.TaskOf(TargetOf(api)) == NetworkClient.RequestPlain
    ensures NetworkClient.ValidationTypeOf(TargetOf(api)) == NetworkClient.SuccessCodes
  {
  }
}
