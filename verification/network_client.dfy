/** The request-encoding decision of the network client's Moya target adapter. The
    Moya request pipeline itself is not part of this model. */
module NetworkClient {
  import opened Wrappers

  /** Moya's `Method` (Alamofire's `HTTPMethod`). */
  datatype Method = Connect | Delete | Get | Head | Options | Patch | Post | Put | Query | Trace

  /** Request parameters. The only requestable in the app sends integer values. */
  type Parameters = map<string, int>

  datatype ParameterEncoding = URLEncodingDefault | JSONEncodingDefault

  /** Moya's `Task`, restricted to the two shapes the adapter produces. */
  datatype Task = RequestPlain | RequestParameters(parameters: Parameters, encoding: ParameterEncoding)

  /** Moya's `ValidationType`. */
  datatype ValidationType = NoValidation | SuccessCodes | SuccessAndRedirectCodes | CustomCodes(codes: seq<int>)

  /** Moya's `AuthorizationType`. */
  datatype AuthorizationType = Basic | Bearer | Custom(scheme: string)

  /** `MultiTargetAdapter`: a requestable flattened into the fields Moya reads. */
  datatype Target = Target(
    baseURL: string,
    path: string,
    httpMethod: Method,
    parameters: Option<Parameters>,
    headers: Option<map<string, string>>,
    authorizationType: Option<AuthorizationType>,
    sampleData: seq<bv8>)

  /** `MultiTargetAdapter.task`: no parameters means a plain request; otherwise GET puts
      them in the URL, POST/PUT/PATCH put them in a JSON body, and every other method
      drops them. */
  function TaskOf(t: Target): (task: Task)
    ensures t.parameters.None? ==> task == RequestPlain
    ensures task.RequestParameters? ==> t.parameters == Some(task.parameters)
    ensures task.RequestParameters? && task.encoding == URLEncodingDefault <==>
              t.parameters.Some? && t.httpMethod == Get
    ensures task.RequestParameters? && task.encoding == JSONEncodingDefault <==>
              t.parameters.Some? && t.httpMethod in {Post, Put, Patch}
  {
    match t.parameters
    case None => RequestPlain
    case Some(parameters) =>
      match t.httpMethod
      case Get => RequestParameters(parameters, URLEncodingDefault)
      case Post => RequestParameters(parameters, JSONEncodingDefault)
      case Put => RequestParameters(parameters, JSONEncodingDefault)
      case Patch => RequestParameters(parameters, JSONEncodingDefault)
      case _ => RequestPlain
  }

  /** The parameters reach the request exactly when there are some and the method is
      one of GET, POST, PUT or PATCH. */
  lemma ParametersSentIff(t: Target)
    ensures TaskOf(t).RequestParameters? <==> t.parameters.Some? && t.httpMethod in {Get, Post, Put, Patch}
  {
  }

  /** `MultiTargetAdapter.validationType`: only 2xx responses count as success, for every target. */
  function ValidationTypeOf(t: Target): (v: ValidationType)
    ensures v == SuccessCodes
  {
    SuccessCodes
  }
}
