/** The errors that can surface beneath the network layer, as data: Foundation's
    `URLError`, Moya's `MoyaError`, and any other Swift `Error`. Every error carries
    the `localizedDescription` it would report. */
module Moya {
  import opened Wrappers

  /** The `URLError.Code`s this model tells apart. */
  datatype URLErrorCode = NotConnectedToInternet | OtherURLErrorCode(rawValue: int)

  /** A Swift `Error` value: what kind of error it is, and its localized description. */
  datatype SwiftError = SwiftError(kind: ErrorKind, description: string)

  datatype ErrorKind =
    | URLError(code: URLErrorCode)
    | MoyaFailure(error: MoyaError)
    | OtherError

  /** An HTTP response as Moya reports it. */
  datatype Response = Response(statusCode: int, data: seq<bv8>)

  /** The cases of Moya's `MoyaError`. */
  datatype MoyaError =
    | ImageMapping(response: Response)
    | JsonMapping(response: Response)
    | StringMapping(response: Response)
    | ObjectMapping(error: SwiftError, response: Response)
    | EncodableMapping(error: SwiftError)
    | StatusCode(response: Response)
    | Underlying(error: SwiftError, failedResponse: Option<Response>)
    | RequestMapping(url: string)
    | ParameterEncoding(error: SwiftError)
}

/** The app's own error type for network failures, its classification of lower-level
    errors (`from`), and its hand-written equality. */
module NetworkErrors {
  import opened Wrappers
  import Moya

  datatype NetworkError =
    | InvalidResponse
    | DecodingFailed
    | Underlying(error: Moya.SwiftError)
    | StatusCode(code: int, data: Option<seq<bv8>>)
    | Unauthorized
    | NoInternet

  /** `NetworkError.from(_:)`: classifies any error thrown by the request pipeline. */
  function From(e: Moya.SwiftError): (r: NetworkError)
    ensures !r.Unauthorized?
    ensures !e.kind.MoyaFailure? ==> r == Underlying(e)
    ensures e.kind.MoyaFailure? && e.kind.error.StatusCode? ==>
              r == StatusCode(e.kind.error.response.statusCode, Some(e.kind.error.response.data))
    ensures e.kind.MoyaFailure? && e.kind.error.Underlying? ==>
              (r == NoInternet <==> e.kind.error.error.kind == Moya.URLError(Moya.NotConnectedToInternet))
    ensures e.kind.MoyaFailure? && e.kind.error.Underlying? && r != NoInternet ==>
              r == Underlying(e.kind.error.error)
    ensures e.kind.MoyaFailure?
            && (e.kind.error.ObjectMapping? || e.kind.error.EncodableMapping? || e.kind.error.ParameterEncoding?) ==>
              r == Underlying(e.kind.error.error)
    ensures e.kind.MoyaFailure?
            && (e.kind.error.ImageMapping? || e.kind.error.JsonMapping? || e.kind.error.StringMapping?) ==>
              r == DecodingFailed
    ensures e.kind.MoyaFailure? && e.kind.error.RequestMapping? ==> r == InvalidResponse
  {
    match e.kind
    case MoyaFailure(m) =>
      (match m
       case StatusCode(response) => StatusCode(response.statusCode, Some(response.data))
       case Underlying(underlying, _) =>
         if underlying.kind == Moya.URLError(Moya.NotConnectedToInternet) then NoInternet
         else Underlying(underlying)
       case ObjectMapping(error, _) => Underlying(error)
       case EncodableMapping(error) => Underlying(error)
       case ParameterEncoding(error) => Underlying(error)
       case ImageMapping(_) => DecodingFailed
       case JsonMapping(_) => DecodingFailed
       case StringMapping(_) => DecodingFailed
       case RequestMapping(_) => InvalidResponse)
    case _ => Underlying(e)
  }

  /** The custom `==`: nullary cases match by case, status codes by code and body,
      underlying errors by their localized description only. */
  predicate Equal(l: NetworkError, r: NetworkError)
  {
    match (l, r)
    case (InvalidResponse, InvalidResponse) => true
    case (DecodingFailed, DecodingFailed) => true
    case (Unauthorized, Unauthorized) => true
    case (NoInternet, NoInternet) => true
    case (StatusCode(lCode, lData), StatusCode(rCode, rData)) => lCode == rCode && lData == rData
    case (Underlying(lError), Underlying(rError)) => lError.description == rError.description
    case _ => false
  }

  /** What `==` looks at: the error with an underlying error reduced to its description. */
  datatype ErrorKey =
    | InvalidResponseKey
    | DecodingFailedKey
    | UnderlyingKey(description: string)
    | StatusCodeKey(code: int, data: Option<seq<bv8>>)
    | UnauthorizedKey
    | NoInternetKey

  function Key(e: NetworkError): ErrorKey
  {
    match e
    case InvalidResponse => InvalidResponseKey
    case DecodingFailed => DecodingFailedKey
    case Underlying(error) => UnderlyingKey(error.description)
    case StatusCode(code, data) => StatusCodeKey(code, data)
    case Unauthorized => UnauthorizedKey
    case NoInternet => NoInternetKey
  }

  /** `==` is exactly equality of keys: two errors are equal iff they are the same case
      and agree on everything but the identity of an underlying error. */
  lemma EqualIffSameKey(l: NetworkError, r: NetworkError)
    ensures Equal(l, r) <==> Key(l) == Key(r)
  {
  }

  /** Errors that are not of the underlying case are equal exactly when they are identical. */
  lemma EqualIsIdentityOffUnderlying(l: NetworkError, r: NetworkError)
    requires !l.Underlying? || !r.Underlying?
    ensures Equal(l, r) <==> l == r
  {
  }

  /** `==` is an equivalence relation. */
  lemma EqualIsEquivalence(a: NetworkError, b: NetworkError, c: NetworkError)
    ensures Equal(a, a)
    ensures Equal(a, b) ==> Equal(b, a)
    ensures Equal(a, b) && Equal(b, c) ==> Equal(a, c)
  {
    EqualIffSameKey(a, a);
    EqualIffSameKey(a, b);
    EqualIffSameKey(b, a);
    EqualIffSameKey(b, c);
    EqualIffSameKey(a, c);
  }

  /** Two errors that are not Moya errors classify to equal network errors exactly
      when their localized descriptions agree, whatever else distinguishes them. */
  lemma FromRespectsDescription(e1: Moya.SwiftError, e2: Moya.SwiftError)
    requires !e1.kind.MoyaFailure? && !e2.kind.MoyaFailure?
    ensures Equal(From(e1), From(e2)) <==> e1.description == e2.description
  {
  }
}
