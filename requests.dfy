/** The request descriptor a caller hands to the manager (NetworkRequest), its
    defaults, and the HTTP methods it may name. */
module Requests {

  import opened Wrappers
  import opened Errors
  import opened OAuth

  newtype byte = x: int | 0 <= x < 256

  type Bytes = seq<byte>

  type HeaderMap = map<string, string>

  /** What the result callback receives: Swift's Result<Data, NetworkError>. */
  datatype NetResult = Success(data: Bytes) | Failure(error: NetworkError)

  /** The identity of a caller's completion closure. */
  type CallbackId = nat

  datatype HTTPMethod = Get | Post | Put | Patch | Delete {

    /** The raw value each case declares. */
    function RawValue(): (s: string)
      ensures s in {"GET", "POST", "PUT", "PATCH", "DELETE"}
    {
      match this
      case Get => "GET"
      case Post => "POST"
      case Put => "PUT"
      case Patch => "PATCH"
      case Delete => "DELETE"
    }
  }

  /** The failable initializer from a raw value that Swift gives every raw-value enum. */
  function HTTPMethodFromRawValue(s: string): (m: Option<HTTPMethod>)
    ensures m.Some? ==> m.value.RawValue() == s
    ensures m.None? ==> s !in {"GET", "POST", "PUT", "PATCH", "DELETE"}
  {
    if s == "GET" then Some(Get)
    else if s == "POST" then Some(Post)
    else if s == "PUT" then Some(Put)
    else if s == "PATCH" then Some(Patch)
    else if s == "DELETE" then Some(Delete)
    else None
  }

  /** Distinct methods have distinct raw values: the raw value identifies the case. */
  lemma RawValueIdentifiesMethod(m: HTTPMethod)
    ensures HTTPMethodFromRawValue(m.RawValue()) == Some(m)
  {
  }

  /** The part of HTTPURLResponse the descriptor hooks and the manager look at. */
  datatype Response = Response(statusCode: int, headers: HeaderMap)

  /** A request descriptor: its transport shape, its hooks and its authentication capability. */
  datatype NetworkRequest = NetworkRequest(
    url: string,
    httpMethod: HTTPMethod,
    body: Option<Bytes>,
    eTag: Option<string>,
    customHeaders: Option<HeaderMap>,
    getETagDataIfAvailable: (Response, Bytes) -> Option<Bytes>,
    isResponseValid: Response -> bool,
    auth: OAuthHandler)

  /** A descriptor that states only what the protocol requires and takes every default:
      no body, no custom headers, every response valid, and the default authentication. */
  function DefaultedRequest(url: string, httpMethod: HTTPMethod, eTag: Option<string>,
                            getETagDataIfAvailable: (Response, Bytes) -> Option<Bytes>): (r: NetworkRequest)
    ensures r.url == url && r.httpMethod == httpMethod && r.eTag == eTag
    ensures r.body == None
    ensures r.customHeaders == None
    ensures forall resp :: r.isResponseValid(resp)
    ensures !r.auth.needAuthentication && r.auth.refresh == Silent
    ensures forall c: Credentials :: r.auth.token(c) == None
  {
    NetworkRequest(url, httpMethod, None, eTag, None, getETagDataIfAvailable, _ => true, DefaultOAuthHandler())
  }
}
