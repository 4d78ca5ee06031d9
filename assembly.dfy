/** How `fire` turns a descriptor into the outgoing URLRequest: the header map it
    builds step by step, and `URLRequest.setCustomHeaders`. */
module Assembly {

  import opened Wrappers
  import opened OAuth
  import opened Requests

  const AuthorizationField := "Authorization"
  const IfNoneMatchField := "If-None-Match"
  const AcceptField := "Accept"
  const ContentTypeField := "Content-Type"
  const JsonUtf8 := "application/json; charset=utf-8"
  const BearerPrefix := "Bearer "

  /** The outgoing request, a value type: the url, the method, the header map and the body. */
  datatype URLRequest = URLRequest(
    url: string,
    httpMethod: Option<string>,
    headers: HeaderMap,
    httpBody: Option<Bytes>)

  /** `URLRequest(url:)`: Foundation's default method GET, no headers, no body. */
  function NewURLRequest(url: string): (r: URLRequest)
    ensures r.url == url && r.httpMethod == Some("GET") && r.headers == map[] && r.httpBody == None
  {
    URLRequest(url, Some("GET"), map[], None)
  }

  /** `setValue(_:forHTTPHeaderField:)`: the field now holds the value; every other field is kept. */
  function SetValue(r: URLRequest, value: string, field: string): (r': URLRequest)
    ensures r'.headers.Keys == r.headers.Keys + {field}
    ensures r'.headers[field] == value
    ensures forall k :: k in r.headers && k != field ==> r'.headers[k] == r.headers[k]
    ensures r'.url == r.url && r'.httpMethod == r.httpMethod && r'.httpBody == r.httpBody
  {
    r.(headers := r.headers[field := value])
  }

  /** Headers after applying an optional custom map on top of `h`: every custom field is
      written and wins over an earlier value; nil leaves `h` as it was. */
  function WithCustom(h: HeaderMap, custom: Option<HeaderMap>): (h': HeaderMap)
    ensures custom.None? ==> h' == h
    ensures custom.Some? ==> h'.Keys == h.Keys + custom.value.Keys
    ensures custom.Some? ==> forall k :: k in custom.value ==> h'[k] == custom.value[k]
    ensures forall k :: k in h && (custom.None? || k !in custom.value) ==> h'[k] == h[k]
  {
    if custom.None? then h else h + custom.value
  }

  /** `setCustomHeaders`: sets every field of the custom map, one at a time. */
  method SetCustomHeaders(r: URLRequest, headersDictionary: Option<HeaderMap>) returns (r': URLRequest)
    ensures r' == r.(headers := WithCustom(r.headers, headersDictionary))
  {
    r' := r;
    if headersDictionary.None? {
      return;
    }
    var custom := headersDictionary.value;
    var pending := custom.Keys;
    while pending != {}
      invariant pending <= custom.Keys
      invariant r'.url == r.url && r'.httpMethod == r.httpMethod && r'.httpBody == r.httpBody
      invariant r'.headers.Keys == r.headers.Keys + (custom.Keys - pending)
      invariant forall k :: k in custom && k !in pending ==> r'.headers[k] == custom[k]
      invariant forall k :: k in r.headers && k !in custom ==> r'.headers[k] == r.headers[k]
      invariant forall k :: k in pending && k in r.headers ==> r'.headers[k] == r.headers[k]
      decreases pending
    {
      var key :| key in pending;
      r' := SetValue(r', custom[key], key);
      pending := pending - {key};
    }
    assert r'.headers == WithCustom(r.headers, headersDictionary);
  }

  /** The request `fire` sends for `request` when the token getter reads `creds`: the
      header writes of `fire`, in order. Its headers are described by `FireHeaders`. */
  function AssembledRequest(request: NetworkRequest, creds: Credentials): (r: URLRequest)
    ensures r.url == request.url
    ensures r.httpMethod == Some(request.httpMethod.RawValue())
    ensures r.httpBody == request.body
  {
    WithRequestFields(request, WithAuthorization(request, creds, NewURLRequest(request.url)))
  }

  /** The headers `fire` sends: Accept always; If-None-Match for an ETag; Content-Type for
      POST or when the custom map has one; Authorization exactly when there is a bearer
      token or the custom map has one, the custom value winning; every other custom
      field as given. */
  lemma FireHeaders(request: NetworkRequest, creds: Credentials)
    ensures var r := AssembledRequest(request, creds);
      && AcceptField in r.headers && r.headers[AcceptField] == JsonUtf8
      && (request.eTag.Some? ==> IfNoneMatchField in r.headers && r.headers[IfNoneMatchField] == request.eTag.value)
      && (request.httpMethod == Post ==> ContentTypeField in r.headers && r.headers[ContentTypeField] == JsonUtf8)
      && (ContentTypeField in r.headers <==>
            request.httpMethod == Post || (request.customHeaders.Some? && ContentTypeField in request.customHeaders.value))
      && (AuthorizationField in r.headers <==>
            BearerToken(request.auth, creds).Some? ||
            (request.customHeaders.Some? && AuthorizationField in request.customHeaders.value))
      && (BearerToken(request.auth, creds).Some? &&
          (request.customHeaders.None? || AuthorizationField !in request.customHeaders.value) ==>
            r.headers[AuthorizationField] == BearerPrefix + BearerToken(request.auth, creds).value)
      && (request.customHeaders.Some? ==>
            forall k :: k in request.customHeaders.value && k != AcceptField &&
                        (request.eTag.Some? ==> k != IfNoneMatchField) &&
                        (request.httpMethod == Post ==> k != ContentTypeField) ==>
              k in r.headers && r.headers[k] == request.customHeaders.value[k])
      && r.headers.Keys == SentFields(request, creds)
  {
    SentFieldsAreExactlyThese(request, creds);
    var authorized := WithAuthorization(request, creds, NewURLRequest(request.url));
    AuthorizationHeader(request, creds, NewURLRequest(request.url));
    RequestFieldsHeaders(request, authorized);
  }

  /** The header fields `fire` writes: Accept, If-None-Match for an ETag, Content-Type for
      POST, Authorization for a bearer token, and the custom fields. */
  function SentFields(request: NetworkRequest, creds: Credentials): set<string>
  {
    {AcceptField}
    + (if request.eTag.Some? then {IfNoneMatchField} else {})
    + (if request.httpMethod == Post then {ContentTypeField} else {})
    + (if BearerToken(request.auth, creds).Some? then {AuthorizationField} else {})
    + (if request.customHeaders.Some? then request.customHeaders.value.Keys else {})
  }

  /** The request `fire` sends carries the fields `SentFields` names and no other. */
  lemma SentFieldsAreExactlyThese(request: NetworkRequest, creds: Credentials)
    ensures AssembledRequest(request, creds).headers.Keys == SentFields(request, creds)
  {
    var authorized := WithAuthorization(request, creds, NewURLRequest(request.url));
    AuthorizationHeader(request, creds, NewURLRequest(request.url));
    assert authorized.headers.Keys == if BearerToken(request.auth, creds).Some? then {AuthorizationField} else {};
    RequestFieldsHeaders(request, authorized);
  }

  /** `handleAuthentication`'s header write: the bearer token, when there is one.
      `AuthorizationHeader` states what it does to the header map. */
  function WithAuthorization(request: NetworkRequest, creds: Credentials, r: URLRequest): (r': URLRequest)
    ensures r'.url == r.url && r'.httpMethod == r.httpMethod && r'.httpBody == r.httpBody
  {
    match BearerToken(request.auth, creds)
    case Some(token) => SetValue(r, BearerPrefix + token, AuthorizationField)
    case None => r
  }

  /** Authentication adds the Authorization field, holding "Bearer " and the token, when
      there is a bearer token, and otherwise leaves the request as it was; no other field
      changes. */
  lemma AuthorizationHeader(request: NetworkRequest, creds: Credentials, r: URLRequest)
    ensures var r' := WithAuthorization(request, creds, r);
      && r'.headers.Keys == r.headers.Keys + (if BearerToken(request.auth, creds).Some? then {AuthorizationField} else {})
      && (BearerToken(request.auth, creds).Some? ==>
            r'.headers[AuthorizationField] == BearerPrefix + BearerToken(request.auth, creds).value)
      && (forall k :: k in r.headers && k != AuthorizationField ==> r'.headers[k] == r.headers[k])
      && (BearerToken(request.auth, creds).None? ==> r' == r)
  {
  }

  /** The writes `fire` makes after authentication: method, custom headers, body,
      If-None-Match, Accept and, for POST, Content-Type. `RequestFieldsHeaders` states
      what they do to the header map. */
  function WithRequestFields(request: NetworkRequest, r: URLRequest): (r': URLRequest)
    ensures r'.url == r.url
    ensures r'.httpMethod == Some(request.httpMethod.RawValue()) && r'.httpBody == request.body
  {
    var withCustom := r.(httpMethod := Some(request.httpMethod.RawValue()))
                       .(headers := WithCustom(r.headers, request.customHeaders))
                       .(httpBody := request.body);
    WithFixedFields(request, withCustom)
  }

  /** The headers after `fire`'s writes that follow authentication: the fields of `r`, the
      custom fields, Accept, If-None-Match for an ETag and Content-Type for POST, and no
      others; a field written later wins, and a field none of them writes keeps its value. */
  lemma RequestFieldsHeaders(request: NetworkRequest, r: URLRequest)
    ensures var r' := WithRequestFields(request, r);
      && r'.headers.Keys == r.headers.Keys + {AcceptField}
                             + (if request.eTag.Some? then {IfNoneMatchField} else {})
                             + (if request.httpMethod == Post then {ContentTypeField} else {})
                             + (if request.customHeaders.Some? then request.customHeaders.value.Keys else {})
      && r'.headers[AcceptField] == JsonUtf8
      && (request.eTag.Some? ==> r'.headers[IfNoneMatchField] == request.eTag.value)
      && (request.httpMethod == Post ==> r'.headers[ContentTypeField] == JsonUtf8)
      && (forall k :: k in r.headers && k != AcceptField && (request.eTag.Some? ==> k != IfNoneMatchField) &&
                      (request.httpMethod == Post ==> k != ContentTypeField) &&
                      (request.customHeaders.None? || k !in request.customHeaders.value) ==>
            r'.headers[k] == r.headers[k])
      && (request.customHeaders.Some? ==>
            forall k :: k in request.customHeaders.value && k != AcceptField &&
                        (request.eTag.Some? ==> k != IfNoneMatchField) &&
                        (request.httpMethod == Post ==> k != ContentTypeField) ==>
              r'.headers[k] == request.customHeaders.value[k])
  {
  }

  /** The fixed writes that close `fire`'s assembly: If-None-Match for an ETag, Accept, and
      Content-Type for POST. Every other field, the url, the method and the body are kept. */
  function WithFixedFields(request: NetworkRequest, r: URLRequest): (r': URLRequest)
    ensures r'.url == r.url && r'.httpMethod == r.httpMethod && r'.httpBody == r.httpBody
    ensures r'.headers.Keys == r.headers.Keys + {AcceptField}
                               + (if request.eTag.Some? then {IfNoneMatchField} else {})
                               + (if request.httpMethod == Post then {ContentTypeField} else {})
    ensures r'.headers[AcceptField] == JsonUtf8
    ensures request.eTag.Some? ==> r'.headers[IfNoneMatchField] == request.eTag.value
    ensures request.httpMethod == Post ==> r'.headers[ContentTypeField] == JsonUtf8
    ensures forall k :: k in r.headers && k != AcceptField && (request.eTag.Some? ==> k != IfNoneMatchField) &&
                        (request.httpMethod == Post ==> k != ContentTypeField) ==>
              r'.headers[k] == r.headers[k]
  {
    var withETag :=
      match request.eTag
      case Some(tag) => SetValue(r, tag, IfNoneMatchField)
      case None => r;
    var withAccept := SetValue(withETag, JsonUtf8, AcceptField);
    if request.httpMethod == Post then SetValue(withAccept, JsonUtf8, ContentTypeField) else withAccept
  }

  /** The statements of `fire` after authentication, applied to the request being built. */
  method ApplyRequestFields(request: NetworkRequest, r: URLRequest) returns (r': URLRequest)
    ensures r' == WithRequestFields(request, r)
  {
    r' := r.(httpMethod := Some(request.httpMethod.RawValue()));
    r' := SetCustomHeaders(r', request.customHeaders);
    r' := r'.(httpBody := request.body);
    if request.eTag.Some? {
      r' := SetValue(r', request.eTag.value, IfNoneMatchField);
    }
    r' := SetValue(r', JsonUtf8, AcceptField);
    if request.httpMethod.Post? {
      r' := SetValue(r', JsonUtf8, ContentTypeField);
    }
  }

  /** A descriptor that keeps the default authentication never sends an Authorization header
      unless its custom headers name one. */
  lemma DefaultAuthSendsNoAuthorization(request: NetworkRequest, creds: Credentials)
    requires !request.auth.needAuthentication
    requires request.customHeaders.None?
    ensures AuthorizationField !in AssembledRequest(request, creds).headers
  {
  }
}
