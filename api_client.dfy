/**
 * The HTTP client `apiRequest` and its helpers `api.get/post/put/delete`:
 * how the outgoing request is shaped and how a response is settled into a
 * value or an error. The network is the input `network`, a function from
 * the request sent to the response received, None when `fetch` itself
 * rejects (a network failure); `response.json()` is the response's `body`,
 * None when it does not parse.
 */
module Client {
  import opened Wrappers
  import opened Js
  import opened Storage

  const ContentType := "Content-Type"
  const Authorization := "Authorization"
  const ApplicationJson := "application/json"
  const BearerPrefix := "Bearer "
  const GenericError := "Erro na requisição"
  const StatusErrorPrefix := "API error: "

  /** `RequestOptions`: `fetch` options plus the optional token. */
  datatype RequestOptions = RequestOptions(verb: Option<string>, body: Option<string>,
                                           headers: map<string, string>, token: Option<string>)

  /** What is handed to `fetch`. */
  datatype FetchRequest = FetchRequest(url: string, verb: Option<string>, body: Option<string>,
                                       headers: map<string, string>)

  /** A parsed JSON body: `null`, a number/string/boolean, or an object (its string-valued fields). */
  datatype JsonValue = Null | Scalar(text: string) | Object(fields: map<string, string>)

  datatype HttpResponse = HttpResponse(status: nat, body: Option<JsonValue>)

  /** `response.ok`. */
  predicate IsOk(status: nat) {
    200 <= status <= 299
  }

  /**
   * How the returned promise rejects: `new Error(message)`, a JSON syntax
   * error, or a `TypeError` (a property read on `null`, or `fetch` failing).
   */
  datatype JsError = HttpError(message: string) | SyntaxError | TypeError

  datatype ApiResult = Resolved(value: JsonValue) | Rejected(error: JsError)

  function DigitChar(d: nat): (c: char)
    requires d < 10
    ensures '0' <= c <= '9'
  {
    "0123456789"[d]
  }

  /** The decimal rendering of a status code in a template literal. */
  function Decimal(n: nat): (s: string)
    ensures |s| > 0
    ensures forall i :: 0 <= i < |s| ==> '0' <= s[i] <= '9'
    ensures n < 10 <==> |s| == 1
    ensures s[0] == '0' ==> n == 0
  {
    if n < 10 then [DigitChar(n)] else Decimal(n / 10) + [DigitChar(n % 10)]
  }

  /** The number a string of decimal digits denotes, most significant digit first. */
  function DigitsValue(s: string): nat
    requires forall i :: 0 <= i < |s| ==> '0' <= s[i] <= '9'
  {
    if s == [] then 0 else 10 * DigitsValue(s[..|s| - 1]) + (s[|s| - 1] as int - '0' as int)
  }

  /** `Decimal` renders the status faithfully: reading its digits back gives the number. */
  lemma {:induction false} DecimalRoundTrip(n: nat)
    ensures DigitsValue(Decimal(n)) == n
    decreases n
  {
    var s := Decimal(n);
    if n >= 10 {
      DecimalRoundTrip(n / 10);
      assert s[..|s| - 1] == Decimal(n / 10);
    }
  }

  /** `error.message` of a parsed error body that is not `null`. */
  function MessageField(body: JsonValue): Option<string>
    requires body != Null
  {
    match body
    case Scalar(_) => None
    case Object(fields) => Get(fields, "message")
  }

  /** The message of a failed request: the body's `message` when truthy, otherwise `API error: ` and the status. */
  function StatusMessage(status: nat, body: JsonValue): (m: string)
    requires body != Null
    ensures m != ""
    ensures Truthy(MessageField(body)) ==> m == MessageField(body).value
    ensures !Truthy(MessageField(body)) ==> m == StatusErrorPrefix + Decimal(status) && StatusErrorPrefix <= m
  {
    var message := MessageField(body);
    if Truthy(message) then message.value else StatusErrorPrefix + Decimal(status)
  }

  /** The outcome of `apiRequest` once the response has arrived. */
  function Settle(response: HttpResponse): (r: ApiResult)
    ensures IsOk(response.status) && response.body.Some? ==> r == Resolved(response.body.value)
    ensures IsOk(response.status) && response.body.None? ==> r == Rejected(SyntaxError)
    ensures IsOk(response.status) ==> !(r.Rejected? && r.error.HttpError?)
    ensures !IsOk(response.status) ==> r.Rejected?
    ensures !IsOk(response.status) && response.body.None? ==> r == Rejected(HttpError(GenericError))
    ensures !IsOk(response.status) && response.body == Some(Null) ==> r == Rejected(TypeError)
    ensures !IsOk(response.status) && response.body.Some? && response.body.value != Null ==>
      r == Rejected(HttpError(StatusMessage(response.status, response.body.value)))
    ensures r.Rejected? && r.error.HttpError? ==> r.error.message != ""
  {
    if IsOk(response.status) then
      match response.body
      case Some(v) => Resolved(v)
      case None => Rejected(SyntaxError)
    else
      match response.body
      case None => Rejected(HttpError(GenericError))   // an unparsable body is replaced by the generic message
      case Some(Null) => Rejected(TypeError)
      case Some(v) => Rejected(HttpError(StatusMessage(response.status, v)))
  }

  /** The outcome of `apiRequest` once `fetch` has settled: its rejection passes through. */
  function Deliver(response: Option<HttpResponse>): ApiResult {
    match response
    case None => Rejected(TypeError)
    case Some(resp) => Settle(resp)
  }

  /**
   * `apiRequest(endpoint, options)`: sends one request and settles its response.
   * `Content-Type: application/json` unless the caller's headers override it,
   * then `Authorization: Bearer <token>` exactly when the token is truthy.
   */
  method ApiRequest(apiUrl: string, endpoint: string, options: RequestOptions,
                    network: FetchRequest -> Option<HttpResponse>)
    returns (sent: FetchRequest, r: ApiResult)
    ensures sent.url == apiUrl + endpoint && sent.verb == options.verb && sent.body == options.body
    ensures ContentType in sent.headers
    ensures ContentType !in options.headers ==> sent.headers[ContentType] == ApplicationJson
    ensures Truthy(options.token) ==> Get(sent.headers, Authorization) == Some(BearerPrefix + options.token.value)
    ensures !Truthy(options.token) ==> Get(sent.headers, Authorization) == Get(options.headers, Authorization)
    ensures forall k :: k in sent.headers <==> k in options.headers || k == ContentType || (k == Authorization && Truthy(options.token))
    ensures forall k :: k in options.headers && !(k == Authorization && Truthy(options.token)) ==>
              sent.headers[k] == options.headers[k]
    ensures network(sent).None? ==> r == Rejected(TypeError)
    ensures network(sent).Some? ==> r == Settle(network(sent).value)
  {
    var headers := map[ContentType := ApplicationJson] + options.headers;
    if Truthy(options.token) {
      headers := headers[Authorization := BearerPrefix + options.token.value];
    }
    sent := FetchRequest(apiUrl + endpoint, options.verb, options.body, headers);
    var response := network(sent);
    if response.None? {
      r := Rejected(TypeError);
    } else {
      r := Settle(response.value);
    }
  }

  /** `api.get`: GET, no body, the token as given. */
  method ApiGet(apiUrl: string, endpoint: string, token: Option<string>, network: FetchRequest -> Option<HttpResponse>)
    returns (sent: FetchRequest, r: ApiResult)
    ensures sent.url == apiUrl + endpoint && sent.verb == Some("GET") && sent.body == None
    ensures HelperHeaders(sent.headers, token)
    ensures r == Deliver(network(sent))
  {
    sent, r := ApiRequest(apiUrl, endpoint, RequestOptions(Some("GET"), None, map[], token), network);
  }

  /** `api.post`: POST with the serialised data. */
  method ApiPost<D>(apiUrl: string, endpoint: string, data: D, stringify: D -> string, token: Option<string>,
                    network: FetchRequest -> Option<HttpResponse>)
    returns (sent: FetchRequest, r: ApiResult)
    ensures sent.url == apiUrl + endpoint && sent.verb == Some("POST") && sent.body == Some(stringify(data))
    ensures HelperHeaders(sent.headers, token)
    ensures r == Deliver(network(sent))
  {
    sent, r := ApiRequest(apiUrl, endpoint, RequestOptions(Some("POST"), Some(stringify(data)), map[], token), network);
  }

  /** `api.put`: PUT with the serialised data. */
  method ApiPut<D>(apiUrl: string, endpoint: string, data: D, stringify: D -> string, token: Option<string>,
                   network: FetchRequest -> Option<HttpResponse>)
    returns (sent: FetchRequest, r: ApiResult)
    ensures sent.url == apiUrl + endpoint && sent.verb == Some("PUT") && sent.body == Some(stringify(data))
    ensures HelperHeaders(sent.headers, token)
    ensures r == Deliver(network(sent))
  {
    sent, r := ApiRequest(apiUrl, endpoint, RequestOptions(Some("PUT"), Some(stringify(data)), map[], token), network);
  }

  /** `api.delete`: DELETE, no body. */
  method ApiDelete(apiUrl: string, endpoint: string, token: Option<string>, network: FetchRequest -> Option<HttpResponse>)
    returns (sent: FetchRequest, r: ApiResult)
    ensures sent.url == apiUrl + endpoint && sent.verb == Some("DELETE") && sent.body == None
    ensures HelperHeaders(sent.headers, token)
    ensures r == Deliver(network(sent))
  {
    sent, r := ApiRequest(apiUrl, endpoint, RequestOptions(Some("DELETE"), None, map[], token), network);
  }

  /** The headers every helper sends: JSON content type, and a bearer header exactly when the token is truthy. */
  ghost predicate HelperHeaders(headers: map<string, string>, token: Option<string>) {
    && Get(headers, ContentType) == Some(ApplicationJson)
    && (Truthy(token) ==> Get(headers, Authorization) == Some(BearerPrefix + token.value))
    && (!Truthy(token) ==> Authorization !in headers)
    && (forall k :: k in headers ==> k == ContentType || k == Authorization)
  }
}
