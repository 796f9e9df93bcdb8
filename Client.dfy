/**
 * The authorized request client: it owns the credentials and a cached bearer
 * token, runs the client-credentials token exchange lazily the first time a
 * request finds the token empty, and sends every application call with the
 * token in its Authorization header.
 *
 * The HTTP transport is a test double (`Transport`) that records every call it
 * receives and answers each from a fixed responder, the oracle standing for the
 * network, Symfony's `getContent()` and `json_decode`.  The behaviour of the
 * client is given once as pure step functions over a `ClientState`
 * (`AuthorizeStep`, `RequestStep`); the methods of `Client` are proved to
 * perform exactly those steps, and the lemmas below state what follows about
 * sequences of requests.
 */
module ApiClient {
  import opened Wrappers
  import opened PhpValues

  /** The options of one transport call, in the shape the Symfony client takes them. */
  datatype RequestOptions =
    | FormBody(body: map<string, string>)                  // 'body' => [...]: form-encoded fields
    | JsonBody(headers: map<string, string>, json: Value)  // 'headers' => [...], 'json' => ...

  datatype HttpCall = HttpCall(httpMethod: string, url: string, options: RequestOptions)

  /** What the transport does with one call. */
  datatype Outcome =
    | TransportError(message: string)  // sending threw a transport exception
    | ContentError(message: string)    // getContent() threw (client, redirection, server or transport)
    | Content(decoded: Value)          // getContent() returned; json_decode of it

  /** The network: the answer to the call with the given index (counting from 0). */
  type Responder = (nat, HttpCall) -> Outcome

  /** The exceptions the client raises, one constructor per exception class. */
  datatype ClientError =
    | NoCredentials(message: string)  // NoCredentialsException
    | AuthorizationFailed             // AuthorizationFailedException, deliberately without a message
    | RequestFailed(message: string)  // RequestFailedException carrying the transport's message
    | ReturnTypeError                 // PHP's TypeError: the decoded body is not an array

  const NoCredentialsMessage := "API credentials not specified. Use Client::setCredentials"

  /** The token exchange: POST /token with the credentials as form fields. */
  function TokenCall(clientId: string, clientSecret: string): HttpCall {
    HttpCall("POST", "/token", FormBody(map[
      "grant_type" := "client_credentials",
      "client_id" := clientId,
      "client_secret" := clientSecret]))
  }

  function BearerHeader(token: Value): string {
    "Bearer " + ToPhpString(token)
  }

  /** An application call: bearer header, and the body as JSON (an empty array when none is given). */
  function ApplicationCall(httpMethod: string, url: string, token: Value, body: Option<Value>): HttpCall {
    HttpCall(httpMethod, url, JsonBody(map["Authorization" := BearerHeader(token)], body.GetOr(VList([]))))
  }

  predicate IsTokenExchange(c: HttpCall) {
    c.options.FormBody?
  }

  /** The number of token exchanges in a call log. */
  function TokenExchanges(log: seq<HttpCall>): nat
    decreases |log|
  {
    if log == [] then 0
    else TokenExchanges(log[..|log| - 1]) + (if IsTokenExchange(log[|log| - 1]) then 1 else 0)
  }

  /** What the client holds, together with the log of calls the transport has received. */
  datatype ClientState = ClientState(
    clientId: string,
    clientSecret: string,
    accessToken: Value,
    log: seq<HttpCall>)

  predicate HasCredentials(s: ClientState) {
    !IsEmptyString(s.clientId) && !IsEmptyString(s.clientSecret)
  }

  /** The token a decoded token response carries: its access_token entry, null when absent. */
  function AccessTokenOf(response: Value): Value {
    Offset(response, "access_token")
  }

  /** How `request` turns the outcome of its application call into its own result. */
  function ApplicationResult(o: Outcome): (r: Result<Value, ClientError>)
    ensures o.TransportError? ==> r == Failure(RequestFailed(o.message))
    ensures o.ContentError? ==> r == Failure(RequestFailed(o.message))
    ensures r.Success? <==> o.Content? && IsArray(o.decoded)
    ensures r.Success? ==> r.value == o.decoded
    ensures o.Content? && !IsArray(o.decoded) ==> r == Failure(ReturnTypeError)
  {
    match o
    case TransportError(m) => Failure(RequestFailed(m))
    case ContentError(m) => Failure(RequestFailed(m))
    case Content(v) => if IsArray(v) then Success(v) else Failure(ReturnTypeError)
  }

  /** The private authorize step. */
  function AuthorizeStep(s: ClientState, respond: Responder): (r: (ClientState, Result<(), ClientError>))
    ensures r.0.clientId == s.clientId && r.0.clientSecret == s.clientSecret
    // without both credentials: NoCredentials, and nothing is sent
    ensures !HasCredentials(s) ==> r == (s, Failure(NoCredentials(NoCredentialsMessage)))
    // otherwise exactly one call, the token exchange with the stored credentials
    ensures HasCredentials(s) ==> r.0.log == s.log + [TokenCall(s.clientId, s.clientSecret)]
    // it succeeds exactly when the exchange delivers content, and then caches its access_token
    ensures r.1.Success? <==> HasCredentials(s) && respond(|s.log|, TokenCall(s.clientId, s.clientSecret)).Content?
    ensures r.1.Success? ==>
      r.0.accessToken == AccessTokenOf(respond(|s.log|, TokenCall(s.clientId, s.clientSecret)).decoded)
    // a failed exchange raises AuthorizationFailed and leaves the token as it was
    ensures HasCredentials(s) && r.1.Failure? ==> r.1.error == AuthorizationFailed && r.0.accessToken == s.accessToken
  {
    if !HasCredentials(s) then
      (s, Failure(NoCredentials(NoCredentialsMessage)))
    else
      var call := TokenCall(s.clientId, s.clientSecret);
      var sent := s.(log := s.log + [call]);
      match respond(|s.log|, call)
      case TransportError(_) => (sent, Failure(AuthorizationFailed))
      case ContentError(_) => (sent, Failure(AuthorizationFailed))
      case Content(response) => (sent.(accessToken := AccessTokenOf(response)), Success(()))
  }

  /** `request(url, method, body)`. */
  function RequestStep(s: ClientState, respond: Responder, url: string, httpMethod: string, body: Option<Value>)
    : (r: (ClientState, Result<Value, ClientError>))
    ensures r.0.clientId == s.clientId && r.0.clientSecret == s.clientSecret
    // a cached token is reused: no exchange, one application call, token unchanged
    ensures !IsEmpty(s.accessToken) ==>
      && r.0.accessToken == s.accessToken
      && r.0.log == s.log + [ApplicationCall(httpMethod, url, s.accessToken, body)]
      && r.1 == ApplicationResult(respond(|s.log|, ApplicationCall(httpMethod, url, s.accessToken, body)))
    // an empty token without credentials: NoCredentials and no call at all
    ensures IsEmpty(s.accessToken) && !HasCredentials(s) ==>
      r == (s, Failure(NoCredentials(NoCredentialsMessage)))
    // an empty token, and the exchange fails: AuthorizationFailed, no application call, token unchanged
    ensures IsEmpty(s.accessToken) && HasCredentials(s) && !respond(|s.log|, TokenCall(s.clientId, s.clientSecret)).Content? ==>
      r == (s.(log := s.log + [TokenCall(s.clientId, s.clientSecret)]), Failure(AuthorizationFailed))
    // an empty token, and the exchange succeeds: the new token is cached, then used in the application call
    ensures IsEmpty(s.accessToken) && HasCredentials(s) && respond(|s.log|, TokenCall(s.clientId, s.clientSecret)).Content? ==>
      var token := AccessTokenOf(respond(|s.log|, TokenCall(s.clientId, s.clientSecret)).decoded);
      var app := ApplicationCall(httpMethod, url, token, body);
      && r.0 == s.(accessToken := token, log := s.log + [TokenCall(s.clientId, s.clientSecret), app])
      && r.1 == ApplicationResult(respond(|s.log| + 1, app))
  {
    var (authorized, status) := if IsEmpty(s.accessToken) then AuthorizeStep(s, respond) else (s, Success(()));
    if status.Failure? then
      (authorized, Failure(status.error))
    else
      var call := ApplicationCall(httpMethod, url, authorized.accessToken, body);
      (authorized.(log := authorized.log + [call]), ApplicationResult(respond(|authorized.log|, call)))
  }

  /** One application request, as an endpoint passes it to `request`. */
  datatype AppRequest = AppRequest(url: string, httpMethod: string, body: Option<Value>)

  /** The state after a series of requests made one after the other, and their results. */
  function RunRequests(s: ClientState, respond: Responder, requests: seq<AppRequest>)
    : (r: (ClientState, seq<Result<Value, ClientError>>))
    ensures |r.1| == |requests|
    decreases |requests|
  {
    if requests == [] then (s, [])
    else
      var (s1, first) := RequestStep(s, respond, requests[0].url, requests[0].httpMethod, requests[0].body);
      var (s2, rest) := RunRequests(s1, respond, requests[1..]);
      (s2, [first] + rest)
  }

  lemma {:induction false} TokenExchangesAppend(a: seq<HttpCall>, b: seq<HttpCall>)
    ensures TokenExchanges(a + b) == TokenExchanges(a) + TokenExchanges(b)
    decreases |b|
  {
    if b == [] {
      assert a + b == a;
    } else {
      var last := |b| - 1;
      assert (a + b)[..|a + b| - 1] == a + b[..last];
      assert (a + b)[|a + b| - 1] == b[last];
      TokenExchangesAppend(a, b[..last]);
    }
  }

  /** Once a token is cached, no request exchanges a token again, and the token never changes. */
  lemma {:induction false} CachedTokenIsReused(s: ClientState, respond: Responder, requests: seq<AppRequest>)
    requires !IsEmpty(s.accessToken)
    ensures RunRequests(s, respond, requests).0.accessToken == s.accessToken
    ensures |RunRequests(s, respond, requests).0.log| == |s.log| + |requests|
    ensures RunRequests(s, respond, requests).0.log[..|s.log|] == s.log
    ensures TokenExchanges(RunRequests(s, respond, requests).0.log) == TokenExchanges(s.log)
    decreases |requests|
  {
    if requests != [] {
      var q := requests[0];
      var (s1, _) := RequestStep(s, respond, q.url, q.httpMethod, q.body);
      var app := ApplicationCall(q.httpMethod, q.url, s.accessToken, q.body);
      assert s1.log == s.log + [app];
      TokenExchangesAppend(s.log, [app]);
      assert TokenExchanges([app]) == 0 by {
        assert [app][..0] == [];
      }
      CachedTokenIsReused(s1, respond, requests[1..]);
      var s2 := RunRequests(s1, respond, requests[1..]).0;
      assert s2.log[..|s.log|] == s2.log[..|s1.log|][..|s.log|];
    }
  }

  /**
   * From an empty token, a run of requests whose first one caches a non-empty
   * token performs exactly one token exchange: two (or more) successful
   * requests cost one exchange.
   */
  lemma OneExchangeForManyRequests(s: ClientState, respond: Responder, requests: seq<AppRequest>)
    requires IsEmpty(s.accessToken) && requests != []
    requires !IsEmpty(RequestStep(s, respond, requests[0].url, requests[0].httpMethod, requests[0].body).0.accessToken)
    ensures TokenExchanges(RunRequests(s, respond, requests).0.log) == TokenExchanges(s.log) + 1
    ensures |RunRequests(s, respond, requests).0.log| == |s.log| + |requests| + 1
  {
    var q := requests[0];
    var s1 := RequestStep(s, respond, q.url, q.httpMethod, q.body).0;
    var token := AccessTokenOf(respond(|s.log|, TokenCall(s.clientId, s.clientSecret)).decoded);
    var app := ApplicationCall(q.httpMethod, q.url, token, q.body);
    assert s1.log == s.log + [TokenCall(s.clientId, s.clientSecret), app];
    TokenExchangesAppend(s.log, [TokenCall(s.clientId, s.clientSecret), app]);
    assert TokenExchanges([TokenCall(s.clientId, s.clientSecret), app]) == 1 by {
      var pair := [TokenCall(s.clientId, s.clientSecret), app];
      assert pair[..1][..0] == [];
      assert pair[..1] == [TokenCall(s.clientId, s.clientSecret)];
    }
    CachedTokenIsReused(s1, respond, requests[1..]);
  }

  /** Before credentials are set, any run of requests makes no call and raises NoCredentials each time. */
  lemma {:induction false} NoCredentialsNoCalls(s: ClientState, respond: Responder, requests: seq<AppRequest>)
    requires IsEmpty(s.accessToken) && !HasCredentials(s)
    ensures RunRequests(s, respond, requests).0 == s
    ensures forall i :: 0 <= i < |requests| ==>
      RunRequests(s, respond, requests).1[i] == Failure(NoCredentials(NoCredentialsMessage))
    decreases |requests|
  {
    if requests != [] {
      NoCredentialsNoCalls(s, respond, requests[1..]);
    }
  }

  /**
   * A failed token exchange leaves the token empty, so the next request with
   * credentials starts with a new token exchange.
   */
  lemma FailedExchangeIsRetried(s: ClientState, respond: Responder, first: AppRequest, next: AppRequest)
    requires IsEmpty(s.accessToken) && HasCredentials(s)
    requires !respond(|s.log|, TokenCall(s.clientId, s.clientSecret)).Content?
    ensures var (s1, r1) := RequestStep(s, respond, first.url, first.httpMethod, first.body);
      && r1 == Failure(AuthorizationFailed)
      && s1.accessToken == s.accessToken
      && s1.log == s.log + [TokenCall(s.clientId, s.clientSecret)]
      && RequestStep(s1, respond, next.url, next.httpMethod, next.body).0.log[|s1.log|]
         == TokenCall(s.clientId, s.clientSecret)
  {
  }

  /**
   * A token response without access_token caches null: the current call still
   * goes out with the header "Bearer ", and the next request authorizes again.
   */
  lemma MissingAccessTokenReauthorizes(s: ClientState, respond: Responder, first: AppRequest, next: AppRequest)
    requires IsEmpty(s.accessToken) && HasCredentials(s)
    requires respond(|s.log|, TokenCall(s.clientId, s.clientSecret)).Content?
    requires AccessTokenOf(respond(|s.log|, TokenCall(s.clientId, s.clientSecret)).decoded) == VNull
    ensures var s1 := RequestStep(s, respond, first.url, first.httpMethod, first.body).0;
      && s1.accessToken == VNull
      && s1.log[|s.log| + 1].options == JsonBody(map["Authorization" := "Bearer "], first.body.GetOr(VList([])))
      && RequestStep(s1, respond, next.url, next.httpMethod, next.body).0.log[|s1.log|]
         == TokenCall(s.clientId, s.clientSecret)
  {
    var token := AccessTokenOf(respond(|s.log|, TokenCall(s.clientId, s.clientSecret)).decoded);
    var s1 := RequestStep(s, respond, first.url, first.httpMethod, first.body).0;
    assert s1.log == s.log + [TokenCall(s.clientId, s.clientSecret),
                              ApplicationCall(first.httpMethod, first.url, token, first.body)];
    assert s1.log[|s.log| + 1] == ApplicationCall(first.httpMethod, first.url, VNull, first.body);
    assert BearerHeader(VNull) == "Bearer ";
  }

  /** The transport test double: records every call and answers from `respond`. */
  class Transport {
    const respond: Responder
    var log: seq<HttpCall>

    constructor (respond: Responder)
      ensures this.respond == respond && log == []
    {
      this.respond := respond;
      log := [];
    }

    method Request(httpMethod: string, url: string, options: RequestOptions) returns (o: Outcome)
      modifies this
      ensures log == old(log) + [HttpCall(httpMethod, url, options)]
      ensures o == respond(|old(log)|, HttpCall(httpMethod, url, options))
    {
      o := respond(|log|, HttpCall(httpMethod, url, options));
      log := log + [HttpCall(httpMethod, url, options)];
    }
  }

  class Client {
    const httpClient: Transport
    var clientId: string
    var clientSecret: string
    var accessToken: Value

    function State(): ClientState
      reads this, httpClient
    {
      ClientState(clientId, clientSecret, accessToken, httpClient.log)
    }

    /** A new client has no credentials and no token (PHP's unset properties read as null). */
    constructor (httpClient: Transport)
      ensures this.httpClient == httpClient
      ensures State() == ClientState("", "", VNull, httpClient.log)
    {
      this.httpClient := httpClient;
      clientId := "";
      clientSecret := "";
      accessToken := VNull;
    }

    /** Overwrites both credentials; the cached token and the transport are untouched. */
    method SetCredentials(clientId: string, clientSecret: string)
      modifies this
      ensures this.clientId == clientId && this.clientSecret == clientSecret
      ensures accessToken == old(accessToken)
      ensures State() == old(State()).(clientId := clientId, clientSecret := clientSecret)
    {
      this.clientId := clientId;
      this.clientSecret := clientSecret;
    }

    method Authorize() returns (r: Result<(), ClientError>)
      modifies this, httpClient
      ensures (State(), r) == AuthorizeStep(old(State()), httpClient.respond)
    {
      if IsEmptyString(clientId) || IsEmptyString(clientSecret) {
        return Failure(NoCredentials(NoCredentialsMessage));
      }
      var outcome := httpClient.Request("POST", "/token", FormBody(map[
        "grant_type" := "client_credentials",
        "client_id" := clientId,
        "client_secret" := clientSecret]));
      match outcome {
        case TransportError(_) =>
          return Failure(AuthorizationFailed);
        case ContentError(_) =>
          return Failure(AuthorizationFailed);
        case Content(response) =>
          accessToken := Offset(response, "access_token");
          return Success(());
      }
    }

    method Request(url: string, httpMethod: string, body: Option<Value>) returns (r: Result<Value, ClientError>)
      modifies this, httpClient
      ensures (State(), r) == RequestStep(old(State()), httpClient.respond, url, httpMethod, body)
    {
      if IsEmpty(accessToken) {
        var status := Authorize();
        if status.Failure? {
          return Failure(status.error);
        }
      }
      var outcome := httpClient.Request(httpMethod, url,
        JsonBody(map["Authorization" := "Bearer " + ToPhpString(accessToken)], body.GetOr(VList([]))));
      match outcome {
        case TransportError(m) =>
          return Failure(RequestFailed(m));
        case ContentError(m) =>
          return Failure(RequestFailed(m));
        case Content(v) =>
          if IsArray(v) {
            return Success(v);
          }
          return Failure(ReturnTypeError);
      }
    }
  }
}
