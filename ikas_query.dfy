/**
  `executeIkasQuery` (server.js:17-38): the lazily refreshed bearer-token cache and the
  forwarding of one GraphQL operation upstream.

  The identity exchange is an OAuth 2.0 Client Credentials Grant (section 4.4 of RFC 6749),
  whose reply carries `access_token` and the lifetime `expires_in` in seconds (section 5.1 of
  RFC 6749); the token is then sent as `Authorization: Bearer <token>` (section 2.1 of RFC 6750).

  Neither the clock nor the network is modelled: `now` is the clock reading taken before the
  freshness test, and the replies of the identity endpoint and of the GraphQL endpoint are
  inputs. The pure functions below specify one call; the class `TokenCache` holds the
  module-level record and its methods are proved against those functions.
 */
module IkasQuery {
  import opened Wrappers
  import opened JsValues

  /** `CLIENT_ID` and `CLIENT_SECRET`, read from the environment at start-up. */
  datatype Credentials = Credentials(clientId: string, clientSecret: string)

  /** The two fields of `tokenCache`; `accessToken` is `null` (None) until the first refresh. */
  datatype TokenState = TokenState(accessToken: Option<string>, expiresAt: int)

  /** `{ accessToken: null, expiresAt: 0 }` at process start (server.js:14). */
  const InitialState := TokenState(None, 0)

  /**
    What the identity endpoint answered. A grant carries `access_token`, `expires_in` and
    `receivedAt`, the clock reading taken once the awaited post returned (the second
    `Date.now()`, server.js:27). A refusal is the error the awaited post threw.
   */
  datatype ExchangeReply =
    | Granted(accessToken: string, expiresIn: int, receivedAt: int)
    | Refused(error: Error)

  /** One entry of a GraphQL response's `errors` list. */
  datatype GraphQLError = GraphQLError(message: string)

  /**
    The JSON body of a GraphQL response: its `data` member (None when absent) and its
    `errors` list. An absent `errors` member is the empty list.
   */
  datatype UpstreamBody = UpstreamBody(data: Option<Json>, errors: seq<GraphQLError>)

  /** The post sent to the GraphQL endpoint: the body `{query, variables}` and the header. */
  datatype GraphQLRequest = GraphQLRequest(query: string, variables: Json, authorization: string)

  /** An outbound HTTP call the proxy makes. */
  datatype Call =
    | TokenExchange(form: seq<(string, string)>)
    | GraphQLPost(request: GraphQLRequest)

  /** The form body of the client-credentials exchange, in the order server.js:20-24 builds it. */
  function ClientCredentialsForm(c: Credentials): seq<(string, string)>
  {
    [("grant_type", "client_credentials"), ("client_id", c.clientId), ("client_secret", c.clientSecret)]
  }

  /** The `Authorization` header value for a token (server.js:31). */
  function BearerHeader(token: string): string
  {
    "Bearer " + token
  }

  /** `tokenCache.accessToken` is truthy: present and not the empty string. */
  predicate HasToken(s: TokenState)
  {
    s.accessToken.Some? && s.accessToken.value != ""
  }

  /** The freshness test of server.js:18: refresh when the token is falsy or strictly past its expiry. */
  predicate NeedsRefresh(s: TokenState, now: int)
  {
    !HasToken(s) || now > s.expiresAt
  }

  /**
    The expiry stored after a grant: `receivedAt + expires_in * 1000 * 0.9` milliseconds,
    which is exactly `expires_in * 900` past `receivedAt`.
   */
  function ExpiryOf(expiresIn: int, receivedAt: int): int
  {
    receivedAt + expiresIn * 900
  }

  /** The cache after the freshness test and any refresh, the token to send, and whether an exchange happened. */
  datatype Acquisition = Acquisition(state: TokenState, token: Result<string, Error>, exchanged: bool)

  /** Lines 18-29 of server.js: reuse the cached token, or exchange credentials for a new one. */
  function Acquire(s: TokenState, now: int, reply: ExchangeReply): (a: Acquisition)
    // an exchange happens exactly when the cached token is falsy or expired
    ensures a.exchanged <==> NeedsRefresh(s, now)
    // without an exchange, and after a failed one, the cache is untouched
    ensures !a.exchanged ==> a.state == s
    ensures a.token.Err? ==> a.state == s && a.exchanged && reply == Refused(a.token.error)
    // a refused exchange throws its error before anything is stored (server.js:25-27)
    ensures a.exchanged && reply.Refused? ==> a.state == s && a.token == Err(reply.error)
    // a successful exchange stores the granted token and its expiry
    ensures a.exchanged && reply.Granted? ==>
      a.state == TokenState(Some(reply.accessToken), ExpiryOf(reply.expiresIn, reply.receivedAt))
    // the token handed out is always the one the cache now holds
    ensures a.token.Ok? ==> a.state.accessToken == Some(a.token.value)
  {
    if !NeedsRefresh(s, now) then
      Acquisition(s, Ok(s.accessToken.value), false)
    else
      match reply
      case Granted(token, expiresIn, receivedAt) =>
        Acquisition(TokenState(Some(token), ExpiryOf(expiresIn, receivedAt)), Ok(token), true)
      case Refused(e) =>
        Acquisition(s, Err(e), true)
  }

  /** The prefix of the message thrown for GraphQL errors, "GraphQL Hatası: " (Turkish for "GraphQL error: "). */
  const GraphQLErrorPrefix := "GraphQL Hatas\U{0131}: "

  /**
    Lines 33-37 of server.js: a body with errors throws an `Error` naming the first one;
    any other body is returned whole. (In JavaScript an empty `errors` array is truthy and
    reading its first message throws a `TypeError`; here an empty list counts as no errors.)
   */
  function Classify(body: UpstreamBody): (r: Result<UpstreamBody, Error>)
    ensures r.Ok? <==> body.errors == []
    ensures r.Ok? ==> r.value == body
    ensures r.Err? ==> r.error.message == GraphQLErrorPrefix + body.errors[0].message
    // the message as server.js:35 spells it, letter for letter
    ensures r.Err? ==> r.error.message == "GraphQL Hatas\U{0131}: " + body.errors[0].message
  {
    if body.errors != [] then Err(Error(GraphQLErrorPrefix + body.errors[0].message)) else Ok(body)
  }

  /** The prefix is the 16 characters of server.js:35, ending in a dotless i, a colon and a space. */
  lemma GraphQLErrorPrefixSpelling()
    ensures |GraphQLErrorPrefix| == 16
    ensures GraphQLErrorPrefix == "GraphQL Hatas\U{0131}: "
  {
  }

  /** How many identity exchanges a sequence of outbound calls contains. */
  function ExchangeCount(calls: seq<Call>): nat
  {
    if calls == [] then 0 else (if calls[0].TokenExchange? then 1 else 0) + ExchangeCount(calls[1..])
  }

  lemma {:induction false} ExchangeCountAppend(a: seq<Call>, b: seq<Call>)
    ensures ExchangeCount(a + b) == ExchangeCount(a) + ExchangeCount(b)
  {
    if a == [] {
      assert a + b == b;
    } else {
      assert (a + b)[0] == a[0];
      assert (a + b)[1..] == a[1..] + b;
      ExchangeCountAppend(a[1..], b);
    }
  }

  /** One run of `executeIkasQuery`: the cache afterwards, the calls made, and what it returns or throws. */
  datatype QueryRun = QueryRun(state: TokenState, calls: seq<Call>, result: Result<UpstreamBody, Error>)

  /**
    `executeIkasQuery(query, variables)` (server.js:17-38), with `upstream` standing for what
    the GraphQL post returns or throws.
   */
  function RunQuery(creds: Credentials, s: TokenState, now: int, reply: ExchangeReply,
                    query: string, variables: Json, upstream: Result<UpstreamBody, Error>): (run: QueryRun)
    ensures run.state == Acquire(s, now, reply).state
    // the identity endpoint is called once, first, with the client-credentials form, exactly when a refresh is due
    ensures ExchangeCount(run.calls) == (if NeedsRefresh(s, now) then 1 else 0)
    ensures NeedsRefresh(s, now) ==> run.calls[0] == TokenExchange(ClientCredentialsForm(creds))
    // the GraphQL endpoint is called, once and last, exactly when a token was obtained,
    // and always with the token the cache holds afterwards
    ensures run.calls != []
    ensures |run.calls| == ExchangeCount(run.calls) + (if Acquire(s, now, reply).token.Ok? then 1 else 0)
    ensures Acquire(s, now, reply).token.Ok? <==> run.calls[|run.calls| - 1].GraphQLPost?
    ensures forall c | c in run.calls && c.GraphQLPost? ::
      run.state.accessToken.Some? &&
      c.request == GraphQLRequest(query, variables, BearerHeader(run.state.accessToken.value))
    // a failed exchange is thrown as it is; otherwise the upstream outcome is classified
    ensures Acquire(s, now, reply).token.Err? ==> run.result == Err(Acquire(s, now, reply).token.error)
    ensures Acquire(s, now, reply).token.Ok? && upstream.Err? ==> run.result == Err(upstream.error)
    ensures Acquire(s, now, reply).token.Ok? && upstream.Ok? ==> run.result == Classify(upstream.value)
  {
    var a := Acquire(s, now, reply);
    var exchange := if a.exchanged then [TokenExchange(ClientCredentialsForm(creds))] else [];
    match a.token
    case Err(e) =>
      QueryRun(a.state, exchange, Err(e))
    case Ok(token) =>
      var post := GraphQLPost(GraphQLRequest(query, variables, BearerHeader(token)));
      var result := match upstream
        case Err(e) => Err(e)
        case Ok(body) => Classify(body);
      ExchangeCountAppend(exchange, [post]);
      QueryRun(a.state, exchange + [post], result)
  }

  /**
    A token that was handed out is reused, with no exchange, by every later call up to and
    including the instant `expiresAt` (server.js:18 refreshes only when `now > expiresAt`).
   */
  lemma TokenReusedUntilExpiry(s: TokenState, now1: int, reply1: ExchangeReply, now2: int, reply2: ExchangeReply)
    requires Acquire(s, now1, reply1).token.Ok? && Acquire(s, now1, reply1).token.value != ""
    requires now2 <= Acquire(s, now1, reply1).state.expiresAt
    ensures !Acquire(Acquire(s, now1, reply1).state, now2, reply2).exchanged
    ensures Acquire(Acquire(s, now1, reply1).state, now2, reply2) ==
      Acquisition(Acquire(s, now1, reply1).state, Acquire(s, now1, reply1).token, false)
  {
  }

  /** Once the clock is past `expiresAt`, the next call exchanges credentials again. */
  lemma TokenRefreshedAfterExpiry(s: TokenState, now: int, reply: ExchangeReply)
    requires now > s.expiresAt
    ensures Acquire(s, now, reply).exchanged
  {
  }

  /**
    A refresh buys a full lifetime: a query that refreshes the token, followed by any query
    before the new expiry, makes exactly one identity exchange between them.
   */
  lemma OneExchangePerLifetime(creds: Credentials, s: TokenState,
                                  now1: int, reply1: ExchangeReply, q1: string, v1: Json, up1: Result<UpstreamBody, Error>,
                                  now2: int, reply2: ExchangeReply, q2: string, v2: Json, up2: Result<UpstreamBody, Error>)
    requires NeedsRefresh(s, now1)
    requires reply1.Granted? && reply1.accessToken != ""
    requires now2 <= ExpiryOf(reply1.expiresIn, reply1.receivedAt)
    ensures
      var run1 := RunQuery(creds, s, now1, reply1, q1, v1, up1);
      var run2 := RunQuery(creds, run1.state, now2, reply2, q2, v2, up2);
      ExchangeCount(run1.calls + run2.calls) == 1
  {
  }

  /**
    The module-level `tokenCache` record (server.js:14), with the client credentials the
    exchange sends.
   */
  class TokenCache {
    const credentials: Credentials
    var accessToken: Option<string>
    var expiresAt: int

    /** The record's current value. */
    function State(): TokenState
      reads this
    {
      TokenState(accessToken, expiresAt)
    }

    constructor (credentials: Credentials)
      ensures this.credentials == credentials
      ensures State() == InitialState
    {
      this.credentials := credentials;
      accessToken := None;
      expiresAt := 0;
    }

    /** Lines 18-29 of server.js, updating the record in place. */
    method GetToken(now: int, reply: ExchangeReply) returns (token: Result<string, Error>, exchanged: bool)
      modifies this
      ensures Acquire(old(State()), now, reply) == Acquisition(State(), token, exchanged)
    {
      exchanged := NeedsRefresh(State(), now);
      if exchanged {
        match reply
        case Refused(e) =>
          return Err(e), exchanged;
        case Granted(granted, expiresIn, receivedAt) =>
          accessToken := Some(granted);
          expiresAt := ExpiryOf(expiresIn, receivedAt);
      }
      token := Ok(accessToken.value);
    }

    /** `executeIkasQuery(query, variables)`: obtain a token, post the operation, classify the reply. */
    method ExecuteQuery(now: int, reply: ExchangeReply, query: string, variables: Json,
                        upstream: Result<UpstreamBody, Error>)
      returns (result: Result<UpstreamBody, Error>, calls: seq<Call>)
      modifies this
      ensures RunQuery(credentials, old(State()), now, reply, query, variables, upstream)
        == QueryRun(State(), calls, result)
    {
      var token, exchanged := GetToken(now, reply);
      calls := if exchanged then [TokenExchange(ClientCredentialsForm(credentials))] else [];
      if token.Err? {
        return Err(token.error), calls;
      }
      calls := calls + [GraphQLPost(GraphQLRequest(query, variables, BearerHeader(accessToken.value)))];
      if upstream.Err? {
        return Err(upstream.error), calls;
      }
      result := Classify(upstream.value);
    }
  }
}
