/**
  The two route handlers of server.js: `GET /api/customers` (58-80) and
  `GET /api/orders/customer/:customerId` (82-113). Each builds the GraphQL variables from
  the request, runs the query through the token cache, and answers 200 with the listed
  sub-object or 500 with the thrown error's message. Express routing itself is not modelled:
  a handler takes the already-parsed request parameters.
 */
module Routes {
  import opened Wrappers
  import opened JsValues
  import opened IkasQuery

  /**
    The query string of `/api/customers`: `page` and `limit` as parsed integers, `search`
    and `id` as strings; None is a parameter that was not given.
   */
  datatype CustomerParams = CustomerParams(page: Option<int>, limit: Option<int>, search: Option<string>, id: Option<string>)

  /** The query string of `/api/orders/customer/:customerId`. */
  datatype OrderParams = OrderParams(page: Option<int>, limit: Option<int>)

  /** The reply a handler sends: its status and its JSON body (None for `res.json(undefined)`). */
  datatype HttpResponse = HttpResponse(status: int, body: Option<Json>)

  const DefaultPage := 1
  const DefaultCustomerLimit := 20
  const DefaultOrderLimit := 50

  /** `{ page, limit }` as a GraphQL `PaginationInput`. */
  function Pagination(page: int, limit: int): Json
  {
    JObj(map["page" := JNum(page), "limit" := JNum(limit)])
  }

  /** `{ eq: value }` as a GraphQL `StringFilterInput`. */
  function Eq(value: string): Json
  {
    JObj(map["eq" := JStr(value)])
  }

  /**
    The variables of the customer listing (server.js:60, 72-74): pagination with the
    defaults applied, `search` only when it is truthy, `id` as a filter only when it is truthy.
   */
  function CustomerVariables(p: CustomerParams): (v: Json)
    ensures v.JObj? && v.fields.Keys <= {"pagination", "search", "id"}
    ensures "pagination" in v.fields
    ensures v.fields["pagination"] == Pagination(GetOr(p.page, DefaultPage), GetOr(p.limit, DefaultCustomerLimit))
    ensures "search" in v.fields <==> Truthy(p.search)
    ensures "search" in v.fields ==> v.fields["search"] == JStr(p.search.value)
    ensures "id" in v.fields <==> Truthy(p.id)
    ensures "id" in v.fields ==> v.fields["id"] == Eq(p.id.value)
  {
    var base := map["pagination" := Pagination(GetOr(p.page, DefaultPage), GetOr(p.limit, DefaultCustomerLimit))];
    var withSearch := if Truthy(p.search) then base["search" := JStr(p.search.value)] else base;
    var withId := if Truthy(p.id) then withSearch["id" := Eq(p.id.value)] else withSearch;
    JObj(withId)
  }

  /**
    The variables of a customer's order listing (server.js:85, 106-107): pagination with the
    defaults applied and the path's `customerId` always wrapped as a filter.
   */
  function OrderVariables(customerId: string, p: OrderParams): (v: Json)
    ensures v.JObj? && v.fields.Keys == {"pagination", "customerId"}
    ensures v.fields["pagination"] == Pagination(GetOr(p.page, DefaultPage), GetOr(p.limit, DefaultOrderLimit))
    ensures v.fields["customerId"] == Eq(customerId)
  {
    JObj(map[
      "pagination" := Pagination(GetOr(p.page, DefaultPage), GetOr(p.limit, DefaultOrderLimit)),
      "customerId" := Eq(customerId)])
  }

  /** The body `{ message }` a handler sends for a caught error. */
  function MessageBody(e: Error): Json
  {
    JObj(map["message" := JStr(e.message)])
  }

  /**
    The `try`/`catch` of a handler (server.js:76-78, 109-111): on success, 200 with
    `result.data[list]`; on anything thrown, by the query or by reading `result.data`,
    500 with the error's message. There is no other status.
   */
  function Respond(result: Result<UpstreamBody, Error>, list: string): (r: HttpResponse)
    ensures r.status == 200 || r.status == 500
    // 200 exactly when the query returned a body whose `data` can be read from
    ensures r.status == 200 <==> result.Ok? && result.value.data.Some? && result.value.data.value != JNull
    // a 200 carries the listed sub-object, or nothing when `data` has no such member
    ensures r.status == 200 ==>
      r.body == (if result.value.data.value.JObj? && list in result.value.data.value.fields
                 then Some(result.value.data.value.fields[list]) else None)
    // a 500 carries `{ message }` and nothing else; for a thrown query error, that error's message
    ensures r.status == 500 ==> r.body.Some? && r.body.value.JObj? && r.body.value.fields.Keys == {"message"}
    ensures result.Err? ==> r == HttpResponse(500, Some(MessageBody(result.error)))
  {
    match result
    case Err(e) => HttpResponse(500, Some(MessageBody(e)))
    case Ok(body) =>
      match Member(body.data, list)
      case Err(e) => HttpResponse(500, Some(MessageBody(e)))
      case Ok(v) => HttpResponse(200, v)
  }

  /**
    GraphQL-level errors are not a client error here: a reply whose body lists errors gives
    500 with "GraphQL Hatası: " and the first error's message, whatever its `data` holds.
   */
  lemma GraphQLErrorsAnswer500(creds: Credentials, s: TokenState, now: int, reply: ExchangeReply,
                               query: string, variables: Json, body: UpstreamBody, list: string)
    requires Acquire(s, now, reply).token.Ok?
    requires body.errors != []
    ensures Respond(RunQuery(creds, s, now, reply, query, variables, Ok(body)).result, list)
      == HttpResponse(500, Some(MessageBody(Error(GraphQLErrorPrefix + body.errors[0].message))))
  {
  }

  /** A failed identity exchange answers 500 with the exchange's error message. */
  lemma FailedExchangeAnswers500(creds: Credentials, s: TokenState, now: int, e: Error,
                                 query: string, variables: Json, upstream: Result<UpstreamBody, Error>, list: string)
    requires NeedsRefresh(s, now)
    ensures Respond(RunQuery(creds, s, now, Refused(e), query, variables, upstream).result, list)
      == HttpResponse(500, Some(MessageBody(e)))
  {
  }

  /** An error-free reply whose `data` lists the route's field answers 200 with that sub-object. */
  lemma ListedDataAnswers200(creds: Credentials, s: TokenState, now: int, reply: ExchangeReply,
                             query: string, variables: Json, fields: map<string, Json>, list: string)
    requires Acquire(s, now, reply).token.Ok?
    requires list in fields
    ensures Respond(RunQuery(creds, s, now, reply, query, variables, Ok(UpstreamBody(Some(JObj(fields)), []))).result, list)
      == HttpResponse(200, Some(fields[list]))
  {
  }

  /** Names the `GetCustomers` document of server.js:61-70; its field selection is not modelled. */
  const CustomersQuery := "query GetCustomers"

  /** Names the `GetOrders` document of server.js:87-104; its field selection is not modelled. */
  const OrdersQuery := "query GetOrders"

  /** `GET /api/customers` (server.js:58-80). */
  method GetCustomers(tokens: TokenCache, now: int, p: CustomerParams, reply: ExchangeReply,
                      upstream: Result<UpstreamBody, Error>)
    returns (response: HttpResponse, calls: seq<Call>)
    modifies tokens
    ensures
      var run := RunQuery(tokens.credentials, old(tokens.State()), now, reply, CustomersQuery, CustomerVariables(p), upstream);
      && tokens.State() == run.state
      && calls == run.calls
      && response == Respond(run.result, "listCustomer")
  {
    var result;
    result, calls := tokens.ExecuteQuery(now, reply, CustomersQuery, CustomerVariables(p), upstream);
    response := Respond(result, "listCustomer");
  }

  /** `GET /api/orders/customer/:customerId` (server.js:82-113). */
  method GetCustomerOrders(tokens: TokenCache, now: int, customerId: string, p: OrderParams,
                           reply: ExchangeReply, upstream: Result<UpstreamBody, Error>)
    returns (response: HttpResponse, calls: seq<Call>)
    modifies tokens
    ensures
      var run := RunQuery(tokens.credentials, old(tokens.State()), now, reply, OrdersQuery, OrderVariables(customerId, p), upstream);
      && tokens.State() == run.state
      && calls == run.calls
      && response == Respond(run.result, "listOrder")
  {
    var result;
    result, calls := tokens.ExecuteQuery(now, reply, OrdersQuery, OrderVariables(customerId, p), upstream);
    response := Respond(result, "listOrder");
  }
}
