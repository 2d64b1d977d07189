# ikas-backend proxy: token cache, attribute map and route handlers

`server.js` is a small Express backend. It sits in front of the ikas e-commerce admin API
for a browser client that must not hold the platform's credentials. This project models
its three pieces of sequential logic. The clock readings and the replies of the two
upstream endpoints are inputs, so nothing here depends on the network.

- **Token cache and query forwarding** (`IkasQuery`, `ikas_query.dfy`). The module-level
  `tokenCache` record holds `accessToken` and `expiresAt`. It is refreshed lazily by an
  OAuth 2.0 Client Credentials Grant (section 4.4 of RFC 6749). A refresh happens when the
  token is falsy or when `now > expiresAt`. The new expiry is `expires_in * 900` ms past the
  moment the grant arrived, from the lifetime field of section 5.1 of RFC 6749. The token is
  then sent as a Bearer header (section 2.1 of RFC 6750). A reply that lists GraphQL errors
  throws `"GraphQL Hatası: "` followed by the first error's message. The pure functions
  `Acquire`, `Classify` and `RunQuery` specify one call. The class `TokenCache` holds the
  record, and its methods are proved to update it exactly as those functions say.
  `RunQuery` also returns the outbound calls made, so properties such as "one identity
  exchange per token lifetime" can be stated.
- **Customer-attribute map** (`CustomerAttributes`, `customer_attributes.dfy`). The `reduce`
  folds the `{id, name}` list into a map where the last duplicate wins. The method
  `BuildAttributeMap` runs the fold as a loop that rebinds the accumulator map per element. The
  class `AttributeMap` holds `customerAttributeMap`. It starts empty and is reassigned only
  when the whole fetch succeeds.
- **Route handlers** (`Routes`, `routes.dfy`). `GET /api/customers` and
  `GET /api/orders/customer/:customerId` build their GraphQL variables with defaults and
  optional fields. They then map the outcome to 200 with the listed sub-object, or to 500
  with `{message}`.
- `Wrappers` (`wrappers.dfy`) holds Option and Result. `JsValues` (`js_values.dfy`) holds
  JSON values, the JavaScript `Error`, and the JavaScript property read `v.key` on a value
  that may be `undefined` or `null`.

Behaviour as written in server.js, which the model follows:

- GraphQL-level errors end in status 500 with `{message: "GraphQL Hatası: …"}`.
- There are exactly two routes, `GET /api/customers` and `GET /api/orders/customer/:customerId`.
- A cached token is still used at `now == expiresAt`. Only `now > expiresAt` triggers a
  refresh.
- The two clock readings differ. The freshness test reads the clock before the exchange.
  The expiry is computed from a second reading taken after the exchange returns (server.js:27).
- The attribute map is built but never read. Customer records are returned unlabelled.

## Model

| member | source | states |
|---|---|---|
| `IkasQuery.Acquire` | server.js:18-29 | An exchange happens exactly when the token is null, empty or strictly expired. Reuse leaves the cache unchanged. A refused exchange throws its error and leaves the cache unchanged, and an error arises only that way. A grant stores the token with expiry `receivedAt + expires_in*900`. The token handed out is always the one the cache then holds. |
| `IkasQuery.Classify` | server.js:33-37 | The result is an error exactly when the body lists errors. Its message is "GraphQL Hatası: " followed by the first error's message. Otherwise the body is returned unchanged. |
| `IkasQuery.RunQuery` | server.js:17-38 | One `executeIkasQuery` call makes exactly one identity exchange, first and with the client-credentials form, when a refresh is due, and none otherwise. The GraphQL post is made, exactly once and last, exactly when a token was obtained; the calls are nothing but the exchange, if any, and that post. It always carries `Bearer <the cache's token>`. A failed exchange or transport error is rethrown; otherwise the upstream body is classified. |
| `IkasQuery.TokenReusedUntilExpiry` | server.js:18 | A non-empty token that was handed out is reused without an exchange by every later call up to and including `expiresAt`. |
| `IkasQuery.TokenRefreshedAfterExpiry` | server.js:18 | A call strictly after `expiresAt` always exchanges credentials. |
| `IkasQuery.OneExchangePerLifetime` | server.js:18-27 | A query that refreshes the token, followed by any query before the new expiry, makes exactly one identity exchange between them. |
| `IkasQuery.TokenCache.constructor` | server.js:14 | The cache starts as `{accessToken: null, expiresAt: 0}`. |
| `IkasQuery.TokenCache.GetToken` | server.js:18-29 | Updates the two fields in place exactly as `Acquire` describes, and returns its token and exchange flag. |
| `IkasQuery.TokenCache.ExecuteQuery` | server.js:17-38 | Leaves the fields as `RunQuery` describes, and returns the same result and outbound calls. |
| `CustomerAttributes.FoldKeys` | server.js:45-48 | The folded map's keys are exactly the ids in the list (for the id `__proto__`, see "## Left out"). |
| `CustomerAttributes.FoldLastWins` | server.js:45-48 | Each id maps to the name of the last element carrying that id. |
| `CustomerAttributes.FoldCharacterised` | server.js:45-48 | Any map with exactly the listed ids as keys and last-wins values is the folded map. |
| `CustomerAttributes.BuildAttributeMap` | server.js:45-48 | The loop that rebinds the accumulator map per element yields the folded map. Its keys are exactly the listed ids, each mapped to its last name. |
| `CustomerAttributes.DecodeAll` | server.js:45-46 | The list is decoded exactly when every element is an `{id, name}` object with a string id. The elements are decoded one for one and in order. |
| `CustomerAttributes.ListedAttributes` | server.js:45 | A list is read exactly when the query succeeded, `data` is an object whose `listCustomerAttribute` is an array, and every element is usable. The list is then that array, decoded element by element. |
| `CustomerAttributes.AttributeMap.constructor` | server.js:15 | The attribute map starts empty. |
| `CustomerAttributes.AttributeMap.Refresh` | server.js:45-52 | The map becomes the fold of the list when one was read; otherwise it keeps its previous value. |
| `CustomerAttributes.AttributeMap.FetchAndCache` | server.js:40-53 | Runs the attribute query through the token cache with empty variables. The cache changes as `RunQuery` says. The map is replaced by the fold only when the whole fetch succeeded, and is unchanged on any failure. |
| `JsValues.Member` | server.js:76 | Reading `v.key` throws exactly when `v` is `undefined` or `null`. On an object it yields the member when present and `undefined` otherwise. On any other value it yields `undefined`. |
| `Routes.CustomerVariables` | server.js:60-75 | The variables always hold `pagination`, with page 1 and limit 20 by default. `search` is present exactly when it is truthy. `id` is present exactly when it is truthy, as `{eq: id}`. There are no other keys. |
| `Routes.OrderVariables` | server.js:85-108 | The variables are exactly `pagination`, with page 1 and limit 50 by default, and `customerId` as `{eq: customerId}`. |
| `Routes.Respond` | server.js:76-78 | The status is 200 or 500, and nothing else. It is 200 exactly when the query returned a body whose `data` is neither missing nor null. The 200 carries `data[list]`. A 500 carries only `{message}`, which is the thrown error's message when the query threw. |
| `Routes.GraphQLErrorsAnswer500` | server.js:33-78 | A reply that lists GraphQL errors answers 500 with "GraphQL Hatası: " followed by the first message. |
| `Routes.FailedExchangeAnswers500` | server.js:25-78 | A failed identity exchange answers 500 with that exchange's error message. |
| `Routes.ListedDataAnswers200` | server.js:71-76 | An error-free reply whose `data` holds the listed field answers 200 with that sub-object. |
| `Routes.GetCustomers` | server.js:58-80 | `GET /api/customers` runs the customer query with `CustomerVariables` through the token cache, and answers as `Respond(…, "listCustomer")`. |
| `Routes.GetCustomerOrders` | server.js:82-113 | `GET /api/orders/customer/:customerId` runs the order query with `OrderVariables` through the token cache, and answers as `Respond(…, "listOrder")`. |

## Left out

- Express routing, `cors()`, `express.json()`, `app.listen` and startup (server.js:55-56, 115-118): these are framework plumbing. Routing the request to a handler and the startup call of the attribute fetch are not modelled.
- The two axios posts (server.js:25, 30-32). They are inputs: the exchange reply (`ExchangeReply`) and the GraphQL outcome (`Result<UpstreamBody, Error>`). The URLs, TLS and transport errors other than "the post threw" are not modelled.
- `dotenv`, environment reads, `PORT` and the URL constants (server.js:6, 9-12): these are configuration. The credentials are a constructor parameter of `TokenCache`.
- All `console.log`/`console.error` output: it is logging only.
- The GraphQL documents of the two routes (server.js:61-70, 87-104) are opaque: the constants `CustomersQuery` and `OrdersQuery` only name them.
- `Date.now()`: the two readings are the `now` parameter and the `receivedAt` of a grant.
- Floating-point `expires_in * 1000 * 0.9`: the model uses the exact integer `expires_in * 900`. A missing or non-numeric `expires_in`, whose `NaN` expiry would stop all refreshes, is not modelled.
- Concurrent requests: each call is modelled as running alone. Interleavings where several requests refresh the token at once are out of scope.
- `parseInt` of `page` and `limit`: the parameters arrive already parsed as integers, so `NaN` pages are not modelled. Query-string values that are arrays or objects are not modelled either: `search` and `id` are strings.
- IkasQuery.Classify: an empty `errors` array counts as no errors. In JavaScript it is truthy, and reading `errors[0].message` then throws a `TypeError`. That would also end in status 500.
- CustomerAttributes.Fold: an id `__proto__` is kept here as an ordinary key. In JavaScript the accumulator is the plain object `{}`, so `map["__proto__"] = attr.name` (server.js:46) calls the setter every plain object inherits: it adds no key, and when the name is an object or `null` it replaces the map's prototype. `FoldKeys`, `FoldLastWins` and `BuildAttributeMap` describe the map without this case.
- CustomerAttributes.DecodeAll: an element that is not an object with a string `id` and a `name` member makes the whole list unreadable. JavaScript would instead coerce the id with `String()`, or store `undefined` as the name. For a `null` element both end with the map unchanged.
- IkasQuery.ExchangeReply: a grant always carries a string `access_token`. In JavaScript a reply without one stores `undefined` (server.js:26), sends `Bearer undefined` (server.js:31), and the next call exchanges again. This is not modelled.
- IkasQuery.UpstreamBody: the body is always an object and each error has a string `message`. A `null` body throws a `TypeError` at server.js:33. An `errors[0]` that is `null` throws at server.js:35, and one without `message` sends "GraphQL Hatası: undefined". Neither case is modelled.
- JsValues.Member: reading the names this model uses from arrays and primitives yields `undefined`. Other JavaScript properties, such as `length`, are not modelled.
