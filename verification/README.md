# mercury-mcp: request and result shaping

A Dafny model of the pure logic in `src/tools.py` of mercury-mcp. That file is
a small tool server wrapping the Mercury banking REST API. The model covers:

- the credential lookup (`get_api_token`);
- the URL built by `make_mercury_request`;
- the endpoints the tools use;
- the query parameters of `get_transactions`;
- the JSON body of `create_payment_entry_template`;
- the shaping of list responses into counted results (`get_accounts`,
  `get_transactions`).

The model has six modules:

- `Wrappers` holds `Option`, `Result` and a dictionary lookup.
- `Json` holds decoded JSON values.
- `Client` holds the error kinds, the token lookup, URLs, endpoints and the
  request that `make_mercury_request` would send.
- `Records` holds the response records and the list comprehensions that build
  them.
- `Payloads` holds the transaction parameters and the payment body. Partners
  sit beside each builder: a reader that recovers the arguments, a
  normalisation under Python truthiness, and injectivity lemmas.
- `Tools` holds the four tools. Each one returns an `Exchange`: the requests it
  sent, and its result or error.

The HTTP call, `raise_for_status` and `response.json()` are one function
parameter, `upstream`. It maps a request to decoded JSON or to an error. The
record constructors (`Account(**x)`, `Transaction(**x)`,
`PaymentEntryTemplate(**x)`) are also parameters, from a JSON object's fields
to a record or an error. The `**` unpacking is modelled: an element that is not
a JSON object fails with `NotAMapping`.

Error kinds follow the code, not a cleaner taxonomy:

- a missing or empty token raises `ValueError`, modelled as `MissingToken`;
- a failed call raises whatever `requests` raises, modelled as `Upstream`;
- a response that is not a dict raises `AttributeError` on `.get`, modelled as
  `NotADict`;
- a list field that cannot be iterated raises `TypeError`, modelled as
  `NotIterable`.

## Model

| member | source | states |
|---|---|---|
| Client.GetApiToken | src/tools.py:25-33 | The token succeeds exactly when the variable is set and non-empty, and is then returned unchanged. A missing variable and an empty one both give the configuration error. |
| Client.Url | src/tools.py:39 | The URL is the fixed base, then one slash, then the endpoint, each in its place. |
| Client.UrlRoundTrip | src/tools.py:39 | Stripping the base and the slash from a built URL gives back the endpoint. |
| Client.UrlInjective | src/tools.py:39 | Two endpoints give the same URL exactly when they are equal. |
| Client.AccountEndpoint | src/tools.py:143 | The account endpoint is `accounts`, one slash, then the id unchanged. Both parts can be read back from the string. |
| Client.TransactionsEndpoint | src/tools.py:172 | The transaction listing is the account's own endpoint followed by `/transactions`. Both parts can be read back from the string. |
| Client.AccountEndpointInjective | src/tools.py:143 | `accounts/{id}` names different endpoints for different ids. |
| Client.TransactionsEndpointInjective | src/tools.py:172 | `accounts/{id}/transactions` names different endpoints for different ids. |
| Client.AccountAndTransactionsEndpointsMeet | src/tools.py:172 | Ids are not escaped. The account endpoint of `a` (line 143) equals the transactions endpoint of `b` exactly when `a` is `b` + "/transactions". |
| Client.AccountNotTransactionsEndpoint | src/tools.py:172 | An account id with no slash never reaches the transactions endpoint through the account endpoint. |
| Client.BuildRequest | src/tools.py:36-46 | With no usable token, the result is the configuration error and no request. Otherwise the request keeps the caller's verb, params and body. Its URL names the endpoint under the base, and it authenticates with the token as username and an empty password. |
| Records.Construct | src/tools.py:123 | `Record(**x)` runs the constructor on the fields of a JSON object and fails with `NotAMapping` for anything else. |
| Records.ListField | src/tools.py:123 | A missing list key iterates the empty default. A JSON array yields its items. An empty string or object yields nothing. A non-empty string or object fails with `NotAMapping`, because its elements are strings. Null, booleans and numbers fail with `NotIterable`. |
| Records.ConstructAll | src/tools.py:122-124 | The comprehension succeeds exactly when every element constructs. It then gives one record per element, in order. On failure it raises the error of the first failing element, and all elements before that one construct. |
| Records.ShapeList | src/tools.py:122-124 | A response that is not a dict fails with `NotADict`. A dict without the key gives an empty list. An error from iterating the list field is raised unchanged. Otherwise the call succeeds exactly when every element constructs, and each record comes from the element at the same position. On failure, the error is that of the first failing element. |
| Records.ShapeAccounts | src/tools.py:122-129 | `count` equals the number of accounts returned. A response with no `accounts` key gives no accounts and count 0. Failures of the list shaping pass through. |
| Records.ShapeTransactions | src/tools.py:176-183 | `count` equals the number of transactions returned. A response with no `transactions` key gives no transactions and count 0. Failures pass through. |
| Payloads.TransactionParams | src/tools.py:164-168 | `limit` and `offset` can be read back unchanged: a key is present exactly when its argument is not None, zero included. No other key appears. |
| Payloads.TransactionParamsInjective | src/tools.py:164-168 | Two calls send the same parameters exactly when their limit and offset are the same. |
| Payloads.PaymentPayload | src/tools.py:209-223 | The body always has the caller's account id and amount and `requires_approval = true`. A non-empty counterparty id is sent and excludes the name. Otherwise a non-empty name is sent. Memo and external id appear, with their exact values, exactly when they are non-empty. No other key appears. |
| Payloads.NormalizeIdempotent | src/tools.py:215-223 | `Normalize` is the canonical form of the arguments under truthiness: empty strings become absent, and the name is dropped beside a non-empty id. Normalising twice is the same as normalising once. |
| Payloads.PaymentPayloadRoundTrip | src/tools.py:209-223 | Reading a built body back gives exactly the normalised arguments. |
| Payloads.PaymentPayloadOfNormalized | src/tools.py:209-223 | Building from the normalised arguments gives the same body. |
| Payloads.PaymentPayloadEqualIff | src/tools.py:209-223 | Two argument tuples give the same body exactly when they normalise to the same arguments. |
| Payloads.ZeroIsSentEmptyIsNot | src/tools.py:164-221 | A zero limit is still sent as a parameter (`is not None`), while an empty memo is dropped from the body (truthiness). |
| Tools.Call | src/tools.py:36-48 | Without a token, nothing is sent and the configuration error is raised. With one, exactly the built request is sent. Its failure is raised unchanged; otherwise the tool's shaping of the answer is returned. |
| Tools.GetAccounts | src/tools.py:112-129 | Sends one GET to `accounts` with neither params nor body, or nothing without a token. The result's count equals its number of accounts. Upstream failures pass through. |
| Tools.GetAccount | src/tools.py:132-144 | Sends one GET to `accounts/{id}`. The decoded answer is unpacked into one account. Upstream failures pass through. |
| Tools.GetTransactions | src/tools.py:147-183 | Sends one GET to `accounts/{id}/transactions`. Its params give back exactly the limit and offset supplied. The result's count equals its number of transactions. Upstream failures pass through. |
| Tools.CreatePaymentEntryTemplate | src/tools.py:186-237 | Sends one POST to `transactions` whose body is the payment body, with `requires_approval = true`. The entry is built from the answer. A success is flagged `success` and carries the fixed pending-approval message. Failures pass through. |

## Left out

- The HTTP call, `raise_for_status` and `response.json()` (src/tools.py:41-48) are external I/O through `requests`. They are the `upstream` parameter, and their errors are opaque.
- Loading `.env` with dotenv (src/tools.py:15-20) is environment plumbing. The environment is a map parameter.
- Pydantic validation and defaults in the record classes (src/tools.py:54-106) are library behaviour. This includes `requires_approval` defaulting to true on the returned entry. The records are plain datatypes, and their constructors are parameters.
- Amounts are Python floats. Here they are reals, passed through unchanged with no arithmetic, so rounding plays no part.
- Python truthiness applies only to the string and None values the signatures declare. Other argument types the framework might pass are not modelled.
- `get_counterparties` (src/tools.py:241-249) returns the decoded answer unchanged. Nothing about it needs stating beyond what `Tools.Call` says.
- The `tools` list (src/tools.py:252-258) and src/main.py are server registration, asyncio and serving on port 8080. They are framework glue and concurrency.
- Request preparation inside `requests` is not modelled. That step parses and re-quotes the URL, splits off `?` and `#`, and merges `params` into the query string. `Request` holds the arguments passed to `requests.request`. The URL and endpoint lemmas are about that URL string, not about the path that goes on the wire. An id holding `#` or `?` is cut short there.
- Dictionary key order in the JSON body is not modelled. A JSON object is a map.
