/** The request wrapper every tool goes through: the credential lookup, the
    URL built from the fixed base, and the request that would be sent. The
    HTTP exchange itself is not modelled here: the tools receive it as a
    function parameter. */
module Client {
  import opened Wrappers
  import opened Json

  /** Everything a tool call can fail with. */
  datatype Error =
    | MissingToken            // the credential variable is unset or empty
    | Upstream(status: int)   // the HTTP call or its status check failed
    | NotADict                // the decoded response has no `.get`
    | NotIterable             // the list field cannot be iterated
    | NotAMapping             // a list element cannot be unpacked with `**`
    | Invalid(detail: string) // a record constructor rejected its fields

  const TokenVariable: string := "MERCURY_API_TOKEN"
  const BaseUrl: string := "https://api.mercury.com/api/v1"

  /** The process environment: variable name to value. */
  type Environment = map<string, string>

  predicate HasToken(env: Environment) {
    TokenVariable in env && env[TokenVariable] != ""
  }

  /** The token, read with an empty-string default; an empty token is a
      configuration error. */
  function GetApiToken(env: Environment): (r: Result<string, Error>)
    ensures r.Success? <==> HasToken(env)
    ensures r.Success? ==> r.value == env[TokenVariable] && r.value != ""
    ensures r.Failure? ==> r.error == MissingToken
  {
    var token := OrElse(Get(env, TokenVariable), "");
    if token == "" then Failure(MissingToken) else Success(token)
  }

  // ---------------------------------------------------------------------
  // URLs and endpoints

  /** The absolute URL of an endpoint: base, one slash, endpoint. */
  function Url(endpoint: string): (u: string)
    ensures |u| == |BaseUrl| + 1 + |endpoint|
    ensures u[..|BaseUrl|] == BaseUrl && u[|BaseUrl|] == '/'
    ensures u[|BaseUrl| + 1..] == endpoint
  {
    BaseUrl + "/" + endpoint
  }

  /** The inverse of `Url`: the endpoint a URL names under the base, if any. */
  function EndpointOf(u: string): (r: Option<string>)
    ensures r.Some? ==> u == Url(r.value)
  {
    var prefix := BaseUrl + "/";
    if |prefix| <= |u| && u[..|prefix|] == prefix then Some(u[|prefix|..]) else None
  }

  lemma UrlRoundTrip(endpoint: string)
    ensures EndpointOf(Url(endpoint)) == Some(endpoint)
  {
    var prefix := BaseUrl + "/";
    assert Url(endpoint)[..|prefix|] == prefix;
  }

  lemma UrlInjective(a: string, b: string)
    ensures Url(a) == Url(b) <==> a == b
  {
  }

  const AccountsEndpoint: string := "accounts"
  const PaymentsEndpoint: string := "transactions"

  function AccountEndpoint(accountId: string): (e: string)
    ensures |e| == |AccountsEndpoint| + 1 + |accountId|
    ensures e[..|AccountsEndpoint| + 1] == AccountsEndpoint + "/"
    ensures e[|AccountsEndpoint| + 1..] == accountId
  {
    AccountsEndpoint + "/" + accountId
  }

  /** The transaction listing of an account: a sub-path of the account's
      own endpoint. */
  function TransactionsEndpoint(accountId: string): (e: string)
    ensures |e| == |AccountEndpoint(accountId)| + |"/transactions"|
    ensures e[..|AccountEndpoint(accountId)|] == AccountEndpoint(accountId)
    ensures e[|AccountEndpoint(accountId)|..] == "/transactions"
  {
    "accounts/" + accountId + "/transactions"
  }

  /** Different account ids name different account endpoints. */
  lemma AccountEndpointInjective(a: string, b: string)
    ensures AccountEndpoint(a) == AccountEndpoint(b) <==> a == b
  {
  }

  /** Different account ids name different transaction endpoints. */
  lemma TransactionsEndpointInjective(a: string, b: string)
    ensures TransactionsEndpoint(a) == TransactionsEndpoint(b) <==> a == b
  {
  }

  /** Ids are inserted into the path without escaping: the account endpoint
      of `a` is the transactions endpoint of `b` exactly when `a` is `b`
      followed by "/transactions". */
  lemma AccountAndTransactionsEndpointsMeet(a: string, b: string)
    ensures AccountEndpoint(a) == TransactionsEndpoint(b) <==> a == b + "/transactions"
  {
  }

  /** So an account id without a slash never names a transactions endpoint. */
  lemma AccountNotTransactionsEndpoint(a: string, b: string)
    requires '/' !in a
    ensures AccountEndpoint(a) != TransactionsEndpoint(b)
  {
    AccountAndTransactionsEndpointsMeet(a, b);
  }

  // ---------------------------------------------------------------------
  // Requests

  datatype Method = GET | POST

  /** Basic authentication pair. */
  datatype Credentials = Basic(username: string, password: string)

  /** The arguments passed to `requests.request`: the keyword arguments
      `params` and `json` are `None` when the caller does not pass them. */
  datatype Request = Request(
    verb: Method,
    url: string,
    auth: Credentials,
    params: Option<map<string, int>>,
    json: Option<map<string, Value>>)

  /** The request that `make_mercury_request` would send, or the
      configuration error it raises before building anything. */
  function BuildRequest(env: Environment, verb: Method, endpoint: string,
                        params: Option<map<string, int>>, json: Option<map<string, Value>>)
    : (r: Result<Request, Error>)
    ensures r.Failure? <==> !HasToken(env)
    ensures r.Failure? ==> r.error == MissingToken
    ensures r.Success? ==>
      && r.value.verb == verb
      && EndpointOf(r.value.url) == Some(endpoint)
      && r.value.auth == Basic(env[TokenVariable], "")
      && r.value.params == params
      && r.value.json == json
  {
    match GetApiToken(env)
    case Failure(e) => Failure(e)
    case Success(token) =>
      UrlRoundTrip(endpoint);
      Success(Request(verb, Url(endpoint), Basic(token, ""), params, json))
  }
}
