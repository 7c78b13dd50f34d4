/** The tools: each builds one request, hands it to the upstream API and
    shapes the decoded answer. The HTTP call, its status check and the JSON
    decoding are the parameter `upstream`, and every call returns the
    requests it sent beside its outcome, so that "nothing was sent" can be
    stated. */
module Tools {
  import opened Wrappers
  import opened Json
  import opened Client
  import opened Records
  import opened Payloads

  /** The upstream API: a request answered with a decoded JSON document, or
      the error raised by the transport, the status check or the decoder. */
  type Upstream = Request -> Result<Value, Error>

  /** The requests a tool call sent, and what it returned or raised. */
  datatype Exchange<T> = Exchange(sent: seq<Request>, outcome: Result<T, Error>)

  /** `make_mercury_request` followed by the tool's own shaping of the
      answer. Without a token nothing is sent; otherwise exactly one request
      goes out and its failure is passed on unchanged. */
  function Call<T>(env: Environment, upstream: Upstream, verb: Method, endpoint: string,
                   params: Option<map<string, int>>, json: Option<map<string, Value>>,
                   shape: Value -> Result<T, Error>)
    : (x: Exchange<T>)
    ensures !HasToken(env) ==> x.sent == [] && x.outcome == Failure(MissingToken)
    ensures HasToken(env) ==>
      && BuildRequest(env, verb, endpoint, params, json).Success?
      && x.sent == [BuildRequest(env, verb, endpoint, params, json).value]
    ensures HasToken(env) ==>
      var answer := upstream(x.sent[0]);
      && (answer.Failure? ==> x.outcome == Failure(answer.error))
      && (answer.Success? ==> x.outcome == shape(answer.value))
  {
    match BuildRequest(env, verb, endpoint, params, json)
    case Failure(e) => Exchange([], Failure(e))
    case Success(request) =>
      match upstream(request)
      case Failure(e) => Exchange([request], Failure(e))
      case Success(data) => Exchange([request], shape(data))
  }

  /** Whether `request` is the one a tool sends for `verb` at `endpoint`. */
  predicate Sends(env: Environment, request: Request, verb: Method, endpoint: string,
                  params: Option<map<string, int>>, json: Option<map<string, Value>>)
    requires HasToken(env)
  {
    && request.verb == verb
    && request.url == Url(endpoint)
    && request.auth == Basic(env[TokenVariable], "")
    && request.params == params
    && request.json == json
  }

  function GetAccounts(env: Environment, upstream: Upstream,
                       makeAccount: map<string, Value> -> Result<Account, Error>)
    : (x: Exchange<AccountsResult>)
    ensures !HasToken(env) ==> x.sent == [] && x.outcome == Failure(MissingToken)
    ensures HasToken(env) ==>
      |x.sent| == 1 && Sends(env, x.sent[0], GET, AccountsEndpoint, None, None)
    ensures x.outcome.Success? ==> x.outcome.value.count == |x.outcome.value.accounts|
    ensures HasToken(env) && upstream(x.sent[0]).Success? ==>
      x.outcome == ShapeAccounts(upstream(x.sent[0]).value, makeAccount)
    ensures HasToken(env) && upstream(x.sent[0]).Failure? ==>
      x.outcome == Failure(upstream(x.sent[0]).error)
  {
    Call(env, upstream, GET, AccountsEndpoint, None, None, data => ShapeAccounts(data, makeAccount))
  }

  function GetAccount(env: Environment, upstream: Upstream, accountId: string,
                      makeAccount: map<string, Value> -> Result<Account, Error>)
    : (x: Exchange<Account>)
    ensures !HasToken(env) ==> x.sent == [] && x.outcome == Failure(MissingToken)
    ensures HasToken(env) ==>
      |x.sent| == 1 && Sends(env, x.sent[0], GET, AccountEndpoint(accountId), None, None)
    ensures HasToken(env) && upstream(x.sent[0]).Success? ==>
      x.outcome == Construct(upstream(x.sent[0]).value, makeAccount)
    ensures HasToken(env) && upstream(x.sent[0]).Failure? ==>
      x.outcome == Failure(upstream(x.sent[0]).error)
  {
    Call(env, upstream, GET, AccountEndpoint(accountId), None, None, data => Construct(data, makeAccount))
  }

  function GetTransactions(env: Environment, upstream: Upstream, accountId: string,
                           limit: Option<int>, offset: Option<int>,
                           makeTransaction: map<string, Value> -> Result<Transaction, Error>)
    : (x: Exchange<TransactionsResult>)
    ensures !HasToken(env) ==> x.sent == [] && x.outcome == Failure(MissingToken)
    ensures HasToken(env) ==>
      && |x.sent| == 1
      && Sends(env, x.sent[0], GET, TransactionsEndpoint(accountId),
               Some(TransactionParams(limit, offset)), None)
      && Get(x.sent[0].params.value, "limit") == limit
      && Get(x.sent[0].params.value, "offset") == offset
    ensures x.outcome.Success? ==> x.outcome.value.count == |x.outcome.value.transactions|
    ensures HasToken(env) && upstream(x.sent[0]).Success? ==>
      x.outcome == ShapeTransactions(upstream(x.sent[0]).value, makeTransaction)
    ensures HasToken(env) && upstream(x.sent[0]).Failure? ==>
      x.outcome == Failure(upstream(x.sent[0]).error)
  {
    Call(env, upstream, GET, TransactionsEndpoint(accountId), Some(TransactionParams(limit, offset)), None,
         data => ShapeTransactions(data, makeTransaction))
  }

  const PendingApprovalMessage: string :=
    "Payment entry template created successfully and is pending admin approval"

  function CreatePaymentEntryTemplate(env: Environment, upstream: Upstream, args: PaymentArgs,
                                      makeEntry: map<string, Value> -> Result<PaymentEntryTemplate, Error>)
    : (x: Exchange<PaymentEntryResult>)
    ensures !HasToken(env) ==> x.sent == [] && x.outcome == Failure(MissingToken)
    ensures HasToken(env) ==>
      && |x.sent| == 1
      && Sends(env, x.sent[0], POST, PaymentsEndpoint, None, Some(PaymentPayload(args)))
      && x.sent[0].json.value["requires_approval"] == Bool(true)
    ensures HasToken(env) && upstream(x.sent[0]).Failure? ==>
      x.outcome == Failure(upstream(x.sent[0]).error)
    ensures HasToken(env) && upstream(x.sent[0]).Success? ==>
      var made := Construct(upstream(x.sent[0]).value, makeEntry);
      && (made.Failure? ==> x.outcome == Failure(made.error))
      && (made.Success? ==>
            x.outcome == Success(PaymentEntryResult(true, made.value, PendingApprovalMessage)))
    ensures x.outcome.Success? ==> x.outcome.value.success
  {
    Call(env, upstream, POST, PaymentsEndpoint, None, Some(PaymentPayload(args)),
         data =>
           match Construct(data, makeEntry)
           case Failure(e) => Failure(e)
           case Success(entry) => Success(PaymentEntryResult(true, entry, PendingApprovalMessage)))
  }
}
