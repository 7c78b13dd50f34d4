/** The typed records the tools return, and the shaping of a decoded
    response into them. Field validation belongs to the record library and
    is not modelled: each record constructor reaches the shaping functions
    as a parameter `make` from a JSON object's fields to a record or an
    error. */
module Records {
  import opened Wrappers
  import opened Json
  import opened Client

  datatype Account = Account(
    id: string,
    name: string,
    accountNumber: Option<string>,
    routingNumber: Option<string>,
    availableBalance: Option<real>,
    currentBalance: Option<real>,
    currency: Option<string>)

  datatype AccountsResult = AccountsResult(accounts: seq<Account>, count: int)

  datatype Transaction = Transaction(
    id: string,
    accountId: string,
    amount: real,
    counterparty: Option<map<string, Value>>,
    category: Option<string>,
    description: Option<string>,
    date: Option<string>,
    status: Option<string>)

  datatype TransactionsResult = TransactionsResult(transactions: seq<Transaction>, count: int)

  datatype PaymentEntryTemplate = PaymentEntryTemplate(
    id: Option<string>,
    accountId: string,
    amount: real,
    counterpartyId: Option<string>,
    counterpartyName: Option<string>,
    memo: Option<string>,
    externalId: Option<string>,
    status: Option<string>,
    requiresApproval: bool)

  datatype PaymentEntryResult = PaymentEntryResult(success: bool, entry: PaymentEntryTemplate, message: string)

  /** A record constructor applied as `Record(**v)`: only a JSON object can be
      unpacked into keyword arguments. */
  function Construct<T>(v: Value, make: map<string, Value> -> Result<T, Error>): (r: Result<T, Error>)
    ensures !v.Object? ==> r == Failure(NotAMapping)
    ensures v.Object? ==> r == make(v.fields)
  {
    match v
    case Object(fields) => make(fields)
    case _ => Failure(NotAMapping)
  }

  /** The elements Python's iteration yields for `data.get(key, [])`, as far
      as the list comprehension can use them. A missing key iterates the
      default empty list. A list yields its items. A string or object yields
      strings (characters, keys), which cannot be unpacked into a record, so
      only an empty one gets through. Anything else is not iterable. */
  function ListField(data: map<string, Value>, key: string): (r: Result<seq<Value>, Error>)
    ensures key !in data ==> r == Success([])
    ensures key in data && data[key].Array? ==> r == Success(data[key].items)
    ensures key in data && (data[key] == Str("") || data[key] == Object(map[])) ==> r == Success([])
    ensures key in data && (data[key].Str? || data[key].Object?) && data[key] != Str("") && data[key] != Object(map[]) ==>
      r == Failure(NotAMapping)
    ensures key in data && (data[key].Null? || data[key].Bool? || data[key].Number?) ==> r == Failure(NotIterable)
  {
    if key !in data then Success([])
    else match data[key]
      case Array(items) => Success(items)
      case Str(s) => if s == "" then Success([]) else Failure(NotAMapping)
      case Object(fields) => if fields == map[] then Success([]) else Failure(NotAMapping)
      case _ => Failure(NotIterable)
  }

  /** The list comprehension `[Record(**x) for x in items]`: every element is
      constructed in order, and the first failure is the one raised. */
  function ConstructAll<T>(items: seq<Value>, make: map<string, Value> -> Result<T, Error>)
    : (r: Result<seq<T>, Error>)
    ensures r.Success? <==> forall i :: 0 <= i < |items| ==> Construct(items[i], make).Success?
    ensures r.Success? ==>
      && |r.value| == |items|
      && forall i :: 0 <= i < |items| ==> Construct(items[i], make) == Success(r.value[i])
    ensures r.Failure? ==>
      exists i :: 0 <= i < |items| && Construct(items[i], make) == Failure(r.error)
        && forall j :: 0 <= j < i ==> Construct(items[j], make).Success?
  {
    if |items| == 0 then Success([])
    else
      match Construct(items[0], make)
      case Failure(e) => Failure(e)
      case Success(x) =>
        match ConstructAll(items[1..], make)
        case Failure(e) => Failure(e)
        case Success(xs) => Success([x] + xs)
  }

  /** The list under `key` of a decoded response, each element constructed
      into a record: `[Record(**x) for x in data.get(key, [])]`. */
  function ShapeList<T>(data: Value, key: string, make: map<string, Value> -> Result<T, Error>)
    : (r: Result<seq<T>, Error>)
    ensures !data.Object? ==> r == Failure(NotADict)
    ensures data.Object? && key !in data.fields ==> r == Success([])
    ensures data.Object? && ListField(data.fields, key).Failure? ==>
      r == Failure(ListField(data.fields, key).error)
    ensures data.Object? && ListField(data.fields, key).Success? ==>
      var items := ListField(data.fields, key).value;
      && (r.Success? <==> forall i :: 0 <= i < |items| ==> Construct(items[i], make).Success?)
      && (r.Failure? ==>
            exists i :: 0 <= i < |items| && Construct(items[i], make) == Failure(r.error)
              && forall j :: 0 <= j < i ==> Construct(items[j], make).Success?)
    ensures r.Success? ==>
      && data.Object? && ListField(data.fields, key).Success?
      && var items := ListField(data.fields, key).value;
      && |r.value| == |items|
      && forall i :: 0 <= i < |items| ==> Construct(items[i], make) == Success(r.value[i])
  {
    match data
    case Object(fields) =>
      (match ListField(fields, key)
       case Failure(e) => Failure(e)
       case Success(items) => ConstructAll(items, make))
    case _ => Failure(NotADict)
  }

  /** The accounts of a response, counted. */
  function ShapeAccounts(data: Value, make: map<string, Value> -> Result<Account, Error>)
    : (r: Result<AccountsResult, Error>)
    ensures r.Success? <==> ShapeList(data, "accounts", make).Success?
    ensures r.Failure? ==> r.error == ShapeList(data, "accounts", make).error
    ensures data.Object? && "accounts" !in data.fields ==> r == Success(AccountsResult([], 0))
    ensures r.Success? ==>
      && r.value.accounts == ShapeList(data, "accounts", make).value
      && r.value.count == |r.value.accounts|
  {
    match ShapeList(data, "accounts", make)
    case Failure(e) => Failure(e)
    case Success(accounts) => Success(AccountsResult(accounts, |accounts|))
  }

  /** The transactions of a response, counted. */
  function ShapeTransactions(data: Value, make: map<string, Value> -> Result<Transaction, Error>)
    : (r: Result<TransactionsResult, Error>)
    ensures r.Success? <==> ShapeList(data, "transactions", make).Success?
    ensures r.Failure? ==> r.error == ShapeList(data, "transactions", make).error
    ensures data.Object? && "transactions" !in data.fields ==> r == Success(TransactionsResult([], 0))
    ensures r.Success? ==>
      && r.value.transactions == ShapeList(data, "transactions", make).value
      && r.value.count == |r.value.transactions|
  {
    match ShapeList(data, "transactions", make)
    case Failure(e) => Failure(e)
    case Success(transactions) => Success(TransactionsResult(transactions, |transactions|))
  }
}
