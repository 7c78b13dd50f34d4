/** The two request-shaping rules of the tools: the query parameters of the
    transaction listing, which test for `None`, and the JSON body of a new
    payment entry, which tests Python truthiness. */
module Payloads {
  import opened Wrappers
  import opened Json

  // ---------------------------------------------------------------------
  // Transaction query parameters

  /** `limit` and `offset` are sent whenever they are given, zero included. */
  function TransactionParams(limit: Option<int>, offset: Option<int>): (p: map<string, int>)
    ensures Get(p, "limit") == limit
    ensures Get(p, "offset") == offset
    ensures p.Keys <= {"limit", "offset"}
  {
    var withLimit := if limit.Some? then map["limit" := limit.value] else map[];
    if offset.Some? then withLimit["offset" := offset.value] else withLimit
  }

  /** The parameters are exactly the arguments: two calls send the same
      parameters only when they were given the same limit and offset. */
  lemma TransactionParamsInjective(l1: Option<int>, o1: Option<int>, l2: Option<int>, o2: Option<int>)
    ensures TransactionParams(l1, o1) == TransactionParams(l2, o2) <==> l1 == l2 && o1 == o2
  {
  }

  // ---------------------------------------------------------------------
  // Payment entry body

  /** Python truthiness of an optional string: present and non-empty. */
  predicate Truthy(s: Option<string>) {
    s.Some? && s.value != ""
  }

  /** The arguments of `create_payment_entry_template`. */
  datatype PaymentArgs = PaymentArgs(
    accountId: string,
    amount: real,
    counterpartyId: Option<string>,
    counterpartyName: Option<string>,
    memo: Option<string>,
    externalId: Option<string>)

  /** Every key the payment body can hold. */
  const PaymentKeys: set<string> :=
    {"account_id", "amount", "requires_approval", "counterparty_id", "counterparty_name", "memo", "external_id"}

  /** The JSON body of a new payment entry. */
  function PaymentPayload(a: PaymentArgs): (p: map<string, Value>)
    ensures Get(p, "account_id") == Some(Str(a.accountId))
    ensures Get(p, "amount") == Some(Number(a.amount))
    ensures Get(p, "requires_approval") == Some(Bool(true))
    ensures Truthy(a.counterpartyId) ==>
      Get(p, "counterparty_id") == Some(Str(a.counterpartyId.value)) && "counterparty_name" !in p
    ensures !Truthy(a.counterpartyId) && Truthy(a.counterpartyName) ==>
      Get(p, "counterparty_name") == Some(Str(a.counterpartyName.value)) && "counterparty_id" !in p
    ensures !Truthy(a.counterpartyId) && !Truthy(a.counterpartyName) ==>
      "counterparty_id" !in p && "counterparty_name" !in p
    ensures "memo" in p <==> Truthy(a.memo)
    ensures "memo" in p ==> p["memo"] == Str(a.memo.value)
    ensures "external_id" in p <==> Truthy(a.externalId)
    ensures "external_id" in p ==> p["external_id"] == Str(a.externalId.value)
    ensures p.Keys <= PaymentKeys
  {
    var base := map["account_id" := Str(a.accountId), "amount" := Number(a.amount),
                    "requires_approval" := Bool(true)];
    var withCounterparty :=
      if Truthy(a.counterpartyId) then base["counterparty_id" := Str(a.counterpartyId.value)]
      else if Truthy(a.counterpartyName) then base["counterparty_name" := Str(a.counterpartyName.value)]
      else base;
    var withMemo := if Truthy(a.memo) then withCounterparty["memo" := Str(a.memo.value)] else withCounterparty;
    if Truthy(a.externalId) then withMemo["external_id" := Str(a.externalId.value)] else withMemo
  }

  /** An optional string as the body sees it: empty counts as absent. */
  function Present(s: Option<string>): (r: Option<string>)
    ensures r.Some? <==> Truthy(s)
    ensures r.Some? ==> r == s
  {
    if Truthy(s) then s else None
  }

  /** The arguments reduced to what the body can tell apart: empty strings
      become absent, and a name beside a usable id is dropped. */
  function Normalize(a: PaymentArgs): PaymentArgs
  {
    PaymentArgs(a.accountId, a.amount, Present(a.counterpartyId),
                if Truthy(a.counterpartyId) then None else Present(a.counterpartyName),
                Present(a.memo), Present(a.externalId))
  }

  lemma NormalizeIdempotent(a: PaymentArgs)
    ensures Normalize(Normalize(a)) == Normalize(a)
  {
  }

  /** An optional string field of a body, read back. */
  function ReadString(p: map<string, Value>, key: string): (r: Option<string>)
    ensures r.Some? <==> key in p && p[key].Str?
    ensures r.Some? ==> p[key] == Str(r.value)
  {
    if key in p && p[key].Str? then Some(p[key].s) else None
  }

  /** The receiving side: the arguments a body carries, or `None` when it
      lacks the account id or the amount. */
  function ReadPayload(p: map<string, Value>): (r: Option<PaymentArgs>)
    ensures r.Some? <==> ReadString(p, "account_id").Some? && "amount" in p && p["amount"].Number?
    ensures r.Some? ==> p["account_id"] == Str(r.value.accountId) && p["amount"] == Number(r.value.amount)
    ensures r.Some? ==>
      && r.value.counterpartyId == ReadString(p, "counterparty_id")
      && r.value.counterpartyName == ReadString(p, "counterparty_name")
      && r.value.memo == ReadString(p, "memo")
      && r.value.externalId == ReadString(p, "external_id")
  {
    if ReadString(p, "account_id").Some? && "amount" in p && p["amount"].Number? then
      Some(PaymentArgs(ReadString(p, "account_id").value, p["amount"].n,
                       ReadString(p, "counterparty_id"), ReadString(p, "counterparty_name"),
                       ReadString(p, "memo"), ReadString(p, "external_id")))
    else None
  }

  /** Reading a body back gives the normalized arguments it was built from. */
  lemma PaymentPayloadRoundTrip(a: PaymentArgs)
    ensures ReadPayload(PaymentPayload(a)) == Some(Normalize(a))
  {
  }

  /** Building from the normalized arguments gives the same body. */
  lemma PaymentPayloadOfNormalized(a: PaymentArgs)
    ensures PaymentPayload(Normalize(a)) == PaymentPayload(a)
  {
  }

  /** Two calls send the same body exactly when their arguments agree up to
      truthiness and the id-over-name precedence. */
  lemma PaymentPayloadEqualIff(a: PaymentArgs, b: PaymentArgs)
    ensures PaymentPayload(a) == PaymentPayload(b) <==> Normalize(a) == Normalize(b)
  {
  }

  /** The contrast between the two builders: a zero limit is still sent,
      while an empty memo is dropped. */
  lemma ZeroIsSentEmptyIsNot(a: PaymentArgs, offset: Option<int>)
    requires a.memo == Some("")
    ensures "limit" in TransactionParams(Some(0), offset)
    ensures "memo" !in PaymentPayload(a)
  {
  }
}
