/** The pieces of the node's HTTP handlers that decide something on their
    own: reading fields out of a JSON request body with defaults, parsing
    currency names, refusing a malformed DUX transfer before the wallet is
    reached, and turning a node operation's `Ok`/`Err` into the
    `{success, message}` reply. */
module Api {
  import opened Wrappers
  import opened DataStructures
  import Text

  /** A JSON value as the request parser delivers it. Numbers with a
      fractional part or an exponent are `JFloat`. */
  datatype JsonValue =
    | JNull
    | JBool(b: bool)
    | JInt(i: int)
    | JFloat(f: real)
    | JString(s: string)
    | JArray(items: seq<JsonValue>)
    | JObject(fields: map<string, JsonValue>)

  /** `request["key"]`: a missing field reads as null. */
  function Field(request: map<string, JsonValue>, key: string): JsonValue {
    if key in request then request[key] else JNull
  }

  /** `as_str`: only a string is a string. */
  function AsStr(v: JsonValue): Option<string> {
    if v.JString? then Some(v.s) else None
  }

  /** `as_u64`: only an integer in the u64 range is one. */
  function AsU64(v: JsonValue): (r: Option<nat>)
    ensures r.Some? <==> v.JInt? && 0 <= v.i <= U64_MAX
    ensures r.Some? ==> r.value == v.i && IsU64(r.value)
  {
    if v.JInt? && 0 <= v.i <= U64_MAX then Some(v.i as nat) else None
  }

  /** The `{success, message}` reply of a handler that failed. */
  datatype Reply = Reply(success: bool, message: string)

  // ---------------------------------------------------------------------
  // Community fund routes

  /** The currency of a community-fund route: the path segment,
      upper-cased, must be one of the seven symbols. */
  function ParseFundCurrency(s: string): (r: Option<Currency>)
    ensures r.Some? ==> Symbol(r.value) == Text.ToUpper(s)
    ensures r.None? ==> forall c :: Symbol(c) != Text.ToUpper(s)
  {
    var u := Text.ToUpper(s);
    if u == "BTC" then Some(BTC)
    else if u == "ETH" then Some(ETH)
    else if u == "USDC" then Some(USDC)
    else if u == "LTC" then Some(LTC)
    else if u == "XMR" then Some(XMR)
    else if u == "DOGE" then Some(DOGE)
    else if u == "DUX" then Some(DUX)
    else None
  }

  /** The route's currency, or the `error` text of the `success: false`
      reply that is sent without calling the node. Both community-fund
      routes (balance and distribute) parse their path segment this way. */
  function FundRouteCurrency(s: string): (r: Result<Currency, string>)
    ensures r.Err? <==> forall c :: Symbol(c) != Text.ToUpper(s)
    ensures r.Err? ==> r.error == "Invalid currency"
    ensures r.Ok? ==> Symbol(r.value) == Text.ToUpper(s)
  {
    match ParseFundCurrency(s)
    case Some(c) => Ok(c)
    case None => Err("Invalid currency")
  }

  /** Every symbol is accepted, in any letter case, and names its own
      currency. */
  lemma FundCurrencyAcceptsSymbols(c: Currency)
    ensures ParseFundCurrency(Symbol(c)) == Some(c)
    ensures ParseFundCurrency(Text.ToLower(Symbol(c))) == Some(c)
  {
    var lower := Text.ToLower(Symbol(c));
    assert Text.ToUpper(Symbol(c)) == Symbol(c);
    assert Text.ToUpper(lower) == Symbol(c);
    var r := ParseFundCurrency(Symbol(c));
    SymbolInjective(r.value, c);
  }

  /** Parsing ignores the letter case of the input. */
  lemma FundCurrencyIgnoresCase(s: string)
    ensures ParseFundCurrency(s) == ParseFundCurrency(Text.ToUpper(s))
  {
    Text.ToUpperIdempotent(s);
  }

  // ---------------------------------------------------------------------
  // receive_funds

  /** The currency of a `receive_funds` request: an exact, case-sensitive
      symbol other than DUX; anything else is USDC. */
  function ReceiveCurrency(s: string): (c: Currency)
    ensures c != DUX
    ensures (exists d :: d != DUX && Symbol(d) == s) ==> Symbol(c) == s
    ensures (forall d :: d != DUX ==> Symbol(d) != s) ==> c == USDC
  {
    if s == "BTC" then BTC
    else if s == "ETH" then ETH
    else if s == "USDC" then USDC
    else if s == "LTC" then LTC
    else if s == "XMR" then XMR
    else if s == "DOGE" then DOGE
    else USDC
  }

  datatype ReceiveFundsArgs = ReceiveFundsArgs(
    from_address: string,
    amount: nat,
    currency: Currency,
    transaction_id: string,
    signature: seq<u8>)

  /** The wallet arguments read from a `receive_funds` body. Missing or
      mistyped fields take their defaults ("" for strings, 0 for the
      amount, "USDC" for the currency) and a signature that is not valid
      base64 becomes empty. `base64Decode` stands for the standard base64
      decoder. */
  function ReceiveFundsRequest(request: map<string, JsonValue>, base64Decode: string -> Option<seq<u8>>)
    : (a: ReceiveFundsArgs)
    ensures Field(request, "from_address").JString? ==> a.from_address == Field(request, "from_address").s
    ensures !Field(request, "from_address").JString? ==> a.from_address == ""
    ensures var v := Field(request, "amount");
            if v.JInt? && 0 <= v.i <= U64_MAX then a.amount == v.i else a.amount == 0
    ensures Field(request, "currency").JString? ==> a.currency == ReceiveCurrency(Field(request, "currency").s)
    ensures !Field(request, "currency").JString? ==> a.currency == USDC
    ensures Field(request, "transaction_id").JString? ==> a.transaction_id == Field(request, "transaction_id").s
    ensures !Field(request, "transaction_id").JString? ==> a.transaction_id == ""
    ensures var v := Field(request, "signature");
            var text := if v.JString? then v.s else "";
            a.signature == if base64Decode(text).Some? then base64Decode(text).value else []
  {
    var from_address := AsStr(Field(request, "from_address")).GetOr("");
    var amount := AsU64(Field(request, "amount")).GetOr(0);
    var currency := ReceiveCurrency(AsStr(Field(request, "currency")).GetOr("USDC"));
    var transaction_id := AsStr(Field(request, "transaction_id")).GetOr("");
    var signature := AsStr(Field(request, "signature")).GetOr("");
    ReceiveFundsArgs(from_address, amount, currency, transaction_id, base64Decode(signature).GetOr([]))
  }

  /** The parser never yields DUX and falls back to USDC for "DUX", for
      lower-case symbols and for a missing currency; every other symbol
      is read as itself. */
  lemma ReceiveCurrencyFallbacks(request: map<string, JsonValue>, base64Decode: string -> Option<seq<u8>>, c: Currency)
    ensures ReceiveCurrency(Symbol(c)) == (if c == DUX then USDC else c)
    ensures ReceiveCurrency("btc") == USDC
    ensures "currency" !in request ==> ReceiveFundsRequest(request, base64Decode).currency == USDC
  {
    if c != DUX {
      SymbolInjective(ReceiveCurrency(Symbol(c)), c);
    }
  }

  /** An empty body gives empty strings, amount 0 and USDC; an
      undecodable signature gives an empty signature. */
  lemma ReceiveFundsDefaults(request: map<string, JsonValue>, base64Decode: string -> Option<seq<u8>>)
    ensures request == map[] ==>
              var a := ReceiveFundsRequest(request, base64Decode);
              a.from_address == "" && a.amount == 0 && a.currency == USDC && a.transaction_id == ""
    ensures Field(request, "amount").JFloat? ==> ReceiveFundsRequest(request, base64Decode).amount == 0
    ensures var sig := AsStr(Field(request, "signature")).GetOr("");
            base64Decode(sig).None? ==> ReceiveFundsRequest(request, base64Decode).signature == []
  {
  }

  // ---------------------------------------------------------------------
  // send_dux

  datatype SendRequest = SendRequest(
    to_address: string,
    amount: nat,
    currency: Currency,
    memo: Option<string>,
    fee: Option<nat>)

  /** The wallet transfer a `send_dux` body asks for, or the reply that
      refuses it without touching the wallet: an empty or missing address
      or a zero or missing amount is refused. */
  function SendDuxRequest(request: map<string, JsonValue>): (r: Result<SendRequest, Reply>)
    ensures r.Err? <==> AsStr(Field(request, "to_address")).GetOr("") == [] ||
                        AsU64(Field(request, "amount")).GetOr(0) == 0
    ensures r.Err? ==> r.error == Reply(false, "Invalid address or amount")
    ensures r.Ok? ==> r.value.to_address != [] && 0 < r.value.amount && IsU64(r.value.amount)
    ensures r.Ok? ==> r.value.currency == DUX && r.value.fee.None?
    ensures r.Ok? ==> r.value.to_address == AsStr(Field(request, "to_address")).GetOr("") &&
                      r.value.amount == AsU64(Field(request, "amount")).GetOr(0) &&
                      r.value.memo == AsStr(Field(request, "memo"))
  {
    var to_address := AsStr(Field(request, "to_address")).GetOr("");
    var amount := AsU64(Field(request, "amount")).GetOr(0);
    if to_address == [] || amount == 0 then
      Err(Reply(false, "Invalid address or amount"))
    else
      Ok(SendRequest(to_address, amount, DUX, AsStr(Field(request, "memo")), None))
  }

  /** A negative, fractional or string amount is refused like a zero one. */
  lemma SendDuxRefusesNonU64Amounts(request: map<string, JsonValue>)
    requires Field(request, "amount").JFloat? || Field(request, "amount").JString? ||
             (Field(request, "amount").JInt? && Field(request, "amount").i <= 0)
    ensures SendDuxRequest(request).Err?
  {
  }

  // ---------------------------------------------------------------------
  // register_service, submit_task, create_escrow

  datatype Operation = RegisterService | SubmitTask | CreateEscrow

  /** The reply of an operation that creates something and returns its id. */
  datatype IdResponse = IdResponse(id: string, success: bool, message: string)

  function SuccessMessage(op: Operation): string {
    match op
    case RegisterService => "Service registered successfully"
    case SubmitTask => "Task submitted successfully"
    case CreateEscrow => "Escrow created successfully"
  }

  function FailurePrefix(op: Operation): string {
    match op
    case RegisterService => "Failed to register service: "
    case SubmitTask => "Failed to submit task: "
    case CreateEscrow => "Failed to create escrow: "
  }

  /** The reply to the node's answer: the new id on success, an empty id
      and a message naming the operation and the error on failure. */
  function ToIdResponse(op: Operation, outcome: Result<string, string>): (resp: IdResponse)
    ensures resp.success <==> outcome.Ok?
    ensures outcome.Ok? ==> resp.id == outcome.value && resp.message == SuccessMessage(op)
    ensures outcome.Err? ==> resp.id == [] && Text.StartsWith(resp.message, FailurePrefix(op))
  {
    match outcome
    case Ok(id) => IdResponse(id, true, SuccessMessage(op))
    case Err(e) => IdResponse("", false, FailurePrefix(op) + e)
  }

  /** What a client can read back from a reply: the id, or the error text
      after the operation's prefix. */
  function OutcomeOf(op: Operation, resp: IdResponse): Option<Result<string, string>> {
    if resp.success then Some(Ok(resp.id))
    else if Text.StartsWith(resp.message, FailurePrefix(op)) then Some(Err(resp.message[|FailurePrefix(op)|..]))
    else None
  }

  /** The reply loses nothing: the node's answer can be read back from it. */
  lemma IdResponseRoundTrip(op: Operation, outcome: Result<string, string>)
    ensures OutcomeOf(op, ToIdResponse(op, outcome)) == Some(outcome)
  {
    if outcome.Err? {
      var m := FailurePrefix(op) + outcome.error;
      assert m[|FailurePrefix(op)|..] == outcome.error;
    }
  }
}
