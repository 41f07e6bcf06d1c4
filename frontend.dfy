/** The browser client's own decisions: the desktop service search, the
    decimals table used to format and scale amounts, and the form guards
    that stop a request before it reaches the backend. */
module Frontend {
  import opened Wrappers
  import opened DataStructures
  import Str = Text

  // ---------------------------------------------------------------------
  // Service search (desktop branch)

  /** A service matches when the lower-cased query occurs in its
      lower-cased name or lower-cased description. */
  predicate MatchesQuery(service: ServiceMetadata, query: string) {
    Str.Includes(Str.ToLower(service.name), Str.ToLower(query)) ||
    Str.Includes(Str.ToLower(service.description), Str.ToLower(query))
  }

  /** `a` is `b` with some elements left out and the rest kept in order. */
  predicate IsSubsequence<T(==)>(a: seq<T>, b: seq<T>)
    decreases |b|
  {
    a == [] ||
    (b != [] &&
     ((a[0] == b[0] && IsSubsequence(a[1..], b[1..])) || IsSubsequence(a, b[1..])))
  }

  /** The `Array.filter` of the search: the matching services, in order. */
  function FilterServices(services: seq<ServiceMetadata>, query: string): (r: seq<ServiceMetadata>)
    ensures IsSubsequence(r, services)
    ensures forall s :: multiset(r)[s] == if MatchesQuery(s, query) then multiset(services)[s] else 0
  {
    if services == [] then []
    else
      var rest := FilterServices(services[1..], query);
      assert services == [services[0]] + services[1..];
      if MatchesQuery(services[0], query) then [services[0]] + rest else rest
  }

  /** Every kept service matches and every matching service is kept. */
  lemma FilterKeepsExactlyMatches(services: seq<ServiceMetadata>, query: string, s: ServiceMetadata)
    ensures s in FilterServices(services, query) <==> s in services && MatchesQuery(s, query)
  {
    var r := FilterServices(services, query);
    assert s in r <==> multiset(r)[s] > 0;
    assert s in services <==> multiset(services)[s] > 0;
  }

  /** An empty query would match everything; the search refuses it first. */
  lemma EmptyQueryMatchesAll(service: ServiceMetadata)
    ensures MatchesQuery(service, "")
  {
    Str.IncludesEmpty(Str.ToLower(service.name));
  }

  /** What the search shows: the results and the count in "Found N services". */
  datatype SearchResult = SearchResult(services: seq<ServiceMetadata>, found: nat)

  /** The desktop search over the listed services, or the notification
      shown when the query is empty. */
  function SearchServices(query: string, services: seq<ServiceMetadata>): (r: Result<SearchResult, string>)
    ensures r.Err? <==> query == []
    ensures r.Err? ==> r.error == "Please enter a search query"
    ensures r.Ok? ==> r.value.found == |r.value.services| && IsSubsequence(r.value.services, services)
    ensures r.Ok? ==> forall s :: s in r.value.services ==> MatchesQuery(s, query)
    ensures r.Ok? ==> r.value.services == FilterServices(services, query)
    ensures r.Ok? ==> forall s :: s in services && MatchesQuery(s, query) ==> s in r.value.services
  {
    if query == [] then Err("Please enter a search query")
    else
      var filtered := FilterServices(services, query);
      assert forall s :: s in filtered ==> multiset(filtered)[s] > 0;
      Ok(SearchResult(filtered, |filtered|))
  }

  // ---------------------------------------------------------------------
  // Decimals

  /** The number of decimals shown for a currency symbol; any other
      symbol, DUX included, gets 2. */
  function CurrencyDecimals(currency: string): (d: nat)
    ensures d in {2, 6, 8, 12, 18}
    ensures d == 2 <==> currency !in {"BTC", "ETH", "USDC", "LTC", "XMR", "DOGE"}
  {
    if currency == "BTC" then 8
    else if currency == "ETH" then 18
    else if currency == "USDC" then 6
    else if currency == "LTC" then 8
    else if currency == "XMR" then 12
    else if currency == "DOGE" then 8
    else 2
  }

  /** The table against the currencies the node knows. */
  lemma DecimalsOfSymbols(c: Currency)
    ensures CurrencyDecimals(Symbol(c)) ==
            match c
            case BTC => 8 case ETH => 18 case USDC => 6 case LTC => 8
            case XMR => 12 case DOGE => 8 case DUX => 2
  {
  }

  // ---------------------------------------------------------------------
  // Form guards

  /** A JavaScript number as `parseFloat` may produce it. */
  datatype JsNumber = NaN | Finite(value: real) | Infinite(positive: bool)

  /** JavaScript truthiness of a number: neither 0 nor NaN. */
  predicate Truthy(n: JsNumber) {
    match n
    case NaN => false
    case Finite(v) => v != 0.0
    case Infinite(_) => true
  }

  /** `n > 0` in JavaScript; NaN compares false. */
  predicate Positive(n: JsNumber) {
    match n
    case NaN => false
    case Finite(v) => v > 0.0
    case Infinite(p) => p
  }

  /** The guard shared by the register form (name, description, price)
      and the escrow form (service, seller, amount): the notification, or
      None when the request goes out. */
  function FillInAllFieldsGuard(first: string, second: string, amount: JsNumber): (r: Option<string>)
    ensures r.None? <==> first != [] && second != [] && amount != NaN && amount != Finite(0.0)
    ensures r.Some? ==> r.value == "Please fill in all fields"
  {
    if first == [] || second == [] || !Truthy(amount) then Some("Please fill in all fields") else None
  }

  /** The submit form's notification, or None when a task is submitted. */
  function SubmitTaskGuard(serviceId: string, payload: string): (r: Option<string>)
    ensures r.None? <==> serviceId != [] && payload != []
    ensures r.Some? ==> r.value == "Please fill in service ID and payload"
  {
    if serviceId == [] || payload == [] then Some("Please fill in service ID and payload") else None
  }

  /** The send form's notification, or None when the transfer goes out. */
  function SendFundsGuard(toAddress: string, amount: JsNumber): (r: Option<string>)
    ensures r.None? <==> toAddress != [] && Positive(amount)
    ensures r.Some? ==> r.value == "Please enter a valid address and amount"
  {
    if toAddress == [] || !Truthy(amount) || !Positive(amount) then
      Some("Please enter a valid address and amount")
    else None
  }

  /** Only the send form refuses a negative amount: the register and
      escrow forms let a negative price or amount through. */
  lemma NegativeAmountsPassTwoGuards(name: string, description: string)
    requires name != [] && description != []
    ensures FillInAllFieldsGuard(name, description, Finite(-5.0)).None?
    ensures SendFundsGuard(name, Finite(-5.0)).Some?
  {
  }
}
