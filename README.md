# DuxNet core model

DuxNet is a peer-to-peer service marketplace. Each node keeps a wallet, a
DHT, a messaging store and a community fund. This project models and proves
the parts of a node whose behaviour is decided by the node's own code:

- **The community fund ledger** (`community_fund.dfy`). There is one record
  per currency except DUX. A five-percent transaction tax feeds it. Every
  twelve hours a fund may be divided evenly among the active users. The
  manager is a class whose `funds` map its methods update in place. Each
  method is proved against value-level functions (`AddTax`,
  `DistributionCheck`, `ApplyDistribution`, `FundLines`), and the lemmas
  about those functions carry the promises: conservation of
  `balance + total_distributed`, the error each distribution guard gives in
  the order the guards run, and one statistics line per fund.
- **The messaging store** (`messaging.dfy`). It is a class holding a map of
  messages keyed by id and a map of conversation summaries keyed by peer
  DID. Send and receive insert a message and record it in its
  conversation. The per-peer query returns exactly that conversation's
  messages, sorted by timestamp. Delete recounts a conversation from the
  stored messages. The stats method sums the unread counters.
- **The HTTP handlers' parsing and guards** (`api.dfy`). This covers the
  three currency parsers, the `receive_funds` field defaults, the
  `send_dux` address/amount guard, and the mapping of a node answer to the
  `{id, success, message}` reply.
- **The desktop commands** (`desktop.dfy`). This covers the `send_funds`
  currency parser, the message-type names, and the "service:" key count
  and listing over the DHT entries.
- **The browser client** (`frontend.dfy`). This covers the desktop search
  filter, the currency decimals table and the form guards.

Shared entities are in `data_structures.dfy`: currencies, messages,
conversations, fund records and service metadata. ASCII case mapping and
substring search are in `text.dfy`. `Option` and `Result` are in
`wrappers.dfy`.

The model replaces the node's effects with inputs:

- the clock reading is a `now` or `timestamp` parameter;
- the list of active DIDs and the outcome of each distribution transfer
  are parameters;
- the fresh message UUID and the message signature are parameters;
- the base64 decoder and the JSON decoder of a service record are function
  parameters.

Rust `u64` values are naturals. Where an addition could overflow, the
method requires that it does not. The one product that can wrap in the
source is written out explicitly (see Findings).

## Model

| member | source | states |
|---|---|---|
| CommunityFunds.CalculateTaxAmountAsWritten | src/core/community_fund.rs:45-47 | the tax as written, with `amount * 5` wrapping modulo 2^64 before the division; the result stays a u64 |
| CommunityFunds.TaxWrapsForLargeAmounts | src/core/community_fund.rs:46 | for amount 2^62 the wrapped product makes the tax 2^62/100, which is not the five-percent tax |
| CommunityFunds.CalculateTaxAmount | src/core/community_fund.rs:45-47 | the tax is the largest t with 20t <= amount, so it never exceeds the amount and cannot overflow |
| CommunityFunds.TaxIsFivePercent | src/core/community_fund.rs:45-47 | the tax equals floor(amount*5/100), the source's formula over unbounded integers |
| CommunityFunds.TaxAgreesWithoutOverflow | src/core/community_fund.rs:46 | whenever amount*5 fits in a u64, the source's result and the corrected one agree |
| CommunityFunds.TaxExamples | src/core/community_fund.rs:338-341 | 100 gives 5, 1000 gives 50 and 10000 gives 500 |
| CommunityFunds.InitialFundsShape | src/core/community_fund.rs:19-30 | a new ledger has exactly the six funds BTC, ETH, USDC, LTC, XMR and DOGE, all fields zero, and none for DUX |
| CommunityFunds.CommunityFundManager.constructor | src/core/community_fund.rs:18-42 | the constructor's loop builds exactly that initial ledger; three trusted nodes are recorded; the interval is 43200 s |
| CommunityFunds.CommunityFundManager.GetFundBalance | src/core/community_fund.rs:66-69 | the fund's balance, or 0 for a currency without a fund |
| CommunityFunds.AddTaxOnlyRaisesThatBalance | src/core/community_fund.rs:50-63 | crediting tax keeps the set of funds, raises only that currency's balance by exactly the tax, leaves every other field alone, and is a no-op for a currency without a fund |
| CommunityFunds.AddTaxAccumulates | src/core/community_fund.rs:53-54 | two credits equal one credit of their sum |
| CommunityFunds.AddTaxExample | src/core/community_fund.rs:349-359 | crediting 1000000 and then 500000 to BTC leaves a balance of 1500000 |
| CommunityFunds.CommunityFundManager.AddTaxToFund | src/core/community_fund.rs:50-63 | the new ledger is `AddTax` of the old one; the balance read back rises by the tax exactly when the currency has a fund; the record invariant is kept |
| CommunityFunds.DistributionGuardOrder | src/core/community_fund.rs:132-165 | the guards run in source order, each reached only when the earlier ones pass: a missing fund gives FundNotFound; a fund not yet due gives NotYetDue with last_distribution + interval - now seconds (the full interval when the clock is behind the last distribution); an empty balance gives NoFunds; no active users gives NoActiveUsers; a balance below the user count gives InsufficientBalance |
| CommunityFunds.DistributionCheck | src/core/community_fund.rs:132-165 | it passes exactly when the fund exists, is due, and has at least one unit per active user; the share times the user count never exceeds the balance, and the remainder is smaller than the user count |
| CommunityFunds.FreshLedgerDoesNotDistribute | src/core/community_fund.rs:362-375 | a new ledger never passes the guards; DUX has no fund; a credited fund with no active users does not pass |
| CommunityFunds.CommunityFundManager.ShouldDistribute | src/core/community_fund.rs:78-126 | true exactly when the fund exists, the interval has elapsed, and there is at least one active user and at least one unit per user; false whenever the balance is 0 |
| CommunityFunds.Successes | src/core/community_fund.rs:171-185 | the ids of the transfers that went through, in recipient order; there are at most as many as recipients, and none exactly when every transfer failed |
| CommunityFunds.CollectTransactionIds | src/core/community_fund.rs:171-185 | the loop over the recipients gathers exactly the successful transaction ids, in recipient order, and counts them |
| CommunityFunds.DistributionConserves | src/core/community_fund.rs:188-195 | paying the share to k <= n users subtracts exactly share*k from the balance without saturating, adds it to total_distributed (conserving their sum), bumps the count and stamps `now` |
| CommunityFunds.CommunityFundManager.DistributeFund | src/core/community_fund.rs:129-215 | a failed guard returns its error and leaves the ledger unchanged; when no transfer succeeds, an error returns and the ledger is unchanged; otherwise the fund becomes `ApplyDistribution` with the share and the number of successes, and the result carries the share, that number, `now` and the transaction ids; success happens exactly when `ShouldDistribute` held and some transfer succeeded |
| CommunityFunds.NextDistributionIn | src/core/community_fund.rs:225-230 | seconds until the fund is due: 0 exactly when it is due, and otherwise exactly last_distribution + interval - now |
| CommunityFunds.FundLinesCoverFunds | src/core/community_fund.rs:223-242 | the statistics have exactly one line per fund: as many lines as funds, a line for every fund, and only lines of funds |
| CommunityFunds.MinNextDistribution | src/core/community_fund.rs:262 | the smallest `next_distribution` among the lines and attained by one of them, or 0 when there are none |
| CommunityFunds.CommunityFundManager.GetStats | src/core/community_fund.rs:218-265 | the loop yields the lines of all funds; `next_distribution_in` is their minimum; the all-time total is the sum of the funds' `total_distributed` |
| Messaging.RecordMessageEffect | src/core/messaging.rs:150-166 | recording a message creates its peer's conversation if missing (the recipient when self sent it, the sender otherwise), sets its last message, adds one to its count even for a re-delivered id, and touches no other conversation |
| Messaging.RecordMessageUnreadTotal | src/core/messaging.rs:168-171 | the total of unread counters rises by one exactly for an unread message from a peer |
| Messaging.SumUnreadRemove | src/core/messaging.rs:218-220 | the sum of unread counters does not depend on the order the conversations are visited |
| Messaging.InsertByTimestamp | src/core/messaging.rs:122 | inserting into a timestamp-sorted list keeps it sorted and adds exactly that message |
| Messaging.SortByTimestamp | src/core/messaging.rs:122 | the result is sorted by non-decreasing timestamp and is a permutation of the input |
| Messaging.CountsOfSetSequence | src/core/messaging.rs:187-190 | a list that holds each message of a set once has the set's size and counts the set's unread messages from a DID |
| Messaging.MessagingSystem.constructor | src/core/messaging.rs:24-31 | a new store holds no message and no conversation |
| Messaging.MessagingSystem.UpdateConversation | src/core/messaging.rs:150-174 | the conversations become `RecordMessage` of the old ones, with every conversation still stored under its peer DID |
| Messaging.MessagingSystem.SendMessage | src/core/messaging.rs:33-80 | exactly one message is added, under the fresh id: from the own DID, unread, with recipient, content, type and reply_to copied from the request; it is recorded in the recipient's conversation; the reply is success with that id |
| Messaging.MessagingSystem.ReceiveMessage | src/core/messaging.rs:82-108 | the message is stored exactly as given, replacing any with the same id, and recorded in its conversation |
| Messaging.CollectConversation | src/core/messaging.rs:112-119 | the loop over the stored messages collects each message between the own DID and the peer exactly once, and no other message |
| Messaging.MessagingSystem.GetMessages | src/core/messaging.rs:110-124 | the result is sorted by timestamp and holds exactly the stored messages between the own DID and the peer, in either direction |
| Messaging.MessagingSystem.MarkMessageRead | src/core/messaging.rs:131-138 | only that message's `is_read` becomes true; conversations are not touched; an unknown id changes nothing |
| Messaging.MessagingSystem.RecalculateConversation | src/core/messaging.rs:176-195 | only the peer's conversation changes, and it is created if missing; its count is the number of its stored messages; its unread count is the unread messages from the peer; its last message is a latest one, or none when no message is left |
| Messaging.MessagingSystem.DeleteMessage | src/core/messaging.rs:140-148 | an unknown id changes nothing; otherwise the message is removed and the conversation keyed by its sender (not by its peer) is recounted, and no other conversation changes |
| Messaging.MessagingSystem.GetMessageStats | src/core/messaging.rs:212-227 | the number of messages, the number of conversations, and the sum of all unread counters |
| Text.ToUpper | src/api/mod.rs:542 | upper-cases letter by letter and keeps the length |
| Text.ToUpperIdempotent | src/api/mod.rs:575 | upper-casing twice is upper-casing once |
| Text.ToLower | frontend/script.js:122-123 | lower-cases letter by letter and keeps the length |
| Text.Includes | frontend/script.js:122-123 | true exactly when the needle occurs at some position of the haystack |
| Api.ParseFundCurrency | src/api/mod.rs:542-556 | after upper-casing, each of the seven symbols (DUX included) names its currency, and anything else is refused |
| Api.FundRouteCurrency | src/api/mod.rs:575-589 | both fund routes share this parser; it yields the currency, or the "Invalid currency" error exactly when no symbol matches the upper-cased input, so the node is never called |
| Api.FundCurrencyAcceptsSymbols | src/api/mod.rs:542-549 | every symbol, and its lower-case spelling, parses to its own currency |
| Api.FundCurrencyIgnoresCase | src/api/mod.rs:575-582 | parsing a string and parsing its upper-cased form give the same result |
| Api.AsU64 | src/api/mod.rs:348 | a JSON value reads as an amount exactly when it is an integer in the u64 range, and then as that integer |
| Api.ReceiveCurrency | src/api/mod.rs:353-361 | case-sensitive, never DUX; an exact symbol of the other six is itself and anything else is USDC |
| Api.ReceiveCurrencyFallbacks | src/api/mod.rs:349-361 | "DUX", "btc" and a missing currency all read as USDC; every other symbol reads as itself |
| Api.ReceiveFundsRequest | src/api/mod.rs:347-366 | each field on its own: a string address or transaction id is passed through and anything else reads as ""; an integer amount in the u64 range is passed through and anything else reads as 0; a string currency goes through the receive-currency parser and anything else is USDC; the signature is the decoding of the signature string (or of "") and empty when that does not decode |
| Api.ReceiveFundsDefaults | src/api/mod.rs:347-366 | an empty body gives empty address and id, amount 0 and USDC; a fractional amount reads as 0; a signature that does not decode becomes empty |
| Api.SendDuxRequest | src/api/mod.rs:761-776 | refused with "Invalid address or amount" exactly when the address is empty or missing or the amount is 0 or missing; otherwise a DUX transfer to that address of that positive u64 amount, carrying the memo when it is a string, with no fee. The desktop command at src-tauri/src/main.rs:278-293 applies the same guard |
| Api.SendDuxRefusesNonU64Amounts | src/api/mod.rs:762-764 | a negative, fractional or string amount is refused like a zero one |
| Api.ToIdResponse | src/api/mod.rs:117-131 | success exactly when the node answered `Ok`; on success the id and the operation's success text; on failure an empty id and a message that starts with "Failed to …: ". The same mapping serves submit_task (162-176) and create_escrow (187-201) |
| Api.IdResponseRoundTrip | src/api/mod.rs:187-201 | the node's answer, id or error text, can be read back from the reply |
| Desktop.ParseSendCurrency | src-tauri/src/main.rs:46-54 | case-sensitive, exactly six symbols with no DUX; anything else is the error "Invalid currency: " followed by the input |
| Desktop.SendCurrencyRefusesDux | src-tauri/src/main.rs:46-53 | "DUX" and "btc" are refused |
| Desktop.ParseMessageType | src-tauri/src/main.rs:129-138 | the type whose name is the input, or Text when no type has that name |
| Desktop.MessageTypeRoundTrip | src-tauri/src/main.rs:129-137 | every type's name parses back to that type |
| Desktop.DesktopMessageRequest | src-tauri/src/main.rs:129-145 | recipient and content are passed through, reply_to is absent, a known type name becomes the type of that name and any other name becomes Text |
| Desktop.DesktopMessageRequestShape | src-tauri/src/main.rs:140-145 | the request keeps recipient and content, never has a reply_to, and reads the type case-sensitively ("File" is Text) |
| Desktop.GetNetworkStatus | src-tauri/src/main.rs:87-98 | peers and tasks are the sizes of their tables; services is the number of keys starting with "service:" and is at most the number of entries |
| Desktop.ServiceCountAfterStore | src-tauri/src/main.rs:90 | storing under a new "service:" key adds one service; storing under any other key changes nothing |
| Desktop.GetServices | src-tauri/src/main.rs:104-117 | each result is the decoded value of a distinct "service:" key; every key whose value decodes is listed, the others are skipped, and there are at most as many results as service keys |
| Frontend.FilterServices | frontend/script.js:121-124 | the result is an order-preserving subsequence of the services; each service occurs in it as often as in the input if it matches the query, and not at all otherwise |
| Frontend.FilterKeepsExactlyMatches | frontend/script.js:121-124 | a service is kept exactly when it is listed and its lower-cased name or description contains the lower-cased query |
| Frontend.EmptyQueryMatchesAll | frontend/script.js:111-114 | an empty query would match every service, which is why it is refused first |
| Frontend.SearchServices | frontend/script.js:108-126 | refused with "Please enter a search query" exactly when the query is empty; otherwise matching services only, as a subsequence, exactly the filter's result (every matching service is kept), with the reported count equal to their number |
| Frontend.CurrencyDecimals | frontend/script.js:442-452 | 8, 18, 6, 8, 12 or 8 for the six listed symbols, and 2 exactly for every other string |
| Frontend.DecimalsOfSymbols | frontend/script.js:443-451 | the table against each currency: BTC 8, ETH 18, USDC 6, LTC 8, XMR 12, DOGE 8, DUX 2 |
| Frontend.FillInAllFieldsGuard | frontend/script.js:63-66 | the register form sends only when name and description are non-empty and the price is neither 0 nor NaN; the escrow form at frontend/script.js:236-239 applies the same guard to service, seller and amount |
| Frontend.SubmitTaskGuard | frontend/script.js:184-187 | a task is submitted exactly when the service id and the payload are non-empty |
| Frontend.SendFundsGuard | frontend/script.js:527-530 | the transfer goes out exactly when the address is non-empty and the amount is greater than 0 |
| Frontend.NegativeAmountsPassTwoGuards | frontend/script.js:63 | a negative price or escrow amount passes the register and escrow forms, while the send form refuses it |

## Left out

- CommunityFunds.CommunityFundManager.AddTaxToFund: requires that the new balance fits in a u64 instead of modelling the overflow of `+=` at src/core/community_fund.rs:54.
- CommunityFunds.CommunityFundManager.DistributeFund: requires that `balance + total_distributed` and the count fit in a u64 and that `now` is a u64 instead of modelling overflow at :194-195.
- CommunityFunds.CommunityFundManager.GetStats: requires that `last_distribution + interval` and the all-time sum fit in a u64 instead of modelling overflow at :225 and :257.
- CommunityFunds.CommunityFundManager.GetStats: reads the clock once, where the source reads it again for every fund. Lines come in the order of the currency enumeration, where the source uses hash-map order. The fold for the minimum and the sum is written after the loop.
- The USD valuation in get_stats (src/core/community_fund.rs:245-254) and `formatted_balance` are floating point and text formatting, and are not modelled.
- DHT persistence (`store_fund_balance`, `store_fund_state`, `load_fund_state`) is not modelled. Neither is the error a failed store returns after the fund was already changed (src/core/community_fund.rs:59, :198). Distribution transfers are an input outcome per recipient.
- `get_active_dids` failing is not modelled. The DID list is an input.
- Messaging.MessagingSystem.SendMessage: the UUID, the clock reading and the signature are parameters. The signature is not derived from the signed content.
- Message handlers (`notify_handlers`, `add_message_handler`) are foreign callbacks and are not modelled.
- Locks are not modelled; everything is sequential. In the source, `delete_message` holds the messages write lock while recalculate_conversation takes a read lock on the same map (src/core/messaging.rs:141-144, :111). That would deadlock, and the model does not capture it.
- The `usize` counters of conversations are unbounded naturals.
- HashMap iteration order is an arbitrary choice in the loops of GetMessages, GetMessageStats and GetServices. Results are stated up to that order: as a multiset before sorting, as a sum, and as a set of keys.
- Messaging.MessagingSystem.RecalculateConversation: when timestamps tie, the last message is stated to be "a latest one". It is not stated to be the exact element that Rust's stable sort puts last.
- Case mapping (`to_uppercase`, `toLowerCase`) covers ASCII letters only; other Unicode case mappings are not modelled.
- Frontend.CurrencyDecimals: a JavaScript object's inherited property names (such as "constructor") would return a non-number, which is not modelled.
- The `Math.floor(amount * 10^d)` conversion and `toFixed` formatting in the client are floating point and are not modelled.
- `get_conversations` only returns the stored values and is not modelled separately.
- The wallet, task, escrow and reputation engines, the DHT itself, routing, CORS and process start-up (src/main.rs, the simulation functions of src-tauri/src/main.rs) are not part of this model. src/api/dux_coin.rs (an RPC client with floating-point amounts) is not part of this model either.

## Findings

| source | as written | input that shows it | evidently intended | confidence | as-written member | corrected member |
|---|---|---|---|---|---|---|
| src/core/community_fund.rs:46 | `(amount * 5) / 100` on u64; in a release build the product wraps modulo 2^64 (a debug build panics) | amount = 2^62: the product wraps to 2^62, so the tax is 2^62/100 instead of 5 * 2^62 / 100 | five percent of the amount, rounded down, for every u64 amount (`amount / 20`) | not executed | CommunityFunds.TaxWrapsForLargeAmounts | CommunityFunds.CalculateTaxAmount |
