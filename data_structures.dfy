/** The records shared by the node's components (messages, conversations,
    community funds, service metadata) and the currencies the wallet knows.
    Unsigned 64-bit fields are `nat`s; `IsU64` states where the source's
    `u64` bound matters. */
module DataStructures {
  import opened Wrappers

  /** 2^64 - 1, the largest `u64`. */
  const U64_MAX: nat := 0xFFFF_FFFF_FFFF_FFFF

  predicate IsU64(n: nat) {
    n <= U64_MAX
  }

  newtype u8 = x: int | 0 <= x < 256

  /** The wallet's currencies. DUX is the platform's own coin. */
  datatype Currency = BTC | ETH | USDC | LTC | XMR | DOGE | DUX

  /** The ticker symbol the wallet prints for a currency. */
  function Symbol(c: Currency): string {
    match c
    case BTC => "BTC"
    case ETH => "ETH"
    case USDC => "USDC"
    case LTC => "LTC"
    case XMR => "XMR"
    case DOGE => "DOGE"
    case DUX => "DUX"
  }

  /** Distinct currencies have distinct symbols. */
  lemma SymbolInjective(c: Currency, d: Currency)
    ensures Symbol(c) == Symbol(d) ==> c == d
  {
    if Symbol(c) == Symbol(d) {
      match c
      case BTC => assert Symbol(d)[0] == 'B';
      case ETH => assert Symbol(d)[0] == 'E';
      case USDC => assert Symbol(d)[0] == 'U';
      case LTC => assert Symbol(d)[0] == 'L';
      case XMR => assert Symbol(d)[0] == 'X';
      case DOGE => assert Symbol(d)[..2] == "DO";
      case DUX => assert Symbol(d)[..2] == "DU";
    }
  }

  /** Every currency, in declaration order. */
  const AllCurrencies: seq<Currency> := [BTC, ETH, USDC, LTC, XMR, DOGE, DUX]

  /** The currencies that have a community fund: all but DUX. */
  const FundedCurrencies: seq<Currency> := [BTC, ETH, USDC, LTC, XMR, DOGE]

  // ---------------------------------------------------------------------
  // Service directory

  datatype ServiceMetadata = ServiceMetadata(
    id: string,
    provider_did: string,
    name: string,
    description: string,
    endpoint: string,
    price: nat,
    reputation_score: real,
    last_updated: nat)

  // ---------------------------------------------------------------------
  // Messaging

  datatype MessageType =
    | Text
    | File
    | ServiceRequest
    | TaskUpdate
    | EscrowUpdate
    | ReputationUpdate
    | System

  datatype Message = Message(
    id: string,
    from_did: string,
    to_did: string,
    content: string,
    message_type: MessageType,
    timestamp: nat,
    signature: seq<u8>,
    is_read: bool,
    reply_to: Option<string>)

  datatype MessageRequest = MessageRequest(
    to_did: string,
    content: string,
    message_type: MessageType,
    reply_to: Option<string>)

  datatype MessageResponse = MessageResponse(
    message_id: string,
    success: bool,
    message: string)

  datatype Conversation = Conversation(
    peer_did: string,
    last_message: Option<Message>,
    unread_count: nat,
    message_count: nat)

  // ---------------------------------------------------------------------
  // Community fund

  datatype CommunityFund = CommunityFund(
    currency: Currency,
    balance: nat,
    last_distribution: nat,
    total_distributed: nat,
    distribution_count: nat)

  /** One currency's line in the fund statistics (the formatted balance
      string is not modelled). */
  datatype CommunityFundBalance = CommunityFundBalance(
    currency: string,
    balance: nat,
    last_distribution: nat,
    next_distribution: nat,
    total_distributed: nat,
    distribution_count: nat)

  datatype CommunityFundDistribution = CommunityFundDistribution(
    currency: Currency,
    amount_per_user: nat,
    total_users: nat,
    distribution_timestamp: nat,
    transaction_ids: seq<string>)

  /** Fund statistics without the USD valuation. */
  datatype CommunityFundStats = CommunityFundStats(
    currencies: seq<CommunityFundBalance>,
    next_distribution_in: nat,
    total_distributed_all_time: nat)
}
