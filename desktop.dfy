/** The desktop commands' own logic: the `send_funds` currency parser,
    the message-type mapping of `send_message`, the service count of
    `get_network_status` and the service listing of `get_services`. */
module Desktop {
  import opened Wrappers
  import opened DataStructures
  import Str = Text

  /** The currency of a desktop `send_funds` call: an exact,
      case-sensitive symbol other than DUX, or the error returned before
      the wallet is touched. */
  function ParseSendCurrency(s: string): (r: Result<Currency, string>)
    ensures r.Ok? ==> Symbol(r.value) == s && r.value != DUX
    ensures r.Err? <==> forall c :: c != DUX ==> Symbol(c) != s
    ensures r.Err? ==> r.error == "Invalid currency: " + s
  {
    if s == "BTC" then Ok(BTC)
    else if s == "ETH" then Ok(ETH)
    else if s == "USDC" then Ok(USDC)
    else if s == "LTC" then Ok(LTC)
    else if s == "XMR" then Ok(XMR)
    else if s == "DOGE" then Ok(DOGE)
    else Err("Invalid currency: " + s)
  }

  /** DUX and lower-case symbols are refused. */
  lemma SendCurrencyRefusesDux()
    ensures ParseSendCurrency("DUX").Err?
    ensures ParseSendCurrency("btc") == Err("Invalid currency: btc")
  {
    assert "btc"[0] != "BTC"[0];
    assert "Invalid currency: " + "btc" == "Invalid currency: btc";
  }

  /** The wire name of each message type. */
  function MessageTypeName(t: MessageType): string {
    match t
    case Text => "text"
    case File => "file"
    case ServiceRequest => "service_request"
    case TaskUpdate => "task_update"
    case EscrowUpdate => "escrow_update"
    case ReputationUpdate => "reputation_update"
    case System => "system"
  }

  /** The message type named by a `send_message` argument; an unknown
      name is a text message. */
  function ParseMessageType(s: string): (t: MessageType)
    ensures MessageTypeName(t) == s || (t == Text && forall u :: MessageTypeName(u) != s)
  {
    if s == "text" then Text
    else if s == "file" then File
    else if s == "service_request" then ServiceRequest
    else if s == "task_update" then TaskUpdate
    else if s == "escrow_update" then EscrowUpdate
    else if s == "reputation_update" then ReputationUpdate
    else if s == "system" then System
    else Text
  }

  /** Every type survives the trip through its name. */
  lemma MessageTypeRoundTrip(t: MessageType)
    ensures ParseMessageType(MessageTypeName(t)) == t
  {
  }

  /** The request `send_message` hands to the messaging store. */
  function DesktopMessageRequest(toDid: string, content: string, messageType: string): (r: MessageRequest)
    ensures r.to_did == toDid && r.content == content && r.reply_to.None?
    ensures messageType in KnownTypeNames() ==> MessageTypeName(r.message_type) == messageType
    ensures messageType !in KnownTypeNames() ==> r.message_type == Text
  {
    MessageRequest(toDid, content, ParseMessageType(messageType), None)
  }

  /** A desktop request never replies to anything, keeps its recipient and
      content, and reads the type name case-sensitively. */
  lemma DesktopMessageRequestShape(toDid: string, content: string, messageType: string)
    ensures var r := DesktopMessageRequest(toDid, content, messageType);
            r.reply_to.None? && r.to_did == toDid && r.content == content &&
            MessageTypeName(r.message_type) == (if messageType in KnownTypeNames() then messageType else "text")
    ensures DesktopMessageRequest(toDid, content, "File").message_type == Text
  {
    var t := ParseMessageType(messageType);
    if messageType in KnownTypeNames() {
      assert t == ParseMessageType(MessageTypeName(t));
    }
  }

  function KnownTypeNames(): set<string> {
    {"text", "file", "service_request", "task_update", "escrow_update", "reputation_update", "system"}
  }

  // ---------------------------------------------------------------------
  // The DHT's service entries

  const ServicePrefix: string := "service:"

  /** The DHT keys that hold service records. */
  function ServiceKeys(entries: map<string, seq<u8>>): set<string> {
    set k | k in entries && Str.StartsWith(k, ServicePrefix)
  }

  datatype NetworkStatus = NetworkStatus(success: bool, peers: nat, services: nat, tasks: nat)

  /** The counts of `get_network_status`; `peerCount` and `taskCount` are
      the sizes of the peer table and of the pending-task table. */
  function GetNetworkStatus(peerCount: nat, entries: map<string, seq<u8>>, taskCount: nat): (s: NetworkStatus)
    ensures s.success && s.peers == peerCount && s.tasks == taskCount
    ensures s.services <= |entries|
  {
    SubsetCardinality(ServiceKeys(entries), entries.Keys);
    NetworkStatus(true, peerCount, |ServiceKeys(entries)|, taskCount)
  }

  lemma SubsetCardinality<T>(a: set<T>, b: set<T>)
    requires a <= b
    ensures |a| <= |b|
  {
    assert b == a + (b - a);
  }

  /** Storing under a "service:" key that was not there counts one more
      service; storing under any other key changes nothing. */
  lemma ServiceCountAfterStore(peerCount: nat, entries: map<string, seq<u8>>, taskCount: nat, key: string, value: seq<u8>)
    ensures var before := GetNetworkStatus(peerCount, entries, taskCount).services;
            var after := GetNetworkStatus(peerCount, entries[key := value], taskCount).services;
            after == if Str.StartsWith(key, ServicePrefix) && key !in entries then before + 1 else before
  {
    if Str.StartsWith(key, ServicePrefix) {
      assert ServiceKeys(entries[key := value]) == ServiceKeys(entries) + {key};
    } else {
      assert ServiceKeys(entries[key := value]) == ServiceKeys(entries);
    }
  }

  /** The service keys whose value decodes as a service record. */
  function DecodableKeys(entries: map<string, seq<u8>>, decode: seq<u8> -> Option<ServiceMetadata>): set<string> {
    set k | k in ServiceKeys(entries) && decode(entries[k]).Some?
  }

  /** Visiting one more key adds it to the visited decodable keys exactly
      when it is decodable. */
  lemma DecodableStep(decodable: set<string>, rest: set<string>, key: string)
    requires key in rest
    ensures key !in decodable - rest
    ensures |decodable - (rest - {key})| == |decodable - rest| + (if key in decodable then 1 else 0)
  {
    if key in decodable {
      assert decodable - (rest - {key}) == (decodable - rest) + {key};
    } else {
      assert decodable - (rest - {key}) == decodable - rest;
    }
  }

  /** `get_services`: the decoded value of every service key, in the
      table's iteration order, skipping values that do not decode.
      `decode` stands for the JSON decoder of a service record; `keys`
      records which entry each result came from. */
  method GetServices(entries: map<string, seq<u8>>, decode: seq<u8> -> Option<ServiceMetadata>)
    returns (services: seq<ServiceMetadata>, ghost keys: seq<string>)
    ensures |keys| == |services|
    ensures forall i :: 0 <= i < |keys| ==>
              keys[i] in DecodableKeys(entries, decode) && Some(services[i]) == decode(entries[keys[i]])
    ensures forall i, j :: 0 <= i < j < |keys| ==> keys[i] != keys[j]
    ensures forall k :: k in DecodableKeys(entries, decode) ==> k in keys
    ensures |services| == |DecodableKeys(entries, decode)|
    ensures |services| <= GetNetworkStatus(0, entries, 0).services
  {
    services := [];
    keys := [];
    var rest := entries.Keys;
    ghost var decodable := DecodableKeys(entries, decode);
    while rest != {}
      invariant rest <= entries.Keys
      invariant |keys| == |services|
      invariant forall i :: 0 <= i < |keys| ==>
                  keys[i] in DecodableKeys(entries, decode) && keys[i] !in rest &&
                  Some(services[i]) == decode(entries[keys[i]])
      invariant forall i, j :: 0 <= i < j < |keys| ==> keys[i] != keys[j]
      invariant forall k :: k in DecodableKeys(entries, decode) ==> k in keys || k in rest
      invariant |keys| == |decodable - rest|
      decreases |rest|
    {
      var key :| key in rest;
      DecodableStep(decodable, rest, key);
      rest := rest - {key};
      if Str.StartsWith(key, ServicePrefix) {
        match decode(entries[key]) {
          case Some(service) =>
            services := services + [service];
            keys := keys + [key];
          case None =>
        }
      }
    }
    SubsetCardinality(DecodableKeys(entries, decode), ServiceKeys(entries));
  }
}
