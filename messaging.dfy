/** The direct-messaging store of a node: every message it sent or
    received, keyed by message id, and one conversation summary per peer
    DID, keyed by that DID.

    The node's own DID is fixed at construction; the fresh message id,
    the clock reading and the signature of an outgoing message are inputs
    of `SendMessage`. */
module Messaging {
  import opened Wrappers
  import opened DataStructures

  datatype MessageStats = MessageStats(
    total_messages: nat,
    total_conversations: nat,
    unread_messages: nat)

  /** `m` passes between `own` and `peer`, in either direction. */
  predicate Between(m: Message, own: string, peer: string) {
    (m.from_did == own && m.to_did == peer) || (m.from_did == peer && m.to_did == own)
  }

  /** The conversation a message belongs to: its recipient when `own`
      sent it, its sender otherwise. */
  function PeerOf(m: Message, own: string): string {
    if m.from_did == own then m.to_did else m.from_did
  }

  function NewConversation(peer: string): Conversation {
    Conversation(peer, None, 0, 0)
  }

  /** The conversations after `m` was recorded in the conversation of its
      peer (created empty when missing). */
  function RecordMessage(convs: map<string, Conversation>, m: Message, own: string): map<string, Conversation> {
    var peer := PeerOf(m, own);
    var c := if peer in convs then convs[peer] else NewConversation(peer);
    convs[peer := c.(last_message := Some(m),
                     message_count := c.message_count + 1,
                     unread_count := c.unread_count + (if m.from_did != own && !m.is_read then 1 else 0))]
  }

  /** The stored messages between `own` and `peer`. */
  ghost function ConversationMessages(messages: map<string, Message>, own: string, peer: string): set<Message> {
    set id | id in messages && Between(messages[id], own, peer) :: messages[id]
  }

  /** The stored messages between `own` and `peer` whose ids are in `ids`. */
  ghost function MessagesAmong(messages: map<string, Message>, ids: set<string>, own: string, peer: string): set<Message> {
    set id | id in ids && id in messages && Between(messages[id], own, peer) :: messages[id]
  }

  /** Taking one more id into account adds its message, if it belongs to
      the conversation, and that message was not among the others. */
  lemma MessagesAmongStep(messages: map<string, Message>, ids: set<string>, id: string, own: string, peer: string)
    requires forall i :: i in messages ==> messages[i].id == i
    requires id in messages && id !in ids
    ensures var before := MessagesAmong(messages, ids, own, peer);
            var after := MessagesAmong(messages, ids + {id}, own, peer);
            && messages[id] !in before
            && after == before + (if Between(messages[id], own, peer) then {messages[id]} else {})
  {
  }

  /** The collection loop of `get_messages` keeps, as a multiset, the
      conversation's messages among the ids visited so far. */
  lemma CollectStep(messages: map<string, Message>, ids: set<string>, id: string, own: string, peer: string,
                    collected: seq<Message>)
    requires forall i :: i in messages ==> messages[i].id == i
    requires id in messages && id !in ids
    requires multiset(collected) == multiset(MessagesAmong(messages, ids, own, peer))
    ensures var next := if Between(messages[id], own, peer) then collected + [messages[id]] else collected;
            multiset(next) == multiset(MessagesAmong(messages, ids + {id}, own, peer))
  {
    MessagesAmongStep(messages, ids, id, own, peer);
    var before := MessagesAmong(messages, ids, own, peer);
    if Between(messages[id], own, peer) {
      assert multiset(before + {messages[id]}) == multiset(before) + multiset{messages[id]};
    }
  }

  /** Taking every id into account gives the whole conversation. */
  lemma MessagesAmongAll(messages: map<string, Message>, own: string, peer: string)
    ensures MessagesAmong(messages, messages.Keys, own, peer) == ConversationMessages(messages, own, peer)
  {
  }

  /** The loop of `get_messages`: the stored messages between `own` and
      `peer`, in the map's iteration order. */
  method CollectConversation(messages: map<string, Message>, own: string, peer: string)
    returns (collected: seq<Message>)
    requires forall i :: i in messages ==> messages[i].id == i
    ensures multiset(collected) == multiset(ConversationMessages(messages, own, peer))
  {
    collected := [];
    var rest := messages.Keys;
    while rest != {}
      invariant rest <= messages.Keys
      invariant multiset(collected) == multiset(MessagesAmong(messages, messages.Keys - rest, own, peer))
      decreases |rest|
    {
      var id :| id in rest;
      CollectStep(messages, messages.Keys - rest, id, own, peer, collected);
      assert (messages.Keys - rest) + {id} == messages.Keys - (rest - {id});
      if Between(messages[id], own, peer) {
        collected := collected + [messages[id]];
      }
      rest := rest - {id};
    }
    assert messages.Keys - rest == messages.Keys;
    MessagesAmongAll(messages, own, peer);
  }

  // ---------------------------------------------------------------------
  // Ordering by timestamp

  predicate SortedByTimestamp(s: seq<Message>) {
    forall i, j :: 0 <= i < j < |s| ==> s[i].timestamp <= s[j].timestamp
  }

  /** A message no later than the head of a sorted list can go in front. */
  lemma SortedCons(x: Message, t: seq<Message>)
    requires SortedByTimestamp(t)
    requires t != [] ==> x.timestamp <= t[0].timestamp
    ensures SortedByTimestamp([x] + t)
  {
    var r := [x] + t;
    forall i, j | 0 <= i < j < |r| ensures r[i].timestamp <= r[j].timestamp {
      assert r[j] == t[j - 1];
      if i > 0 {
        assert r[i] == t[i - 1];
      }
    }
  }

  lemma SortedTail(s: seq<Message>)
    requires SortedByTimestamp(s) && s != []
    ensures SortedByTimestamp(s[1..])
    ensures |s| > 1 ==> s[0].timestamp <= s[1].timestamp
  {
    forall i, j | 0 <= i < j < |s| - 1 ensures s[1..][i].timestamp <= s[1..][j].timestamp {
      assert s[1..][i] == s[i + 1] && s[1..][j] == s[j + 1];
    }
  }

  /** `s` with `m` inserted before the first message that is not older. */
  function InsertByTimestamp(m: Message, s: seq<Message>): (r: seq<Message>)
    requires SortedByTimestamp(s)
    ensures SortedByTimestamp(r)
    ensures multiset(r) == multiset(s) + multiset{m}
    ensures r != [] && (r[0] == m || (s != [] && r[0] == s[0]))
    decreases |s|
  {
    if s == [] then [m]
    else if m.timestamp <= s[0].timestamp then
      SortedCons(m, s);
      [m] + s
    else
      SortedTail(s);
      var rest := InsertByTimestamp(m, s[1..]);
      SortedCons(s[0], rest);
      assert multiset(s) == multiset{s[0]} + multiset(s[1..]) by {
        assert s == [s[0]] + s[1..];
      }
      [s[0]] + rest
  }

  /** `s` ordered by non-decreasing timestamp (a stable sort). */
  function SortByTimestamp(s: seq<Message>): (r: seq<Message>)
    ensures SortedByTimestamp(r)
    ensures multiset(r) == multiset(s)
    decreases |s|
  {
    if s == [] then []
    else
      assert s == [s[0]] + s[1..];
      InsertByTimestamp(s[0], SortByTimestamp(s[1..]))
  }

  /** The number of messages of `s` from `did` that are still unread. */
  function CountUnreadFrom(s: seq<Message>, did: string): nat
    decreases |s|
  {
    if s == [] then 0
    else (if s[0].from_did == did && !s[0].is_read then 1 else 0) + CountUnreadFrom(s[1..], did)
  }

  /** Taking the head off a sequence that holds a set's elements once each
      leaves a sequence holding the rest of the set once each. */
  lemma MultisetTail(s: seq<Message>, S: set<Message>)
    requires s != [] && multiset(s) == multiset(S)
    ensures s[0] in S
    ensures multiset(s[1..]) == multiset(S - {s[0]})
  {
    var h := s[0];
    assert s == [h] + s[1..];
    assert multiset(S)[h] > 0;
    forall x ensures multiset(S - {h})[x] == multiset(S)[x] - (if x == h then 1 else 0) {
    }
  }

  /** A sequence holding the elements of a set once each is as long as
      the set, and counts as many unread messages from `did`. */
  lemma {:induction false} CountsOfSetSequence(s: seq<Message>, S: set<Message>, did: string)
    requires multiset(s) == multiset(S)
    ensures |s| == |S|
    ensures CountUnreadFrom(s, did) == |set m | m in S && m.from_did == did && !m.is_read|
    decreases |s|
  {
    if s == [] {
      assert forall x :: x in S ==> x in multiset(S);
    } else {
      var h := s[0];
      MultisetTail(s, S);
      var rest := S - {h};
      CountsOfSetSequence(s[1..], rest, did);
      UnreadFromRemove(S, h, did);
    }
  }

  /** Removing a message from a set removes it from the set's unread
      messages from `did`, if it was one. */
  lemma UnreadFromRemove(S: set<Message>, h: Message, did: string)
    requires h in S
    ensures |set m | m in S && m.from_did == did && !m.is_read|
            == |set m | m in S - {h} && m.from_did == did && !m.is_read| + (if h.from_did == did && !h.is_read then 1 else 0)
  {
    var U := set m | m in S && m.from_did == did && !m.is_read;
    var V := set m | m in S - {h} && m.from_did == did && !m.is_read;
    if h.from_did == did && !h.is_read {
      assert U == V + {h};
    } else {
      assert U == V;
    }
  }

  // ---------------------------------------------------------------------
  // The unread total over all conversations

  /** The sum of the `unread_count`s of the conversations. */
  ghost function SumUnread(convs: map<string, Conversation>): nat
    decreases |convs|
  {
    if convs == map[] then 0
    else
      var k :| k in convs;
      assert |(convs - {k}).Keys| < |convs.Keys| by {
        assert (convs - {k}).Keys == convs.Keys - {k};
      }
      convs[k].unread_count + SumUnread(convs - {k})
  }

  /** The conversations of `convs` under the keys `keys`. */
  function Restrict(convs: map<string, Conversation>, keys: set<string>): map<string, Conversation>
    requires keys <= convs.Keys
  {
    map k | k in keys :: convs[k]
  }

  /** The sum does not depend on the order of the keys: any one key can
      be taken out first. */
  lemma {:induction false} SumUnreadRemove(convs: map<string, Conversation>, k: string)
    requires k in convs
    ensures SumUnread(convs) == convs[k].unread_count + SumUnread(convs - {k})
    decreases |convs|
  {
    var j :| j in convs && SumUnread(convs) == convs[j].unread_count + SumUnread(convs - {j});
    if j != k {
      assert |(convs - {j}).Keys| < |convs.Keys| by {
        assert (convs - {j}).Keys == convs.Keys - {j};
      }
      assert |(convs - {k}).Keys| < |convs.Keys| by {
        assert (convs - {k}).Keys == convs.Keys - {k};
      }
      SumUnreadRemove(convs - {j}, k);
      SumUnreadRemove(convs - {k}, j);
      assert convs - {j} - {k} == convs - {k} - {j};
    }
  }

  /** Replacing one conversation changes the sum by the difference of
      the two unread counts. */
  lemma SumUnreadUpdate(convs: map<string, Conversation>, k: string, c: Conversation)
    ensures SumUnread(convs[k := c]) + (if k in convs then convs[k].unread_count else 0)
            == SumUnread(convs) + c.unread_count
  {
    SumUnreadRemove(convs[k := c], k);
    if k in convs {
      SumUnreadRemove(convs, k);
      assert convs[k := c] - {k} == convs - {k};
    } else {
      assert convs[k := c] - {k} == convs;
    }
  }

  /** Recording a message adds one to the unread total exactly when the
      message is an unread one from a peer. */
  lemma RecordMessageUnreadTotal(convs: map<string, Conversation>, m: Message, own: string)
    ensures SumUnread(RecordMessage(convs, m, own))
            == SumUnread(convs) + (if m.from_did != own && !m.is_read then 1 else 0)
  {
    var peer := PeerOf(m, own);
    var c := if peer in convs then convs[peer] else NewConversation(peer);
    SumUnreadUpdate(convs, peer, c.(last_message := Some(m),
                                    message_count := c.message_count + 1,
                                    unread_count := c.unread_count + (if m.from_did != own && !m.is_read then 1 else 0)));
  }

  /** Recording a message touches only its peer's conversation, whose
      message count goes up by one whether or not the message id was
      already stored. */
  lemma RecordMessageEffect(convs: map<string, Conversation>, m: Message, own: string, p: string)
    ensures var after := RecordMessage(convs, m, own);
            && after.Keys == convs.Keys + {PeerOf(m, own)}
            && after[PeerOf(m, own)].message_count == (if PeerOf(m, own) in convs then convs[PeerOf(m, own)].message_count else 0) + 1
            && after[PeerOf(m, own)].last_message == Some(m)
            && (p in convs && p != PeerOf(m, own) ==> after[p] == convs[p])
  {
  }

  /** The conversation of `peer` agrees with the stored messages: it
      counts them and their unread messages from `peer`, and its last
      message is a latest one. */
  ghost predicate Recounted(c: Conversation, messages: map<string, Message>, own: string, peer: string) {
    var S := ConversationMessages(messages, own, peer);
    && c.peer_did == peer
    && c.message_count == |S|
    && c.unread_count == |set m | m in S && m.from_did == peer && !m.is_read|
    && (c.last_message.None? <==> S == {})
    && (c.last_message.Some? ==>
          c.last_message.value in S &&
          forall m :: m in S ==> m.timestamp <= c.last_message.value.timestamp)
  }

  // ---------------------------------------------------------------------
  // The store

  class MessagingSystem {
    const ownDid: string
    /** Every stored message, keyed by its id. */
    var messages: map<string, Message>
    /** One summary per peer DID. */
    var conversations: map<string, Conversation>

    ghost predicate Valid()
      reads this
    {
      && (forall id :: id in messages ==> messages[id].id == id)
      && (forall p :: p in conversations ==> conversations[p].peer_did == p)
    }

    constructor (ownDid: string)
      ensures Valid()
      ensures this.ownDid == ownDid && messages == map[] && conversations == map[]
    {
      this.ownDid := ownDid;
      messages := map[];
      conversations := map[];
    }

    /** Records `m` in its peer's conversation. */
    method UpdateConversation(m: Message)
      requires Valid()
      modifies this`conversations
      ensures Valid()
      ensures conversations == RecordMessage(old(conversations), m, ownDid)
    {
      var peer := if m.from_did == ownDid then m.to_did else m.from_did;
      var c := if peer in conversations then conversations[peer] else NewConversation(peer);
      c := c.(last_message := Some(m), message_count := c.message_count + 1);
      if m.from_did != ownDid && !m.is_read {
        c := c.(unread_count := c.unread_count + 1);
      }
      conversations := conversations[peer := c];
    }

    /** Stores a new unread message from this node, under the fresh id
        `messageId`, and records it in the recipient's conversation. */
    method SendMessage(request: MessageRequest, messageId: string, timestamp: nat, signature: seq<u8>)
      returns (response: MessageResponse)
      requires Valid()
      requires messageId !in messages
      modifies this
      ensures Valid()
      ensures var m := Message(messageId, ownDid, request.to_did, request.content, request.message_type,
                               timestamp, signature, false, request.reply_to);
              && messages == old(messages)[messageId := m]
              && conversations == RecordMessage(old(conversations), m, ownDid)
      ensures |messages| == |old(messages)| + 1
      ensures response == MessageResponse(messageId, true, "Message sent successfully")
    {
      var m := Message(messageId, ownDid, request.to_did, request.content, request.message_type,
                       timestamp, signature, false, request.reply_to);
      messages := messages[messageId := m];
      UpdateConversation(m);
      response := MessageResponse(messageId, true, "Message sent successfully");
    }

    /** Stores `m` as given (its signature is not checked), replacing any
        message with the same id, and records it in its conversation. */
    method ReceiveMessage(m: Message)
      requires Valid()
      modifies this
      ensures Valid()
      ensures messages == old(messages)[m.id := m]
      ensures conversations == RecordMessage(old(conversations), m, ownDid)
    {
      messages := messages[m.id := m];
      UpdateConversation(m);
    }

    /** The messages between this node and `peer`, in either direction,
        oldest first. */
    method GetMessages(peer: string) returns (r: seq<Message>)
      requires Valid()
      ensures SortedByTimestamp(r)
      ensures multiset(r) == multiset(ConversationMessages(messages, ownDid, peer))
    {
      var collected := CollectConversation(messages, ownDid, peer);
      r := SortByTimestamp(collected);
    }

    /** Marks one message read; its conversation's unread count is left
        as it was. An unknown id changes nothing. */
    method MarkMessageRead(id: string)
      requires Valid()
      modifies this`messages
      ensures Valid()
      ensures messages == if id in old(messages) then old(messages)[id := old(messages)[id].(is_read := true)]
                          else old(messages)
    {
      if id in messages {
        messages := messages[id := messages[id].(is_read := true)];
      }
    }

    /** Recomputes the conversation of `peer` from the stored messages. */
    method RecalculateConversation(peer: string)
      requires Valid()
      modifies this`conversations
      ensures Valid()
      ensures peer in conversations && conversations == old(conversations)[peer := conversations[peer]]
      ensures Recounted(conversations[peer], messages, ownDid, peer)
    {
      var ms := GetMessages(peer);
      ghost var S := ConversationMessages(messages, ownDid, peer);
      CountsOfSetSequence(ms, S, peer);
      var c := if peer in conversations then conversations[peer] else NewConversation(peer);
      c := c.(message_count := |ms|,
              unread_count := CountUnreadFrom(ms, peer),
              last_message := if ms == [] then None else Some(ms[|ms| - 1]));
      if ms != [] {
        var last := ms[|ms| - 1];
        assert last in multiset(ms);
        forall m | m in S ensures m.timestamp <= last.timestamp {
          assert m in multiset(ms);
          var i :| 0 <= i < |ms| && ms[i] == m;
        }
      } else {
        assert forall m :: m in S ==> m in multiset(ms);
      }
      conversations := conversations[peer := c];
    }

    /** Removes a message and recomputes the conversation keyed by its
        sender. An unknown id changes nothing. */
    method DeleteMessage(id: string)
      requires Valid()
      modifies this
      ensures Valid()
      ensures id !in old(messages) ==> messages == old(messages) && conversations == old(conversations)
      ensures id in old(messages) ==>
                var sender := old(messages)[id].from_did;
                && messages == old(messages) - {id}
                && sender in conversations
                && conversations == old(conversations)[sender := conversations[sender]]
                && Recounted(conversations[sender], messages, ownDid, sender)
    {
      if id in messages {
        var m := messages[id];
        messages := messages - {id};
        RecalculateConversation(m.from_did);
      }
    }

    /** How many messages and conversations are stored, and the sum of
        the conversations' unread counts. */
    method GetMessageStats() returns (stats: MessageStats)
      ensures stats.total_messages == |messages|
      ensures stats.total_conversations == |conversations|
      ensures stats.unread_messages == SumUnread(conversations)
    {
      var unread := 0;
      var rest := conversations.Keys;
      assert Restrict(conversations, rest) == conversations;
      while rest != {}
        invariant rest <= conversations.Keys
        invariant unread + SumUnread(Restrict(conversations, rest)) == SumUnread(conversations)
        decreases |rest|
      {
        var k :| k in rest;
        SumUnreadRemove(Restrict(conversations, rest), k);
        assert Restrict(conversations, rest) - {k} == Restrict(conversations, rest - {k});
        unread := unread + conversations[k].unread_count;
        rest := rest - {k};
      }
      assert Restrict(conversations, rest) == map[];
      stats := MessageStats(|messages|, |conversations|, unread);
    }
  }
}
