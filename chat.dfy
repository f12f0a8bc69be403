/**
 * The chat-list and message-list updates of the chat context
 * (frontend/src/contexts/ChatContext.js): marking a conversation as seen,
 * deleting a message, receiving a message, and the "blocked by me" flag.
 * The REST backend and the socket are not part of the model: their
 * replies arrive as parameters, and the "blocked" emit and the
 * new-message notification are appended to an outbox.
 */
module Chat {
  import opened Common

  /** A chat partner: its peer id and its other fields (name, profile, ...). */
  datatype Partner = Partner(peerId: string, attrs: map<string, string>)

  /**
   * An entry of the chat list: the partner, the count of unseen messages,
   * and the entry's other top-level fields.
   */
  datatype ChatEntry = ChatEntry(chatPartner: Partner, unseenMessagesCount: int, fields: map<string, string>)

  /** A message; `id` is the backend's `_id`, absent on messages built from a socket event. */
  datatype Message = Message(id: Option<string>, senderId: string, receiverId: string, text: string,
                             fileUrl: Option<string>, productUrl: Option<string>, timestamp: Option<string>)

  /** What the chat context sends or shows. */
  datatype Outgoing =
    | BlockedSignal(blockedUserId: string)
    | Toast(text: string)

  // ---------------------------------------------------------------------------
  // markMessagesAsSeen

  /** The partner's fields as `...partner.chatPartner` spreads them. */
  function PartnerFields(p: Partner): map<string, string> {
    p.attrs["peerId" := p.peerId]
  }

  predicate Matches(e: ChatEntry, selectedChatUserId: string) {
    e.chatPartner.peerId == selectedChatUserId
  }

  /** `{ ...partner, ...partner.chatPartner, unseenMessagesCount: 0 }` */
  function Seen(e: ChatEntry): (r: ChatEntry)
    ensures r.unseenMessagesCount == 0 && r.chatPartner == e.chatPartner
    ensures r.fields.Keys == e.fields.Keys + PartnerFields(e.chatPartner).Keys
    ensures forall k :: k in PartnerFields(e.chatPartner) ==> r.fields[k] == PartnerFields(e.chatPartner)[k]
    ensures forall k :: k in e.fields && k !in PartnerFields(e.chatPartner) ==> r.fields[k] == e.fields[k]
  {
    e.(fields := e.fields + PartnerFields(e.chatPartner), unseenMessagesCount := 0)
  }

  /** The list the `map` in markMessagesAsSeen builds. */
  function MarkedSeen(list: seq<ChatEntry>, sel: string): (r: seq<ChatEntry>)
    ensures |r| == |list|
    ensures forall i :: 0 <= i < |list| && !Matches(list[i], sel) ==> r[i] == list[i]
    ensures forall i :: 0 <= i < |list| && Matches(list[i], sel) ==> r[i] == Seen(list[i])
  {
    seq(|list|, i requires 0 <= i < |list| => if Matches(list[i], sel) then Seen(list[i]) else list[i])
  }

  /**
   * The final value of the accumulator `unseenMessagesCountToSubtract`:
   * each matching entry overwrites it, so it is the count of the last
   * matching entry, or 0 when none matches.
   */
  function LastMatchCount(list: seq<ChatEntry>, sel: string): (r: int)
    ensures r != 0 ==> exists i :: 0 <= i < |list| && Matches(list[i], sel) && list[i].unseenMessagesCount == r
  {
    if list == [] then 0
    else if Matches(list[|list| - 1], sel) then list[|list| - 1].unseenMessagesCount
    else
      var front := list[..|list| - 1];
      assert forall i :: 0 <= i < |front| ==> front[i] == list[i];
      LastMatchCount(front, sel)
  }

  /**
   * The `map` with its accumulator, as the loop the source runs: returns
   * the new list and the count to subtract from the total.
   */
  method MarkSeenList(list: seq<ChatEntry>, sel: string) returns (updated: seq<ChatEntry>, toSubtract: int)
    ensures updated == MarkedSeen(list, sel)
    ensures toSubtract == LastMatchCount(list, sel)
  {
    updated := [];
    toSubtract := 0;
    var i := 0;
    while i < |list|
      invariant 0 <= i <= |list|
      invariant updated == MarkedSeen(list[..i], sel)
      invariant toSubtract == LastMatchCount(list[..i], sel)
    {
      var partner := list[i];
      if Matches(partner, sel) {
        toSubtract := partner.unseenMessagesCount;
        updated := updated + [Seen(partner)];
      } else {
        updated := updated + [partner];
      }
      assert list[..i + 1][..i] == list[..i];
      i := i + 1;
    }
    assert list[..i] == list;
  }

  /** No matching entry: nothing is subtracted. */
  lemma {:induction false} LastMatchCountNoMatch(list: seq<ChatEntry>, sel: string)
    requires forall i :: 0 <= i < |list| ==> !Matches(list[i], sel)
    ensures LastMatchCount(list, sel) == 0
  {
    if list != [] {
      LastMatchCountNoMatch(list[..|list| - 1], sel);
    }
  }

  /** Otherwise the count of the last matching entry is subtracted. */
  lemma {:induction false} LastMatchCountIsLast(list: seq<ChatEntry>, sel: string, k: nat)
    requires k < |list| && Matches(list[k], sel)
    requires forall j :: k < j < |list| ==> !Matches(list[j], sel)
    ensures LastMatchCount(list, sel) == list[k].unseenMessagesCount
  {
    if k < |list| - 1 {
      LastMatchCountIsLast(list[..|list| - 1], sel, k);
    }
  }

  /** The sum of the unseen counts of a chat list. */
  function UnseenSum(list: seq<ChatEntry>): int {
    if list == [] then 0 else UnseenSum(list[..|list| - 1]) + list[|list| - 1].unseenMessagesCount
  }

  /** At most one entry belongs to the selected partner. */
  predicate AtMostOneMatch(list: seq<ChatEntry>, sel: string) {
    forall i, j :: 0 <= i < |list| && 0 <= j < |list| && Matches(list[i], sel) && Matches(list[j], sel) ==> i == j
  }

  /**
   * When at most one entry belongs to the selected partner, the subtracted
   * count is exactly what disappears from the list's sum, so a total that
   * equalled the sum still does.
   */
  lemma {:induction false} MarkSeenKeepsTotal(list: seq<ChatEntry>, sel: string)
    requires AtMostOneMatch(list, sel)
    ensures UnseenSum(MarkedSeen(list, sel)) == UnseenSum(list) - LastMatchCount(list, sel)
  {
    if list != [] {
      var n := |list| - 1;
      var front := list[..n];
      assert MarkedSeen(list, sel)[..n] == MarkedSeen(front, sel);
      MarkSeenKeepsTotal(front, sel);
      if Matches(list[n], sel) {
        forall i | 0 <= i < n ensures !Matches(front[i], sel) {
          assert Matches(list[i], sel) ==> i == n;
        }
        LastMatchCountNoMatch(front, sel);
      }
    }
  }

  /**
   * With two entries for the selected partner, both are zeroed but only
   * the last one's count is subtracted.
   */
  lemma DuplicateEntriesUndercount(p: Partner, a: int, b: int)
    requires a > 0
    ensures var list := [ChatEntry(p, a, map[]), ChatEntry(p, b, map[])];
            UnseenSum(MarkedSeen(list, p.peerId)) == 0 && LastMatchCount(list, p.peerId) == b
            && UnseenSum(list) - LastMatchCount(list, p.peerId) == a
  {
    var list := [ChatEntry(p, a, map[]), ChatEntry(p, b, map[])];
    var marked := MarkedSeen(list, p.peerId);
    assert list[..1] == [list[0]] && list[..1][..0] == [];
    assert UnseenSum(list[..1]) == a;
    assert marked[..1] == [Seen(list[0])] && marked[..1][..0] == [];
    assert UnseenSum(marked[..1]) == 0;
    assert marked[1].unseenMessagesCount == 0;
  }

  /** Marking again changes nothing and subtracts nothing. */
  lemma MarkSeenIdempotent(list: seq<ChatEntry>, sel: string)
    ensures MarkedSeen(MarkedSeen(list, sel), sel) == MarkedSeen(list, sel)
    ensures LastMatchCount(MarkedSeen(list, sel), sel) == 0
  {
    var once := MarkedSeen(list, sel);
    forall i | 0 <= i < |once| ensures MarkedSeen(once, sel)[i] == once[i] {
      if Matches(list[i], sel) {
        assert PartnerFields(list[i].chatPartner) == PartnerFields(once[i].chatPartner);
        assert once[i].fields + PartnerFields(once[i].chatPartner) == once[i].fields;
      }
    }
    LastMatchCountAllSeen(once, sel);
  }

  lemma {:induction false} LastMatchCountAllSeen(list: seq<ChatEntry>, sel: string)
    requires forall i :: 0 <= i < |list| && Matches(list[i], sel) ==> list[i].unseenMessagesCount == 0
    ensures LastMatchCount(list, sel) == 0
  {
    if list != [] {
      LastMatchCountAllSeen(list[..|list| - 1], sel);
    }
  }

  // ---------------------------------------------------------------------------
  // deleteMessage

  /** `messages.filter((msg) => msg._id !== messageId)` */
  function WithoutMessage(messages: seq<Message>, messageId: string): (r: seq<Message>)
    ensures |r| <= |messages|
    ensures forall m :: m in r ==> m in messages && m.id != Some(messageId)
    ensures forall m :: m in messages && m.id != Some(messageId) ==> m in r
  {
    if messages == [] then []
    else if messages[0].id == Some(messageId) then WithoutMessage(messages[1..], messageId)
    else [messages[0]] + WithoutMessage(messages[1..], messageId)
  }

  /** The filter works piecewise, so the kept messages stay in their order. */
  lemma {:induction false} WithoutMessageAppend(a: seq<Message>, b: seq<Message>, messageId: string)
    ensures WithoutMessage(a + b, messageId) == WithoutMessage(a, messageId) + WithoutMessage(b, messageId)
  {
    if a != [] {
      assert (a + b)[0] == a[0] && (a + b)[1..] == a[1..] + b;
      WithoutMessageAppend(a[1..], b, messageId);
    } else {
      assert a + b == b;
    }
  }

  /** Without a message carrying the id, the list is unchanged. */
  lemma {:induction false} WithoutAbsentMessage(messages: seq<Message>, messageId: string)
    requires forall i :: 0 <= i < |messages| ==> messages[i].id != Some(messageId)
    ensures WithoutMessage(messages, messageId) == messages
  {
    if messages != [] {
      WithoutAbsentMessage(messages[1..], messageId);
    }
  }

  /** Exactly the messages carrying the id are removed, counted with multiplicity. */
  lemma {:induction false} WithoutMessageCount(messages: seq<Message>, messageId: string, m: Message)
    ensures multiset(WithoutMessage(messages, messageId))[m] ==
            if m.id == Some(messageId) then 0 else multiset(messages)[m]
  {
    if messages != [] {
      assert messages == [messages[0]] + messages[1..];
      WithoutMessageCount(messages[1..], messageId, m);
    }
  }

  // ---------------------------------------------------------------------------
  // handleMessageReceived

  /** Whether a message belongs to the open conversation, in either direction. */
  predicate IsCurrentChat(currentUserId: Option<string>, selectedChatUserId: string, senderId: string, receiverId: string) {
    || (currentUserId == Some(receiverId) && selectedChatUserId == senderId)
    || (currentUserId == Some(senderId) && selectedChatUserId == receiverId)
  }

  /** Swapping sender and receiver does not change whether the message is in the open chat. */
  lemma IsCurrentChatSymmetric(cur: Option<string>, sel: string, a: string, b: string)
    ensures IsCurrentChat(cur, sel, a, b) == IsCurrentChat(cur, sel, b, a)
  {
  }

  /** The notification condition: addressed to me, and not in the open chat. */
  function Notifies(currentUserId: Option<string>, selectedChatUserId: string, senderId: string, receiverId: string): (r: bool)
    ensures r <==> currentUserId == Some(receiverId) && selectedChatUserId != senderId
    ensures r ==> !IsCurrentChat(currentUserId, selectedChatUserId, senderId, receiverId)
  {
    currentUserId == Some(receiverId) && !IsCurrentChat(currentUserId, selectedChatUserId, senderId, receiverId)
  }

  /** The message handleMessageReceived appends: built from the event, so without an `_id`. */
  function ReceivedMessage(senderId: string, receiverId: string, text: string, fileUrl: Option<string>,
                           productUrl: Option<string>, timestamp: Option<string>): (m: Message)
    ensures m.id.None? && m.senderId == senderId && m.receiverId == receiverId && m.text == text
    ensures m.fileUrl == fileUrl && m.productUrl == productUrl && m.timestamp == timestamp
  {
    Message(None, senderId, receiverId, text, fileUrl, productUrl, timestamp)
  }

  /** A message appended from a socket event survives every delete until the list is reloaded. */
  lemma ReceivedMessageNotDeleted(messages: seq<Message>, m: Message, messageId: string)
    requires m.id.None?
    ensures WithoutMessage(messages + [m], messageId) == WithoutMessage(messages, messageId) + [m]
  {
    WithoutMessageAppend(messages, [m], messageId);
    assert [m][1..] == [];
  }

  // ---------------------------------------------------------------------------
  // Blocked users

  /** The backend's reply to the blocked-users request. */
  datatype BlockedReply =
    | RequestFailed   // network error or a non-ok status
    | Received(blockedUsers: Option<seq<string>>)   // None: a null body

  /** fetchBlockedUsers(userId): [] for a falsy id, a failed request or a null body. */
  function FetchBlockedUsers(userId: Option<string>, reply: BlockedReply): (r: seq<string>)
    ensures !Truthy(userId) ==> r == []
    ensures reply.RequestFailed? || (reply.Received? && reply.blockedUsers.None?) ==> r == []
    ensures Truthy(userId) && reply.Received? && reply.blockedUsers.Some? ==> r == reply.blockedUsers.value
  {
    if !Truthy(userId) then []
    else match reply
      case RequestFailed => []
      case Received(data) => if data.Some? then data.value else []
  }

  // ---------------------------------------------------------------------------
  // The chat context as an object

  class ChatContext {
    var messages: seq<Message>
    var chatList: seq<ChatEntry>
    var selectedChatUserId: string
    var totalUnseenMsgCount: int
    var currentUserId: Option<string>
    var isBlockedMe: bool
    var isMessageSent: bool
    var outbox: seq<Outgoing>

    constructor ()
      ensures messages == [] && chatList == [] && selectedChatUserId == "" && totalUnseenMsgCount == 0
      ensures currentUserId.None? && !isBlockedMe && !isMessageSent && outbox == []
    {
      messages, chatList, selectedChatUserId, totalUnseenMsgCount := [], [], "", 0;
      currentUserId, isBlockedMe, isMessageSent, outbox := None, false, false, [];
    }

    /** setSelectedChatUserId */
    method SelectChat(peerId: string)
      modifies this`selectedChatUserId
      ensures selectedChatUserId == peerId
    {
      selectedChatUserId := peerId;
    }

    /** setCurrentUserId, once the user is authenticated. */
    method SetCurrentUser(userId: Option<string>)
      modifies this`currentUserId
      ensures currentUserId == userId
    {
      currentUserId := userId;
    }

    /**
     * markMessagesAsSeen after the backend's reply (`requestOk`): zero the
     * selected partner's entries and subtract the accumulated count from
     * the total. A failed request changes nothing.
     */
    method MarkMessagesAsSeen(requestOk: bool)
      modifies this`chatList, this`totalUnseenMsgCount
      ensures !requestOk ==> chatList == old(chatList) && totalUnseenMsgCount == old(totalUnseenMsgCount)
      ensures requestOk ==> chatList == MarkedSeen(old(chatList), selectedChatUserId)
      ensures requestOk ==> totalUnseenMsgCount == old(totalUnseenMsgCount) - LastMatchCount(old(chatList), selectedChatUserId)
    {
      if !requestOk {
        return;
      }
      var updated, toSubtract := MarkSeenList(chatList, selectedChatUserId);
      totalUnseenMsgCount := totalUnseenMsgCount - toSubtract;
      chatList := updated;
    }

    /**
     * deleteMessage(messageId, senderId): nothing unless both are truthy;
     * on an ok reply (`responseOk`) the messages with that `_id` are
     * filtered out. A non-ok reply or a failed request changes nothing.
     */
    method DeleteMessage(messageId: Option<string>, senderId: Option<string>, responseOk: bool)
      modifies this`messages
      ensures !(Truthy(messageId) && Truthy(senderId) && responseOk) ==> messages == old(messages)
      ensures Truthy(messageId) && Truthy(senderId) && responseOk ==>
                messages == WithoutMessage(old(messages), messageId.value)
    {
      if Truthy(messageId) && Truthy(senderId) {
        if responseOk {
          messages := WithoutMessage(messages, messageId.value);
        }
      }
    }

    /**
     * handleMessageReceived: append the message when it belongs to the open
     * chat; notify when it is addressed to me from elsewhere.
     */
    method HandleMessageReceived(senderId: string, receiverId: string, text: string, fileUrl: Option<string>,
                                 productUrl: Option<string>, timestamp: Option<string>)
      modifies this`messages, this`isMessageSent, this`outbox
      ensures var current := IsCurrentChat(currentUserId, selectedChatUserId, senderId, receiverId);
              && (current ==> messages == old(messages) + [ReceivedMessage(senderId, receiverId, text, fileUrl, productUrl, timestamp)]
                               && isMessageSent)
              && (!current ==> messages == old(messages) && isMessageSent == old(isMessageSent))
      ensures Notifies(currentUserId, selectedChatUserId, senderId, receiverId) ==>
                outbox == old(outbox) + [Toast("New message received")]
      ensures !Notifies(currentUserId, selectedChatUserId, senderId, receiverId) ==> outbox == old(outbox)
    {
      var isCurrentChat := IsCurrentChat(currentUserId, selectedChatUserId, senderId, receiverId);
      if isCurrentChat {
        messages := messages + [ReceivedMessage(senderId, receiverId, text, fileUrl, productUrl, timestamp)];
        isMessageSent := true;
      }
      if currentUserId == Some(receiverId) && !isCurrentChat {
        outbox := outbox + [Toast("New message received")];
      }
    }

    /**
     * blockUser, for the signed-in user `userId`: nothing without a selected
     * user or when the block request fails; otherwise announce it and set
     * isBlockedMe from the refreshed blocked list.
     */
    method BlockUser(userId: Option<string>, blockOk: bool, reply: BlockedReply)
      modifies this`outbox, this`isBlockedMe
      ensures selectedChatUserId == "" || !blockOk ==> outbox == old(outbox) && isBlockedMe == old(isBlockedMe)
      ensures selectedChatUserId != "" && blockOk ==>
                && outbox == old(outbox) + [BlockedSignal(selectedChatUserId)]
                && (isBlockedMe <==> selectedChatUserId in FetchBlockedUsers(userId, reply))
    {
      if selectedChatUserId != "" {
        if !blockOk {
          return;
        }
        outbox := outbox + [BlockedSignal(selectedChatUserId)];
        var userBlockedList := FetchBlockedUsers(userId, reply);
        isBlockedMe := selectedChatUserId in userBlockedList;
      }
    }
  }
}
