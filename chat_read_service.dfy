/**
 * The read-state service: marking a conversation read, hiding it from the
 * chat list and showing it again, over the last-read table of ChatReadState.
 *
 * Only the service interface exists, so the writes are modelled as upserts of
 * the one row of a conversation: marking read sets its last-read time to the
 * current time, hiding sets its hidden flag (creating the row, last read now,
 * when there is none), and un-hiding clears the flag of an existing row.
 */
module ChatReadService {
  import opened Common
  import opened ChatReadState

  function FriendKey(userId: int, friendId: int): MarkerKey
  {
    MarkerKey(userId, CHAT_TYPE_FRIEND, friendId)
  }

  function GroupKey(userId: int, groupId: int): MarkerKey
  {
    MarkerKey(userId, CHAT_TYPE_GROUP, groupId)
  }

  /** The table after marking conversation `k` read at `now`; `newId` numbers a row that has to be created. */
  function MarkedRead(ms: Markers, k: MarkerKey, now: nat, newId: int): Markers
  {
    if k in ms then ms[k := ms[k].(lastReadTime := Some(now), updateTime := Some(now))]
    else ms[k := ImChatLastRead(newId, k.userId, k.chatType, k.chatId, Some(now), Some(0), Some(now), Some(now))]
  }

  /** The table after hiding conversation `k` at `now`. */
  function HiddenChat(ms: Markers, k: MarkerKey, now: nat, newId: int): Markers
  {
    if k in ms then ms[k := ms[k].(isHidden := Some(1), updateTime := Some(now))]
    else ms[k := ImChatLastRead(newId, k.userId, k.chatType, k.chatId, Some(now), Some(1), Some(now), Some(now))]
  }

  /** The table after showing conversation `k` again; a conversation without a row is already shown. */
  function UnhiddenChat(ms: Markers, k: MarkerKey, now: nat): Markers
  {
    if k in ms then ms[k := ms[k].(isHidden := Some(0), updateTime := Some(now))] else ms
  }

  /** Marking read makes exactly the messages sent after `now` count as unread. */
  lemma MarkReadCountsOnlyLater(t: Tables, ms: Markers, userId: int, friendId: int, now: nat, newId: int)
    ensures FriendUnreadCount(t, MarkedRead(ms, FriendKey(userId, friendId), now, newId), userId, friendId)
      == FriendMessagesAfter(t, userId, friendId, now)
    ensures Visible(MarkedRead(ms, FriendKey(userId, friendId), now, newId), userId, CHAT_TYPE_FRIEND, friendId)
      == Visible(ms, userId, CHAT_TYPE_FRIEND, friendId)
  {
  }

  /** When every message is at most `now` old, a conversation just marked read has nothing unread. */
  lemma MarkReadClearsUnread(t: Tables, ms: Markers, userId: int, groupId: int, now: nat, newId: int)
    requires forall i :: 0 <= i < |t.groupMessages| ==> t.groupMessages[i].createTime <= now
    ensures GroupUnreadCount(t, MarkedRead(ms, GroupKey(userId, groupId), now, newId), userId, groupId) == 0
  {
    NoGroupMessageAfter(t.groupMessages, userId, groupId, now);
    assert LastReadBound(MarkedRead(ms, GroupKey(userId, groupId), now, newId), userId, CHAT_TYPE_GROUP, groupId) == now;
  }

  lemma {:induction false} NoGroupMessageAfter(msgs: seq<GroupMessage>, userId: int, groupId: int, now: nat)
    requires forall i :: 0 <= i < |msgs| ==> msgs[i].createTime <= now
    ensures CountWhere(msgs, (m: GroupMessage) => UnreadGroupMessage(m, userId, groupId, now)) == 0
  {
    if msgs != [] {
      NoGroupMessageAfter(msgs[1..], userId, groupId, now);
    }
  }

  /** Writing one conversation's row leaves the counts and visibility of every other conversation alone. */
  lemma OtherConversationsUnaffected(t: Tables, before: Markers, after: Markers, k: MarkerKey, userId: int, chatId: int)
    requires forall j :: j != k ==> (j in before <==> j in after) && (j in before ==> before[j] == after[j])
    requires k != FriendKey(userId, chatId)
    ensures FriendUnreadCount(t, after, userId, chatId) == FriendUnreadCount(t, before, userId, chatId)
    ensures Visible(after, userId, CHAT_TYPE_FRIEND, chatId) == Visible(before, userId, CHAT_TYPE_FRIEND, chatId)
  {
    assert LastReadBound(after, userId, CHAT_TYPE_FRIEND, chatId) == LastReadBound(before, userId, CHAT_TYPE_FRIEND, chatId);
  }

  /** The three writes touch one row only. */
  lemma WritesTouchOneRow(ms: Markers, k: MarkerKey, j: MarkerKey, now: nat, newId: int)
    requires j != k
    ensures (j in MarkedRead(ms, k, now, newId) <==> j in ms) && (j in ms ==> MarkedRead(ms, k, now, newId)[j] == ms[j])
    ensures (j in HiddenChat(ms, k, now, newId) <==> j in ms) && (j in ms ==> HiddenChat(ms, k, now, newId)[j] == ms[j])
    ensures (j in UnhiddenChat(ms, k, now) <==> j in ms) && (j in ms ==> UnhiddenChat(ms, k, now)[j] == ms[j])
  {
  }

  /** Marking read twice at the same instant is the same as marking read once. */
  lemma MarkReadIdempotent(ms: Markers, k: MarkerKey, now: nat, newId: int, otherId: int)
    ensures MarkedRead(MarkedRead(ms, k, now, newId), k, now, otherId) == MarkedRead(ms, k, now, newId)
  {
  }

  /** A hidden friend chat leaves the chat list, and its unread count is not reset by hiding an existing row. */
  lemma HideRemovesFromList(t: Tables, ms: Markers, userId: int, friendId: int, now: nat, newId: int)
    ensures friendId !in FriendChatList(t, HiddenChat(ms, FriendKey(userId, friendId), now, newId), userId)
    ensures FriendKey(userId, friendId) in ms ==>
      FriendUnreadCount(t, HiddenChat(ms, FriendKey(userId, friendId), now, newId), userId, friendId)
      == FriendUnreadCount(t, ms, userId, friendId)
  {
    FriendChatListMembership(t, HiddenChat(ms, FriendKey(userId, friendId), now, newId), userId, friendId);
  }

  /** Showing a chat again lists it whenever the friendship is active, and keeps its unread count. */
  lemma UnhideRestoresToList(t: Tables, ms: Markers, userId: int, friendId: int, now: nat)
    ensures friendId in FriendChatList(t, UnhiddenChat(ms, FriendKey(userId, friendId), now), userId)
      <==> FriendRowCount(t.friends, userId, friendId) > 0
    ensures FriendUnreadCount(t, UnhiddenChat(ms, FriendKey(userId, friendId), now), userId, friendId)
      == FriendUnreadCount(t, ms, userId, friendId)
  {
    FriendChatListMembership(t, UnhiddenChat(ms, FriendKey(userId, friendId), now), userId, friendId);
  }

  /** The writes keep every row filed under its own conversation. */
  lemma WritesKeepWellKeyed(ms: Markers, k: MarkerKey, now: nat, newId: int)
    requires WellKeyed(ms)
    ensures WellKeyed(MarkedRead(ms, k, now, newId))
    ensures WellKeyed(HiddenChat(ms, k, now, newId))
    ensures WellKeyed(UnhiddenChat(ms, k, now))
  {
  }

  /** The service over the last-read table; `nextId` is the next auto-increment row id. */
  class ReadMarkerStore {
    var markers: Markers
    var nextId: int

    ghost predicate Valid()
      reads this
    {
      WellKeyed(markers) && forall k :: k in markers ==> markers[k].id < nextId
    }

    constructor ()
      ensures Valid() && markers == map[]
    {
      markers := map[];
      nextId := 1;
    }

    function GetFriendUnreadCounts(t: Tables, userId: int): map<int, nat>
      reads this
    {
      FriendUnreadCounts(t, markers, userId)
    }

    function GetGroupUnreadCounts(t: Tables, userId: int): map<int, nat>
      reads this
    {
      GroupUnreadCounts(t, markers, userId)
    }

    function GetFriendUnreadCount(t: Tables, userId: int, friendId: int): nat
      reads this
    {
      FriendUnreadCount(t, markers, userId, friendId)
    }

    function GetGroupUnreadCount(t: Tables, userId: int, groupId: int): nat
      reads this
    {
      GroupUnreadCount(t, markers, userId, groupId)
    }

    function GetFriendChatList(t: Tables, userId: int): seq<int>
      reads this
    {
      FriendChatList(t, markers, userId)
    }

    function GetGroupChatList(t: Tables, userId: int): seq<int>
      reads this
    {
      GroupChatList(t, markers, userId)
    }

    method MarkFriendAsRead(userId: int, friendId: int, now: nat)
      requires Valid()
      modifies this
      ensures Valid()
      ensures markers == MarkedRead(old(markers), FriendKey(userId, friendId), now, old(nextId))
    {
      var k := FriendKey(userId, friendId);
      var m := MarkedRead(markers, k, now, nextId);
      WritesKeepWellKeyed(markers, k, now, nextId);
      if k !in markers {
        nextId := nextId + 1;
      }
      markers := m;
    }

    method MarkGroupAsRead(userId: int, groupId: int, now: nat)
      requires Valid()
      modifies this
      ensures Valid()
      ensures markers == MarkedRead(old(markers), GroupKey(userId, groupId), now, old(nextId))
    {
      var k := GroupKey(userId, groupId);
      var m := MarkedRead(markers, k, now, nextId);
      WritesKeepWellKeyed(markers, k, now, nextId);
      if k !in markers {
        nextId := nextId + 1;
      }
      markers := m;
    }

    method HideFriendChat(userId: int, friendId: int, now: nat)
      requires Valid()
      modifies this
      ensures Valid()
      ensures markers == HiddenChat(old(markers), FriendKey(userId, friendId), now, old(nextId))
    {
      var k := FriendKey(userId, friendId);
      var m := HiddenChat(markers, k, now, nextId);
      WritesKeepWellKeyed(markers, k, now, nextId);
      if k !in markers {
        nextId := nextId + 1;
      }
      markers := m;
    }

    method HideGroupChat(userId: int, groupId: int, now: nat)
      requires Valid()
      modifies this
      ensures Valid()
      ensures markers == HiddenChat(old(markers), GroupKey(userId, groupId), now, old(nextId))
    {
      var k := GroupKey(userId, groupId);
      var m := HiddenChat(markers, k, now, nextId);
      WritesKeepWellKeyed(markers, k, now, nextId);
      if k !in markers {
        nextId := nextId + 1;
      }
      markers := m;
    }

    method UnhideChat(userId: int, chatType: int, chatId: int, now: nat)
      requires Valid()
      modifies this
      ensures Valid()
      ensures markers == UnhiddenChat(old(markers), MarkerKey(userId, chatType, chatId), now)
      ensures nextId == old(nextId)
    {
      WritesKeepWellKeyed(markers, MarkerKey(userId, chatType, chatId), now, nextId);
      markers := UnhiddenChat(markers, MarkerKey(userId, chatType, chatId), now);
    }
  }
}
