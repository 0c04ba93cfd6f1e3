/**
 * The per-user "last read" marker of a conversation and the unread-count and
 * chat-list queries evaluated over it.
 *
 * A marker belongs to (user, chat type, chat id). The queries LEFT JOIN the
 * marker, so a conversation without one behaves as if it was last read at the
 * epoch and is not hidden. Times are milliseconds since the epoch.
 */
module ChatReadState {
  import opened Common

  const CHAT_TYPE_FRIEND: int := 1
  const CHAT_TYPE_GROUP: int := 2
  /** `COALESCE(last_read_time, '1970-01-01')`. */
  const EPOCH: nat := 0

  datatype ChatType = Friend | Group

  function ChatTypeCode(t: ChatType): int
  {
    match t
    case Friend => CHAT_TYPE_FRIEND
    case Group => CHAT_TYPE_GROUP
  }

  /** Reads the stored chat-type column; any other number names no conversation kind. */
  function ChatTypeOf(code: int): Option<ChatType>
  {
    if code == CHAT_TYPE_FRIEND then Some(Friend)
    else if code == CHAT_TYPE_GROUP then Some(Group)
    else None
  }

  /** The stored code and its reading are inverse to each other. */
  lemma ChatTypeCodeRoundTrip(t: ChatType, code: int)
    ensures ChatTypeOf(ChatTypeCode(t)) == Some(t)
    ensures ChatTypeOf(code) == Some(t) ==> ChatTypeCode(t) == code
  {
  }

  /** One row of the last-read table; nullable columns are options. */
  datatype ImChatLastRead = ImChatLastRead(
    id: int,
    userId: int,
    chatType: int,
    chatId: int,
    lastReadTime: Option<nat>,
    isHidden: Option<int>,
    createTime: Option<nat>,
    updateTime: Option<nat>)

  datatype MarkerKey = MarkerKey(userId: int, chatType: int, chatId: int)

  /** The last-read table, at most one row per conversation of a user. */
  type Markers = map<MarkerKey, ImChatLastRead>

  /** Every row is filed under its own (user, chat type, chat id). */
  ghost predicate WellKeyed(ms: Markers)
  {
    forall k :: k in ms ==> ms[k].userId == k.userId && ms[k].chatType == k.chatType && ms[k].chatId == k.chatId
  }

  datatype UserMessage = UserMessage(id: int, fromId: int, toId: int, createTime: nat)
  datatype GroupMessage = GroupMessage(id: int, groupId: int, fromId: int, createTime: nat)
  datatype Friendship = Friendship(userId: int, friendId: int, friendStatus: int)
  datatype GroupMember = GroupMember(groupId: int, userId: int, userStatus: int)

  /** The other tables the queries read. */
  datatype Tables = Tables(
    friends: seq<Friendship>,
    members: seq<GroupMember>,
    userMessages: seq<UserMessage>,
    groupMessages: seq<GroupMessage>)

  /** `COALESCE(lr.last_read_time, '1970-01-01')` for one conversation. */
  function LastReadBound(ms: Markers, userId: int, chatType: int, chatId: int): nat
  {
    var k := MarkerKey(userId, chatType, chatId);
    if k in ms && ms[k].lastReadTime.Some? then ms[k].lastReadTime.value else EPOCH
  }

  /** `COALESCE(lr.is_hidden, 0) = 0` for one conversation. */
  predicate Visible(ms: Markers, userId: int, chatType: int, chatId: int)
  {
    var k := MarkerKey(userId, chatType, chatId);
    !(k in ms && ms[k].isHidden.Some?) || ms[k].isHidden.value == 0
  }

  predicate ActiveFriendship(f: Friendship, userId: int)
  {
    f.userId == userId && f.friendStatus == 1
  }

  /** `user_status IN (1, 2)`. */
  predicate ActiveMembership(g: GroupMember, userId: int)
  {
    g.userId == userId && (g.userStatus == 1 || g.userStatus == 2)
  }

  predicate UnreadFriendMessage(m: UserMessage, userId: int, friendId: int, bound: nat)
  {
    m.fromId == friendId && m.toId == userId && m.createTime > bound
  }

  predicate UnreadGroupMessage(m: GroupMessage, userId: int, groupId: int, bound: nat)
  {
    m.groupId == groupId && m.createTime > bound && m.fromId != userId
  }

  /** Messages from `friendId` to `userId` newer than the given time. */
  function FriendMessagesAfter(t: Tables, userId: int, friendId: int, bound: nat): nat
  {
    CountWhere(t.userMessages, (m: UserMessage) => UnreadFriendMessage(m, userId, friendId, bound))
  }

  /** Messages of group `groupId` newer than the given time that `userId` did not send. */
  function GroupMessagesAfter(t: Tables, userId: int, groupId: int, bound: nat): nat
  {
    CountWhere(t.groupMessages, (m: GroupMessage) => UnreadGroupMessage(m, userId, groupId, bound))
  }

  /** getFriendUnreadCount: unread private messages of one conversation. */
  function FriendUnreadCount(t: Tables, ms: Markers, userId: int, friendId: int): nat
  {
    FriendMessagesAfter(t, userId, friendId, LastReadBound(ms, userId, CHAT_TYPE_FRIEND, friendId))
  }

  /** getGroupUnreadCount: unread messages of one group, the user's own excluded. */
  function GroupUnreadCount(t: Tables, ms: Markers, userId: int, groupId: int): nat
  {
    GroupMessagesAfter(t, userId, groupId, LastReadBound(ms, userId, CHAT_TYPE_GROUP, groupId))
  }

  /**
   * getFriendUnreadCountsByUserId, evaluated as the database does: each
   * active friendship row is joined with its unread messages and the joined
   * rows are grouped by friend id.
   */
  function FriendUnreadCounts(t: Tables, ms: Markers, userId: int): map<int, nat>
  {
    GroupFriendRows(t.friends, t, ms, userId)
  }

  function GroupFriendRows(rows: seq<Friendship>, t: Tables, ms: Markers, userId: int): map<int, nat>
  {
    if rows == [] then map[]
    else
      var acc := GroupFriendRows(rows[..|rows| - 1], t, ms, userId);
      var f := rows[|rows| - 1];
      if ActiveFriendship(f, userId) then
        acc[f.friendId := (if f.friendId in acc then acc[f.friendId] else 0) + FriendUnreadCount(t, ms, userId, f.friendId)]
      else acc
  }

  /** getGroupUnreadCountsByUserId, grouped by group id in the same way. */
  function GroupUnreadCounts(t: Tables, ms: Markers, userId: int): map<int, nat>
  {
    GroupMemberRows(t.members, t, ms, userId)
  }

  function GroupMemberRows(rows: seq<GroupMember>, t: Tables, ms: Markers, userId: int): map<int, nat>
  {
    if rows == [] then map[]
    else
      var acc := GroupMemberRows(rows[..|rows| - 1], t, ms, userId);
      var g := rows[|rows| - 1];
      if ActiveMembership(g, userId) then
        acc[g.groupId := (if g.groupId in acc then acc[g.groupId] else 0) + GroupUnreadCount(t, ms, userId, g.groupId)]
      else acc
  }

  /** How many active friendship rows of `userId` name `friendId`. */
  function FriendRowCount(rows: seq<Friendship>, userId: int, friendId: int): nat
  {
    CountWhere(rows, (f: Friendship) => ActiveFriendship(f, userId) && f.friendId == friendId)
  }

  function MemberRowCount(rows: seq<GroupMember>, userId: int, groupId: int): nat
  {
    CountWhere(rows, (g: GroupMember) => ActiveMembership(g, userId) && g.groupId == groupId)
  }

  /**
   * The batched friend query holds a count exactly for the friends of active
   * friendship rows, and that count is the single-conversation count times the
   * number of rows naming that friend (a LEFT JOIN multiplies rows).
   */
  lemma {:induction false} GroupFriendRowsSpec(rows: seq<Friendship>, t: Tables, ms: Markers, userId: int, friendId: int)
    ensures friendId in GroupFriendRows(rows, t, ms, userId) <==> FriendRowCount(rows, userId, friendId) > 0
    ensures friendId in GroupFriendRows(rows, t, ms, userId) ==>
      GroupFriendRows(rows, t, ms, userId)[friendId] == FriendRowCount(rows, userId, friendId) * FriendUnreadCount(t, ms, userId, friendId)
  {
    if rows != [] {
      var init, last := rows[..|rows| - 1], rows[|rows| - 1];
      GroupFriendRowsSpec(init, t, ms, userId, friendId);
      FriendRowCountSnoc(rows, userId, friendId);
      var c := FriendRowCount(init, userId, friendId);
      var u := FriendUnreadCount(t, ms, userId, friendId);
      if ActiveFriendship(last, userId) && last.friendId == friendId {
        assert (c + 1) * u == c * u + u;
      }
    }
  }

  /** Appending a row adds one to the count exactly when it is an active friendship naming the friend. */
  lemma FriendRowCountSnoc(rows: seq<Friendship>, userId: int, friendId: int)
    requires rows != []
    ensures var last := rows[|rows| - 1];
      FriendRowCount(rows, userId, friendId) ==
        FriendRowCount(rows[..|rows| - 1], userId, friendId) + (if ActiveFriendship(last, userId) && last.friendId == friendId then 1 else 0)
  {
    var init, last := rows[..|rows| - 1], rows[|rows| - 1];
    assert rows == init + [last];
    CountWhereAppend(init, [last], (f: Friendship) => ActiveFriendship(f, userId) && f.friendId == friendId);
  }

  lemma {:induction false} GroupMemberRowsSpec(rows: seq<GroupMember>, t: Tables, ms: Markers, userId: int, groupId: int)
    ensures groupId in GroupMemberRows(rows, t, ms, userId) <==> MemberRowCount(rows, userId, groupId) > 0
    ensures groupId in GroupMemberRows(rows, t, ms, userId) ==>
      GroupMemberRows(rows, t, ms, userId)[groupId] == MemberRowCount(rows, userId, groupId) * GroupUnreadCount(t, ms, userId, groupId)
  {
    if rows != [] {
      var init, last := rows[..|rows| - 1], rows[|rows| - 1];
      GroupMemberRowsSpec(init, t, ms, userId, groupId);
      MemberRowCountSnoc(rows, userId, groupId);
      var c := MemberRowCount(init, userId, groupId);
      var u := GroupUnreadCount(t, ms, userId, groupId);
      if ActiveMembership(last, userId) && last.groupId == groupId {
        assert (c + 1) * u == c * u + u;
      }
    }
  }

  /** Appending a row adds one to the count exactly when it is an active membership of the group. */
  lemma MemberRowCountSnoc(rows: seq<GroupMember>, userId: int, groupId: int)
    requires rows != []
    ensures var last := rows[|rows| - 1];
      MemberRowCount(rows, userId, groupId) ==
        MemberRowCount(rows[..|rows| - 1], userId, groupId) + (if ActiveMembership(last, userId) && last.groupId == groupId then 1 else 0)
  {
    var init, last := rows[..|rows| - 1], rows[|rows| - 1];
    assert rows == init + [last];
    CountWhereAppend(init, [last], (g: GroupMember) => ActiveMembership(g, userId) && g.groupId == groupId);
  }

  /** With one friendship row per friend, the batched count of a friend is its single count. */
  lemma BatchedFriendCountMatchesSingle(t: Tables, ms: Markers, userId: int, friendId: int)
    requires FriendRowCount(t.friends, userId, friendId) == 1
    ensures friendId in FriendUnreadCounts(t, ms, userId)
    ensures FriendUnreadCounts(t, ms, userId)[friendId] == FriendUnreadCount(t, ms, userId, friendId)
  {
    GroupFriendRowsSpec(t.friends, t, ms, userId, friendId);
  }

  /** A friend without an active friendship row gets no entry from the batched query. */
  lemma BatchedFriendCountsOnlyFriends(t: Tables, ms: Markers, userId: int, friendId: int)
    requires FriendRowCount(t.friends, userId, friendId) == 0
    ensures friendId !in FriendUnreadCounts(t, ms, userId)
  {
    GroupFriendRowsSpec(t.friends, t, ms, userId, friendId);
  }

  lemma BatchedGroupCountMatchesSingle(t: Tables, ms: Markers, userId: int, groupId: int)
    requires MemberRowCount(t.members, userId, groupId) == 1
    ensures groupId in GroupUnreadCounts(t, ms, userId)
    ensures GroupUnreadCounts(t, ms, userId)[groupId] == GroupUnreadCount(t, ms, userId, groupId)
  {
    GroupMemberRowsSpec(t.members, t, ms, userId, groupId);
  }

  lemma BatchedGroupCountsOnlyGroups(t: Tables, ms: Markers, userId: int, groupId: int)
    requires MemberRowCount(t.members, userId, groupId) == 0
    ensures groupId !in GroupUnreadCounts(t, ms, userId)
  {
    GroupMemberRowsSpec(t.members, t, ms, userId, groupId);
  }

  /** A later last-read time never raises an unread count. */
  lemma FriendCountAntitone(t: Tables, userId: int, friendId: int, earlier: nat, later: nat)
    requires earlier <= later
    ensures FriendMessagesAfter(t, userId, friendId, later) <= FriendMessagesAfter(t, userId, friendId, earlier)
  {
    CountWhereMonotone(t.userMessages,
      (m: UserMessage) => UnreadFriendMessage(m, userId, friendId, later),
      (m: UserMessage) => UnreadFriendMessage(m, userId, friendId, earlier));
  }

  lemma GroupCountAntitone(t: Tables, userId: int, groupId: int, earlier: nat, later: nat)
    requires earlier <= later
    ensures GroupMessagesAfter(t, userId, groupId, later) <= GroupMessagesAfter(t, userId, groupId, earlier)
  {
    CountWhereMonotone(t.groupMessages,
      (m: GroupMessage) => UnreadGroupMessage(m, userId, groupId, later),
      (m: GroupMessage) => UnreadGroupMessage(m, userId, groupId, earlier));
  }

  /** A conversation never marked counts every message sent after the epoch. */
  lemma UnmarkedFriendCountsAll(t: Tables, ms: Markers, userId: int, friendId: int)
    requires MarkerKey(userId, CHAT_TYPE_FRIEND, friendId) !in ms
    ensures FriendUnreadCount(t, ms, userId, friendId) == CountWhere(t.userMessages,
      (m: UserMessage) => m.fromId == friendId && m.toId == userId && m.createTime > 0)
  {
    CountWhereExt(t.userMessages,
      (m: UserMessage) => UnreadFriendMessage(m, userId, friendId, EPOCH),
      (m: UserMessage) => m.fromId == friendId && m.toId == userId && m.createTime > 0);
  }

  /** The candidates of the friend chat list, in table order: active and not hidden. */
  function FriendChatRows(t: Tables, ms: Markers, userId: int): seq<Friendship>
  {
    Filter(t.friends, (f: Friendship) => ActiveFriendship(f, userId) && Visible(ms, userId, CHAT_TYPE_FRIEND, f.friendId))
  }

  function GroupChatRows(t: Tables, ms: Markers, userId: int): seq<GroupMember>
  {
    Filter(t.members, (g: GroupMember) => ActiveMembership(g, userId) && Visible(ms, userId, CHAT_TYPE_GROUP, g.groupId))
  }

  /** getFriendChatList: friend ids of visible conversations, most recently read first. */
  function FriendChatList(t: Tables, ms: Markers, userId: int): (r: seq<int>)
    ensures SortedDesc(r, (id: int) => LastReadBound(ms, userId, CHAT_TYPE_FRIEND, id))
    ensures multiset(r) == multiset(MapSeq(FriendChatRows(t, ms, userId), (f: Friendship) => f.friendId))
  {
    SortDesc(MapSeq(FriendChatRows(t, ms, userId), (f: Friendship) => f.friendId),
      (id: int) => LastReadBound(ms, userId, CHAT_TYPE_FRIEND, id))
  }

  /** getGroupChatList: group ids of visible conversations, most recently read first. */
  function GroupChatList(t: Tables, ms: Markers, userId: int): (r: seq<int>)
    ensures SortedDesc(r, (id: int) => LastReadBound(ms, userId, CHAT_TYPE_GROUP, id))
    ensures multiset(r) == multiset(MapSeq(GroupChatRows(t, ms, userId), (g: GroupMember) => g.groupId))
  {
    SortDesc(MapSeq(GroupChatRows(t, ms, userId), (g: GroupMember) => g.groupId),
      (id: int) => LastReadBound(ms, userId, CHAT_TYPE_GROUP, id))
  }

  /** A friend appears in the chat list exactly when an active friendship names it and the chat is not hidden. */
  lemma FriendChatListMembership(t: Tables, ms: Markers, userId: int, friendId: int)
    ensures friendId in FriendChatList(t, ms, userId) <==>
      Visible(ms, userId, CHAT_TYPE_FRIEND, friendId) && FriendRowCount(t.friends, userId, friendId) > 0
  {
    var rows := FriendChatRows(t, ms, userId);
    var p := (f: Friendship) => ActiveFriendship(f, userId) && Visible(ms, userId, CHAT_TYPE_FRIEND, f.friendId);
    var ids := MapSeq(rows, (f: Friendship) => f.friendId);
    var list := FriendChatList(t, ms, userId);
    assert friendId in list <==> friendId in ids by {
      assert friendId in list <==> friendId in multiset(list);
      assert friendId in ids <==> friendId in multiset(ids);
    }
    if friendId in ids {
      var i :| 0 <= i < |ids| && ids[i] == friendId;
      FilterMembership(t.friends, p, rows[i]);
      RowCountPositive(t.friends, userId, rows[i]);
    }
    if Visible(ms, userId, CHAT_TYPE_FRIEND, friendId) && FriendRowCount(t.friends, userId, friendId) > 0 {
      var f := SomeFriendRow(t.friends, userId, friendId);
      FilterMembership(t.friends, p, f);
      var i :| 0 <= i < |rows| && rows[i] == f;
      assert ids[i] == friendId;
    }
  }

  lemma {:induction false} RowCountPositive(rows: seq<Friendship>, userId: int, f: Friendship)
    requires f in rows && ActiveFriendship(f, userId)
    ensures FriendRowCount(rows, userId, f.friendId) > 0
  {
    if rows[0] != f {
      RowCountPositive(rows[1..], userId, f);
    }
  }

  lemma {:induction false} SomeFriendRow(rows: seq<Friendship>, userId: int, friendId: int) returns (f: Friendship)
    requires FriendRowCount(rows, userId, friendId) > 0
    ensures f in rows && ActiveFriendship(f, userId) && f.friendId == friendId
  {
    if ActiveFriendship(rows[0], userId) && rows[0].friendId == friendId {
      f := rows[0];
    } else {
      f := SomeFriendRow(rows[1..], userId, friendId);
    }
  }

  /** A hidden group chat is never listed. */
  lemma HiddenGroupNotListed(t: Tables, ms: Markers, userId: int, groupId: int)
    requires !Visible(ms, userId, CHAT_TYPE_GROUP, groupId)
    ensures groupId !in GroupChatList(t, ms, userId)
  {
    var list := GroupChatList(t, ms, userId);
    forall k | 0 <= k < |list| ensures list[k] != groupId {
      GroupChatListVisible(t, ms, userId, k);
    }
  }

  /** Every listed group chat is an active membership whose chat is not hidden. */
  lemma GroupChatListVisible(t: Tables, ms: Markers, userId: int, k: int)
    requires 0 <= k < |GroupChatList(t, ms, userId)|
    ensures Visible(ms, userId, CHAT_TYPE_GROUP, GroupChatList(t, ms, userId)[k])
    ensures MemberRowCount(t.members, userId, GroupChatList(t, ms, userId)[k]) > 0
  {
    var list := GroupChatList(t, ms, userId);
    var rows := GroupChatRows(t, ms, userId);
    var p := (g: GroupMember) => ActiveMembership(g, userId) && Visible(ms, userId, CHAT_TYPE_GROUP, g.groupId);
    var ids := MapSeq(rows, (g: GroupMember) => g.groupId);
    assert list[k] in multiset(list);
    assert list[k] in multiset(ids);
    var i :| 0 <= i < |ids| && ids[i] == list[k];
    FilterMembership(t.members, p, rows[i]);
    MemberCountPositive(t.members, userId, rows[i]);
  }

  lemma {:induction false} MemberCountPositive(rows: seq<GroupMember>, userId: int, g: GroupMember)
    requires g in rows && ActiveMembership(g, userId)
    ensures MemberRowCount(rows, userId, g.groupId) > 0
  {
    if rows[0] != g {
      MemberCountPositive(rows[1..], userId, g);
    }
  }

  /** In the friend list, every chat read after the epoch comes before every chat never read. */
  lemma FriendChatListReadBeforeUnread(t: Tables, ms: Markers, userId: int, i: int, j: int)
    requires 0 <= i < |FriendChatList(t, ms, userId)| && 0 <= j < |FriendChatList(t, ms, userId)|
    requires LastReadBound(ms, userId, CHAT_TYPE_FRIEND, FriendChatList(t, ms, userId)[i]) > EPOCH
    requires LastReadBound(ms, userId, CHAT_TYPE_FRIEND, FriendChatList(t, ms, userId)[j]) == EPOCH
    ensures i < j
  {
  }
}
