/** The message store's state and its semantics as values: one selector
    function per `get...` of `src/store/chatStore.js` and one transition
    function per action, each giving the state after the `set(...)` call. The
    class in module ChatStore performs the same updates in place. */
module ChatModel {
  import opened Js

  /** The text a soft delete leaves behind. */
  const Tombstone: string := "[Message deleted]"

  /** A sender as carried inside a message. */
  datatype UserRef = UserRef(id: Prim, name: string)

  const UnknownUser: UserRef := UserRef(Str("unknown"), "Unknown User")

  /** Reactions: emoji -> ids of the users who reacted with it. */
  type Reactions = map<string, set<Prim>>

  datatype Message = Message(
    id: Prim,
    text: string,
    user: UserRef,
    timestamp: string,
    roomId: Prim,
    kind: string,          // 'text', 'image', 'file' or 'system'
    isOwn: bool,
    isEdited: bool,
    isDeleted: bool,
    reactions: Reactions,
    replyTo: Prim,
    mentions: seq<Prim>,
    attachments: seq<string>,
    editedAt: Option<string>,
    deletedAt: Option<string>)

  /** The fields a caller passes to `addMessage` or `updateMessage`. `None`
      (or `Undefined` for the primitive fields) is a key the object does not
      have; a present key overrides, whatever its value. */
  datatype MessageFields = MessageFields(
    id: Prim,
    text: Option<string>,
    user: Option<UserRef>,
    timestamp: Option<string>,
    roomId: Prim,
    kind: Option<string>,
    isOwn: Option<bool>,
    isEdited: Option<bool>,
    isDeleted: Option<bool>,
    reactions: Option<Reactions>,
    replyTo: Prim,
    mentions: Option<seq<Prim>>,
    attachments: Option<seq<string>>)

  datatype ChatState = ChatState(
    messages: map<Prim, Message>,
    messagesByRoom: map<Prim, seq<Prim>>,
    usersByRoom: map<Prim, seq<Prim>>,     // an insertion-ordered Set per room
    currentRoomId: Prim,
    unreadCounts: map<Prim, nat>,
    lastReadTimestamps: map<Prim, string>,
    messageQueue: seq<Message>,
    isLoading: bool,
    searchResults: seq<Message>,
    pinnedMessages: set<Prim>,
    replyingTo: Prim,
    editingMessageId: Prim)

  function Initial(): ChatState {
    ChatState(map[], map[], map[], Str("living-room"), map[], map[], [], false, [], {}, Null, Null)
  }

  // ---------------------------------------------------------------------
  // Records

  /** The key a new message is stored under: `messageData.id || generated`. */
  function MessageKey(d: MessageFields, genId: Prim): Prim {
    Or(d.id, genId)
  }

  /** The id of the sender a new message records. */
  function Sender(d: MessageFields): Prim {
    d.user.GetOr(UnknownUser).id
  }

  /** The record `addMessage` builds: defaults, then every key of `d`. */
  function NewMessage(d: MessageFields, key: Prim, target: Prim, now: string): (m: Message)
    ensures m.user.id == Sender(d)
    ensures d.id != Undefined ==> m.id == d.id
    ensures d.id == Undefined ==> m.id == key
    ensures d.roomId == Undefined ==> m.roomId == target
    ensures d.isEdited == None ==> !m.isEdited
    ensures d.isDeleted == None ==> !m.isDeleted
    ensures d.reactions == None ==> m.reactions == map[]
  {
    Message(
      id := if d.id == Undefined then key else d.id,
      text := d.text.GetOr(""),
      user := d.user.GetOr(UnknownUser),
      timestamp := d.timestamp.GetOr(now),
      roomId := if d.roomId == Undefined then target else d.roomId,
      kind := d.kind.GetOr("text"),
      isOwn := d.isOwn.GetOr(false),
      isEdited := d.isEdited.GetOr(false),
      isDeleted := d.isDeleted.GetOr(false),
      reactions := d.reactions.GetOr(map[]),
      replyTo := if d.replyTo == Undefined then Null else d.replyTo,
      mentions := d.mentions.GetOr([]),
      attachments := d.attachments.GetOr([]),
      editedAt := None,
      deletedAt := None)
  }

  /** `{...message, ...updates}` */
  function Merge(m: Message, p: MessageFields): Message {
    Message(
      id := if p.id == Undefined then m.id else p.id,
      text := p.text.GetOr(m.text),
      user := p.user.GetOr(m.user),
      timestamp := p.timestamp.GetOr(m.timestamp),
      roomId := if p.roomId == Undefined then m.roomId else p.roomId,
      kind := p.kind.GetOr(m.kind),
      isOwn := p.isOwn.GetOr(m.isOwn),
      isEdited := p.isEdited.GetOr(m.isEdited),
      isDeleted := p.isDeleted.GetOr(m.isDeleted),
      reactions := p.reactions.GetOr(m.reactions),
      replyTo := if p.replyTo == Undefined then m.replyTo else p.replyTo,
      mentions := p.mentions.GetOr(m.mentions),
      attachments := p.attachments.GetOr(m.attachments),
      editedAt := m.editedAt,
      deletedAt := m.deletedAt)
  }

  /** The record `updateMessage` stores: the merge, with the edit flag and
      stamp decided by comparing the patch's text (possibly absent) with the
      old text. */
  function Updated(m: Message, p: MessageFields, now: string): Message {
    var edited := p.text != Some(m.text);
    Merge(m, p).(isEdited := if edited then true else m.isEdited,
                 editedAt := if edited then Some(now) else m.editedAt)
  }

  // ---------------------------------------------------------------------
  // Selectors

  /** `roomId || state.currentRoomId` */
  function TargetRoom(s: ChatState, roomId: Prim): Prim {
    Or(roomId, s.currentRoomId)
  }

  function RoomIndex(s: ChatState, room: Prim): seq<Prim> {
    Lookup(s.messagesByRoom, room, [])
  }

  function RoomUsers(s: ChatState, room: Prim): seq<Prim> {
    Lookup(s.usersByRoom, room, [])
  }

  function UnreadOf(s: ChatState, room: Prim): nat {
    Lookup(s.unreadCounts, room, 0)
  }

  function GetMessage(s: ChatState, id: Prim): Option<Message> {
    if id in s.messages then Some(s.messages[id]) else None
  }

  function GetRoomMessages(s: ChatState, roomId: Prim): seq<Message> {
    Resolve(RoomIndex(s, TargetRoom(s, roomId)), s.messages)
  }

  /** `xs.slice(start)` */
  function SliceFrom<T>(xs: seq<T>, start: int): seq<T> {
    var b := if start < 0 then (if |xs| + start < 0 then 0 else |xs| + start)
             else (if start > |xs| then |xs| else start);
    xs[b..]
  }

  /** `getRoomMessages().slice(-limit)` for the current room. */
  function GetRecentMessages(s: ChatState, limit: int): seq<Message> {
    SliceFrom(GetRoomMessages(s, Null), -limit)
  }

  function GetUnreadCount(s: ChatState, roomId: Prim): nat {
    UnreadOf(s, TargetRoom(s, roomId))
  }

  /** The filter callback of `getPinnedMessages`. */
  function IsPinnedIn(pins: set<Prim>): Message -> bool {
    (m: Message) => m.id in pins
  }

  function GetPinnedMessages(s: ChatState, roomId: Prim): seq<Message> {
    Filter(GetRoomMessages(s, TargetRoom(s, roomId)), IsPinnedIn(s.pinnedMessages))
  }

  /** The filter callback of `getMessagesByUser`. */
  function SentBy(userId: Prim): Message -> bool {
    (m: Message) => m.user.id == userId
  }

  function GetMessagesByUser(s: ChatState, userId: Prim, roomId: Prim): seq<Message> {
    Filter(GetRoomMessages(s, roomId), SentBy(userId))
  }

  /** Case-insensitive match on the text or on the sender's name. */
  predicate Matches(m: Message, query: string) {
    Includes(Lower(m.text), Lower(query)) || Includes(Lower(m.user.name), Lower(query))
  }

  /** The filter callback of `searchMessages`. */
  function MatchesQuery(query: string): Message -> bool {
    (m: Message) => Matches(m, query)
  }

  function SearchMessages(s: ChatState, query: string, roomId: Prim): seq<Message> {
    Filter(GetRoomMessages(s, roomId), MatchesQuery(query))
  }

  function GetUsersByRoom(s: ChatState, roomId: Prim): seq<Prim> {
    RoomUsers(s, TargetRoom(s, roomId))
  }

  // ---------------------------------------------------------------------
  // Actions

  function AddMessage(s: ChatState, d: MessageFields, roomId: Prim, genId: Prim, now: string): ChatState {
    var target := TargetRoom(s, roomId);
    var key := MessageKey(d, genId);
    var m := NewMessage(d, key, target, now);
    s.(messages := s.messages[key := m],
       messagesByRoom := s.messagesByRoom[target := RoomIndex(s, target) + [key]],
       usersByRoom := s.usersByRoom[target := SetAdd(RoomUsers(s, target), m.user.id)],
       unreadCounts := if target != s.currentRoomId
                       then s.unreadCounts[target := UnreadOf(s, target) + 1]
                       else s.unreadCounts)
  }

  function UpdateMessage(s: ChatState, id: Prim, p: MessageFields, now: string): ChatState {
    if id in s.messages then s.(messages := s.messages[id := Updated(s.messages[id], p, now)])
    else s
  }

  function DeleteMessage(s: ChatState, id: Prim, soft: bool, now: string): ChatState {
    if id !in s.messages then s
    else if soft then
      var m := s.messages[id];
      s.(messages := s.messages[id := m.(isDeleted := true, deletedAt := Some(now), text := Tombstone)],
         pinnedMessages := s.pinnedMessages - {id})
    else
      // the compacted index is computed and then dropped: messagesByRoom is kept as it was
      s.(messages := s.messages - {id}, pinnedMessages := s.pinnedMessages - {id})
  }

  /** The keys `bulkAddMessages` appends, in input order. */
  function BulkKeys(ds: seq<MessageFields>, genIds: seq<Prim>): (ks: seq<Prim>)
    requires |genIds| == |ds|
    ensures |ks| == |ds|
  {
    seq(|ds|, i requires 0 <= i < |ds| => MessageKey(ds[i], genIds[i]))
  }

  /** The message map after storing each record of `ds`, first to last. */
  function StoreAll(msgs: map<Prim, Message>, ds: seq<MessageFields>, genIds: seq<Prim>, target: Prim, now: string): map<Prim, Message>
    requires |genIds| == |ds|
    decreases |ds|
  {
    if |ds| == 0 then msgs
    else
      var n := |ds| - 1;
      var key := MessageKey(ds[n], genIds[n]);
      StoreAll(msgs, ds[..n], genIds[..n], target, now)[key := NewMessage(ds[n], key, target, now)]
  }

  /** A room's sender set after adding the sender of each of `ds`, first to last. */
  function AddSenders(users: seq<Prim>, ds: seq<MessageFields>): seq<Prim>
    decreases |ds|
  {
    if |ds| == 0 then users
    else SetAdd(AddSenders(users, ds[..|ds| - 1]), Sender(ds[|ds| - 1]))
  }

  function BulkAddMessages(s: ChatState, ds: seq<MessageFields>, roomId: Prim, genIds: seq<Prim>, now: string): ChatState
    requires |genIds| == |ds|
  {
    var target := TargetRoom(s, roomId);
    s.(messages := StoreAll(s.messages, ds, genIds, target, now),
       messagesByRoom := s.messagesByRoom[target := RoomIndex(s, target) + BulkKeys(ds, genIds)],
       usersByRoom := s.usersByRoom[target := AddSenders(RoomUsers(s, target), ds)])
  }

  function ClearRoomMessages(s: ChatState, roomId: Prim): ChatState {
    var target := TargetRoom(s, roomId);
    var gone := set k | k in RoomIndex(s, target);
    s.(messages := s.messages - gone,
       pinnedMessages := s.pinnedMessages - gone,
       messagesByRoom := s.messagesByRoom[target := []],
       unreadCounts := s.unreadCounts[target := 0],
       usersByRoom := s.usersByRoom[target := []])
  }

  function SetCurrentRoom(s: ChatState, roomId: Prim, now: string): ChatState {
    s.(currentRoomId := roomId,
       unreadCounts := s.unreadCounts[roomId := 0],
       lastReadTimestamps := s.lastReadTimestamps[roomId := now])
  }

  function MarkAsRead(s: ChatState, roomId: Prim, now: string): ChatState {
    var target := TargetRoom(s, roomId);
    s.(unreadCounts := s.unreadCounts[target := 0],
       lastReadTimestamps := s.lastReadTimestamps[target := now])
  }

  function IncrementUnread(s: ChatState, roomId: Prim): ChatState {
    s.(unreadCounts := s.unreadCounts[roomId := UnreadOf(s, roomId) + 1])
  }

  function WithReaction(r: Reactions, emoji: string, userId: Prim): Reactions {
    if emoji in r then r[emoji := r[emoji] + {userId}] else r[emoji := {userId}]
  }

  function WithoutReaction(r: Reactions, emoji: string, userId: Prim): Reactions {
    if emoji in r then
      var users := r[emoji] - {userId};
      if |users| == 0 then r - {emoji} else r[emoji := users]
    else r
  }

  function AddReaction(s: ChatState, id: Prim, emoji: string, userId: Prim): ChatState {
    if id in s.messages then
      var m := s.messages[id];
      s.(messages := s.messages[id := m.(reactions := WithReaction(m.reactions, emoji, userId))])
    else s
  }

  function RemoveReaction(s: ChatState, id: Prim, emoji: string, userId: Prim): ChatState {
    if id in s.messages then
      var m := s.messages[id];
      s.(messages := s.messages[id := m.(reactions := WithoutReaction(m.reactions, emoji, userId))])
    else s
  }

  function TogglePinMessage(s: ChatState, id: Prim): ChatState {
    s.(pinnedMessages := if id in s.pinnedMessages then s.pinnedMessages - {id} else s.pinnedMessages + {id})
  }

  function PerformSearch(s: ChatState, query: string, roomId: Prim): ChatState {
    s.(searchResults := SearchMessages(s, query, roomId))
  }

  function RemoveFromQueue(s: ChatState, id: Prim): ChatState {
    s.(messageQueue := Filter(s.messageQueue, (m: Message) => m.id != id))
  }

  /** `clearAllMessages` resets everything but the room focus and the loading flag. */
  function ClearAllMessages(s: ChatState): ChatState {
    ChatState(map[], map[], map[], s.currentRoomId, map[], map[], [], s.isLoading, [], {}, Null, Null)
  }

  // ---------------------------------------------------------------------
  // Properties of addMessage and bulkAddMessages

  /** `addMessage` stores the record under its key, appends the key to the
      target room's index, records the sender, and leaves other rooms' indexes
      alone. */
  lemma AddMessageStores(s: ChatState, d: MessageFields, roomId: Prim, genId: Prim, now: string)
    ensures var s' := AddMessage(s, d, roomId, genId, now);
            var target := TargetRoom(s, roomId);
            var key := MessageKey(d, genId);
            && s'.messages == s.messages[key := NewMessage(d, key, target, now)]
            && RoomIndex(s', target) == RoomIndex(s, target) + [key]
            && Sender(d) in RoomUsers(s', target)
            && (forall u :: u in RoomUsers(s, target) ==> u in RoomUsers(s', target))
            && (forall r :: r != target ==> RoomIndex(s', r) == RoomIndex(s, r) && RoomUsers(s', r) == RoomUsers(s, r))
  {
  }

  /** The new record is the last of the room's messages as the UI reads them. */
  lemma AddMessageIsNewest(s: ChatState, d: MessageFields, roomId: Prim, genId: Prim, now: string)
    ensures var s' := AddMessage(s, d, roomId, genId, now);
            var key := MessageKey(d, genId);
            && GetRoomMessages(s', roomId) == Resolve(RoomIndex(s, TargetRoom(s, roomId)), s'.messages) + [s'.messages[key]]
            && s'.messages[key] == NewMessage(d, key, TargetRoom(s, roomId), now)
  {
    var s' := AddMessage(s, d, roomId, genId, now);
    ResolveAppend(RoomIndex(s, TargetRoom(s, roomId)), MessageKey(d, genId), s'.messages);
  }

  /** The target room's unread count rises by exactly one when it is not the
      focused room, and no other count changes. */
  lemma AddMessageUnread(s: ChatState, d: MessageFields, roomId: Prim, genId: Prim, now: string)
    ensures var s' := AddMessage(s, d, roomId, genId, now);
            var target := TargetRoom(s, roomId);
            && UnreadOf(s', target) == UnreadOf(s, target) + (if target != s.currentRoomId then 1 else 0)
            && (forall r :: r != target ==> UnreadOf(s', r) == UnreadOf(s, r))
            && s'.currentRoomId == s.currentRoomId
  {
  }

  /** `addMessage` applied to each of `ds` in turn. */
  function AddEach(s: ChatState, ds: seq<MessageFields>, roomId: Prim, genIds: seq<Prim>, now: string): ChatState
    requires |genIds| == |ds|
    decreases |ds|
  {
    if |ds| == 0 then s
    else
      var n := |ds| - 1;
      AddMessage(AddEach(s, ds[..n], roomId, genIds[..n], now), ds[n], roomId, genIds[n], now)
  }

  /** N messages sent to an unfocused room raise its count by N; messages sent
      to the focused room leave its count as it was. */
  lemma {:induction false} UnreadAfterSends(s: ChatState, ds: seq<MessageFields>, roomId: Prim, genIds: seq<Prim>, now: string)
    requires |genIds| == |ds|
    ensures var s' := AddEach(s, ds, roomId, genIds, now);
            var target := TargetRoom(s, roomId);
            && s'.currentRoomId == s.currentRoomId
            && UnreadOf(s', target) == UnreadOf(s, target) + (if target != s.currentRoomId then |ds| else 0)
  {
    if |ds| > 0 {
      var n := |ds| - 1;
      UnreadAfterSends(s, ds[..n], roomId, genIds[..n], now);
    }
  }

  /** `bulkAddMessages` is `addMessage` on each entry in turn, except that the
      unread counters are left as they were. */
  lemma BulkIsRepeatedAdd(s: ChatState, ds: seq<MessageFields>, roomId: Prim, genIds: seq<Prim>, now: string)
    requires |genIds| == |ds| && |ds| > 0
    ensures BulkAddMessages(s, ds, roomId, genIds, now) == AddEach(s, ds, roomId, genIds, now).(unreadCounts := s.unreadCounts)
  {
    AddEachMessages(s, ds, roomId, genIds, now);
    AddEachIndex(s, ds, roomId, genIds, now);
    AddEachSenders(s, ds, roomId, genIds, now);
    AddEachRest(s, ds, roomId, genIds, now);
  }

  lemma {:induction false} AddEachMessages(s: ChatState, ds: seq<MessageFields>, roomId: Prim, genIds: seq<Prim>, now: string)
    requires |genIds| == |ds|
    ensures AddEach(s, ds, roomId, genIds, now).messages == StoreAll(s.messages, ds, genIds, TargetRoom(s, roomId), now)
  {
    if |ds| > 0 {
      var n := |ds| - 1;
      AddEachMessages(s, ds[..n], roomId, genIds[..n], now);
      UnreadAfterSends(s, ds[..n], roomId, genIds[..n], now);
    }
  }

  lemma {:induction false} AddEachIndex(s: ChatState, ds: seq<MessageFields>, roomId: Prim, genIds: seq<Prim>, now: string)
    requires |genIds| == |ds| && |ds| > 0
    ensures var target := TargetRoom(s, roomId);
            AddEach(s, ds, roomId, genIds, now).messagesByRoom
              == s.messagesByRoom[target := RoomIndex(s, target) + BulkKeys(ds, genIds)]
  {
    var n := |ds| - 1;
    if n > 0 {
      AddEachIndex(s, ds[..n], roomId, genIds[..n], now);
    }
    AddEachIndexStep(s, ds, roomId, genIds, now);
  }

  lemma AddEachIndexStep(s: ChatState, ds: seq<MessageFields>, roomId: Prim, genIds: seq<Prim>, now: string)
    requires |genIds| == |ds| && |ds| > 0
    requires var n := |ds| - 1;
             var target := TargetRoom(s, roomId);
             n > 0 ==> AddEach(s, ds[..n], roomId, genIds[..n], now).messagesByRoom
                       == s.messagesByRoom[target := RoomIndex(s, target) + BulkKeys(ds[..n], genIds[..n])]
    ensures var target := TargetRoom(s, roomId);
            AddEach(s, ds, roomId, genIds, now).messagesByRoom
              == s.messagesByRoom[target := RoomIndex(s, target) + BulkKeys(ds, genIds)]
  {
    var n := |ds| - 1;
    var target := TargetRoom(s, roomId);
    var key := MessageKey(ds[n], genIds[n]);
    var prev := AddEach(s, ds[..n], roomId, genIds[..n], now);
    var before := RoomIndex(s, target) + BulkKeys(ds[..n], genIds[..n]);
    assert TargetRoom(prev, roomId) == target by {
      UnreadAfterSends(s, ds[..n], roomId, genIds[..n], now);
    }
    assert RoomIndex(prev, target) == before by {
      if n == 0 {
        assert prev == s;
        assert BulkKeys(ds[..n], genIds[..n]) == [];
      }
    }
    calc {
      AddEach(s, ds, roomId, genIds, now).messagesByRoom;
    == { AddMessageIndex(prev, ds[n], roomId, genIds[n], now); }
      prev.messagesByRoom[target := before + [key]];
    == { if n == 0 { assert prev == s; } }
      s.messagesByRoom[target := before + [key]];
    == { BulkKeysSnoc(ds, genIds);
         assert before + [key] == RoomIndex(s, target) + (BulkKeys(ds[..n], genIds[..n]) + [key]); }
      s.messagesByRoom[target := RoomIndex(s, target) + BulkKeys(ds, genIds)];
    }
  }

  lemma AddMessageIndex(s: ChatState, d: MessageFields, roomId: Prim, genId: Prim, now: string)
    ensures var target := TargetRoom(s, roomId);
            AddMessage(s, d, roomId, genId, now).messagesByRoom
              == s.messagesByRoom[target := RoomIndex(s, target) + [MessageKey(d, genId)]]
  {
  }

  lemma {:induction false} AddEachSenders(s: ChatState, ds: seq<MessageFields>, roomId: Prim, genIds: seq<Prim>, now: string)
    requires |genIds| == |ds| && |ds| > 0
    ensures var target := TargetRoom(s, roomId);
            AddEach(s, ds, roomId, genIds, now).usersByRoom
              == s.usersByRoom[target := AddSenders(RoomUsers(s, target), ds)]
  {
    var n := |ds| - 1;
    if n > 0 {
      AddEachSenders(s, ds[..n], roomId, genIds[..n], now);
    }
    AddEachSendersStep(s, ds, roomId, genIds, now);
  }

  lemma AddEachSendersStep(s: ChatState, ds: seq<MessageFields>, roomId: Prim, genIds: seq<Prim>, now: string)
    requires |genIds| == |ds| && |ds| > 0
    requires var n := |ds| - 1;
             var target := TargetRoom(s, roomId);
             n > 0 ==> AddEach(s, ds[..n], roomId, genIds[..n], now).usersByRoom
                       == s.usersByRoom[target := AddSenders(RoomUsers(s, target), ds[..n])]
    ensures var target := TargetRoom(s, roomId);
            AddEach(s, ds, roomId, genIds, now).usersByRoom
              == s.usersByRoom[target := AddSenders(RoomUsers(s, target), ds)]
  {
    var n := |ds| - 1;
    var target := TargetRoom(s, roomId);
    var prev := AddEach(s, ds[..n], roomId, genIds[..n], now);
    var before := AddSenders(RoomUsers(s, target), ds[..n]);
    assert prev.currentRoomId == s.currentRoomId by {
      UnreadAfterSends(s, ds[..n], roomId, genIds[..n], now);
    }
    assert prev.usersByRoom - {target} == s.usersByRoom - {target} && RoomUsers(prev, target) == before by {
      if n == 0 {
        assert prev == s;
      } else {
        assert prev.usersByRoom == s.usersByRoom[target := before];
      }
    }
    SendersStepCore(s, prev, ds[n], roomId, genIds[n], now, before);
    AddEachLast(s, ds, roomId, genIds, now);
    AddSendersLast(RoomUsers(s, target), ds);
  }

  lemma AddSendersLast(users: seq<Prim>, ds: seq<MessageFields>)
    requires |ds| > 0
    ensures AddSenders(users, ds) == SetAdd(AddSenders(users, ds[..|ds| - 1]), Sender(ds[|ds| - 1]))
  {
  }

  lemma SendersStepCore(s: ChatState, prev: ChatState, d: MessageFields, roomId: Prim, genId: Prim, now: string, before: seq<Prim>)
    requires prev.currentRoomId == s.currentRoomId
    requires prev.usersByRoom - {TargetRoom(s, roomId)} == s.usersByRoom - {TargetRoom(s, roomId)}
    requires RoomUsers(prev, TargetRoom(s, roomId)) == before
    ensures AddMessage(prev, d, roomId, genId, now).usersByRoom
              == s.usersByRoom[TargetRoom(s, roomId) := SetAdd(before, Sender(d))]
  {
    var target := TargetRoom(s, roomId);
    AddMessageSenders(prev, d, roomId, genId, now);
    var u := SetAdd(before, Sender(d));
    assert prev.usersByRoom[target := u] == s.usersByRoom[target := u] by {
      forall k | k != target
        ensures (k in prev.usersByRoom <==> k in s.usersByRoom)
      {
        assert k in prev.usersByRoom <==> k in prev.usersByRoom - {target};
        assert k in s.usersByRoom <==> k in s.usersByRoom - {target};
      }
      forall k | k != target && k in prev.usersByRoom
        ensures prev.usersByRoom[k] == s.usersByRoom[k]
      {
        assert prev.usersByRoom[k] == (prev.usersByRoom - {target})[k];
      }
    }
  }

  lemma AddMessageSenders(s: ChatState, d: MessageFields, roomId: Prim, genId: Prim, now: string)
    ensures var target := TargetRoom(s, roomId);
            AddMessage(s, d, roomId, genId, now).usersByRoom
              == s.usersByRoom[target := SetAdd(RoomUsers(s, target), Sender(d))]
  {
  }



  /** One more record of `ds`: the three folds of `bulkAddMessages` each take
      one step. */
  lemma BulkPrefixStep(msgs: map<Prim, Message>, users: seq<Prim>, ds: seq<MessageFields>, genIds: seq<Prim>,
                       target: Prim, now: string, i: nat)
    requires |genIds| == |ds| && i < |ds|
    ensures var key := MessageKey(ds[i], genIds[i]);
            StoreAll(msgs, ds[..i + 1], genIds[..i + 1], target, now)
              == StoreAll(msgs, ds[..i], genIds[..i], target, now)[key := NewMessage(ds[i], key, target, now)]
    ensures BulkKeys(ds[..i + 1], genIds[..i + 1]) == BulkKeys(ds[..i], genIds[..i]) + [MessageKey(ds[i], genIds[i])]
    ensures AddSenders(users, ds[..i + 1]) == SetAdd(AddSenders(users, ds[..i]), Sender(ds[i]))
  {
    assert ds[..i + 1][..i] == ds[..i] && genIds[..i + 1][..i] == genIds[..i];
  }

  lemma AddEachLast(s: ChatState, ds: seq<MessageFields>, roomId: Prim, genIds: seq<Prim>, now: string)
    requires |genIds| == |ds| && |ds| > 0
    ensures var n := |ds| - 1;
            AddEach(s, ds, roomId, genIds, now)
              == AddMessage(AddEach(s, ds[..n], roomId, genIds[..n], now), ds[n], roomId, genIds[n], now)
  {
  }

  lemma BulkKeysSnoc(ds: seq<MessageFields>, genIds: seq<Prim>)
    requires |genIds| == |ds| && |ds| > 0
    ensures var n := |ds| - 1;
            BulkKeys(ds, genIds) == BulkKeys(ds[..n], genIds[..n]) + [MessageKey(ds[n], genIds[n])]
  {
  }

  /** Sending messages touches only the messages, the index, the sender sets
      and the counters. */
  lemma {:induction false} AddEachRest(s: ChatState, ds: seq<MessageFields>, roomId: Prim, genIds: seq<Prim>, now: string)
    requires |genIds| == |ds|
    ensures var s' := AddEach(s, ds, roomId, genIds, now);
            s' == s.(messages := s'.messages, messagesByRoom := s'.messagesByRoom,
                     usersByRoom := s'.usersByRoom, unreadCounts := s'.unreadCounts)
  {
    if |ds| > 0 {
      var n := |ds| - 1;
      AddEachRest(s, ds[..n], roomId, genIds[..n], now);
    }
  }

  /** After a bulk add, an entry that no later entry shares a key with is
      stored under its key. */
  lemma {:induction false} StoreAllLast(msgs: map<Prim, Message>, ds: seq<MessageFields>, genIds: seq<Prim>, target: Prim, now: string, i: nat)
    requires |genIds| == |ds| && i < |ds|
    requires forall j :: i < j < |ds| ==> MessageKey(ds[j], genIds[j]) != MessageKey(ds[i], genIds[i])
    ensures var key := MessageKey(ds[i], genIds[i]);
            var m := StoreAll(msgs, ds, genIds, target, now);
            key in m && m[key] == NewMessage(ds[i], key, target, now)
  {
    var n := |ds| - 1;
    if i < n {
      StoreAllLast(msgs, ds[..n], genIds[..n], target, now, i);
    }
  }

  /** Keys that no entry of the batch uses keep their old record, or stay absent. */
  lemma {:induction false} StoreAllOther(msgs: map<Prim, Message>, ds: seq<MessageFields>, genIds: seq<Prim>, target: Prim, now: string, k: Prim)
    requires |genIds| == |ds|
    requires k !in BulkKeys(ds, genIds)
    ensures var m := StoreAll(msgs, ds, genIds, target, now);
            (k in m <==> k in msgs) && (k in msgs ==> m[k] == msgs[k])
  {
    if |ds| > 0 {
      var n := |ds| - 1;
      assert forall j :: 0 <= j < n ==> BulkKeys(ds[..n], genIds[..n])[j] == BulkKeys(ds, genIds)[j];
      assert BulkKeys(ds, genIds)[n] != k;
      StoreAllOther(msgs, ds[..n], genIds[..n], target, now, k);
    }
  }

  /** The keys of the map after a bulk store are the old keys plus the batch's keys. */
  lemma {:induction false} StoreAllKeys(msgs: map<Prim, Message>, ds: seq<MessageFields>, genIds: seq<Prim>, target: Prim, now: string)
    requires |genIds| == |ds|
    ensures StoreAll(msgs, ds, genIds, target, now).Keys == msgs.Keys + set k | k in BulkKeys(ds, genIds)
  {
    if |ds| > 0 {
      var n := |ds| - 1;
      StoreAllKeys(msgs, ds[..n], genIds[..n], target, now);
      assert BulkKeys(ds, genIds) == BulkKeys(ds[..n], genIds[..n]) + [MessageKey(ds[n], genIds[n])];
    }
  }

  /** The room's sender set after a bulk add holds exactly the old senders and
      the batch's senders. */
  lemma {:induction false} AddSendersMembers(users: seq<Prim>, ds: seq<MessageFields>, u: Prim)
    ensures u in AddSenders(users, ds) <==> u in users || exists i :: 0 <= i < |ds| && Sender(ds[i]) == u
  {
    if |ds| > 0 {
      var n := |ds| - 1;
      AddSendersMembers(users, ds[..n], u);
      if u in AddSenders(users, ds) && u !in users && u != Sender(ds[n]) {
        var i :| 0 <= i < n && Sender(ds[..n][i]) == u;
        assert Sender(ds[i]) == u;
      }
      if exists i :: 0 <= i < |ds| && Sender(ds[i]) == u {
        var i :| 0 <= i < |ds| && Sender(ds[i]) == u;
        if i < n { assert Sender(ds[..n][i]) == u; }
      }
    }
  }

  /** What `bulkAddMessages` promises in one place: input-order keys at the end
      of the target index, other rooms untouched, unread counts untouched. */
  lemma BulkAddAppends(s: ChatState, ds: seq<MessageFields>, roomId: Prim, genIds: seq<Prim>, now: string)
    requires |genIds| == |ds|
    ensures var s' := BulkAddMessages(s, ds, roomId, genIds, now);
            var target := TargetRoom(s, roomId);
            && RoomIndex(s', target) == RoomIndex(s, target) + BulkKeys(ds, genIds)
            && (forall r :: r != target ==> RoomIndex(s', r) == RoomIndex(s, r) && RoomUsers(s', r) == RoomUsers(s, r))
            && s'.unreadCounts == s.unreadCounts
  {
  }

  // ---------------------------------------------------------------------
  // Index integrity

  /** Every id in every room index has a record. */
  ghost predicate IndexResolves(s: ChatState) {
    forall r, k :: r in s.messagesByRoom && k in s.messagesByRoom[r] ==> k in s.messages
  }

  lemma AddMessageKeepsIndexResolved(s: ChatState, d: MessageFields, roomId: Prim, genId: Prim, now: string)
    requires IndexResolves(s)
    ensures IndexResolves(AddMessage(s, d, roomId, genId, now))
  {
  }

  lemma BulkAddKeepsIndexResolved(s: ChatState, ds: seq<MessageFields>, roomId: Prim, genIds: seq<Prim>, now: string)
    requires |genIds| == |ds|
    requires IndexResolves(s)
    ensures IndexResolves(BulkAddMessages(s, ds, roomId, genIds, now))
  {
    StoreAllKeys(s.messages, ds, genIds, TargetRoom(s, roomId), now);
  }

  /** A hard delete leaves the deleted id in its room index: the index no
      longer resolves. */
  lemma HardDeleteLeavesDanglingId(m: Message, now: string)
    ensures var s := Initial().(messages := map[Str("a") := m], messagesByRoom := map[Str("r") := [Str("a")]]);
            IndexResolves(s) && !IndexResolves(DeleteMessage(s, Str("a"), false, now))
  {
    var s := Initial().(messages := map[Str("a") := m], messagesByRoom := map[Str("r") := [Str("a")]]);
    var s' := DeleteMessage(s, Str("a"), false, now);
    assert Str("r") in s'.messagesByRoom && Str("a") in s'.messagesByRoom[Str("r")];
  }

  // ---------------------------------------------------------------------
  // Properties of update, delete, clear and focus

  /** `updateMessage` on a known id replaces that one record: every key of
      the patch overrides the old field, the edit flag and stamp are set
      exactly when the patch's text (possibly absent) differs from the old
      text, and the patch's own `isEdited` is overwritten. No other record and
      no other part of the state changes. An unknown id changes nothing. */
  lemma UpdateMessageEffect(s: ChatState, id: Prim, p: MessageFields, now: string)
    ensures id !in s.messages ==> UpdateMessage(s, id, p, now) == s
    ensures id in s.messages ==>
            var s' := UpdateMessage(s, id, p, now);
            var old_ := s.messages[id];
            var m := s'.messages[id];
            var edited := p.text != Some(old_.text);
            && s' == s.(messages := s'.messages)
            && s'.messages.Keys == s.messages.Keys
            && (forall k :: k in s.messages && k != id ==> s'.messages[k] == s.messages[k])
            && m.text == p.text.GetOr(old_.text)
            && (m.isEdited <==> edited || old_.isEdited)
            && m.editedAt == (if edited then Some(now) else old_.editedAt)
            && (p.text == None ==> m.isEdited && m.editedAt == Some(now))
            && m.id == (if p.id == Undefined then old_.id else p.id)
            && m.user == p.user.GetOr(old_.user)
            && m.timestamp == p.timestamp.GetOr(old_.timestamp)
            && m.roomId == (if p.roomId == Undefined then old_.roomId else p.roomId)
            && m.kind == p.kind.GetOr(old_.kind)
            && m.isOwn == p.isOwn.GetOr(old_.isOwn)
            && m.isDeleted == p.isDeleted.GetOr(old_.isDeleted)
            && m.reactions == p.reactions.GetOr(old_.reactions)
            && m.replyTo == (if p.replyTo == Undefined then old_.replyTo else p.replyTo)
            && m.mentions == p.mentions.GetOr(old_.mentions)
            && m.attachments == p.attachments.GetOr(old_.attachments)
            && m.deletedAt == old_.deletedAt
  {
  }

  /** A soft delete keeps the record, now a tombstone, where the room's
      messages are read, and unpins it; every other record and every other
      part of the state stays as it was. */
  lemma SoftDeleteKeepsRecord(s: ChatState, id: Prim, roomId: Prim, now: string)
    requires id in s.messages
    ensures var s' := DeleteMessage(s, id, true, now);
            && s' == s.(messages := s'.messages, pinnedMessages := s'.pinnedMessages)
            && s'.messages == s.messages[id := s.messages[id].(text := Tombstone, isDeleted := true, deletedAt := Some(now))]
            && s'.pinnedMessages == s.pinnedMessages - {id}
            && (forall k :: k in s.messages && k != id ==> s'.messages[k] == s.messages[k])
            && |GetRoomMessages(s', roomId)| == |GetRoomMessages(s, roomId)|
            && (id in RoomIndex(s, TargetRoom(s, roomId)) ==> s'.messages[id] in GetRoomMessages(s', roomId))
  {
    var s' := DeleteMessage(s, id, true, now);
    var ids := RoomIndex(s, TargetRoom(s, roomId));
    ResolveSameKeys(ids, s.messages, s'.messages);
    if id in ids {
      ResolveContains(ids, s'.messages, id);
    }
  }

  /** A hard delete removes the record and unpins it, but leaves every room
      index as it was; reading the room skips the dangling id. No other record
      and no other part of the state changes. */
  lemma HardDeleteKeepsIndex(s: ChatState, id: Prim, roomId: Prim, now: string)
    requires id in s.messages
    ensures var s' := DeleteMessage(s, id, false, now);
            var ids := RoomIndex(s, TargetRoom(s, roomId));
            && s' == s.(messages := s'.messages, pinnedMessages := s'.pinnedMessages)
            && s'.messages == s.messages - {id}
            && s'.pinnedMessages == s.pinnedMessages - {id}
            && (forall k :: k in s.messages && k != id ==> k in s'.messages && s'.messages[k] == s.messages[k])
            && |RoomIndex(s', TargetRoom(s, roomId))| == |ids|
            && |GetRoomMessages(s', roomId)| == |GetRoomMessages(s, roomId)| - Count(ids, id)
  {
    ResolveWithout(RoomIndex(s, TargetRoom(s, roomId)), s.messages, id);
  }

  lemma DeleteUnknown(s: ChatState, id: Prim, soft: bool, now: string)
    requires id !in s.messages
    ensures DeleteMessage(s, id, soft, now) == s
  {
  }

  /** Clearing a room empties its index, its sender set and its counter, drops
      its records from the message map and the pins, and touches no other
      room's index. */
  lemma ClearRoomEffect(s: ChatState, roomId: Prim)
    ensures var s' := ClearRoomMessages(s, roomId);
            var target := TargetRoom(s, roomId);
            && GetRoomMessages(s', roomId) == []
            && GetUnreadCount(s', roomId) == 0
            && GetUsersByRoom(s', roomId) == []
            && (forall k :: k in s'.messages <==> k in s.messages && k !in RoomIndex(s, target))
            && (forall k :: k in s'.messages ==> s'.messages[k] == s.messages[k])
            && (forall k :: k in s'.pinnedMessages <==> k in s.pinnedMessages && k !in RoomIndex(s, target))
            && (forall r :: r != target ==> RoomIndex(s', r) == RoomIndex(s, r))
  {
  }

  /** Focusing and marking read both zero the room's count; only focusing
      moves the focus. */
  lemma FocusAndMarkRead(s: ChatState, roomId: Prim, now: string)
    ensures var s' := SetCurrentRoom(s, roomId, now);
            s'.currentRoomId == roomId && GetUnreadCount(s', Null) == 0
            && (forall r :: r != roomId ==> UnreadOf(s', r) == UnreadOf(s, r))
    ensures var s' := MarkAsRead(s, roomId, now);
            s'.currentRoomId == s.currentRoomId && GetUnreadCount(s', roomId) == 0
            && (forall r :: r != TargetRoom(s, roomId) ==> UnreadOf(s', r) == UnreadOf(s, r))
  {
  }

  /** A message sent to the focused room never raises a count, so after
      focusing a room its count stays zero whatever is sent to it. */
  lemma FocusedRoomStaysRead(s: ChatState, room: Prim, ds: seq<MessageFields>, genIds: seq<Prim>, now: string)
    requires |genIds| == |ds|
    ensures GetUnreadCount(AddEach(SetCurrentRoom(s, room, now), ds, room, genIds, now), Null) == 0
  {
    UnreadAfterSends(SetCurrentRoom(s, room, now), ds, room, genIds, now);
  }

  // ---------------------------------------------------------------------
  // Reactions and pins

  /** No emoji maps to an empty set of users. */
  predicate NoEmptyReactions(r: Reactions) {
    forall e :: e in r ==> r[e] != {}
  }

  lemma ReactionsStayNonEmpty(r: Reactions, emoji: string, userId: Prim)
    requires NoEmptyReactions(r)
    ensures NoEmptyReactions(WithReaction(r, emoji, userId))
    ensures NoEmptyReactions(WithoutReaction(r, emoji, userId))
  {
  }

  lemma AddReactionIdempotent(s: ChatState, id: Prim, emoji: string, userId: Prim)
    ensures var s' := AddReaction(s, id, emoji, userId);
            AddReaction(s', id, emoji, userId) == s'
  {
    if id in s.messages {
      var r := s.messages[id].reactions;
      var r' := WithReaction(r, emoji, userId);
      assert r'[emoji] + {userId} == r'[emoji];
      assert WithReaction(r', emoji, userId) == r';
    }
  }

  /** Adding then removing a reaction by a user who had not reacted with that
      emoji restores the message, so an emoji nobody had used disappears again. */
  lemma AddThenRemoveReaction(s: ChatState, id: Prim, emoji: string, userId: Prim)
    requires id in s.messages
    requires emoji in s.messages[id].reactions ==>
             userId !in s.messages[id].reactions[emoji] && s.messages[id].reactions[emoji] != {}
    ensures RemoveReaction(AddReaction(s, id, emoji, userId), id, emoji, userId) == s
  {
    var m := s.messages[id];
    var r1 := WithReaction(m.reactions, emoji, userId);
    var s1 := s.(messages := s.messages[id := m.(reactions := r1)]);
    assert AddReaction(s, id, emoji, userId) == s1;
    assert s1.messages[id].reactions == r1;
    ReactionRoundTrip(m.reactions, emoji, userId);
    assert m.(reactions := WithoutReaction(r1, emoji, userId)) == m;
    assert s1.messages[id := m] == s.messages;
    assert RemoveReaction(s1, id, emoji, userId) == s1.(messages := s1.messages[id := m]);
  }

  /** Adding a new reaction and then removing it restores the reaction map;
      an emoji that had no reactions disappears again. */
  lemma ReactionRoundTrip(r: Reactions, emoji: string, userId: Prim)
    requires emoji in r ==> userId !in r[emoji] && r[emoji] != {}
    ensures WithoutReaction(WithReaction(r, emoji, userId), emoji, userId) == r
  {
    if emoji in r {
      assert r[emoji] + {userId} - {userId} == r[emoji];
      assert r[emoji := r[emoji]] == r;
    } else {
      assert {userId} - {userId} == {};
      assert r[emoji := {userId}] - {emoji} == r;
    }
  }

  lemma ReactionUnknownMessage(s: ChatState, id: Prim, emoji: string, userId: Prim)
    requires id !in s.messages
    ensures AddReaction(s, id, emoji, userId) == s && RemoveReaction(s, id, emoji, userId) == s
  {
  }

  lemma TogglePinTwice(s: ChatState, id: Prim)
    ensures id in TogglePinMessage(s, id).pinnedMessages <==> id !in s.pinnedMessages
    ensures TogglePinMessage(TogglePinMessage(s, id), id) == s
  {
  }

  // ---------------------------------------------------------------------
  // Reading the room: search and recent messages

  /** The search result is exactly the room's messages that match;
      `performSearch` stores it. */
  lemma SearchExact(s: ChatState, query: string, roomId: Prim, m: Message)
    ensures m in SearchMessages(s, query, roomId) <==> m in GetRoomMessages(s, roomId) && Matches(m, query)
    ensures PerformSearch(s, query, roomId).searchResults == SearchMessages(s, query, roomId)
    ensures PerformSearch(s, query, roomId).messages == s.messages
  {
  }

  /** When every message of the room matches, the search returns the room's
      messages unchanged; when none does, it returns nothing. */
  lemma SearchAllOrNone(s: ChatState, query: string, roomId: Prim)
    ensures var all := GetRoomMessages(s, roomId);
            (forall i :: 0 <= i < |all| ==> MatchesQuery(query)(all[i])) ==> SearchMessages(s, query, roomId) == all
    ensures var all := GetRoomMessages(s, roomId);
            (forall i :: 0 <= i < |all| ==> !MatchesQuery(query)(all[i])) ==> SearchMessages(s, query, roomId) == []
  {
    var all := GetRoomMessages(s, roomId);
    var keep := MatchesQuery(query);
    if forall i :: 0 <= i < |all| ==> keep(all[i]) {
      FilterKeepsAll(all, keep);
    }
    if forall i :: 0 <= i < |all| ==> !keep(all[i]) {
      FilterKeepsNone(all, keep);
    }
  }

  /** The search keeps the room's order and multiplicity: wherever the room's
      messages are split around one message, the result is the matches before
      it, then that message if it matches, then the matches after it. */
  lemma SearchInOrder(s: ChatState, query: string, roomId: Prim, a: seq<Message>, m: Message, b: seq<Message>)
    requires GetRoomMessages(s, roomId) == a + [m] + b
    ensures SearchMessages(s, query, roomId) ==
            Filter(a, MatchesQuery(query)) + (if Matches(m, query) then [m] else []) + Filter(b, MatchesQuery(query))
  {
    FilterSplit(a, m, b, MatchesQuery(query));
  }

  /** Every text contains the empty string, so an empty query returns the
      whole room. */
  lemma EmptyQueryFindsAll(s: ChatState, roomId: Prim)
    ensures SearchMessages(s, "", roomId) == GetRoomMessages(s, roomId)
  {
    var all := GetRoomMessages(s, roomId);
    forall i | 0 <= i < |all| ensures Matches(all[i], "") {
      assert OccursAt(Lower(all[i].text), Lower(""), 0);
    }
    FilterKeepsAll(all, MatchesQuery(""));
  }

  /** The pinned list of a room is exactly the room's messages whose id is
      pinned; toggling an id flips the membership of the room's messages with
      that id and leaves the others' as it was. */
  lemma PinnedAfterToggle(s: ChatState, id: Prim, roomId: Prim, m: Message)
    ensures m in GetPinnedMessages(s, roomId) <==> m in GetRoomMessages(s, roomId) && m.id in s.pinnedMessages
    ensures m in GetRoomMessages(s, roomId) ==>
            (m in GetPinnedMessages(TogglePinMessage(s, id), roomId) <==>
             if m.id == id then id !in s.pinnedMessages else m.id in s.pinnedMessages)
  {
    assert TargetRoom(s, TargetRoom(s, roomId)) == TargetRoom(s, roomId);
  }

  /** After `addMessage`, a user's messages in the room are the ones they had
      before, in order, followed by the new record exactly when that user sent
      it. */
  lemma MessagesByUserAfterAdd(s: ChatState, d: MessageFields, roomId: Prim, genId: Prim, now: string, userId: Prim)
    ensures var s' := AddMessage(s, d, roomId, genId, now);
            var key := MessageKey(d, genId);
            GetMessagesByUser(s', userId, roomId) ==
            Filter(Resolve(RoomIndex(s, TargetRoom(s, roomId)), s'.messages), SentBy(userId))
            + (if Sender(d) == userId then [NewMessage(d, key, TargetRoom(s, roomId), now)] else [])
  {
    var s' := AddMessage(s, d, roomId, genId, now);
    var key := MessageKey(d, genId);
    AddMessageIsNewest(s, d, roomId, genId, now);
    FilterConcat(Resolve(RoomIndex(s, TargetRoom(s, roomId)), s'.messages), [s'.messages[key]], SentBy(userId));
    assert [s'.messages[key]][1..] == [];
  }

  /** With a positive limit, the recent messages are the last `limit` messages
      of the current room (all of them when there are fewer); a limit of 0
      gives the whole room, as `slice(-0)` is `slice(0)`. */
  lemma RecentMessagesSuffix(s: ChatState, limit: int)
    ensures var all := GetRoomMessages(s, Null);
            var r := GetRecentMessages(s, limit);
            && (limit > 0 ==> |r| == (if limit < |all| then limit else |all|) && all == all[..|all| - |r|] + r)
            && (limit == 0 ==> r == all)
  {
    var all := GetRoomMessages(s, Null);
    var b := if limit > 0 then (if |all| - limit < 0 then 0 else |all| - limit) else 0;
    if limit >= 0 {
      assert GetRecentMessages(s, limit) == all[b..];
      assert all == all[..b] + all[b..];
    }
  }

  // ---------------------------------------------------------------------
  // Helpers about resolving an index

  lemma {:induction false} ResolveSameKeys(ids: seq<Prim>, m: map<Prim, Message>, m': map<Prim, Message>)
    requires m.Keys == m'.Keys
    ensures |Resolve(ids, m)| == |Resolve(ids, m')|
  {
    if ids != [] {
      ResolveSameKeys(ids[1..], m, m');
    }
  }
}
