/** The message store of `src/store/chatStore.js`. A zustand store holds one
    state object and each action's `set(...)` replaces it by a shallow merge
    of the old state and the partial the action returns; here the store is an
    object whose one field is that state, and each method performs the action
    on local copies (looping where the source loops) and then replaces the
    state. Each method's postcondition is the matching transition of
    ChatModel. */
module ChatStore {
  import opened Js
  import opened ChatModel

  class Store {
    var state: ChatState

    constructor ()
      ensures state == Initial()
    {
      state := Initial();
    }

    method AddMessage(d: MessageFields, roomId: Prim, genId: Prim, now: string)
      modifies this
      ensures state == ChatModel.AddMessage(old(state), d, roomId, genId, now)
    {
      var target := Or(roomId, state.currentRoomId);
      var key := Or(d.id, genId);
      var m := NewMessage(d, key, target, now);
      var newMessages := state.messages[key := m];
      // a room without an index or a sender set starts from an empty one
      var newMessagesByRoom := state.messagesByRoom[target := Lookup(state.messagesByRoom, target, []) + [key]];
      var newUsersByRoom := state.usersByRoom[target := SetAdd(Lookup(state.usersByRoom, target, []), m.user.id)];
      var newUnreadCounts := if target != state.currentRoomId
                             then state.unreadCounts[target := Lookup(state.unreadCounts, target, 0) + 1]
                             else state.unreadCounts;
      state := state.(messages := newMessages, messagesByRoom := newMessagesByRoom,
                      usersByRoom := newUsersByRoom, unreadCounts := newUnreadCounts);
    }

    method UpdateMessage(id: Prim, p: MessageFields, now: string)
      modifies this
      ensures state == ChatModel.UpdateMessage(old(state), id, p, now)
    {
      if id in state.messages {
        var m := state.messages[id];
        state := state.(messages := state.messages[id := Updated(m, p, now)]);
      }
    }

    method DeleteMessage(id: Prim, soft: bool, now: string)
      modifies this
      ensures state == ChatModel.DeleteMessage(old(state), id, soft, now)
    {
      if id in state.messages {
        var m := state.messages[id];
        var newMessages := state.messages;
        if soft {
          newMessages := newMessages[id := m.(isDeleted := true, deletedAt := Some(now), text := Tombstone)];
        } else {
          newMessages := newMessages - {id};
          // the compacted copy of the room index is built and never stored
        }
        state := state.(messages := newMessages, pinnedMessages := state.pinnedMessages - {id});
      }
    }

    method BulkAddMessages(ds: seq<MessageFields>, roomId: Prim, genIds: seq<Prim>, now: string)
      requires |genIds| == |ds|
      modifies this
      ensures state == ChatModel.BulkAddMessages(old(state), ds, roomId, genIds, now)
    {
      var s := state;
      var target := Or(roomId, s.currentRoomId);
      var newMessages := s.messages;
      var roomMessages := Lookup(s.messagesByRoom, target, []);
      var roomUsers := Lookup(s.usersByRoom, target, []);
      var i := 0;
      while i < |ds|
        invariant 0 <= i <= |ds|
        invariant newMessages == StoreAll(s.messages, ds[..i], genIds[..i], target, now)
        invariant roomMessages == RoomIndex(s, target) + BulkKeys(ds[..i], genIds[..i])
        invariant roomUsers == AddSenders(RoomUsers(s, target), ds[..i])
      {
        var key := Or(ds[i].id, genIds[i]);
        var m := NewMessage(ds[i], key, target, now);
        newMessages := newMessages[key := m];
        roomMessages := roomMessages + [key];
        roomUsers := SetAdd(roomUsers, m.user.id);
        BulkPrefixStep(s.messages, RoomUsers(s, target), ds, genIds, target, now, i);
        i := i + 1;
      }
      assert ds[..i] == ds && genIds[..i] == genIds;
      state := s.(messages := newMessages,
                  messagesByRoom := s.messagesByRoom[target := roomMessages],
                  usersByRoom := s.usersByRoom[target := roomUsers]);
    }

    method ClearRoomMessages(roomId: Prim)
      modifies this
      ensures state == ChatModel.ClearRoomMessages(old(state), roomId)
    {
      var target := Or(roomId, state.currentRoomId);
      var ids := Lookup(state.messagesByRoom, target, []);
      var newMessages := state.messages;
      var newPinned := state.pinnedMessages;
      var i := 0;
      while i < |ids|
        invariant 0 <= i <= |ids|
        invariant newMessages == state.messages - set j | 0 <= j < i :: ids[j]
        invariant newPinned == state.pinnedMessages - set j | 0 <= j < i :: ids[j]
      {
        assert (set j | 0 <= j < i + 1 :: ids[j]) == (set j | 0 <= j < i :: ids[j]) + {ids[i]};
        newMessages := newMessages - {ids[i]};
        newPinned := newPinned - {ids[i]};
        i := i + 1;
      }
      assert (set j | 0 <= j < i :: ids[j]) == set k | k in ids;
      state := state.(messages := newMessages, pinnedMessages := newPinned,
                      messagesByRoom := state.messagesByRoom[target := []],
                      unreadCounts := state.unreadCounts[target := 0],
                      usersByRoom := state.usersByRoom[target := []]);
    }

    method SetCurrentRoom(roomId: Prim, now: string)
      modifies this
      ensures state == ChatModel.SetCurrentRoom(old(state), roomId, now)
    {
      state := state.(currentRoomId := roomId,
                      unreadCounts := state.unreadCounts[roomId := 0],
                      lastReadTimestamps := state.lastReadTimestamps[roomId := now]);
    }

    method MarkAsRead(roomId: Prim, now: string)
      modifies this
      ensures state == ChatModel.MarkAsRead(old(state), roomId, now)
    {
      var target := Or(roomId, state.currentRoomId);
      state := state.(unreadCounts := state.unreadCounts[target := 0],
                      lastReadTimestamps := state.lastReadTimestamps[target := now]);
    }

    method IncrementUnread(roomId: Prim)
      modifies this
      ensures state == ChatModel.IncrementUnread(old(state), roomId)
    {
      var currentUnread := Lookup(state.unreadCounts, roomId, 0);
      state := state.(unreadCounts := state.unreadCounts[roomId := currentUnread + 1]);
    }

    method AddReaction(id: Prim, emoji: string, userId: Prim)
      modifies this
      ensures state == ChatModel.AddReaction(old(state), id, emoji, userId)
    {
      if id in state.messages {
        var m := state.messages[id];
        var reactions := m.reactions;
        if emoji in reactions {
          reactions := reactions[emoji := reactions[emoji] + {userId}];
        } else {
          reactions := reactions[emoji := {userId}];
        }
        state := state.(messages := state.messages[id := m.(reactions := reactions)]);
      }
    }

    method RemoveReaction(id: Prim, emoji: string, userId: Prim)
      modifies this
      ensures state == ChatModel.RemoveReaction(old(state), id, emoji, userId)
    {
      if id in state.messages {
        var m := state.messages[id];
        var reactions := m.reactions;
        if emoji in reactions {
          var users := reactions[emoji] - {userId};
          if |users| == 0 {
            reactions := reactions - {emoji};
          } else {
            reactions := reactions[emoji := users];
          }
        }
        state := state.(messages := state.messages[id := m.(reactions := reactions)]);
      }
    }

    method TogglePinMessage(id: Prim)
      modifies this
      ensures state == ChatModel.TogglePinMessage(old(state), id)
    {
      if id in state.pinnedMessages {
        state := state.(pinnedMessages := state.pinnedMessages - {id});
      } else {
        state := state.(pinnedMessages := state.pinnedMessages + {id});
      }
    }

    method SetReplyingTo(id: Prim)
      modifies this
      ensures state == old(state).(replyingTo := id)
    {
      state := state.(replyingTo := id);
    }

    method ClearReplyingTo()
      modifies this
      ensures state == old(state).(replyingTo := Null)
    {
      state := state.(replyingTo := Null);
    }

    method SetEditingMessage(id: Prim)
      modifies this
      ensures state == old(state).(editingMessageId := id)
    {
      state := state.(editingMessageId := id);
    }

    method ClearEditingMessage()
      modifies this
      ensures state == old(state).(editingMessageId := Null)
    {
      state := state.(editingMessageId := Null);
    }

    method PerformSearch(query: string, roomId: Prim)
      modifies this
      ensures state == ChatModel.PerformSearch(old(state), query, roomId)
    {
      state := state.(searchResults := SearchMessages(state, query, roomId));
    }

    method ClearSearch()
      modifies this
      ensures state == old(state).(searchResults := [])
    {
      state := state.(searchResults := []);
    }

    method SetLoading(value: bool)
      modifies this
      ensures state == old(state).(isLoading := value)
    {
      state := state.(isLoading := value);
    }

    method AddToQueue(m: Message)
      modifies this
      ensures state == old(state).(messageQueue := old(state).messageQueue + [m])
    {
      state := state.(messageQueue := state.messageQueue + [m]);
    }

    method RemoveFromQueue(id: Prim)
      modifies this
      ensures state == ChatModel.RemoveFromQueue(old(state), id)
    {
      state := state.(messageQueue := Filter(state.messageQueue, (m: Message) => m.id != id));
    }

    method ClearQueue()
      modifies this
      ensures state == old(state).(messageQueue := [])
    {
      state := state.(messageQueue := []);
    }

    method ClearAllMessages()
      modifies this
      ensures state == ChatModel.ClearAllMessages(old(state))
    {
      state := state.(messages := map[], messagesByRoom := map[], usersByRoom := map[],
                      unreadCounts := map[], lastReadTimestamps := map[], pinnedMessages := {},
                      messageQueue := [], searchResults := [], replyingTo := Null, editingMessageId := Null);
    }
  }
}
