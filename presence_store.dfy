/** The presence store of `src/store/userStore.js` as an object holding the
    store's state. Each method copies the Maps and Sets the action copies,
    updates the copies (in a loop where the action loops over its argument)
    and replaces the state; its postcondition is the matching transition of
    PresenceModel. */
module PresenceStore {
  import opened Js
  import opened PresenceModel

  class Store {
    var state: UserState

    constructor ()
      ensures state == Initial()
    {
      state := Initial();
    }

    method AddUser(u: UserFields, genId: Prim, now: string)
      modifies this
      ensures state == PresenceModel.AddUser(old(state), u, genId, now)
    {
      var userId := Or(Val(u.id), genId);
      var newUser := NewUser(u, userId, now);
      var newOrder := if userId in state.users then state.order else state.order + [userId];
      var newOnlineUsers := if newUser.status == Online then SetAdd(state.onlineUsers, userId) else state.onlineUsers;
      state := state.(users := state.users[userId := newUser], order := newOrder,
                      lastSeen := state.lastSeen[userId := now], onlineUsers := newOnlineUsers);
    }

    method UpdateUser(id: Prim, p: UserFields, now: string)
      modifies this
      ensures state == PresenceModel.UpdateUser(old(state), id, p, now)
    {
      if id in state.users {
        var updated := Spread(state.users[id], p).(lastActive := Str(now));
        var newOnlineUsers := state.onlineUsers;
        if Val(p.status) == Online {
          newOnlineUsers := SetAdd(newOnlineUsers, id);
        } else if Truthy(Val(p.status)) {
          newOnlineUsers := SetDelete(newOnlineUsers, id);
        }
        state := state.(users := state.users[id := updated], onlineUsers := newOnlineUsers);
      }
    }

    method RemoveUser(id: Prim)
      modifies this
      ensures state == PresenceModel.RemoveUser(old(state), id)
    {
      state := state.(users := state.users - {id}, order := SetDelete(state.order, id),
                      onlineUsers := SetDelete(state.onlineUsers, id),
                      typingUsers := SetDelete(state.typingUsers, id),
                      userActivities := state.userActivities - {id},
                      lastSeen := state.lastSeen - {id});
    }

    method BulkUpdateUsers(ps: seq<UserFields>, now: string)
      modifies this
      ensures state == PresenceModel.BulkUpdateUsers(old(state), ps, now)
    {
      var s := state;
      var newUsers := s.users;
      var i := 0;
      while i < |ps|
        invariant 0 <= i <= |ps|
        invariant s.(users := newUsers) == PresenceModel.BulkUpdateUsers(s, ps[..i], now)
      {
        assert ps[..i + 1][..i] == ps[..i];
        var userId := Val(ps[i].id);
        if userId in newUsers {
          newUsers := newUsers[userId := Spread(newUsers[userId], ps[i]).(lastActive := Str(now))];
        }
        i := i + 1;
      }
      assert ps[..i] == ps;
      state := s.(users := newUsers);
    }

    method SetUserStatus(id: Prim, status: Prim, now: string)
      modifies this
      ensures state == PresenceModel.SetUserStatus(old(state), id, status, now)
    {
      if id in state.users {
        var newOnlineUsers := if status == Online then SetAdd(state.onlineUsers, id) else SetDelete(state.onlineUsers, id);
        state := state.(users := state.users[id := state.users[id].(status := status, lastActive := Str(now))],
                        onlineUsers := newOnlineUsers);
      }
    }

    method SetUserActivity(id: Prim, activity: Prim, now: string)
      modifies this
      ensures state == PresenceModel.SetUserActivity(old(state), id, activity, now)
    {
      var newUserActivities := state.userActivities[id := ActivityEntry(activity, now)];
      if id in state.users {
        state := state.(userActivities := newUserActivities,
                        users := state.users[id := state.users[id].(activity := activity, lastActive := Str(now))]);
      } else {
        state := state.(userActivities := newUserActivities);
      }
    }

    method SetUserTyping(id: Prim, isTyping: Prim, now: string)
      modifies this
      ensures state == PresenceModel.SetUserTyping(old(state), id, isTyping, now)
    {
      var typing := if isTyping == Undefined then true else Truthy(isTyping);
      var newTypingUsers := if typing then SetAdd(state.typingUsers, id) else SetDelete(state.typingUsers, id);
      var activity := if typing then Str("Typing...") else Str("Online");
      if id in state.users {
        state := state.(typingUsers := newTypingUsers,
                        users := state.users[id := state.users[id].(activity := activity, lastActive := Str(now))]);
      } else {
        state := state.(typingUsers := newTypingUsers);
      }
    }

    method SetMultipleUsersOnline(ids: seq<Prim>, now: string)
      modifies this
      ensures state == PresenceModel.SetMultipleUsersOnline(old(state), ids, now)
    {
      var s := state;
      var newOnlineUsers := s.onlineUsers;
      var newUsers := s.users;
      var i := 0;
      while i < |ids|
        invariant 0 <= i <= |ids|
        invariant s.(onlineUsers := newOnlineUsers, users := newUsers) == PresenceModel.SetMultipleUsersOnline(s, ids[..i], now)
      {
        assert ids[..i + 1][..i] == ids[..i];
        var userId := ids[i];
        newOnlineUsers := SetAdd(newOnlineUsers, userId);
        if userId in newUsers {
          newUsers := newUsers[userId := newUsers[userId].(status := Online, lastActive := Str(now))];
        }
        i := i + 1;
      }
      assert ids[..i] == ids;
      state := s.(onlineUsers := newOnlineUsers, users := newUsers);
    }

    method SetMultipleUsersOffline(ids: seq<Prim>, now: string)
      modifies this
      ensures state == PresenceModel.SetMultipleUsersOffline(old(state), ids, now)
    {
      var s := state;
      var newOnlineUsers := s.onlineUsers;
      var newTypingUsers := s.typingUsers;
      var newUsers := s.users;
      var newLastSeen := s.lastSeen;
      var i := 0;
      while i < |ids|
        invariant 0 <= i <= |ids|
        invariant s.(onlineUsers := newOnlineUsers, typingUsers := newTypingUsers, users := newUsers, lastSeen := newLastSeen)
                  == PresenceModel.SetMultipleUsersOffline(s, ids[..i], now)
      {
        assert ids[..i + 1][..i] == ids[..i];
        var userId := ids[i];
        newOnlineUsers := SetDelete(newOnlineUsers, userId);
        newTypingUsers := SetDelete(newTypingUsers, userId);
        if userId in newUsers {
          newUsers := newUsers[userId := newUsers[userId].(status := Offline, activity := Str("Offline"))];
        }
        newLastSeen := newLastSeen[userId := now];
        i := i + 1;
      }
      assert ids[..i] == ids;
      state := s.(onlineUsers := newOnlineUsers, typingUsers := newTypingUsers, users := newUsers, lastSeen := newLastSeen);
    }

    method SetCurrentUser(id: Prim)
      modifies this
      ensures state == PresenceModel.SetCurrentUser(old(state), id)
    {
      state := state.(currentUserId := id);
    }

    method ClearAllUsers()
      modifies this
      ensures state == PresenceModel.ClearAllUsers(old(state))
    {
      state := Initial();
    }

    method BatchUserUpdates(bs: seq<BatchUpdate>, now: string)
      modifies this
      ensures state == PresenceModel.BatchUserUpdates(old(state), bs, now)
    {
      var s := state;
      var newOnlineUsers := s.onlineUsers;
      var newTypingUsers := s.typingUsers;
      var newUserActivities := s.userActivities;
      var newUsers := s.users;
      var i := 0;
      while i < |bs|
        invariant 0 <= i <= |bs|
        invariant s.(onlineUsers := newOnlineUsers, typingUsers := newTypingUsers,
                     userActivities := newUserActivities, users := newUsers)
                  == PresenceModel.BatchUserUpdates(s, bs[..i], now)
      {
        assert bs[..i + 1][..i] == bs[..i];
        var b := bs[i];
        if b.kind == Str("status") {
          newOnlineUsers := if b.data == Online then SetAdd(newOnlineUsers, b.userId) else SetDelete(newOnlineUsers, b.userId);
        } else if b.kind == Str("typing") {
          newTypingUsers := if Truthy(b.data) then SetAdd(newTypingUsers, b.userId) else SetDelete(newTypingUsers, b.userId);
        } else if b.kind == Str("activity") {
          newUserActivities := newUserActivities[b.userId := ActivityEntry(b.data, now)];
        }
        if b.userId in newUsers {
          var u := newUsers[b.userId];
          newUsers := newUsers[b.userId := u.(status := if b.kind == Str("status") then b.data else u.status,
                                              activity := if b.kind == Str("activity") then b.data else u.activity,
                                              lastActive := Str(now))];
        }
        i := i + 1;
      }
      assert bs[..i] == bs;
      state := s.(onlineUsers := newOnlineUsers, typingUsers := newTypingUsers,
                  userActivities := newUserActivities, users := newUsers);
    }
  }
}
