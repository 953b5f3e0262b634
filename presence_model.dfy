/** The presence store of `src/store/userStore.js` as values: a profile map
    plus the online, typing, activity and last-seen indexes, its selectors,
    and one transition function per action. The class in module
    PresenceStore performs the same updates in place. */
module PresenceModel {
  import opened Js

  const Online: Prim := Str("online")
  const Offline: Prim := Str("offline")

  /** A profile. Every field holds whatever value the caller's object carried
      for that key, so all of them are JavaScript values. */
  datatype User = User(
    id: Prim,
    name: Prim,
    avatar: Prim,
    status: Prim,
    activity: Prim,
    joinedAt: Prim,
    lastActive: Prim)

  /** An object passed to `addUser`, `updateUser` or `bulkUpdateUsers`:
      `None` is a key the object does not have. */
  datatype UserFields = UserFields(
    id: Option<Prim>,
    name: Option<Prim>,
    avatar: Option<Prim>,
    status: Option<Prim>,
    activity: Option<Prim>,
    joinedAt: Option<Prim>,
    lastActive: Option<Prim>)

  /** Reading a key of such an object: an absent key reads as `undefined`. */
  function Val(o: Option<Prim>): Prim {
    o.GetOr(Undefined)
  }

  datatype ActivityEntry = ActivityEntry(activity: Prim, timestamp: string)

  /** One entry of `batchUserUpdates`: `{ userId, type, data }`. */
  datatype BatchUpdate = BatchUpdate(userId: Prim, kind: Prim, data: Prim)

  /** The store's state. `users` is a JavaScript Map, whose iteration order is
      the order its keys were first inserted: `order` records that order.
      `onlineUsers` and `typingUsers` are insertion-ordered Sets. */
  datatype UserState = UserState(
    users: map<Prim, User>,
    order: seq<Prim>,
    currentUserId: Prim,
    onlineUsers: seq<Prim>,
    typingUsers: seq<Prim>,
    userActivities: map<Prim, ActivityEntry>,
    lastSeen: map<Prim, string>)

  function Initial(): UserState {
    UserState(map[], [], Null, [], [], map[], map[])
  }

  /** `order` lists each profile key exactly once, and the two Sets hold
      each id at most once. */
  ghost predicate Valid(s: UserState) {
    && NoDup(s.order) && (forall k :: k in s.order <==> k in s.users)
    && NoDup(s.onlineUsers) && NoDup(s.typingUsers)
  }

  /** `{...u, ...p}` */
  function Spread(u: User, p: UserFields): User {
    User(p.id.GetOr(u.id), p.name.GetOr(u.name), p.avatar.GetOr(u.avatar), p.status.GetOr(u.status),
         p.activity.GetOr(u.activity), p.joinedAt.GetOr(u.joinedAt), p.lastActive.GetOr(u.lastActive))
  }

  // ---------------------------------------------------------------------
  // Selectors

  function GetUser(s: UserState, id: Prim): Option<User> {
    if id in s.users then Some(s.users[id]) else None
  }

  function GetAllUsers(s: UserState): seq<User> {
    Resolve(s.order, s.users)
  }

  function GetOnlineUsers(s: UserState): seq<User> {
    Resolve(s.onlineUsers, s.users)
  }

  /** The filter callback of `getUsersByStatus`. */
  function HasStatus(status: Prim): User -> bool {
    (u: User) => u.status == status
  }

  function GetUsersByStatus(s: UserState, status: Prim): seq<User> {
    Filter(GetAllUsers(s), HasStatus(status))
  }

  function GetTypingUsers(s: UserState): seq<User> {
    Resolve(s.typingUsers, s.users)
  }

  function GetUsersCount(s: UserState): nat {
    |s.users|
  }

  function GetOnlineCount(s: UserState): nat {
    |s.onlineUsers|
  }

  // ---------------------------------------------------------------------
  // Actions

  /** The key `addUser` stores a profile under: `user.id || Date.now().toString()`. */
  function UserKey(u: UserFields, genId: Prim): Prim {
    Or(Val(u.id), genId)
  }

  /** The profile `addUser` builds: defaults, then every key of `u`. */
  function NewUser(u: UserFields, key: Prim, now: string): User {
    Spread(User(key, Val(u.name), Or(Val(u.avatar), Null), Or(Val(u.status), Offline),
                Or(Val(u.activity), Str("Idle")), Str(now), Str(now)), u)
  }

  /** Writes a profile: a new key goes to the end of the Map's order. */
  function Put(s: UserState, id: Prim, u: User): UserState {
    s.(users := s.users[id := u], order := if id in s.users then s.order else s.order + [id])
  }

  function AddUser(s: UserState, u: UserFields, genId: Prim, now: string): UserState {
    var key := UserKey(u, genId);
    var user := NewUser(u, key, now);
    Put(s, key, user).(lastSeen := s.lastSeen[key := now],
                       onlineUsers := if user.status == Online then SetAdd(s.onlineUsers, key) else s.onlineUsers)
  }

  function UpdateUser(s: UserState, id: Prim, p: UserFields, now: string): UserState {
    if id !in s.users then s
    else
      var status := Val(p.status);
      s.(users := s.users[id := Spread(s.users[id], p).(lastActive := Str(now))],
         onlineUsers := if status == Online then SetAdd(s.onlineUsers, id)
                        else if Truthy(status) then SetDelete(s.onlineUsers, id)
                        else s.onlineUsers)
  }

  function RemoveUser(s: UserState, id: Prim): UserState {
    s.(users := s.users - {id},
       order := SetDelete(s.order, id),
       onlineUsers := SetDelete(s.onlineUsers, id),
       typingUsers := SetDelete(s.typingUsers, id),
       userActivities := s.userActivities - {id},
       lastSeen := s.lastSeen - {id})
  }

  /** One entry of `bulkUpdateUsers`: merged only when the profile exists. */
  function BulkUpdateStep(s: UserState, p: UserFields, now: string): UserState {
    var id := Val(p.id);
    if id in s.users then s.(users := s.users[id := Spread(s.users[id], p).(lastActive := Str(now))])
    else s
  }

  function BulkUpdateUsers(s: UserState, ps: seq<UserFields>, now: string): UserState
    decreases |ps|
  {
    if |ps| == 0 then s
    else BulkUpdateStep(BulkUpdateUsers(s, ps[..|ps| - 1], now), ps[|ps| - 1], now)
  }

  function SetUserStatus(s: UserState, id: Prim, status: Prim, now: string): UserState {
    if id !in s.users then s
    else
      s.(users := s.users[id := s.users[id].(status := status, lastActive := Str(now))],
         onlineUsers := if status == Online then SetAdd(s.onlineUsers, id) else SetDelete(s.onlineUsers, id))
  }

  function SetUserActivity(s: UserState, id: Prim, activity: Prim, now: string): UserState {
    var s1 := s.(userActivities := s.userActivities[id := ActivityEntry(activity, now)]);
    if id in s.users then s1.(users := s.users[id := s.users[id].(activity := activity, lastActive := Str(now))])
    else s1
  }

  /** `isTyping` defaults to true when the argument is `undefined`. */
  function IsTypingArg(isTyping: Prim): bool {
    if isTyping == Undefined then true else Truthy(isTyping)
  }

  function SetUserTyping(s: UserState, id: Prim, isTyping: Prim, now: string): UserState {
    var typing := IsTypingArg(isTyping);
    var s1 := s.(typingUsers := if typing then SetAdd(s.typingUsers, id) else SetDelete(s.typingUsers, id));
    var activity := if typing then Str("Typing...") else Str("Online");
    if id in s.users then s1.(users := s.users[id := s.users[id].(activity := activity, lastActive := Str(now))])
    else s1
  }

  function OnlineStep(s: UserState, id: Prim, now: string): UserState {
    var s1 := s.(onlineUsers := SetAdd(s.onlineUsers, id));
    if id in s.users then s1.(users := s.users[id := s.users[id].(status := Online, lastActive := Str(now))])
    else s1
  }

  function SetMultipleUsersOnline(s: UserState, ids: seq<Prim>, now: string): UserState
    decreases |ids|
  {
    if |ids| == 0 then s
    else OnlineStep(SetMultipleUsersOnline(s, ids[..|ids| - 1], now), ids[|ids| - 1], now)
  }

  /** One id of `setMultipleUsersOffline`; the profile keeps its `lastActive`. */
  function OfflineStep(s: UserState, id: Prim, now: string): UserState {
    var s1 := s.(onlineUsers := SetDelete(s.onlineUsers, id),
                 typingUsers := SetDelete(s.typingUsers, id),
                 lastSeen := s.lastSeen[id := now]);
    if id in s.users then s1.(users := s.users[id := s.users[id].(status := Offline, activity := Str("Offline"))])
    else s1
  }

  function SetMultipleUsersOffline(s: UserState, ids: seq<Prim>, now: string): UserState
    decreases |ids|
  {
    if |ids| == 0 then s
    else OfflineStep(SetMultipleUsersOffline(s, ids[..|ids| - 1], now), ids[|ids| - 1], now)
  }

  function SetCurrentUser(s: UserState, id: Prim): UserState {
    s.(currentUserId := id)
  }

  function ClearAllUsers(s: UserState): UserState {
    Initial()
  }

  /** One entry of `batchUserUpdates`: the index its `type` names, then the
      profile (when it exists) with the status or activity it carries and a
      fresh `lastActive`. An unknown `type` only touches `lastActive`. */
  function BatchStep(s: UserState, b: BatchUpdate, now: string): UserState {
    var id := b.userId;
    var s1 :=
      if b.kind == Str("status") then
        s.(onlineUsers := if b.data == Online then SetAdd(s.onlineUsers, id) else SetDelete(s.onlineUsers, id))
      else if b.kind == Str("typing") then
        s.(typingUsers := if Truthy(b.data) then SetAdd(s.typingUsers, id) else SetDelete(s.typingUsers, id))
      else if b.kind == Str("activity") then
        s.(userActivities := s.userActivities[id := ActivityEntry(b.data, now)])
      else s;
    if id in s.users then
      var u := s.users[id];
      s1.(users := s.users[id := u.(status := if b.kind == Str("status") then b.data else u.status,
                                    activity := if b.kind == Str("activity") then b.data else u.activity,
                                    lastActive := Str(now))])
    else s1
  }

  function BatchUserUpdates(s: UserState, bs: seq<BatchUpdate>, now: string): UserState
    decreases |bs|
  {
    if |bs| == 0 then s
    else BatchStep(BatchUserUpdates(s, bs[..|bs| - 1], now), bs[|bs| - 1], now)
  }

  // ---------------------------------------------------------------------
  // Properties of addUser

  /** `addUser` stores the profile under `user.id || generated`, a new key
      going to the end of the Map's order. Each field of the record is the
      argument's own key whenever it has one (even a falsy one); otherwise
      the id is the generated one, the name `undefined`, the avatar `null`,
      the status 'offline', the activity 'Idle', and both stamps the current
      time. `lastSeen` is stamped and no other profile changes. */
  lemma AddUserStores(s: UserState, u: UserFields, genId: Prim, now: string)
    ensures var key := UserKey(u, genId);
            var s' := AddUser(s, u, genId, now);
            var r := s'.users[key];
            && key in s'.users
            && r.id == (if u.id.Some? then u.id.value else genId)
            && r.name == (if u.name.Some? then u.name.value else Undefined)
            && r.avatar == (if u.avatar.Some? then u.avatar.value else Null)
            && r.status == (if u.status.Some? then u.status.value else Offline)
            && r.activity == (if u.activity.Some? then u.activity.value else Str("Idle"))
            && r.joinedAt == (if u.joinedAt.Some? then u.joinedAt.value else Str(now))
            && r.lastActive == (if u.lastActive.Some? then u.lastActive.value else Str(now))
            && s'.order == (if key in s.users then s.order else s.order + [key])
            && s'.lastSeen == s.lastSeen[key := now]
            && s'.users - {key} == s.users - {key}
  {
  }

  /** `addUser` puts the id in `onlineUsers` exactly when the stored status is
      'online', and never takes any id out. */
  lemma AddUserOnline(s: UserState, u: UserFields, genId: Prim, now: string)
    ensures var key := UserKey(u, genId);
            var s' := AddUser(s, u, genId, now);
            forall x :: x in s'.onlineUsers <==>
                          x in s.onlineUsers || (x == key && s'.users[key].status == Online)
  {
  }

  lemma InitialValid()
    ensures Valid(Initial())
  {
  }

  /** `addUser` keeps each profile key listed once in the Map's order and
      each id at most once in the Sets. */
  lemma AddUserValid(s: UserState, u: UserFields, genId: Prim, now: string)
    requires Valid(s)
    ensures Valid(AddUser(s, u, genId, now))
  {
    var key := UserKey(u, genId);
    if key !in s.users {
      forall i, j | 0 <= i < j < |s.order + [key]|
        ensures (s.order + [key])[i] != (s.order + [key])[j]
      {
        if j == |s.order| {
          assert s.order[i] in s.order;
        }
      }
    }
  }

  // ---------------------------------------------------------------------
  // Properties of updateUser and setUserStatus

  lemma UpdateUserUnknown(s: UserState, id: Prim, p: UserFields, now: string)
    requires id !in s.users
    ensures UpdateUser(s, id, p, now) == s
  {
  }

  /** After `updateUser` on an existing profile: status 'online' puts the id
      in `onlineUsers`, any other truthy status takes it out, and a falsy or
      absent status leaves its membership as it was. Other ids keep theirs;
      no profile is created or removed. */
  lemma UpdateUserOnline(s: UserState, id: Prim, p: UserFields, now: string)
    requires id in s.users
    ensures var s' := UpdateUser(s, id, p, now);
            var status := Val(p.status);
            && (id in s'.onlineUsers <==> status == Online || (!Truthy(status) && id in s.onlineUsers))
            && (forall x :: x != id ==> (x in s'.onlineUsers <==> x in s.onlineUsers))
            && s'.users.Keys == s.users.Keys
            && s'.users[id].lastActive == Str(now)
            && s'.users[id].status == (if p.status.Some? then p.status.value else s.users[id].status)
  {
  }

  lemma SetUserStatusUnknown(s: UserState, id: Prim, status: Prim, now: string)
    requires id !in s.users
    ensures SetUserStatus(s, id, status, now) == s
  {
  }

  /** On an existing profile, `setUserStatus` records the status and leaves
      the id in `onlineUsers` exactly when the status is 'online'. */
  lemma SetUserStatusOnline(s: UserState, id: Prim, status: Prim, now: string)
    requires id in s.users
    ensures var s' := SetUserStatus(s, id, status, now);
            && (id in s'.onlineUsers <==> status == Online)
            && s'.users[id].status == status
            && (forall x :: x != id ==> (x in s'.onlineUsers <==> x in s.onlineUsers))
  {
  }

  /** Every profile is online exactly when its status is 'online'. */
  ghost predicate Consistent(s: UserState) {
    forall k :: k in s.users ==> (k in s.onlineUsers <==> s.users[k].status == Online)
  }

  lemma SetUserStatusKeepsConsistent(s: UserState, id: Prim, status: Prim, now: string)
    requires Consistent(s)
    ensures Consistent(SetUserStatus(s, id, status, now))
  {
    var s' := SetUserStatus(s, id, status, now);
    forall k | k in s'.users
      ensures k in s'.onlineUsers <==> s'.users[k].status == Online
    {
      if k != id {
        assert s'.users[k] == s.users[k];
      }
    }
  }

  /** `updateUser` keeps profiles and online membership in step unless the
      patch carries a falsy status other than 'online' ... */
  lemma UpdateUserKeepsConsistent(s: UserState, id: Prim, p: UserFields, now: string)
    requires Consistent(s)
    requires p.status.Some? ==> Truthy(p.status.value)
    ensures Consistent(UpdateUser(s, id, p, now))
  {
    var s' := UpdateUser(s, id, p, now);
    forall k | k in s'.users
      ensures k in s'.onlineUsers <==> s'.users[k].status == Online
    {
      if k != id {
        assert s'.users[k] == s.users[k];
      }
    }
  }

  /** ... such as the empty string: the profile then says '' while the id
      stays online. */
  lemma UpdateUserFalsyStatusStaysOnline(now: string)
    ensures var u := User(Str("1"), Str("Alice"), Null, Online, Str("Here"), Str(now), Str(now));
            var s := Initial().(users := map[Str("1") := u], order := [Str("1")], onlineUsers := [Str("1")]);
            var s' := UpdateUser(s, Str("1"), UserFields(None, None, None, Some(Str("")), None, None, None), now);
            Consistent(s) && !Consistent(s')
  {
    var u := User(Str("1"), Str("Alice"), Null, Online, Str("Here"), Str(now), Str(now));
    var s := Initial().(users := map[Str("1") := u], order := [Str("1")], onlineUsers := [Str("1")]);
    var s' := UpdateUser(s, Str("1"), UserFields(None, None, None, Some(Str("")), None, None, None), now);
    assert s'.users[Str("1")].status == Str("");
    assert s'.onlineUsers == [Str("1")];
  }

  /** `addUser` never takes an id out of `onlineUsers`: an id put online
      before it had a profile stays online after an offline profile is added. */
  lemma AddUserAfterOnlineIsInconsistent(now: string)
    ensures var s := SetMultipleUsersOnline(Initial(), [Str("7")], now);
            var u := UserFields(Some(Str("7")), Some(Str("Gus")), None, Some(Offline), None, None, None);
            var s' := AddUser(s, u, Str("0"), now);
            Consistent(s) && !Consistent(s')
  {
    var s := SetMultipleUsersOnline(Initial(), [Str("7")], now);
    assert s == OnlineStep(SetMultipleUsersOnline(Initial(), [], now), Str("7"), now);
    assert s.onlineUsers == [Str("7")] && s.users == map[];
    var u := UserFields(Some(Str("7")), Some(Str("Gus")), None, Some(Offline), None, None, None);
    var s' := AddUser(s, u, Str("0"), now);
    assert s'.users[Str("7")].status == Offline;
    assert Str("7") in s'.onlineUsers;
  }

  // ---------------------------------------------------------------------
  // Properties of removeUser

  /** `removeUser` deletes the id from the profiles and all four indexes, and
      every other id keeps its entries. */
  lemma RemoveUserPurges(s: UserState, id: Prim)
    ensures var s' := RemoveUser(s, id);
            && id !in s'.users && id !in s'.order && id !in s'.onlineUsers && id !in s'.typingUsers
            && id !in s'.userActivities && id !in s'.lastSeen
            && s'.users == s.users - {id} && s'.userActivities == s.userActivities - {id}
            && s'.lastSeen == s.lastSeen - {id}
            && (forall x :: x != id ==> (x in s'.onlineUsers <==> x in s.onlineUsers))
            && (forall x :: x != id ==> (x in s'.typingUsers <==> x in s.typingUsers))
            && s'.currentUserId == s.currentUserId
  {
  }

  lemma RemoveUserValid(s: UserState, id: Prim)
    requires Valid(s)
    ensures Valid(RemoveUser(s, id))
  {
  }

  /** The single-profile actions keep the profile keys and the Map's order,
      and keep each Set free of duplicates. */
  lemma UpdateUserValid(s: UserState, id: Prim, p: UserFields, now: string)
    requires Valid(s)
    ensures Valid(UpdateUser(s, id, p, now))
  {
  }

  lemma SetUserStatusValid(s: UserState, id: Prim, status: Prim, now: string)
    requires Valid(s)
    ensures Valid(SetUserStatus(s, id, status, now))
  {
  }

  lemma SetUserActivityValid(s: UserState, id: Prim, activity: Prim, now: string)
    requires Valid(s)
    ensures Valid(SetUserActivity(s, id, activity, now))
  {
  }

  lemma SetUserTypingValid(s: UserState, id: Prim, isTyping: Prim, now: string)
    requires Valid(s)
    ensures Valid(SetUserTyping(s, id, isTyping, now))
  {
  }

  lemma SetCurrentUserValid(s: UserState, id: Prim)
    requires Valid(s)
    ensures Valid(SetCurrentUser(s, id)) && Valid(ClearAllUsers(s))
  {
  }

  // ---------------------------------------------------------------------
  // Properties of the bulk actions

  /** `bulkUpdateUsers` creates and removes no profile and touches nothing
      but the profiles: in particular `onlineUsers` stays as it was, even when
      a patch changes a status. */
  lemma {:induction false} BulkUpdateOnlyMerges(s: UserState, ps: seq<UserFields>, now: string)
    ensures var s' := BulkUpdateUsers(s, ps, now);
            s'.users.Keys == s.users.Keys && s' == s.(users := s'.users)
  {
    if |ps| > 0 {
      BulkUpdateOnlyMerges(s, ps[..|ps| - 1], now);
    }
  }

  /** After `setMultipleUsersOnline` the online set is the old one plus every
      listed id, with or without a profile; listed profiles say 'online'. */
  lemma {:induction false} MultipleOnlineMembers(s: UserState, ids: seq<Prim>, now: string)
    ensures var s' := SetMultipleUsersOnline(s, ids, now);
            && (forall x :: x in s'.onlineUsers <==> x in s.onlineUsers || x in ids)
            && s'.users.Keys == s.users.Keys
            && (forall k :: k in s.users ==> s'.users[k].status == if k in ids then Online else s.users[k].status)
  {
    if |ids| > 0 {
      var n := |ids| - 1;
      MultipleOnlineMembers(s, ids[..n], now);
      assert forall x :: x in ids <==> x in ids[..n] || x == ids[n] by {
        assert ids == ids[..n] + [ids[n]];
      }
    }
  }

  /** Ids without a profile count as online: `getOnlineCount` can exceed the
      number of profiles `getOnlineUsers` returns. */
  lemma OnlineCountExceedsOnlineUsers(now: string)
    ensures var s := SetMultipleUsersOnline(Initial(), [Str("ghost")], now);
            GetOnlineCount(s) == 1 && |GetOnlineUsers(s)| == 0
  {
    var s := SetMultipleUsersOnline(Initial(), [Str("ghost")], now);
    assert s == OnlineStep(SetMultipleUsersOnline(Initial(), [], now), Str("ghost"), now);
    assert s.onlineUsers == [Str("ghost")] && s.users == map[];
  }

  /** After `setMultipleUsersOffline` no listed id is online or typing, every
      listed id has a `lastSeen` stamp, and listed profiles say 'offline' and
      'Offline'; other ids keep their membership. */
  lemma MultipleOfflineMembers(s: UserState, ids: seq<Prim>, now: string)
    ensures var s' := SetMultipleUsersOffline(s, ids, now);
            && (forall x :: x in s'.onlineUsers <==> x in s.onlineUsers && x !in ids)
            && (forall x :: x in s'.typingUsers <==> x in s.typingUsers && x !in ids)
            && (forall x :: x in ids ==> x in s'.lastSeen && s'.lastSeen[x] == now)
            && s'.users.Keys == s.users.Keys
            && (forall k :: k in s.users && k in ids ==> s'.users[k].status == Offline && s'.users[k].activity == Str("Offline"))
  {
    OfflineSets(s, ids, now);
    OfflineLastSeen(s, ids, now);
    OfflineUserKeys(s, ids, now);
    forall k | k in s.users && k in ids
      ensures var users := SetMultipleUsersOffline(s, ids, now).users;
              users[k].status == Offline && users[k].activity == Str("Offline")
    {
      OfflineUser(s, ids, now, k);
    }
  }

  lemma {:induction false} OfflineSets(s: UserState, ids: seq<Prim>, now: string)
    ensures var s' := SetMultipleUsersOffline(s, ids, now);
            && (forall x :: x in s'.onlineUsers <==> x in s.onlineUsers && x !in ids)
            && (forall x :: x in s'.typingUsers <==> x in s.typingUsers && x !in ids)
  {
    if |ids| > 0 {
      var n := |ids| - 1;
      OfflineSets(s, ids[..n], now);
      assert forall x :: x in ids <==> x in ids[..n] || x == ids[n] by {
        assert ids == ids[..n] + [ids[n]];
      }
    }
  }

  lemma {:induction false} OfflineLastSeen(s: UserState, ids: seq<Prim>, now: string)
    ensures forall x :: x in ids ==>
      x in SetMultipleUsersOffline(s, ids, now).lastSeen && SetMultipleUsersOffline(s, ids, now).lastSeen[x] == now
  {
    if |ids| > 0 {
      var n := |ids| - 1;
      var prev := SetMultipleUsersOffline(s, ids[..n], now);
      OfflineLastSeen(s, ids[..n], now);
      assert SetMultipleUsersOffline(s, ids, now).lastSeen == prev.lastSeen[ids[n] := now];
      assert forall x :: x in ids <==> x in ids[..n] || x == ids[n] by {
        assert ids == ids[..n] + [ids[n]];
      }
    }
  }

  lemma {:induction false} OfflineUserKeys(s: UserState, ids: seq<Prim>, now: string)
    ensures SetMultipleUsersOffline(s, ids, now).users.Keys == s.users.Keys
  {
    if |ids| > 0 {
      OfflineUserKeys(s, ids[..|ids| - 1], now);
    }
  }

  lemma {:induction false} OfflineUser(s: UserState, ids: seq<Prim>, now: string, k: Prim)
    requires k in s.users && k in ids
    ensures var users := SetMultipleUsersOffline(s, ids, now).users;
            k in users && users[k].status == Offline && users[k].activity == Str("Offline")
  {
    var n := |ids| - 1;
    var prev := SetMultipleUsersOffline(s, ids[..n], now);
    OfflineUserKeys(s, ids[..n], now);
    assert SetMultipleUsersOffline(s, ids, now) == OfflineStep(prev, ids[n], now);
    OfflineStepUsers(prev, ids[n], now);
    if ids[n] != k {
      PrefixMember(ids, k);
      OfflineUser(s, ids[..n], now, k);
    }
  }

  lemma OfflineStepUsers(p: UserState, id: Prim, now: string)
    ensures OfflineStep(p, id, now).users
            == if id in p.users then p.users[id := p.users[id].(status := Offline, activity := Str("Offline"))] else p.users
  {
  }

  /** `batchUserUpdates` creates no profile and keeps the Map's order. */
  lemma {:induction false} BatchKeepsProfiles(s: UserState, bs: seq<BatchUpdate>, now: string)
    ensures var s' := BatchUserUpdates(s, bs, now);
            s'.users.Keys == s.users.Keys && s'.order == s.order && s'.lastSeen == s.lastSeen
  {
    if |bs| > 0 {
      BatchKeepsProfiles(s, bs[..|bs| - 1], now);
    }
  }

  /** A 'status' entry decides online membership as `setUserStatus` does and,
      for an existing profile, records the status. */
  lemma BatchStatusEntry(s: UserState, id: Prim, status: Prim, now: string)
    ensures var s' := BatchStep(s, BatchUpdate(id, Str("status"), status), now);
            && (id in s'.onlineUsers <==> status == Online)
            && (id in s.users ==> s'.users[id].status == status && s'.users[id].activity == s.users[id].activity)
            && s'.typingUsers == s.typingUsers
  {
  }

  lemma BulkUpdateValid(s: UserState, ps: seq<UserFields>, now: string)
    requires Valid(s)
    ensures Valid(BulkUpdateUsers(s, ps, now))
  {
    BulkUpdateOnlyMerges(s, ps, now);
  }

  /** `setMultipleUsersOnline` adds each id to the online Set at most once,
      even when the list repeats an id. */
  lemma {:induction false} MultipleOnlineValid(s: UserState, ids: seq<Prim>, now: string)
    requires Valid(s)
    ensures Valid(SetMultipleUsersOnline(s, ids, now))
  {
    if |ids| > 0 {
      MultipleOnlineValid(s, ids[..|ids| - 1], now);
    }
  }

  lemma {:induction false} MultipleOfflineValid(s: UserState, ids: seq<Prim>, now: string)
    requires Valid(s)
    ensures Valid(SetMultipleUsersOffline(s, ids, now))
  {
    if |ids| > 0 {
      MultipleOfflineValid(s, ids[..|ids| - 1], now);
    }
  }

  lemma {:induction false} BatchValid(s: UserState, bs: seq<BatchUpdate>, now: string)
    requires Valid(s)
    ensures Valid(BatchUserUpdates(s, bs, now))
  {
    if |bs| > 0 {
      BatchValid(s, bs[..|bs| - 1], now);
    }
  }

  // ---------------------------------------------------------------------
  // Properties of setUserTyping and setUserActivity

  /** `setUserTyping` adds or removes the id in `typingUsers` whether or not
      it has a profile, and changes the profile's activity only when one
      exists. */
  lemma SetUserTypingEffect(s: UserState, id: Prim, isTyping: Prim, now: string)
    ensures var s' := SetUserTyping(s, id, isTyping, now);
            && (forall x :: x in s'.typingUsers <==> if x == id then IsTypingArg(isTyping) else x in s.typingUsers)
            && (id in s.users ==> s'.users[id].activity == (if IsTypingArg(isTyping) then Str("Typing...") else Str("Online")))
            && (id !in s.users ==> s'.users == s.users)
            && s'.onlineUsers == s.onlineUsers
  {
  }

  /** `setUserActivity` records the activity even for an id with no profile. */
  lemma SetUserActivityRecords(s: UserState, id: Prim, activity: Prim, now: string)
    ensures var s' := SetUserActivity(s, id, activity, now);
            && s'.userActivities == s.userActivities[id := ActivityEntry(activity, now)]
            && (id in s.users ==> s'.users[id].activity == activity)
            && (id !in s.users ==> s'.users == s.users)
  {
  }

  // ---------------------------------------------------------------------
  // Selectors

  lemma {:induction false} NoDupSetSize<T>(xs: seq<T>)
    requires NoDup(xs)
    ensures |set x | x in xs| == |xs|
  {
    if xs != [] {
      assert NoDup(xs[1..]);
      NoDupSetSize(xs[1..]);
      assert (set x | x in xs) == (set x | x in xs[1..]) + {xs[0]};
      assert xs[0] !in xs[1..];
    }
  }

  /** In a valid state `getAllUsers` lists every profile once, in insertion
      order, so its length is `getUsersCount`. */
  lemma AllUsersCount(s: UserState)
    requires Valid(s)
    ensures |GetAllUsers(s)| == GetUsersCount(s) == |s.order|
    ensures forall i :: 0 <= i < |s.order| ==> GetAllUsers(s)[i] == s.users[s.order[i]]
  {
    ResolveTotal(s.order, s.users);
    NoDupSetSize(s.order);
    assert (set x | x in s.order) == s.users.Keys;
  }

  /** `getOnlineUsers` holds exactly the profiles of the online ids that have
      one; it is as long as `getOnlineCount` when every online id has a
      profile, and never longer. */
  lemma OnlineUsersExact(s: UserState, k: Prim, u: User)
    ensures k in s.onlineUsers && k in s.users ==> s.users[k] in GetOnlineUsers(s)
    ensures u in GetOnlineUsers(s) ==> exists x :: x in s.onlineUsers && x in s.users && s.users[x] == u
    ensures |GetOnlineUsers(s)| <= GetOnlineCount(s)
    ensures (forall i :: 0 <= i < |s.onlineUsers| ==> s.onlineUsers[i] in s.users) ==>
            |GetOnlineUsers(s)| == GetOnlineCount(s)
  {
    if k in s.onlineUsers && k in s.users {
      ResolveContains(s.onlineUsers, s.users, k);
    }
    if forall i :: 0 <= i < |s.onlineUsers| ==> s.onlineUsers[i] in s.users {
      ResolveTotal(s.onlineUsers, s.users);
    }
  }

  /** In a valid state `getOnlineCount` is the number of distinct online ids. */
  lemma OnlineCountIsSetSize(s: UserState)
    requires Valid(s)
    ensures GetOnlineCount(s) == |set x | x in s.onlineUsers|
  {
    NoDupSetSize(s.onlineUsers);
  }

  /** After `setUserStatus` on an existing profile, the profile is listed by
      `getUsersByStatus` for the new status, and by `getOnlineUsers` when that
      status is 'online'. */
  lemma SetUserStatusListed(s: UserState, id: Prim, status: Prim, now: string)
    requires Valid(s) && id in s.users
    ensures var s' := SetUserStatus(s, id, status, now);
            && s'.users[id] in GetUsersByStatus(s', status)
            && (forall u :: u in GetUsersByStatus(s', status) ==> u.status == status)
            && (status == Online ==> s'.users[id] in GetOnlineUsers(s'))
  {
    var s' := SetUserStatus(s, id, status, now);
    ResolveContains(s'.order, s'.users, id);
    if status == Online {
      ResolveContains(s'.onlineUsers, s'.users, id);
    }
  }

  /** A profile that starts typing goes to the end of `getTypingUsers`, now
      saying 'Typing...'; the profiles already typing keep their places. */
  lemma TypingUserGoesLast(s: UserState, id: Prim, now: string)
    requires id in s.users && id !in s.typingUsers
    ensures var s' := SetUserTyping(s, id, Bool(true), now);
            && GetTypingUsers(s') == GetTypingUsers(s) + [s'.users[id]]
            && s'.users[id] == s.users[id].(activity := Str("Typing..."), lastActive := Str(now))
  {
    var s' := SetUserTyping(s, id, Bool(true), now);
    ResolveAppend(s.typingUsers, id, s'.users);
    ResolveUnlisted(s.typingUsers, s.users, id, s'.users[id]);
  }
}
