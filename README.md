# multiverse stores in Dafny

This project models the four in-memory state stores of the multiverse chat
application, each a zustand store under `src/store/`:

- the **chat store** (`chatStore.js`) keeps messages by id, an ordered index of
  message ids per room, a set of sender ids per room, unread counters per room,
  pinned ids, reactions, search results and single-slot pointers;
- the **presence store** (`userStore.js`) keeps user profiles by id and the
  derived online, typing, activity and last-seen indexes;
- the **house store** (`houseStore.js`) keeps an ordered list of houses, each
  with rooms, each room with a list of its occupants; it also keeps neighbours,
  active users and a navigation cursor (`currentHouseId`, `currentRoomId`);
- the **app store** (`appStore.js`) keeps open modals, a toast list, a loading
  flag and one dialog slot.

Each store has two modules:

- `ChatModel`, `PresenceModel`, `HouseModel` and `AppModel` describe the store
  with values. Each has a state datatype, one transition function per action,
  the selectors as functions, and lemmas about them.
- `ChatStore`, `PresenceStore`, `HouseStore` and `AppStore` each hold a
  `class Store` with one field, `state`. zustand's `set()` replaces the
  store's state object with a shallow merge, and the single field stands for
  that object.
  - Every action is a method with `modifies this`. Its postcondition names the
    new state as the model's transition applied to `old(state)`.
  - Where an action copies a Map or Set and updates the copy inside a
    `forEach`, the method does the same with a `while` loop. The loop
    invariant ties the partial result to the model's fold over the prefix
    already processed.
  - These loops are `bulkAddMessages`, `clearRoomMessages`,
    `bulkUpdateUsers`, `setMultipleUsersOnline`, `setMultipleUsersOffline`
    and `batchUserUpdates`.

The common module `Js` models the JavaScript values the stores work with:

- `Prim` covers `undefined`, `null`, booleans, integers and strings. Strict
  equality `===` is `==`, so the number 1 and the string "1" are different ids.
- `Truthy` and `Or` model `||` defaults.
- `PropertyKey` gives the string a value becomes when it indexes a plain
  object.
- `Filter` models `Array.prototype.filter`.
- Insertion-ordered `Set`s are modelled as duplicate-free sequences, with
  `SetAdd` and `SetDelete`.
- `Lower` and `Includes` model ASCII `toLowerCase` and `includes`.

The clock and the id generators are parameters of the actions:

- `now` is the ISO timestamp. `bulkAddMessages` reads the clock once per entry, while the model stamps the whole batch with one `now`;
- `genId` or `genIds` is the generated id (`Date.now()`, `Math.random()`,
  `nanoid()`);
- `nowMs` is the toast id taken from the clock.

An object argument is a datatype whose fields are `Option`s or `Undefined`
when the key is absent. A present key overrides a default even when its value
is falsy, because that is what object spread does.

### Where the code and the intended design differ

The model follows the code in each of these cases, and a lemma states the
behaviour.

- A hard delete is meant to compact the room index. The code builds the
  filtered copy and then returns the old index (`chatStore.js:165-180`). The
  index keeps the dangling id, and `getRoomMessages` skips it
  (`ChatModel.HardDeleteKeepsIndex`, `ChatModel.HardDeleteLeavesDanglingId`).
- `bulkAddMessages` is meant to apply `addMessage` to each entry. It never
  touches the unread counters (`ChatModel.BulkIsRepeatedAdd`).
- `updateMessage` is meant to set `isEdited` only when the text changes. It
  compares `updates.text` with the old text, so a patch without `text` also
  marks the message edited (`ChatModel.UpdateMessageEffect`).
- The online set is meant to contain only profile ids and to agree with each
  profile's status. The code breaks this in three ways:
  - `setMultipleUsersOnline` adds ids with no profile
    (`PresenceModel.OnlineCountExceedsOnlineUsers`);
  - `addUser` never removes an id from the set
    (`PresenceModel.AddUserAfterOnlineIsInconsistent`);
  - `updateUser` with a falsy status such as `''` leaves the id online
    (`PresenceModel.UpdateUserFalsyStatusStaysOnline`).
- A new room's `maxOccupants` is meant to default to 10. The code writes
  `roomData.maxOccupants || 10`, so a capacity of 0 also becomes 10
  (`HouseModel.NewRoomZeroCapacity`).
- Capacity is not enforced by the house store
  (`HouseModel.AddUserIgnoresCapacity`, `HouseModel.ThreeUsersInRoomForTwo`).
- Modal ids index a plain object, so they are coerced to strings
  (`AppModel.ModalIdsAreStringKeys`).

## Model

| member | source | states |
|---|---|---|
| ChatModel.AddMessageStores | src/store/chatStore.js:75-116 | `addMessage` stores the record under `messageData.id \|\| generated`, in the room `roomId \|\| currentRoomId`. It appends the key to that room's index, adds the sender to that room's senders, and leaves other rooms' indexes alone. |
| ChatModel.AddMessageIsNewest | src/store/chatStore.js:25-30 | After `addMessage`, the new record is the last message `getRoomMessages` returns for the room. |
| ChatModel.AddMessageUnread | src/store/chatStore.js:119-123 | The target room's unread count rises by exactly one when it is not the focused room, and no other count changes. |
| ChatModel.UnreadAfterSends | src/store/chatStore.js:119-123 | N messages sent to an unfocused room raise its count by N. Messages sent to the focused room leave its count unchanged. |
| ChatModel.AddMessageIndex | src/store/chatStore.js:103-109 | The new index is the old one with the target room's list extended by the new key. |
| ChatModel.AddMessageSenders | src/store/chatStore.js:111-116 | The new sender map is the old one with the sender added to the target room's set. |
| ChatModel.BulkIsRepeatedAdd | src/store/chatStore.js:187-237 | `bulkAddMessages` equals `addMessage` applied to each entry in turn, except that the unread counters are left as they were. |
| ChatModel.BulkAddAppends | src/store/chatStore.js:187-237 | `bulkAddMessages` appends the batch's keys, in input order, to the end of the target room's index. Other rooms and the unread counts are untouched. |
| ChatModel.StoreAllLast | src/store/chatStore.js:203-228 | After a bulk add, an entry whose key no later entry shares is stored under that key. |
| ChatModel.StoreAllOther | src/store/chatStore.js:203-228 | Keys that no entry of the batch uses keep their old record, or stay absent. |
| ChatModel.StoreAllKeys | src/store/chatStore.js:203-228 | The message keys after a bulk add are the old keys plus the batch's keys. |
| ChatModel.AddSendersMembers | src/store/chatStore.js:226-227 | The room's sender set after a bulk add holds exactly the old senders and the batch's senders. |
| ChatModel.AddEachRest | src/store/chatStore.js:75-131 | Sending messages changes only the messages, the index, the sender sets and the counters. |
| ChatModel.AddMessageKeepsIndexResolved | src/store/chatStore.js:75-131 | `addMessage` keeps every id of every room index backed by a record. |
| ChatModel.BulkAddKeepsIndexResolved | src/store/chatStore.js:187-237 | `bulkAddMessages` keeps every id of every room index backed by a record. |
| ChatModel.UpdateMessageEffect | src/store/chatStore.js:133-148 | On an unknown id nothing changes. Otherwise only that record changes. Each key of the patch overrides the old field, and each other field keeps its value. `isEdited` and `editedAt` change exactly when the patch's text differs from the old text, and an absent text counts as different. The patch's own `isEdited` is then overwritten. No other record and no other part of the state changes. |
| ChatModel.SoftDeleteKeepsRecord | src/store/chatStore.js:150-164 | A soft delete replaces the record with the same record carrying the tombstone text, `isDeleted` and a `deletedAt` stamp, and unpins the id. The record stays where the room's messages are read. No other record and no other part of the state changes. |
| ChatModel.HardDeleteKeepsIndex | src/store/chatStore.js:165-184 | A hard delete removes exactly that record and unpins the id. Every room index and the rest of the state stay as they were, and reading the room skips the dangling id. |
| ChatModel.HardDeleteLeavesDanglingId | src/store/chatStore.js:165-184 | After a hard delete the room index no longer resolves to records. |
| ChatModel.DeleteUnknown | src/store/chatStore.js:150-184 | Deleting an unknown id changes nothing. |
| ChatModel.ClearRoomEffect | src/store/chatStore.js:239-266 | Clearing a room empties its index, its sender set and its counter. It drops the room's records from the message map and the pins, and touches no other room's index. |
| ChatModel.FocusAndMarkRead | src/store/chatStore.js:269-298 | `setCurrentRoom` and `markAsRead` both zero the room's count, and only `setCurrentRoom` moves the focus. |
| ChatModel.FocusedRoomStaysRead | src/store/chatStore.js:119-123 | After a room is focused, messages sent to it never raise its count. |
| ChatModel.ReactionsStayNonEmpty | src/store/chatStore.js:310-358 | Adding or removing a reaction never leaves an emoji mapped to an empty set of users. |
| ChatModel.AddReactionIdempotent | src/store/chatStore.js:310-332 | `addReaction` is idempotent per emoji and user. |
| ChatModel.AddThenRemoveReaction | src/store/chatStore.js:310-358 | Adding and then removing a reaction by a user who had not reacted with that emoji restores the message. |
| ChatModel.ReactionRoundTrip | src/store/chatStore.js:318-355 | The same round trip on the reaction map alone: an emoji nobody had used disappears again. |
| ChatModel.ReactionUnknownMessage | src/store/chatStore.js:310-358 | Reacting to an unknown message changes nothing. |
| ChatModel.TogglePinTwice | src/store/chatStore.js:360-369 | A toggle flips the id's pin, and two toggles restore the state. |
| ChatModel.PinnedAfterToggle | src/store/chatStore.js:43-48 | `getPinnedMessages` holds exactly the room's messages whose id is pinned. A toggle flips the membership of the room's messages with that id, and the other messages keep theirs. |
| ChatModel.MessagesByUserAfterAdd | src/store/chatStore.js:50-54 | After `addMessage`, `getMessagesByUser` returns the user's earlier messages of the room, in order. The new record follows them exactly when that user sent it. |
| ChatModel.SearchExact | src/store/chatStore.js:56-63 | A message is in the search result exactly when it is one of the room's messages and its lowercased text or sender name contains the lowercased query. `performSearch` stores that result. |
| ChatModel.SearchAllOrNone | src/store/chatStore.js:56-63 | When every message of the room matches, the search returns the room's messages unchanged. When none matches, it returns nothing. |
| ChatModel.SearchInOrder | src/store/chatStore.js:56-63 | The search keeps the room's order and multiplicity. Split the room's messages around one message: the result is the matches before it, then that message if it matches, then the matches after it. |
| ChatModel.EmptyQueryFindsAll | src/store/chatStore.js:56-63 | An empty query returns every message of the room. |
| ChatModel.RecentMessagesSuffix | src/store/chatStore.js:32-35 | With a positive limit, the recent messages are the last `limit` messages of the current room, or all of them when there are fewer. A limit of 0 gives the whole room. |
| ChatStore.Store.constructor | src/store/chatStore.js:9-20 | The initial state: everything empty, the focus on 'living-room', nothing loading and no reply, edit or search slot set. |
| ChatStore.Store.AddMessage | src/store/chatStore.js:75-131 | The new state is `ChatModel.AddMessage` of the old one. |
| ChatStore.Store.UpdateMessage | src/store/chatStore.js:133-148 | The new state is `ChatModel.UpdateMessage` of the old one. |
| ChatStore.Store.DeleteMessage | src/store/chatStore.js:150-184 | The new state is `ChatModel.DeleteMessage` of the old one. |
| ChatStore.Store.BulkAddMessages | src/store/chatStore.js:187-237 | The `forEach` loop stores each record, appends each key and adds each sender. The new state is `ChatModel.BulkAddMessages` of the old one. |
| ChatStore.Store.ClearRoomMessages | src/store/chatStore.js:239-266 | The `forEach` loop deletes the room's records and pins. The new state is `ChatModel.ClearRoomMessages` of the old one. |
| ChatStore.Store.SetCurrentRoom | src/store/chatStore.js:269-282 | The new state is `ChatModel.SetCurrentRoom` of the old one. |
| ChatStore.Store.MarkAsRead | src/store/chatStore.js:285-298 | The new state is `ChatModel.MarkAsRead` of the old one. |
| ChatStore.Store.IncrementUnread | src/store/chatStore.js:300-307 | The new state is `ChatModel.IncrementUnread` of the old one. |
| ChatStore.Store.AddReaction | src/store/chatStore.js:310-332 | The new state is `ChatModel.AddReaction` of the old one. |
| ChatStore.Store.RemoveReaction | src/store/chatStore.js:334-358 | The new state is `ChatModel.RemoveReaction` of the old one. |
| ChatStore.Store.TogglePinMessage | src/store/chatStore.js:360-369 | The new state is `ChatModel.TogglePinMessage` of the old one. |
| ChatStore.Store.SetReplyingTo | src/store/chatStore.js:372-373 | Only the reply slot changes. |
| ChatStore.Store.ClearReplyingTo | src/store/chatStore.js:375-376 | Only the reply slot changes, to null. |
| ChatStore.Store.SetEditingMessage | src/store/chatStore.js:378-379 | Only the edit slot changes. |
| ChatStore.Store.ClearEditingMessage | src/store/chatStore.js:381-382 | Only the edit slot changes, to null. |
| ChatStore.Store.PerformSearch | src/store/chatStore.js:385-398 | The new state is `ChatModel.PerformSearch` of the old one. |
| ChatStore.Store.ClearSearch | src/store/chatStore.js:400-401 | Only the search results change, to the empty list. |
| ChatStore.Store.SetLoading | src/store/chatStore.js:404-405 | Only the loading flag changes. |
| ChatStore.Store.AddToQueue | src/store/chatStore.js:408-411 | The message is appended to the queue. |
| ChatStore.Store.RemoveFromQueue | src/store/chatStore.js:413-416 | The new state is `ChatModel.RemoveFromQueue` of the old one. |
| ChatStore.Store.ClearQueue | src/store/chatStore.js:418-419 | The queue is emptied. |
| ChatStore.Store.ClearAllMessages | src/store/chatStore.js:422-434 | The new state is `ChatModel.ClearAllMessages` of the old one. |
| PresenceModel.AddUserStores | src/store/userStore.js:42-72 | `addUser` stores the profile under `user.id \|\| generated`, and a new key goes to the end of the Map's order. Each field is the argument's own key whenever it has one, even a falsy one. The defaults are: the generated id, an `undefined` name, a `null` avatar, status 'offline', activity 'Idle', and the current time for `joinedAt` and `lastActive`. `lastSeen` is stamped, and no other profile changes. |
| PresenceModel.AddUserOnline | src/store/userStore.js:62-64 | `addUser` puts the id in `onlineUsers` exactly when the stored status is 'online', and never takes an id out. |
| PresenceModel.AddUserValid | src/store/userStore.js:42-72 | After `addUser`, each profile key is listed once in the Map's insertion order, and each id is in the online and typing Sets at most once. |
| PresenceModel.InitialValid | src/store/userStore.js:9-14 | The empty initial state is valid. |
| PresenceModel.AddUserAfterOnlineIsInconsistent | src/store/userStore.js:42-72 | An id put online before it had a profile stays online after an offline profile is added. |
| PresenceModel.UpdateUserUnknown | src/store/userStore.js:74-102 | `updateUser` on an unknown id changes nothing. |
| PresenceModel.UpdateUserOnline | src/store/userStore.js:74-102 | On an existing profile, status 'online' adds the id to `onlineUsers`, another truthy status removes it, and a falsy or absent status leaves it. Other ids keep their membership, and no profile is created or removed. |
| PresenceModel.UpdateUserKeepsConsistent | src/store/userStore.js:74-102 | `updateUser` keeps profiles and online membership in step unless the patch carries a falsy status. |
| PresenceModel.UpdateUserFalsyStatusStaysOnline | src/store/userStore.js:89-93 | A status of '' leaves the id online while the profile no longer says 'online'. |
| PresenceModel.SetUserStatusUnknown | src/store/userStore.js:147-172 | `setUserStatus` on an unknown id changes nothing. |
| PresenceModel.SetUserStatusOnline | src/store/userStore.js:147-172 | On an existing profile, `setUserStatus` records the status and leaves the id in `onlineUsers` exactly when the status is 'online'. |
| PresenceModel.SetUserStatusKeepsConsistent | src/store/userStore.js:147-172 | `setUserStatus` keeps every profile online exactly when its status is 'online'. |
| PresenceModel.UpdateUserValid | src/store/userStore.js:74-102 | `updateUser` keeps the profile keys listed once in order and both Sets free of duplicates. |
| PresenceModel.SetUserStatusValid | src/store/userStore.js:147-172 | `setUserStatus` keeps the profile keys listed once in order and both Sets free of duplicates. |
| PresenceModel.SetUserActivityValid | src/store/userStore.js:174-198 | `setUserActivity` keeps the profile keys listed once in order and both Sets free of duplicates. |
| PresenceModel.SetUserTypingValid | src/store/userStore.js:201-229 | `setUserTyping` keeps the profile keys listed once in order and both Sets free of duplicates. |
| PresenceModel.SetCurrentUserValid | src/store/userStore.js:285-297 | `setCurrentUser` and `clearAllUsers` leave a valid state. |
| PresenceModel.RemoveUserPurges | src/store/userStore.js:104-125 | `removeUser` deletes the id from the profiles and all four indexes, and every other id keeps its entries. |
| PresenceModel.RemoveUserValid | src/store/userStore.js:104-125 | `removeUser` keeps the Map's insertion order listing each profile key exactly once, and keeps both Sets free of duplicates. |
| PresenceModel.BulkUpdateOnlyMerges | src/store/userStore.js:127-144 | `bulkUpdateUsers` creates and removes no profile and leaves `onlineUsers` as it was, even when a patch changes a status. |
| PresenceModel.BulkUpdateValid | src/store/userStore.js:127-144 | `bulkUpdateUsers` keeps the state valid. |
| PresenceModel.MultipleOnlineMembers | src/store/userStore.js:232-253 | After `setMultipleUsersOnline` the online set is the old one plus every listed id, with or without a profile, and listed profiles say 'online'. |
| PresenceModel.MultipleOnlineValid | src/store/userStore.js:232-253 | `setMultipleUsersOnline` keeps each id in the online Set at most once, even when the list repeats an id. |
| PresenceModel.OnlineCountExceedsOnlineUsers | src/store/userStore.js:21-37 | `getOnlineCount` can exceed the number of profiles `getOnlineUsers` returns. |
| PresenceModel.MultipleOfflineMembers | src/store/userStore.js:255-282 | After `setMultipleUsersOffline` no listed id is online or typing and every listed id has a `lastSeen` stamp. Listed profiles say 'offline' and 'Offline', and other ids keep their membership. |
| PresenceModel.OfflineUser | src/store/userStore.js:262-274 | A listed profile is still there and says 'offline' and 'Offline'. |
| PresenceModel.MultipleOfflineValid | src/store/userStore.js:255-282 | `setMultipleUsersOffline` keeps the state valid. |
| PresenceModel.SetUserTypingEffect | src/store/userStore.js:201-229 | `setUserTyping` adds or removes the id in `typingUsers` whether or not it has a profile, and changes the activity only when a profile exists. |
| PresenceModel.SetUserActivityRecords | src/store/userStore.js:174-198 | `setUserActivity` records the activity even for an id with no profile. |
| PresenceModel.BatchKeepsProfiles | src/store/userStore.js:339-385 | `batchUserUpdates` creates no profile and keeps the Map's order. |
| PresenceModel.BatchStatusEntry | src/store/userStore.js:346-379 | A 'status' entry decides online membership as `setUserStatus` does and records the status of an existing profile. |
| PresenceModel.BatchValid | src/store/userStore.js:339-385 | `batchUserUpdates` keeps the state valid. |
| PresenceModel.AllUsersCount | src/store/userStore.js:19-35 | `getAllUsers` lists every profile once, in insertion order, so its length is `getUsersCount`. |
| PresenceModel.OnlineUsersExact | src/store/userStore.js:21-24 | `getOnlineUsers` holds exactly the profiles of the online ids that have one. It is never longer than `getOnlineCount`, and exactly as long when every online id has a profile. |
| PresenceModel.OnlineCountIsSetSize | src/store/userStore.js:37 | In a valid state `getOnlineCount` is the number of distinct online ids. |
| PresenceModel.SetUserStatusListed | src/store/userStore.js:26-28 | After `setUserStatus` on an existing profile, `getUsersByStatus` for the new status lists the profile, and lists only profiles with that status. `getOnlineUsers` lists it when the status is 'online'. |
| PresenceModel.TypingUserGoesLast | src/store/userStore.js:30-33 | A profile that starts typing goes to the end of `getTypingUsers`, now saying 'Typing...'. The profiles already typing keep their places. |
| PresenceStore.Store.constructor | src/store/userStore.js:9-14 | The initial state: everything empty. |
| PresenceStore.Store.AddUser | src/store/userStore.js:42-72 | The new state is `PresenceModel.AddUser` of the old one. |
| PresenceStore.Store.UpdateUser | src/store/userStore.js:74-102 | The new state is `PresenceModel.UpdateUser` of the old one. |
| PresenceStore.Store.RemoveUser | src/store/userStore.js:104-125 | The new state is `PresenceModel.RemoveUser` of the old one. |
| PresenceStore.Store.BulkUpdateUsers | src/store/userStore.js:127-144 | The `forEach` loop merges each entry. The new state is `PresenceModel.BulkUpdateUsers` of the old one. |
| PresenceStore.Store.SetUserStatus | src/store/userStore.js:147-172 | The new state is `PresenceModel.SetUserStatus` of the old one. |
| PresenceStore.Store.SetUserActivity | src/store/userStore.js:174-198 | The new state is `PresenceModel.SetUserActivity` of the old one. |
| PresenceStore.Store.SetUserTyping | src/store/userStore.js:201-229 | The new state is `PresenceModel.SetUserTyping` of the old one. |
| PresenceStore.Store.SetMultipleUsersOnline | src/store/userStore.js:232-253 | The `forEach` loop handles each id. The new state is `PresenceModel.SetMultipleUsersOnline` of the old one. |
| PresenceStore.Store.SetMultipleUsersOffline | src/store/userStore.js:255-282 | The `forEach` loop handles each id. The new state is `PresenceModel.SetMultipleUsersOffline` of the old one. |
| PresenceStore.Store.SetCurrentUser | src/store/userStore.js:285-286 | The new state is `PresenceModel.SetCurrentUser` of the old one. |
| PresenceStore.Store.ClearAllUsers | src/store/userStore.js:289-297 | The new state is `PresenceModel.ClearAllUsers` of the old one. |
| PresenceStore.Store.BatchUserUpdates | src/store/userStore.js:339-385 | The `forEach` loop handles each entry. The new state is `PresenceModel.BatchUserUpdates` of the old one. |
| HouseModel.WithHouseAt | src/store/houseStore.js:138-143 | The `houses.map(...)` of every house action keeps the order, and each position holds the image of the old house. |
| HouseModel.WithRoomAt | src/store/houseStore.js:205-217 | The `rooms.map(...)` keeps the order, and each position holds the image of the old room. |
| HouseModel.FindHouseFirst | src/store/houseStore.js:273-276 | `find` returns the first house with the id, and nothing exactly when no house has it. |
| HouseModel.FindRoomFirst | src/store/houseStore.js:278-282 | `find` returns the first room with the id, and nothing exactly when no room has it. |
| HouseModel.GetRoomWith | src/store/houseStore.js:205-217 | Updating one room of one house, with a callback that keeps the id of the room it updates, changes what the room lookup finds for that pair, by the callback, and for no other pair. |
| HouseModel.WithHouseIdempotent | src/store/houseStore.js:145-157 | A house `map` with an id-preserving, idempotent callback is idempotent. |
| HouseModel.WithRoomIdempotent | src/store/houseStore.js:220-239 | A room `map` with an id-preserving, idempotent callback is idempotent. |
| HouseModel.FindHouseFilter | src/store/houseStore.js:133-136 | `houses.filter(h => h.id !== x)` hides exactly the houses with id `x`. |
| HouseModel.FindRoomFilter | src/store/houseStore.js:193-203 | `rooms.filter(r => r.id !== x)` hides exactly the rooms with id `x`. |
| HouseModel.AddHouseAppends | src/store/houseStore.js:120-131 | `addHouse` appends one house with the generated id and defaults for every falsy field, and keeps the houses before it in order. |
| HouseModel.RemoveHouseEffect | src/store/houseStore.js:133-136 | `removeHouse` leaves no house with that id and every other lookup as it was. |
| HouseModel.RemoveHouseKeepsOrder | src/store/houseStore.js:133-136 | Split the house list around a house. Removing that house's id leaves the houses before it and the houses after it, each without that id, in order, and nothing else in the state changes. |
| HouseModel.RemoveAbsentHouse | src/store/houseStore.js:133-136 | Removing an id no house has changes nothing. |
| HouseModel.UpdateHouseEffect | src/store/houseStore.js:138-143 | With a patch that has no id or the same id, the house found under that id is the old one with the patch spread over it, and every other lookup is unchanged. |
| HouseModel.AddOwnerIdempotent | src/store/houseStore.js:145-157 | `addOwnerToHouse` twice equals `addOwnerToHouse` once. |
| HouseModel.RemoveOwnerEffect | src/store/houseStore.js:159-169 | `removeOwnerFromHouse` removes every occurrence of the owner from each matching house, keeps the other owners in order and touches no other house. |
| HouseModel.AddThenRemoveOwner | src/store/houseStore.js:145-169 | Adding an owner a house did not have and then removing it restores the state. |
| HouseModel.AddRoomEffect | src/store/houseStore.js:172-191 | `addRoomToHouse` appends one room with no users to the house found under the id. An unknown house id leaves the state as it was. |
| HouseModel.NewRoomDefaults | src/store/houseStore.js:173-184 | With no data, the new room takes every default: 'Untitled Room', '', 10, 'open', 'Idle', false, null and no users. |
| HouseModel.NewRoomZeroCapacity | src/store/houseStore.js:176 | A capacity of 0 becomes 10, while a given name survives. |
| HouseModel.RemoveRoomEffect | src/store/houseStore.js:193-203 | `removeRoomFromHouse` leaves no room with that id in the house found under the house id, and every other room lookup as it was. |
| HouseModel.RemoveRoomKeepsOrder | src/store/houseStore.js:193-203 | `removeRoomFromHouse` keeps the house list and its order, and leaves every house with another id as it was. In a house with that id, split the rooms around a room: the rooms before it and after it stay in order, without that room's id. |
| HouseModel.UpdateRoomEffect | src/store/houseStore.js:205-217 | With a patch that has no id or the same id, `updateRoomInHouse` spreads the patch over that room and changes no other room lookup. |
| HouseModel.UpdateDescriptionEffect | src/store/houseStore.js:308-325 | `updateCurrentRoomDescription` changes the description of the current room and nothing else that `getCurrentRoom` sees. |
| HouseModel.CurrentRoomStrictEquality | src/store/houseStore.js:278-282 | A room whose id is the number 1 is not the current room when the cursor holds the string "1". |
| HouseModel.AddOccupantIdempotent | src/store/houseStore.js:230-232 | After the add the list has an entry with the user's id, and adding the same user again changes nothing. |
| HouseModel.AddUserToRoomUsers | src/store/houseStore.js:220-239 | The user is appended when no entry has their id, and the list is unchanged otherwise. A room that is not found stays not found. |
| HouseModel.AddUserToRoomIdempotent | src/store/houseStore.js:220-239 | `addUserToRoom` twice with the same user id equals `addUserToRoom` once. |
| HouseModel.AddUserIgnoresCapacity | src/store/houseStore.js:220-239 | A new user always raises the count by one, whatever `maxOccupants` says. |
| HouseModel.ThreeUsersInRoomForTwo | src/store/houseStore.js:220-239 | A room with space for two holds three after three distinct users join. |
| HouseModel.RemoveUserFromRoomEffect | src/store/houseStore.js:241-258 | `removeUserFromRoom` drops every entry with that id from the room and keeps the others in order. No other room changes. |
| HouseModel.RemoveUserFromRoomGone | src/store/houseStore.js:241-258 | Afterwards no entry of the room has that id. |
| HouseModel.RemoveAbsentUser | src/store/houseStore.js:241-258 | Removing a user who is in no matching room changes nothing. |
| HouseModel.MoveIsAdd | src/store/houseStore.js:260-266 | `moveUserToRoom` is a plain `addUserToRoom` when a source id is falsy or the user is not in the source room. |
| HouseModel.MoveLeavesSource | src/store/houseStore.js:260-266 | After a move between two different rooms with truthy source ids, the user is in the target room (if it exists) and not in the source. |
| HouseModel.AddThenRemoveNeighbour | src/store/houseStore.js:297-305 | Adding a neighbour with a new id and then removing that id restores the list. |
| HouseModel.RemoveNeighbourEffect | src/store/houseStore.js:302-305 | `removeNeighbour` drops every neighbour with that id and keeps the rest in order. |
| HouseModel.UpdateUserStatusEffect | src/store/houseStore.js:329-334 | `updateUserStatus` changes the status of every active user with that id and of nobody else. A second update overrides the first. |
| HouseStore.Store.constructor | src/store/houseStore.js:116-117 | No houses, neighbours or active users, and the cursor on house "house1", room 1. |
| HouseStore.Store.AddHouse | src/store/houseStore.js:120-131 | The new state is `HouseModel.AddHouse` of the old one. |
| HouseStore.Store.RemoveHouse | src/store/houseStore.js:133-136 | The new state is `HouseModel.RemoveHouse` of the old one. |
| HouseStore.Store.UpdateHouse | src/store/houseStore.js:138-143 | The new state is `HouseModel.UpdateHouse` of the old one. |
| HouseStore.Store.AddOwnerToHouse | src/store/houseStore.js:145-157 | The new state is `HouseModel.AddOwnerToHouse` of the old one. |
| HouseStore.Store.RemoveOwnerFromHouse | src/store/houseStore.js:159-169 | The new state is `HouseModel.RemoveOwnerFromHouse` of the old one. |
| HouseStore.Store.AddRoomToHouse | src/store/houseStore.js:172-191 | The new state is `HouseModel.AddRoomToHouse` of the old one. |
| HouseStore.Store.RemoveRoomFromHouse | src/store/houseStore.js:193-203 | The new state is `HouseModel.RemoveRoomFromHouse` of the old one. |
| HouseStore.Store.UpdateRoomInHouse | src/store/houseStore.js:205-217 | The new state is `HouseModel.UpdateRoomInHouse` of the old one. |
| HouseStore.Store.AddUserToRoom | src/store/houseStore.js:220-239 | The new state is `HouseModel.AddUserToRoom` of the old one. |
| HouseStore.Store.RemoveUserFromRoom | src/store/houseStore.js:241-258 | The new state is `HouseModel.RemoveUserFromRoom` of the old one. |
| HouseStore.Store.MoveUserToRoom | src/store/houseStore.js:260-266 | Calls the store's own remove (when both source ids are truthy) and add actions. The new state is `HouseModel.MoveUserToRoom` of the old one. |
| HouseStore.Store.SetCurrentHouse | src/store/houseStore.js:269 | Only `currentHouseId` changes. |
| HouseStore.Store.SetCurrentRoom | src/store/houseStore.js:270 | Only `currentRoomId` changes. |
| HouseStore.Store.AddNeighbour | src/store/houseStore.js:297-300 | The new state is `HouseModel.AddNeighbour` of the old one. |
| HouseStore.Store.RemoveNeighbour | src/store/houseStore.js:302-305 | The new state is `HouseModel.RemoveNeighbour` of the old one. |
| HouseStore.Store.UpdateCurrentRoomDescription | src/store/houseStore.js:308-325 | The new state is `HouseModel.UpdateCurrentRoomDescription` of the old one. |
| HouseStore.Store.SetActiveUsers | src/store/houseStore.js:327 | Only `activeUsers` changes. |
| HouseStore.Store.UpdateUserStatus | src/store/houseStore.js:329-334 | The new state is `HouseModel.UpdateUserStatus` of the old one. |
| AppModel.OpenModalEffect | src/store/appStore.js:12-18 | `openModal` opens that modal with the given props (or none), replacing an earlier entry, and leaves every other modal and field as it was. |
| AppModel.OpenThenCloseModal | src/store/appStore.js:12-25 | Opening and then closing a modal equals closing it, and a modal that had no entry leaves no trace. |
| AppModel.CloseModalEffect | src/store/appStore.js:20-25 | `closeModal` removes that one key, and a modal that was never opened changes nothing. |
| AppModel.ModalIdsAreStringKeys | src/store/appStore.js:14-23 | The number 1 and the string "1" name the same modal, while different numbers name different modals. |
| AppModel.AddToastEffect | src/store/appStore.js:29-32 | `addToast` appends exactly one toast and keeps the others in order. Its id is the argument's `id` key when there is one, and the clock value otherwise. Its `title`, `message`, `type` and `duration` are the argument's keys, present exactly when the argument has them. |
| AppModel.AddThenRemoveToast | src/store/appStore.js:29-37 | Adding a toast under a fresh id and then removing that id restores the list. |
| AppModel.RemoveToastEffect | src/store/appStore.js:34-37 | `removeToast` drops every toast with that id, wherever it is, and keeps the others in order. |
| AppModel.SameMillisecondToasts | src/store/appStore.js:29-37 | Two toasts without ids added in the same millisecond share the id, so removing one removes both. |
| AppModel.DialogSlot | src/store/appStore.js:39-40 | The dialog is one slot: opening replaces whatever was there, closing empties it, and neither touches the rest of the state. |
| AppStore.Store.constructor | src/store/appStore.js:6-9 | No modals, no toasts, not loading, no dialog. |
| AppStore.Store.OpenModal | src/store/appStore.js:12-18 | The new state is `AppModel.OpenModal` of the old one. |
| AppStore.Store.CloseModal | src/store/appStore.js:20-25 | Copies the modal object, deletes the key from the copy and stores it. The new state is `AppModel.CloseModal` of the old one. |
| AppStore.Store.SetLoading | src/store/appStore.js:27 | The new state is `AppModel.SetLoading` of the old one. |
| AppStore.Store.AddToast | src/store/appStore.js:29-32 | The new state is `AppModel.AddToast` of the old one. |
| AppStore.Store.RemoveToast | src/store/appStore.js:34-37 | The new state is `AppModel.RemoveToast` of the old one. |
| AppStore.Store.OpenDialog | src/store/appStore.js:39 | The new state is `AppModel.OpenDialog` of the old one. |
| AppStore.Store.CloseDialog | src/store/appStore.js:40 | The new state is `AppModel.CloseDialog` of the old one. |

## Left out

- zustand plumbing (`create`, `devtools`, `subscribeWithSelector`) and `persist` to localStorage (`houseStore.js:336-338`). These are framework code and I/O.
- The sample data: `initializeSampleMessages`, `initializeSampleUsers` and the seeded houses of `houseStore.js:11-117`. The house store's constructor starts with empty lists and keeps only the seeded cursor.
- Object identity. `addMessage` adds the sender to a Set that the previous state still shares (`chatStore.js:116`). The model works on values, so old states never change.
- Selectors are functions of the model, not members of the store classes. `getCurrentHouse`, `getCurrentRoom`, `getRoomUsers` and `getUserCount` read the state through `get()`, and the model takes the state as a parameter instead.
- Timestamps and generated ids come from the clock and the random generator. They are parameters, so no property depends on their values or on their being unique.
- `Lower`: models `toLowerCase` on ASCII letters only, without Unicode case mapping.
- `PropertyKey`: models only the keys of values the model has (no fractional numbers, objects or symbols), because ids are integers or strings here.
- Integers are unbounded, and numbers are integers only. JavaScript's floating-point numbers are not modelled, because the stores only store, compare and count them.
- `AppModel.OpenModal`: an explicit `null` for `modalProps` is not distinguished from a missing argument, because props are an `Option`. The code keeps `null`, and the model stores no props.
- `AppModel.NewToast` / `AppModel.OpenDialog`: a toast carries only the keys `id`, `title`, `message`, `type` and `duration`, and a dialog only `title` and `message`. The code stores whatever object it gets, so any other key it has is not carried.
- `AppModel.OpenDialog`: `openDialog()` with no argument stores `undefined`, and the model stores `None`, the same as `closeDialog`.
- An argument key given explicitly as `undefined` or `null` is not modelled for any argument field. The code copies such a value over the default. For `Prim` fields the model cannot tell an explicit `undefined` from an absent key. For the other fields (`text`, `user`, `timestamp`, `mentions` and the like) the model has no `null` or `undefined` value, so `None` means the key is absent. In particular, `addMessage` with `user: null` throws a TypeError at `message.user.id` (`chatStore.js:116`), and the model does not capture that.
- A message's `metadata` field is not modelled, and the sender is modelled by its `id` and `name` only, so the user's `avatar` is dropped. Attachments and mentions are carried as values and copied like the other fields.
- React components, hooks, routing, timers and styling, and `RoomCard`'s occupancy percentage: these are presentation code.
