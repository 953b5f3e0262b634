/** The house and room topology store of `src/store/houseStore.js` as values:
    an ordered list of houses, each with an ordered list of rooms, each room
    with the list of users in it; the navigation cursor; the neighbour list
    and the active-user list. Every action's new `houses` value is a
    copy-on-write `map`/`filter` over the old one, written here as a
    function; the getters are the `find` lookups with their "not found"
    results. The class in module HouseStore replaces its state with these
    values. */
module HouseModel {
  import opened Js

  /** A user as stored in a room's `users` list. */
  datatype Occupant = Occupant(id: Prim, name: Prim, avatar: Prim, activity: Prim)

  datatype Room = Room(
    id: Prim,
    name: Prim,
    description: Prim,
    maxOccupants: Prim,
    status: Prim,
    activity: Prim,
    isPrivate: Prim,
    thumbnail: Prim,
    users: seq<Occupant>)

  datatype House = House(id: Prim, name: Prim, owners: seq<Prim>, thumbnail: Prim, rooms: seq<Room>)

  datatype Neighbour = Neighbour(id: Prim, name: Prim, owner: Prim, thumbnail: Prim, houseId: Prim)

  datatype ActiveUser = ActiveUser(id: Prim, name: Prim, status: Prim, activity: Prim,
                                   currentHouseId: Prim, currentRoomId: Prim)

  /** The argument of `addHouse`; a list that is absent (or null) is `None`. */
  datatype HouseData = HouseData(name: Prim, owners: Option<seq<Prim>>, thumbnail: Prim, rooms: Option<seq<Room>>)

  /** The argument of `addRoomToHouse`; an absent key is `Undefined`. */
  datatype RoomData = RoomData(name: Prim, description: Prim, maxOccupants: Prim, status: Prim,
                               activity: Prim, isPrivate: Prim, thumbnail: Prim)

  /** The argument of `updateHouse`: `None` is a key the object does not have. */
  datatype HousePatch = HousePatch(id: Option<Prim>, name: Option<Prim>, owners: Option<seq<Prim>>,
                                   thumbnail: Option<Prim>, rooms: Option<seq<Room>>)

  /** The argument of `updateRoomInHouse`. */
  datatype RoomPatch = RoomPatch(id: Option<Prim>, name: Option<Prim>, description: Option<Prim>,
                                 maxOccupants: Option<Prim>, status: Option<Prim>, activity: Option<Prim>,
                                 isPrivate: Option<Prim>, thumbnail: Option<Prim>, users: Option<seq<Occupant>>)

  datatype HouseState = HouseState(
    houses: seq<House>,
    neighbours: seq<Neighbour>,
    activeUsers: seq<ActiveUser>,
    currentHouseId: Prim,
    currentRoomId: Prim)

  // ---------------------------------------------------------------------
  // Copy-on-write helpers

  /** `houses.map(h => h.id === houseId ? f(h) : h)` */
  function WithHouse(hs: seq<House>, houseId: Prim, f: House -> House): (r: seq<House>)
    ensures |r| == |hs|
  {
    if hs == [] then []
    else [if hs[0].id == houseId then f(hs[0]) else hs[0]] + WithHouse(hs[1..], houseId, f)
  }

  /** `rooms.map(r => r.id === roomId ? f(r) : r)`. The source writes the room
      `map` and `find` apart from the house ones, and the model keeps them
      apart too, over the room type. */
  function WithRoom(rs: seq<Room>, roomId: Prim, f: Room -> Room): (r: seq<Room>)
    ensures |r| == |rs|
  {
    if rs == [] then []
    else [if rs[0].id == roomId then f(rs[0]) else rs[0]] + WithRoom(rs[1..], roomId, f)
  }

  /** The `map` keeps the order: position `i` holds the image of the old
      element at `i`. */
  lemma {:induction false} WithHouseAt(hs: seq<House>, houseId: Prim, f: House -> House)
    ensures forall i :: 0 <= i < |hs| ==>
      WithHouse(hs, houseId, f)[i] == if hs[i].id == houseId then f(hs[i]) else hs[i]
  {
    if hs != [] {
      WithHouseAt(hs[1..], houseId, f);
      forall i | 0 < i < |hs| ensures WithHouse(hs, houseId, f)[i] == WithHouse(hs[1..], houseId, f)[i - 1] { }
    }
  }

  lemma {:induction false} WithRoomAt(rs: seq<Room>, roomId: Prim, f: Room -> Room)
    ensures forall i :: 0 <= i < |rs| ==>
      WithRoom(rs, roomId, f)[i] == if rs[i].id == roomId then f(rs[i]) else rs[i]
  {
    if rs != [] {
      WithRoomAt(rs[1..], roomId, f);
      forall i | 0 < i < |rs| ensures WithRoom(rs, roomId, f)[i] == WithRoom(rs[1..], roomId, f)[i - 1] { }
    }
  }

  /** The callbacks of `filter(x => x.id !== id)`. */
  function HouseIdIsNot(id: Prim): House -> bool {
    (h: House) => h.id != id
  }

  function RoomIdIsNot(id: Prim): Room -> bool {
    (r: Room) => r.id != id
  }

  function OccupantIdIsNot(id: Prim): Occupant -> bool {
    (o: Occupant) => o.id != id
  }

  /** `rooms.some(u => u.id === id)` */
  predicate Occupied(us: seq<Occupant>, id: Prim) {
    exists i :: 0 <= i < |us| && us[i].id == id
  }

  /** The users of a room after `addUserToRoom`. */
  function AddOccupant(us: seq<Occupant>, u: Occupant): seq<Occupant> {
    if Occupied(us, u.id) then us else us + [u]
  }

  // ---------------------------------------------------------------------
  // Getters

  /** `houses.find(h => h.id === id)`: the first match. */
  function FindHouse(hs: seq<House>, id: Prim): (r: Option<House>)
    ensures r.Some? ==> r.value.id == id
  {
    if hs == [] then None
    else if hs[0].id == id then Some(hs[0])
    else FindHouse(hs[1..], id)
  }

  /** `rooms.find(r => r.id === id)`: the first match. */
  function FindRoom(rs: seq<Room>, id: Prim): (r: Option<Room>)
    ensures r.Some? ==> r.value.id == id
  {
    if rs == [] then None
    else if rs[0].id == id then Some(rs[0])
    else FindRoom(rs[1..], id)
  }

  /** `find` returns the first element with the id, and nothing exactly
      when no element has it. */
  lemma {:induction false} FindHouseFirst(hs: seq<House>, id: Prim)
    ensures FindHouse(hs, id).None? <==> forall i :: 0 <= i < |hs| ==> hs[i].id != id
    ensures FindHouse(hs, id).Some? ==>
      exists i :: 0 <= i < |hs| && hs[i] == FindHouse(hs, id).value && forall j :: 0 <= j < i ==> hs[j].id != id
  {
    if hs != [] && hs[0].id != id {
      FindHouseFirst(hs[1..], id);
      if FindHouse(hs, id).Some? {
        var i :| 0 <= i < |hs[1..]| && hs[1..][i] == FindHouse(hs, id).value
                 && forall j :: 0 <= j < i ==> hs[1..][j].id != id;
        assert hs[i + 1] == FindHouse(hs, id).value;
      } else {
        forall i | 0 <= i < |hs| ensures hs[i].id != id {
          if i > 0 { assert hs[i] == hs[1..][i - 1]; }
        }
      }
    } else if hs != [] {
      assert hs[0] == FindHouse(hs, id).value;
    }
  }

  lemma {:induction false} FindRoomFirst(rs: seq<Room>, id: Prim)
    ensures FindRoom(rs, id).None? <==> forall i :: 0 <= i < |rs| ==> rs[i].id != id
    ensures FindRoom(rs, id).Some? ==>
      exists i :: 0 <= i < |rs| && rs[i] == FindRoom(rs, id).value && forall j :: 0 <= j < i ==> rs[j].id != id
  {
    if rs != [] && rs[0].id != id {
      FindRoomFirst(rs[1..], id);
      if FindRoom(rs, id).Some? {
        var i :| 0 <= i < |rs[1..]| && rs[1..][i] == FindRoom(rs, id).value
                 && forall j :: 0 <= j < i ==> rs[1..][j].id != id;
        assert rs[i + 1] == FindRoom(rs, id).value;
      } else {
        forall i | 0 <= i < |rs| ensures rs[i].id != id {
          if i > 0 { assert rs[i] == rs[1..][i - 1]; }
        }
      }
    } else if rs != [] {
      assert rs[0] == FindRoom(rs, id).value;
    }
  }

  function GetCurrentHouse(s: HouseState): Option<House> {
    FindHouse(s.houses, s.currentHouseId)
  }

  /** `house?.rooms.find(...)`: undefined when either lookup fails. */
  function GetCurrentRoom(s: HouseState): Option<Room> {
    match GetCurrentHouse(s)
    case None => None
    case Some(h) => FindRoom(h.rooms, s.currentRoomId)
  }

  function GetRoom(s: HouseState, houseId: Prim, roomId: Prim): Option<Room> {
    match FindHouse(s.houses, houseId)
    case None => None
    case Some(h) => FindRoom(h.rooms, roomId)
  }

  /** `room?.users || []` */
  function GetRoomUsers(s: HouseState, houseId: Prim, roomId: Prim): seq<Occupant> {
    match GetRoom(s, houseId, roomId)
    case None => []
    case Some(r) => r.users
  }

  function GetUserCount(s: HouseState, houseId: Prim, roomId: Prim): nat {
    |GetRoomUsers(s, houseId, roomId)|
  }

  // ---------------------------------------------------------------------
  // House actions

  /** The house `addHouse` appends; `genId` stands for `nanoid()`. */
  function NewHouse(d: HouseData, genId: Prim): House {
    House(genId, Or(d.name, Str("Untitled House")), d.owners.GetOr([]), Or(d.thumbnail, Null), d.rooms.GetOr([]))
  }

  function AddHouse(s: HouseState, d: HouseData, genId: Prim): HouseState {
    s.(houses := s.houses + [NewHouse(d, genId)])
  }

  function RemoveHouse(s: HouseState, houseId: Prim): HouseState {
    s.(houses := Filter(s.houses, HouseIdIsNot(houseId)))
  }

  /** `{...house, ...updates}` */
  function SpreadHouse(h: House, p: HousePatch): House {
    House(p.id.GetOr(h.id), p.name.GetOr(h.name), p.owners.GetOr(h.owners), p.thumbnail.GetOr(h.thumbnail),
          p.rooms.GetOr(h.rooms))
  }

  function UpdateHouse(s: HouseState, houseId: Prim, p: HousePatch): HouseState {
    s.(houses := WithHouse(s.houses, houseId, (h: House) => SpreadHouse(h, p)))
  }

  function AddOwner(h: House, ownerId: Prim): House {
    h.(owners := if ownerId in h.owners then h.owners else h.owners + [ownerId])
  }

  function RemoveOwner(h: House, ownerId: Prim): House {
    h.(owners := Filter(h.owners, (o: Prim) => o != ownerId))
  }

  function AddOwnerToHouse(s: HouseState, houseId: Prim, ownerId: Prim): HouseState {
    s.(houses := WithHouse(s.houses, houseId, (h: House) => AddOwner(h, ownerId)))
  }

  function RemoveOwnerFromHouse(s: HouseState, houseId: Prim, ownerId: Prim): HouseState {
    s.(houses := WithHouse(s.houses, houseId, (h: House) => RemoveOwner(h, ownerId)))
  }

  // ---------------------------------------------------------------------
  // Room actions

  /** The room `addRoomToHouse` appends; `genId` stands for `nanoid()`. */
  function NewRoom(d: RoomData, genId: Prim): Room {
    Room(genId, Or(d.name, Str("Untitled Room")), Or(d.description, Str("")), Or(d.maxOccupants, Num(10)),
         Or(d.status, Str("open")), Or(d.activity, Str("Idle")), Or(d.isPrivate, Bool(false)),
         Or(d.thumbnail, Null), [])
  }

  function AddRoomToHouse(s: HouseState, houseId: Prim, d: RoomData, genId: Prim): HouseState {
    s.(houses := WithHouse(s.houses, houseId, (h: House) => h.(rooms := h.rooms + [NewRoom(d, genId)])))
  }

  function RemoveRoomFromHouse(s: HouseState, houseId: Prim, roomId: Prim): HouseState {
    s.(houses := WithHouse(s.houses, houseId, RoomsWithout(roomId)))
  }

  /** `house => ({...house, rooms: house.rooms.filter(r => r.id !== roomId)})` */
  function RoomsWithout(roomId: Prim): House -> House {
    (h: House) => h.(rooms := Filter(h.rooms, RoomIdIsNot(roomId)))
  }

  /** `{...room, ...updates}` */
  function SpreadRoom(r: Room, p: RoomPatch): Room {
    Room(p.id.GetOr(r.id), p.name.GetOr(r.name), p.description.GetOr(r.description),
         p.maxOccupants.GetOr(r.maxOccupants), p.status.GetOr(r.status), p.activity.GetOr(r.activity),
         p.isPrivate.GetOr(r.isPrivate), p.thumbnail.GetOr(r.thumbnail), p.users.GetOr(r.users))
  }

  /** Applies `f` to every room `roomId` of every house `houseId`. */
  function WithRoomIn(s: HouseState, houseId: Prim, roomId: Prim, f: Room -> Room): HouseState {
    s.(houses := WithHouse(s.houses, houseId, RoomsWith(roomId, f)))
  }

  /** `house => ({...house, rooms: house.rooms.map(...)})` */
  function RoomsWith(roomId: Prim, f: Room -> Room): House -> House {
    (h: House) => h.(rooms := WithRoom(h.rooms, roomId, f))
  }

  function UpdateRoomInHouse(s: HouseState, houseId: Prim, roomId: Prim, p: RoomPatch): HouseState {
    WithRoomIn(s, houseId, roomId, (r: Room) => SpreadRoom(r, p))
  }

  // ---------------------------------------------------------------------
  // Users in rooms

  function AddUserToRoom(s: HouseState, houseId: Prim, roomId: Prim, u: Occupant): HouseState {
    WithRoomIn(s, houseId, roomId, (r: Room) => r.(users := AddOccupant(r.users, u)))
  }

  function RemoveUserFromRoom(s: HouseState, houseId: Prim, roomId: Prim, userId: Prim): HouseState {
    WithRoomIn(s, houseId, roomId, (r: Room) => r.(users := Filter(r.users, OccupantIdIsNot(userId))))
  }

  /** The source room is left only when both source ids are truthy. */
  function MoveUserToRoom(s: HouseState, fromHouseId: Prim, fromRoomId: Prim, toHouseId: Prim, toRoomId: Prim,
                          u: Occupant): HouseState {
    var s1 := if Truthy(fromHouseId) && Truthy(fromRoomId) then RemoveUserFromRoom(s, fromHouseId, fromRoomId, u.id)
              else s;
    AddUserToRoom(s1, toHouseId, toRoomId, u)
  }

  // ---------------------------------------------------------------------
  // Navigation, neighbours, active users

  function SetCurrentHouse(s: HouseState, houseId: Prim): HouseState {
    s.(currentHouseId := houseId)
  }

  function SetCurrentRoom(s: HouseState, roomId: Prim): HouseState {
    s.(currentRoomId := roomId)
  }

  function AddNeighbour(s: HouseState, n: Neighbour): HouseState {
    s.(neighbours := s.neighbours + [n])
  }

  function RemoveNeighbour(s: HouseState, id: Prim): HouseState {
    s.(neighbours := Filter(s.neighbours, (n: Neighbour) => n.id != id))
  }

  /** Sets the description of room `currentRoomId` in house `currentHouseId`. */
  function UpdateCurrentRoomDescription(s: HouseState, description: Prim): HouseState {
    WithRoomIn(s, s.currentHouseId, s.currentRoomId, (r: Room) => r.(description := description))
  }

  function SetActiveUsers(s: HouseState, us: seq<ActiveUser>): HouseState {
    s.(activeUsers := us)
  }

  function UpdateUserStatus(s: HouseState, id: Prim, status: Prim): HouseState {
    s.(activeUsers := seq(|s.activeUsers|, i requires 0 <= i < |s.activeUsers| =>
                          if s.activeUsers[i].id == id then s.activeUsers[i].(status := status) else s.activeUsers[i]))
  }

  // ---------------------------------------------------------------------
  // Lookups through the copy-on-write helpers

  /** A `map` that keeps the id of the house it updates is seen by `find` as
      the same house, updated. */
  lemma {:induction false} FindHouseWith(hs: seq<House>, houseId: Prim, f: House -> House, id: Prim)
    requires forall h: House :: h.id == houseId ==> f(h).id == h.id
    ensures FindHouse(WithHouse(hs, houseId, f), id)
            == match FindHouse(hs, id)
               case None => None
               case Some(h) => Some(if h.id == houseId then f(h) else h)
  {
    if hs != [] {
      assert WithHouse(hs, houseId, f)[1..] == WithHouse(hs[1..], houseId, f);
      FindHouseWith(hs[1..], houseId, f, id);
    }
  }

  lemma {:induction false} FindRoomWith(rs: seq<Room>, roomId: Prim, f: Room -> Room, id: Prim)
    requires forall r: Room :: r.id == roomId ==> f(r).id == r.id
    ensures FindRoom(WithRoom(rs, roomId, f), id)
            == match FindRoom(rs, id)
               case None => None
               case Some(r) => Some(if r.id == roomId then f(r) else r)
  {
    if rs != [] {
      assert WithRoom(rs, roomId, f)[1..] == WithRoom(rs[1..], roomId, f);
      FindRoomWith(rs[1..], roomId, f, id);
    }
  }

  /** Updating room `roomId` of house `houseId` with an id-preserving `f`
      changes what `GetRoom` finds for that pair, by `f`, and for no other. */
  lemma GetRoomWith(s: HouseState, houseId: Prim, roomId: Prim, f: Room -> Room, h: Prim, r: Prim)
    requires forall x: Room :: x.id == roomId ==> f(x).id == x.id
    ensures GetRoom(WithRoomIn(s, houseId, roomId, f), h, r)
            == match GetRoom(s, h, r)
               case None => None
               case Some(x) => Some(if h == houseId && r == roomId then f(x) else x)
  {
    if h == houseId {
      GetRoomWithSame(s, houseId, roomId, f, r);
    } else {
      GetRoomWithOther(s, houseId, roomId, f, h, r);
    }
  }

  lemma GetRoomWithSame(s: HouseState, houseId: Prim, roomId: Prim, f: Room -> Room, r: Prim)
    requires forall x: Room :: x.id == roomId ==> f(x).id == x.id
    ensures GetRoom(WithRoomIn(s, houseId, roomId, f), houseId, r)
            == match GetRoom(s, houseId, r)
               case None => None
               case Some(x) => Some(if r == roomId then f(x) else x)
  {
    var g := RoomsWith(roomId, f);
    FindHouseWith(s.houses, houseId, g, houseId);
    var found := FindHouse(WithHouse(s.houses, houseId, g), houseId);
    match FindHouse(s.houses, houseId)
    case None =>
      assert found == None;
    case Some(x) =>
      assert found == Some(g(x));
      assert GetRoom(s, houseId, r) == FindRoom(x.rooms, r);
      assert g(x).rooms == WithRoom(x.rooms, roomId, f);
      FindRoomWith(x.rooms, roomId, f, r);
      assert GetRoom(WithRoomIn(s, houseId, roomId, f), houseId, r) == FindRoom(WithRoom(x.rooms, roomId, f), r);
      match FindRoom(x.rooms, r)
      case None =>
      case Some(y) =>
        assert FindRoom(WithRoom(x.rooms, roomId, f), r) == Some(if r == roomId then f(y) else y);
  }

  lemma GetRoomWithOther(s: HouseState, houseId: Prim, roomId: Prim, f: Room -> Room, h: Prim, r: Prim)
    requires h != houseId
    requires forall x: Room :: x.id == roomId ==> f(x).id == x.id
    ensures GetRoom(WithRoomIn(s, houseId, roomId, f), h, r) == GetRoom(s, h, r)
  {
    FindHouseWith(s.houses, houseId, RoomsWith(roomId, f), h);
  }

  /** A `map` that returns every matching house unchanged is the identity. */
  lemma WithHouseUnchanged(hs: seq<House>, houseId: Prim, f: House -> House)
    requires forall i :: 0 <= i < |hs| && hs[i].id == houseId ==> f(hs[i]) == hs[i]
    ensures WithHouse(hs, houseId, f) == hs
  {
    WithHouseAt(hs, houseId, f);
  }

  lemma WithRoomUnchanged(rs: seq<Room>, roomId: Prim, f: Room -> Room)
    requires forall i :: 0 <= i < |rs| && rs[i].id == roomId ==> f(rs[i]) == rs[i]
    ensures WithRoom(rs, roomId, f) == rs
  {
    WithRoomAt(rs, roomId, f);
  }

  /** A `map` with an id-preserving, idempotent callback is idempotent. */
  lemma WithHouseIdempotent(hs: seq<House>, houseId: Prim, f: House -> House)
    requires forall h :: f(h).id == h.id
    requires forall i :: 0 <= i < |hs| && hs[i].id == houseId ==> f(f(hs[i])) == f(hs[i])
    ensures WithHouse(WithHouse(hs, houseId, f), houseId, f) == WithHouse(hs, houseId, f)
  {
    WithHouseAt(hs, houseId, f);
    WithHouseAt(WithHouse(hs, houseId, f), houseId, f);
  }

  lemma WithRoomIdempotent(rs: seq<Room>, roomId: Prim, f: Room -> Room)
    requires forall r :: f(r).id == r.id
    requires forall i :: 0 <= i < |rs| && rs[i].id == roomId ==> f(f(rs[i])) == f(rs[i])
    ensures WithRoom(WithRoom(rs, roomId, f), roomId, f) == WithRoom(rs, roomId, f)
  {
    WithRoomAt(rs, roomId, f);
    WithRoomAt(WithRoom(rs, roomId, f), roomId, f);
  }

  /** `houses.filter(h => h.id !== x)` hides exactly the houses with id `x`. */
  lemma {:induction false} FindHouseFilter(hs: seq<House>, x: Prim, id: Prim)
    ensures FindHouse(Filter(hs, HouseIdIsNot(x)), id) == if id == x then None else FindHouse(hs, id)
  {
    if hs != [] {
      var t := Filter(hs, HouseIdIsNot(x));
      FindHouseFilter(hs[1..], x, id);
      if hs[0].id != x {
        assert t == [hs[0]] + Filter(hs[1..], HouseIdIsNot(x));
        assert t[0] == hs[0] && t[1..] == Filter(hs[1..], HouseIdIsNot(x));
      } else {
        assert t == Filter(hs[1..], HouseIdIsNot(x));
      }
    }
  }

  lemma {:induction false} FindRoomFilter(rs: seq<Room>, x: Prim, id: Prim)
    ensures FindRoom(Filter(rs, RoomIdIsNot(x)), id) == if id == x then None else FindRoom(rs, id)
  {
    if rs != [] {
      var t := Filter(rs, RoomIdIsNot(x));
      FindRoomFilter(rs[1..], x, id);
      if rs[0].id != x {
        assert t == [rs[0]] + Filter(rs[1..], RoomIdIsNot(x));
        assert t[0] == rs[0] && t[1..] == Filter(rs[1..], RoomIdIsNot(x));
      } else {
        assert t == Filter(rs[1..], RoomIdIsNot(x));
      }
    }
  }

  // ---------------------------------------------------------------------
  // Houses

  /** `addHouse` appends one house with a fresh id and the defaults for
      every falsy field, and keeps the houses before it in order. */
  lemma AddHouseAppends(s: HouseState, d: HouseData, genId: Prim)
    requires forall i :: 0 <= i < |s.houses| ==> s.houses[i].id != genId
    ensures var s' := AddHouse(s, d, genId);
      && s'.houses[..|s.houses|] == s.houses
      && FindHouse(s'.houses, genId) == Some(NewHouse(d, genId))
      && NewHouse(d, genId).name == (if Truthy(d.name) then d.name else Str("Untitled House"))
      && NewHouse(d, genId).thumbnail == (if Truthy(d.thumbnail) then d.thumbnail else Null)
      && (d.owners.None? ==> NewHouse(d, genId).owners == [])
      && (d.rooms.None? ==> NewHouse(d, genId).rooms == [])
  {
    FindHouseAppend(s.houses, NewHouse(d, genId));
  }

  lemma {:induction false} FindHouseAppend(hs: seq<House>, h: House)
    requires forall i :: 0 <= i < |hs| ==> hs[i].id != h.id
    ensures FindHouse(hs + [h], h.id) == Some(h)
  {
    if hs == [] {
    } else {
      assert (hs + [h])[1..] == hs[1..] + [h];
      FindHouseAppend(hs[1..], h);
    }
  }

  /** `removeHouse` leaves no house with that id and every other lookup
      as it was. */
  lemma RemoveHouseEffect(s: HouseState, houseId: Prim, id: Prim)
    ensures FindHouse(RemoveHouse(s, houseId).houses, houseId) == None
    ensures id != houseId ==> FindHouse(RemoveHouse(s, houseId).houses, id) == FindHouse(s.houses, id)
  {
    FindHouseFilter(s.houses, houseId, houseId);
    FindHouseFilter(s.houses, houseId, id);
  }

  /** `removeHouse` keeps the other houses in their order and touches nothing
      but the list: wherever the list is split around a house, removing that
      house's id leaves the houses before it and the houses after it, each
      without that id. Without such a house the list stays as it was. */
  lemma RemoveHouseKeepsOrder(s: HouseState, a: seq<House>, h: House, b: seq<House>)
    requires s.houses == a + [h] + b
    ensures RemoveHouse(s, h.id) == s.(houses := Filter(a, HouseIdIsNot(h.id)) + Filter(b, HouseIdIsNot(h.id)))
  {
    FilterDropsSplit(a, h, b, HouseIdIsNot(h.id));
  }

  lemma RemoveAbsentHouse(s: HouseState, houseId: Prim)
    requires forall i :: 0 <= i < |s.houses| ==> s.houses[i].id != houseId
    ensures RemoveHouse(s, houseId) == s
  {
    FilterKeepsAll(s.houses, HouseIdIsNot(houseId));
  }

  /** `updateHouse` with a patch that keeps the id (it has none, or the same
      one): the house found under that id is the old one with the patch spread
      over it, and every other lookup is unchanged. */
  lemma UpdateHouseEffect(s: HouseState, houseId: Prim, p: HousePatch, id: Prim)
    requires p.id.None? || p.id == Some(houseId)
    ensures FindHouse(UpdateHouse(s, houseId, p).houses, id)
            == match FindHouse(s.houses, id)
               case None => None
               case Some(h) => Some(if id == houseId then SpreadHouse(h, p) else h)
  {
    FindHouseWith(s.houses, houseId, (h: House) => SpreadHouse(h, p), id);
  }

  /** `addOwnerToHouse` twice is `addOwnerToHouse` once. */
  lemma AddOwnerIdempotent(s: HouseState, houseId: Prim, ownerId: Prim)
    ensures AddOwnerToHouse(AddOwnerToHouse(s, houseId, ownerId), houseId, ownerId) == AddOwnerToHouse(s, houseId, ownerId)
  {
    WithHouseIdempotent(s.houses, houseId, (h: House) => AddOwner(h, ownerId));
  }

  /** `removeOwnerFromHouse` removes every occurrence of the owner from each
      matching house, keeps the other owners in order and touches no other
      house. */
  lemma RemoveOwnerEffect(s: HouseState, houseId: Prim, ownerId: Prim, i: nat)
    requires i < |s.houses|
    ensures var h' := RemoveOwnerFromHouse(s, houseId, ownerId).houses[i];
      if s.houses[i].id == houseId then
        && ownerId !in h'.owners
        && h'.owners == Filter(s.houses[i].owners, (o: Prim) => o != ownerId)
        && h' == s.houses[i].(owners := h'.owners)
      else h' == s.houses[i]
  {
    WithHouseAt(s.houses, houseId, (h: House) => RemoveOwner(h, ownerId));
  }

  /** Adding an owner a house did not have and removing it again restores
      the state. */
  lemma AddThenRemoveOwner(s: HouseState, houseId: Prim, ownerId: Prim)
    requires forall i :: 0 <= i < |s.houses| && s.houses[i].id == houseId ==> ownerId !in s.houses[i].owners
    ensures RemoveOwnerFromHouse(AddOwnerToHouse(s, houseId, ownerId), houseId, ownerId) == s
  {
    var hs := s.houses;
    var hs1 := AddOwnerToHouse(s, houseId, ownerId).houses;
    var hs2 := RemoveOwnerFromHouse(AddOwnerToHouse(s, houseId, ownerId), houseId, ownerId).houses;
    WithHouseAt(hs, houseId, (h: House) => AddOwner(h, ownerId));
    WithHouseAt(hs1, houseId, (h: House) => RemoveOwner(h, ownerId));
    forall i | 0 <= i < |hs| ensures hs2[i] == hs[i] {
      if hs[i].id == houseId {
        AddThenRemoveOwnerOf(hs[i], ownerId);
      }
    }
    assert hs2 == hs;
  }

  lemma AddThenRemoveOwnerOf(h: House, ownerId: Prim)
    requires ownerId !in h.owners
    ensures RemoveOwner(AddOwner(h, ownerId), ownerId) == h
  {
    var keep := (o: Prim) => o != ownerId;
    FilterConcat(h.owners, [ownerId], keep);
    FilterKeepsAll(h.owners, keep);
    assert Filter([ownerId], keep) == [];
  }

  // ---------------------------------------------------------------------
  // Rooms

  /** `addRoomToHouse` appends one room with no users to the house found
      under `houseId`, and a house id nobody has leaves the state as it was. */
  lemma AddRoomEffect(s: HouseState, houseId: Prim, d: RoomData, genId: Prim)
    ensures FindHouse(AddRoomToHouse(s, houseId, d, genId).houses, houseId)
            == match FindHouse(s.houses, houseId)
               case None => None
               case Some(h) => Some(h.(rooms := h.rooms + [NewRoom(d, genId)]))
    ensures NewRoom(d, genId).users == [] && NewRoom(d, genId).id == genId
    ensures FindHouse(s.houses, houseId).None? ==> AddRoomToHouse(s, houseId, d, genId) == s
  {
    var f := (h: House) => h.(rooms := h.rooms + [NewRoom(d, genId)]);
    FindHouseWith(s.houses, houseId, f, houseId);
    if FindHouse(s.houses, houseId).None? {
      FindHouseFirst(s.houses, houseId);
      WithHouseUnchanged(s.houses, houseId, f);
    }
  }

  /** With no data at all, the new room takes every default. */
  lemma NewRoomDefaults(genId: Prim)
    ensures NewRoom(RoomData(Undefined, Undefined, Undefined, Undefined, Undefined, Undefined, Undefined), genId)
            == Room(genId, Str("Untitled Room"), Str(""), Num(10), Str("open"), Str("Idle"), Bool(false), Null, [])
  {
  }

  /** The defaults replace falsy values, not only missing ones: a capacity
      of 0 becomes 10, while a given name survives. */
  lemma NewRoomZeroCapacity(genId: Prim)
    ensures var r := NewRoom(RoomData(Str("Den"), Str(""), Num(0), Str(""), Null, Bool(false), Str("")), genId);
      r.name == Str("Den") && r.maxOccupants == Num(10) && r.status == Str("open") && r.activity == Str("Idle")
  {
  }

  /** `removeRoomFromHouse` leaves no room `roomId` in the house found under
      `houseId` and every other room lookup as it was. */
  lemma RemoveRoomEffect(s: HouseState, houseId: Prim, roomId: Prim, h: Prim, r: Prim)
    ensures GetRoom(RemoveRoomFromHouse(s, houseId, roomId), h, r)
            == if h == houseId && r == roomId then None else GetRoom(s, h, r)
  {
    var f := RoomsWithout(roomId);
    FindHouseWith(s.houses, houseId, f, h);
    if h == houseId {
      RemoveRoomSameHouse(s, houseId, roomId, r);
    }
  }

  /** `removeRoomFromHouse` keeps the list of houses in order and changes only
      the houses with that id: in such a house, wherever the rooms are split
      around a room, the rooms before it and after it stay in order without
      that room's id; every other house is left as it was. */
  lemma RemoveRoomKeepsOrder(s: HouseState, houseId: Prim, i: nat, a: seq<Room>, r: Room, b: seq<Room>)
    requires i < |s.houses|
    ensures var s' := RemoveRoomFromHouse(s, houseId, r.id);
            && s' == s.(houses := s'.houses)
            && |s'.houses| == |s.houses|
            && (s.houses[i].id != houseId ==> s'.houses[i] == s.houses[i])
            && (s.houses[i].id == houseId && s.houses[i].rooms == a + [r] + b ==>
                s'.houses[i] == s.houses[i].(rooms := Filter(a, RoomIdIsNot(r.id)) + Filter(b, RoomIdIsNot(r.id))))
  {
    WithHouseAt(s.houses, houseId, RoomsWithout(r.id));
    FilterSplit(a, r, b, RoomIdIsNot(r.id));
  }

  lemma RemoveRoomSameHouse(s: HouseState, houseId: Prim, roomId: Prim, r: Prim)
    ensures GetRoom(RemoveRoomFromHouse(s, houseId, roomId), houseId, r)
            == if r == roomId then None else GetRoom(s, houseId, r)
  {
    var f := RoomsWithout(roomId);
    FindHouseWith(s.houses, houseId, f, houseId);
    var found := FindHouse(RemoveRoomFromHouse(s, houseId, roomId).houses, houseId);
    match FindHouse(s.houses, houseId)
    case None =>
      assert found == None;
    case Some(x) =>
      assert found == Some(f(x));
      assert GetRoom(s, houseId, r) == FindRoom(x.rooms, r);
      FindRoomFilter(x.rooms, roomId, r);
      assert GetRoom(RemoveRoomFromHouse(s, houseId, roomId), houseId, r)
             == FindRoom(Filter(x.rooms, RoomIdIsNot(roomId)), r);
  }

  /** `updateRoomInHouse` with a patch that keeps the id (it has none, or the
      same one) spreads the patch over that room and changes no other room
      lookup. */
  lemma UpdateRoomEffect(s: HouseState, houseId: Prim, roomId: Prim, p: RoomPatch, h: Prim, r: Prim)
    requires p.id.None? || p.id == Some(roomId)
    ensures GetRoom(UpdateRoomInHouse(s, houseId, roomId, p), h, r)
            == match GetRoom(s, h, r)
               case None => None
               case Some(x) => Some(if h == houseId && r == roomId then SpreadRoom(x, p) else x)
  {
    GetRoomWith(s, houseId, roomId, (x: Room) => SpreadRoom(x, p), h, r);
  }

  /** `updateCurrentRoomDescription` changes the description of the current
      room and nothing else that `getCurrentRoom` sees. */
  lemma UpdateDescriptionEffect(s: HouseState, description: Prim)
    ensures GetCurrentRoom(UpdateCurrentRoomDescription(s, description))
            == match GetCurrentRoom(s)
               case None => None
               case Some(r) => Some(r.(description := description))
  {
    GetRoomWith(s, s.currentHouseId, s.currentRoomId, (x: Room) => x.(description := description),
                s.currentHouseId, s.currentRoomId);
  }

  /** Room ids are compared with `===`: a room whose id is the number 1 is
      not the current room when the cursor holds the string "1". */
  lemma CurrentRoomStrictEquality()
    ensures var room := Room(Num(1), Str("Lobby"), Str(""), Num(10), Str("open"), Str("Idle"), Bool(false), Null, []);
      var s := HouseState([House(Str("house1"), Str("Home"), [], Null, [room])], [], [], Str("house1"), Str("1"));
      && GetCurrentRoom(s) == None
      && GetCurrentRoom(SetCurrentRoom(s, Num(1))) == Some(room)
  {
  }

  // ---------------------------------------------------------------------
  // Users in rooms

  lemma AddOccupantIdempotent(us: seq<Occupant>, u: Occupant)
    ensures Occupied(AddOccupant(us, u), u.id)
    ensures AddOccupant(AddOccupant(us, u), u) == AddOccupant(us, u)
  {
    if !Occupied(us, u.id) {
      assert (us + [u])[|us|].id == u.id;
    }
  }

  /** The users `getRoomUsers` sees after `addUserToRoom`: the user is
      appended when no entry has their id and the list is unchanged
      otherwise; a room that is not found stays not found. */
  lemma AddUserToRoomUsers(s: HouseState, houseId: Prim, roomId: Prim, u: Occupant)
    ensures GetRoomUsers(AddUserToRoom(s, houseId, roomId, u), houseId, roomId)
            == if GetRoom(s, houseId, roomId).None? then [] else AddOccupant(GetRoomUsers(s, houseId, roomId), u)
  {
    GetRoomWith(s, houseId, roomId, (x: Room) => x.(users := AddOccupant(x.users, u)), houseId, roomId);
  }

  /** `addUserToRoom` twice with the same user id is `addUserToRoom` once. */
  lemma AddUserToRoomIdempotent(s: HouseState, houseId: Prim, roomId: Prim, u: Occupant)
    ensures AddUserToRoom(AddUserToRoom(s, houseId, roomId, u), houseId, roomId, u) == AddUserToRoom(s, houseId, roomId, u)
  {
    var g := (x: Room) => x.(users := AddOccupant(x.users, u));
    forall h: House ensures RoomsWith(roomId, g)(RoomsWith(roomId, g)(h)) == RoomsWith(roomId, g)(h) {
      forall i | 0 <= i < |h.rooms| ensures g(g(h.rooms[i])) == g(h.rooms[i]) {
        AddOccupantIdempotent(h.rooms[i].users, u);
      }
      WithRoomIdempotent(h.rooms, roomId, g);
    }
    WithHouseIdempotent(s.houses, houseId, RoomsWith(roomId, g));
  }

  /** `addUserToRoom` does not look at `maxOccupants`: a new user always
      raises the count by one. */
  lemma AddUserIgnoresCapacity(s: HouseState, houseId: Prim, roomId: Prim, u: Occupant)
    requires GetRoom(s, houseId, roomId).Some? && !Occupied(GetRoomUsers(s, houseId, roomId), u.id)
    ensures GetUserCount(AddUserToRoom(s, houseId, roomId, u), houseId, roomId) == GetUserCount(s, houseId, roomId) + 1
  {
    AddUserToRoomUsers(s, houseId, roomId, u);
  }

  /** A room with space for two holds three after three distinct users join. */
  lemma ThreeUsersInRoomForTwo()
    ensures var room := Room(Num(1), Str("Den"), Str(""), Num(2), Str("open"), Str("Idle"), Bool(false), Null, []);
      var s := HouseState([House(Str("h"), Str("Home"), [], Null, [room])], [], [], Str("h"), Num(1));
      var s3 := AddUserToRoom(AddUserToRoom(AddUserToRoom(s, Str("h"), Num(1), Occupant(Str("a"), Null, Null, Null)),
                                                 Str("h"), Num(1), Occupant(Str("b"), Null, Null, Null)),
                              Str("h"), Num(1), Occupant(Str("c"), Null, Null, Null));
      GetUserCount(s3, Str("h"), Num(1)) == 3
  {
    var room := Room(Num(1), Str("Den"), Str(""), Num(2), Str("open"), Str("Idle"), Bool(false), Null, []);
    var s := HouseState([House(Str("h"), Str("Home"), [], Null, [room])], [], [], Str("h"), Num(1));
    var a := Occupant(Str("a"), Null, Null, Null);
    var b := Occupant(Str("b"), Null, Null, Null);
    var c := Occupant(Str("c"), Null, Null, Null);
    var s1 := AddUserToRoom(s, Str("h"), Num(1), a);
    var s2 := AddUserToRoom(s1, Str("h"), Num(1), b);
    AddUserToRoomUsers(s, Str("h"), Num(1), a);
    AddUserToRoomUsers(s1, Str("h"), Num(1), b);
    AddUserToRoomUsers(s2, Str("h"), Num(1), c);
    assert GetRoomUsers(s1, Str("h"), Num(1)) == [a];
    assert GetRoomUsers(s2, Str("h"), Num(1)) == [a, b];
  }

  /** `removeUserFromRoom` drops every entry with that id from the room and
      keeps the others in order; no other room changes. */
  lemma RemoveUserFromRoomEffect(s: HouseState, houseId: Prim, roomId: Prim, userId: Prim, h: Prim, r: Prim)
    ensures GetRoom(RemoveUserFromRoom(s, houseId, roomId, userId), h, r)
            == match GetRoom(s, h, r)
               case None => None
               case Some(x) => Some(if h == houseId && r == roomId
                                    then x.(users := Filter(x.users, OccupantIdIsNot(userId))) else x)
  {
    GetRoomWith(s, houseId, roomId, (x: Room) => x.(users := Filter(x.users, OccupantIdIsNot(userId))), h, r);
  }

  /** After `removeUserFromRoom` no entry of the room has that id. */
  lemma RemoveUserFromRoomGone(s: HouseState, houseId: Prim, roomId: Prim, userId: Prim)
    ensures !Occupied(GetRoomUsers(RemoveUserFromRoom(s, houseId, roomId, userId), houseId, roomId), userId)
  {
    RemoveUserFromRoomEffect(s, houseId, roomId, userId, houseId, roomId);
    var us := GetRoomUsers(RemoveUserFromRoom(s, houseId, roomId, userId), houseId, roomId);
    forall i | 0 <= i < |us| ensures us[i].id != userId {
      assert us[i] in us;
    }
  }

  /** Some room `roomId` of some house `houseId` has an entry with id `userId`. */
  predicate InRoom(s: HouseState, houseId: Prim, roomId: Prim, userId: Prim) {
    exists i, j :: 0 <= i < |s.houses| && s.houses[i].id == houseId && 0 <= j < |s.houses[i].rooms|
                   && s.houses[i].rooms[j].id == roomId && Occupied(s.houses[i].rooms[j].users, userId)
  }

  /** Removing a user who is in no matching room changes nothing. */
  lemma RemoveAbsentUser(s: HouseState, houseId: Prim, roomId: Prim, userId: Prim)
    requires !InRoom(s, houseId, roomId, userId)
    ensures RemoveUserFromRoom(s, houseId, roomId, userId) == s
  {
    var g := (x: Room) => x.(users := Filter(x.users, OccupantIdIsNot(userId)));
    var f := RoomsWith(roomId, g);
    forall i | 0 <= i < |s.houses| && s.houses[i].id == houseId ensures f(s.houses[i]) == s.houses[i] {
      var rs := s.houses[i].rooms;
      forall j | 0 <= j < |rs| && rs[j].id == roomId ensures g(rs[j]) == rs[j] {
        FilterKeepsAll(rs[j].users, OccupantIdIsNot(userId));
      }
      WithRoomUnchanged(rs, roomId, g);
    }
    WithHouseUnchanged(s.houses, houseId, f);
  }

  /** `moveUserToRoom` is a plain `addUserToRoom` when a source id is falsy
      or the user is not in the source room. */
  lemma MoveIsAdd(s: HouseState, fromHouseId: Prim, fromRoomId: Prim, toHouseId: Prim, toRoomId: Prim, u: Occupant)
    requires !(Truthy(fromHouseId) && Truthy(fromRoomId)) || !InRoom(s, fromHouseId, fromRoomId, u.id)
    ensures MoveUserToRoom(s, fromHouseId, fromRoomId, toHouseId, toRoomId, u) == AddUserToRoom(s, toHouseId, toRoomId, u)
  {
    if Truthy(fromHouseId) && Truthy(fromRoomId) {
      RemoveAbsentUser(s, fromHouseId, fromRoomId, u.id);
    }
  }

  /** After a move between two different rooms with truthy source ids, the
      user is in the target room (if it exists) and not in the source. */
  lemma MoveLeavesSource(s: HouseState, fromHouseId: Prim, fromRoomId: Prim, toHouseId: Prim, toRoomId: Prim, u: Occupant)
    requires Truthy(fromHouseId) && Truthy(fromRoomId)
    requires fromHouseId != toHouseId || fromRoomId != toRoomId
    ensures var s' := MoveUserToRoom(s, fromHouseId, fromRoomId, toHouseId, toRoomId, u);
      && !Occupied(GetRoomUsers(s', fromHouseId, fromRoomId), u.id)
      && (GetRoom(s, toHouseId, toRoomId).Some? ==> Occupied(GetRoomUsers(s', toHouseId, toRoomId), u.id))
  {
    var s1 := RemoveUserFromRoom(s, fromHouseId, fromRoomId, u.id);
    RemoveUserFromRoomEffect(s, fromHouseId, fromRoomId, u.id, toHouseId, toRoomId);
    RemoveUserFromRoomGone(s, fromHouseId, fromRoomId, u.id);
    var add := (x: Room) => x.(users := AddOccupant(x.users, u));
    GetRoomWith(s1, toHouseId, toRoomId, add, fromHouseId, fromRoomId);
    AddUserToRoomUsers(s1, toHouseId, toRoomId, u);
    AddOccupantIdempotent(GetRoomUsers(s1, toHouseId, toRoomId), u);
  }

  // ---------------------------------------------------------------------
  // Neighbours and active users

  /** Adding a neighbour with a new id and removing that id restores the list. */
  lemma AddThenRemoveNeighbour(s: HouseState, n: Neighbour)
    requires forall i :: 0 <= i < |s.neighbours| ==> s.neighbours[i].id != n.id
    ensures RemoveNeighbour(AddNeighbour(s, n), n.id) == s
  {
    FilterConcat(s.neighbours, [n], (x: Neighbour) => x.id != n.id);
    FilterKeepsAll(s.neighbours, (x: Neighbour) => x.id != n.id);
  }

  /** `removeNeighbour` drops every neighbour with that id and keeps the
      rest in order. */
  lemma RemoveNeighbourEffect(s: HouseState, a: seq<Neighbour>, n: Neighbour, b: seq<Neighbour>)
    requires s.neighbours == a + [n] + b
    ensures RemoveNeighbour(s, n.id).neighbours
            == Filter(a, (x: Neighbour) => x.id != n.id) + Filter(b, (x: Neighbour) => x.id != n.id)
  {
    FilterConcat(a + [n], b, (x: Neighbour) => x.id != n.id);
    FilterConcat(a, [n], (x: Neighbour) => x.id != n.id);
  }

  /** `updateUserStatus` changes the status of every active user with that
      id, and of nobody else; a second update overrides the first. */
  lemma UpdateUserStatusEffect(s: HouseState, id: Prim, status: Prim, status2: Prim)
    ensures var s' := UpdateUserStatus(s, id, status);
      && |s'.activeUsers| == |s.activeUsers|
      && (forall i :: 0 <= i < |s.activeUsers| ==>
            s'.activeUsers[i] == if s.activeUsers[i].id == id then s.activeUsers[i].(status := status) else s.activeUsers[i])
      && UpdateUserStatus(s', id, status2) == UpdateUserStatus(s, id, status2)
  {
  }
}
