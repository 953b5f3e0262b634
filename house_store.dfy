/** The house store of `src/store/houseStore.js` as an object holding the
    store's state. Every action builds its new `houses`, `neighbours` or
    `activeUsers` list as one `map`/`filter` over the old list and stores it
    in that one field; `moveUserToRoom` calls the store's own remove and add
    actions in turn, as the source does through `get()`. */
module HouseStore {
  import opened Js
  import opened HouseModel

  class Store {
    var state: HouseState

    /** The empty store; the sample houses the source seeds it with are not
        part of this model. */
    constructor ()
      ensures state == HouseState([], [], [], Str("house1"), Num(1))
    {
      state := HouseState([], [], [], Str("house1"), Num(1));
    }

    method AddHouse(d: HouseData, genId: Prim)
      modifies this
      ensures state == HouseModel.AddHouse(old(state), d, genId)
    {
      state := state.(houses := state.houses + [NewHouse(d, genId)]);
    }

    method RemoveHouse(houseId: Prim)
      modifies this
      ensures state == HouseModel.RemoveHouse(old(state), houseId)
    {
      state := state.(houses := Filter(state.houses, HouseIdIsNot(houseId)));
    }

    method UpdateHouse(houseId: Prim, p: HousePatch)
      modifies this
      ensures state == HouseModel.UpdateHouse(old(state), houseId, p)
    {
      state := state.(houses := WithHouse(state.houses, houseId, (h: House) => SpreadHouse(h, p)));
    }

    method AddOwnerToHouse(houseId: Prim, ownerId: Prim)
      modifies this
      ensures state == HouseModel.AddOwnerToHouse(old(state), houseId, ownerId)
    {
      state := state.(houses := WithHouse(state.houses, houseId, (h: House) => AddOwner(h, ownerId)));
    }

    method RemoveOwnerFromHouse(houseId: Prim, ownerId: Prim)
      modifies this
      ensures state == HouseModel.RemoveOwnerFromHouse(old(state), houseId, ownerId)
    {
      state := state.(houses := WithHouse(state.houses, houseId, (h: House) => RemoveOwner(h, ownerId)));
    }

    method AddRoomToHouse(houseId: Prim, d: RoomData, genId: Prim)
      modifies this
      ensures state == HouseModel.AddRoomToHouse(old(state), houseId, d, genId)
    {
      state := state.(houses := WithHouse(state.houses, houseId, (h: House) => h.(rooms := h.rooms + [NewRoom(d, genId)])));
    }

    method RemoveRoomFromHouse(houseId: Prim, roomId: Prim)
      modifies this
      ensures state == HouseModel.RemoveRoomFromHouse(old(state), houseId, roomId)
    {
      state := state.(houses := WithHouse(state.houses, houseId, RoomsWithout(roomId)));
    }

    method UpdateRoomInHouse(houseId: Prim, roomId: Prim, p: RoomPatch)
      modifies this
      ensures state == HouseModel.UpdateRoomInHouse(old(state), houseId, roomId, p)
    {
      state := state.(houses := WithHouse(state.houses, houseId, RoomsWith(roomId, (r: Room) => SpreadRoom(r, p))));
    }

    method AddUserToRoom(houseId: Prim, roomId: Prim, u: Occupant)
      modifies this
      ensures state == HouseModel.AddUserToRoom(old(state), houseId, roomId, u)
    {
      state := state.(houses := WithHouse(state.houses, houseId,
                                          RoomsWith(roomId, (r: Room) => r.(users := AddOccupant(r.users, u)))));
    }

    method RemoveUserFromRoom(houseId: Prim, roomId: Prim, userId: Prim)
      modifies this
      ensures state == HouseModel.RemoveUserFromRoom(old(state), houseId, roomId, userId)
    {
      state := state.(houses := WithHouse(state.houses, houseId,
                                          RoomsWith(roomId, (r: Room) => r.(users := Filter(r.users, OccupantIdIsNot(userId))))));
    }

    method MoveUserToRoom(fromHouseId: Prim, fromRoomId: Prim, toHouseId: Prim, toRoomId: Prim, u: Occupant)
      modifies this
      ensures state == HouseModel.MoveUserToRoom(old(state), fromHouseId, fromRoomId, toHouseId, toRoomId, u)
    {
      if Truthy(fromHouseId) && Truthy(fromRoomId) {
        RemoveUserFromRoom(fromHouseId, fromRoomId, u.id);
      }
      AddUserToRoom(toHouseId, toRoomId, u);
    }

    method SetCurrentHouse(houseId: Prim)
      modifies this
      ensures state == old(state).(currentHouseId := houseId)
    {
      state := state.(currentHouseId := houseId);
    }

    method SetCurrentRoom(roomId: Prim)
      modifies this
      ensures state == old(state).(currentRoomId := roomId)
    {
      state := state.(currentRoomId := roomId);
    }

    method AddNeighbour(n: Neighbour)
      modifies this
      ensures state == HouseModel.AddNeighbour(old(state), n)
    {
      state := state.(neighbours := state.neighbours + [n]);
    }

    method RemoveNeighbour(id: Prim)
      modifies this
      ensures state == HouseModel.RemoveNeighbour(old(state), id)
    {
      state := state.(neighbours := Filter(state.neighbours, (n: Neighbour) => n.id != id));
    }

    method UpdateCurrentRoomDescription(description: Prim)
      modifies this
      ensures state == HouseModel.UpdateCurrentRoomDescription(old(state), description)
    {
      state := state.(houses := WithHouse(state.houses, state.currentHouseId,
                                          RoomsWith(state.currentRoomId, (r: Room) => r.(description := description))));
    }

    method SetActiveUsers(us: seq<ActiveUser>)
      modifies this
      ensures state == old(state).(activeUsers := us)
    {
      state := state.(activeUsers := us);
    }

    method UpdateUserStatus(id: Prim, status: Prim)
      modifies this
      ensures state == HouseModel.UpdateUserStatus(old(state), id, status)
    {
      var us := state.activeUsers;
      state := state.(activeUsers := seq(|us|, i requires 0 <= i < |us| =>
                                         if us[i].id == id then us[i].(status := status) else us[i]));
    }
  }
}
