/** The room registry and the per-connection consumer of the sync server.

    `Rooms` is the process-wide dictionary from room id to that room's
    state and the names of its connected channels. A `RoomConsumer` stands
    for one websocket connection to one room; its methods are the
    connection's handlers and update the registry in place. The transport
    (joining and leaving the channel-layer group, accepting, sending) is
    not modelled; handlers return the event they send instead. */
module Consumers {
  import opened RoomStates
  import opened CommandProcessor

  /** A registry entry: the room's state and its connected channel names. */
  datatype Room = Room(state: RoomState, clients: set<string>)

  /** The registry of live rooms. */
  class Rooms {
    var rooms: map<string, Room>

    /** Every registered room keeps the room invariant. */
    ghost predicate Valid()
      reads this
    {
      forall id :: id in rooms ==> RoomStates.Valid(rooms[id].state)
    }

    /** The entry a lookup of `id` yields: the registered one, or a new
        room with the default state and no clients. */
    function Current(id: string): Room
      reads this
    {
      if id in rooms then rooms[id] else Room(NewRoomState(), {})
    }

    /** The registry starts empty. */
    constructor ()
      ensures rooms == map[] && Valid()
    {
      rooms := map[];
    }

    /** Look a room up, creating it on first use; no other room changes. */
    method GetRoom(id: string) returns (room: Room)
      requires Valid()
      modifies this
      ensures Valid()
      ensures room == old(Current(id))
      ensures id in old(rooms) ==> rooms == old(rooms)
      ensures id !in old(rooms) ==> rooms == old(rooms)[id := Room(NewRoomState(), {})]
      ensures id in rooms && rooms[id] == room
    {
      if id !in rooms {
        rooms := rooms[id := Room(NewRoomState(), {})];
      }
      room := rooms[id];
    }
  }

  /** The handlers of one connection, named by `channelName`, to the room
      `roomId` of `registry`. */
  class RoomConsumer {
    const registry: Rooms
    const roomId: string
    const channelName: string

    constructor (registry: Rooms, roomId: string, channelName: string)
      ensures this.registry == registry && this.roomId == roomId && this.channelName == channelName
    {
      this.registry := registry;
      this.roomId := roomId;
      this.channelName := channelName;
    }

    /** A connection joins: its channel is added to the room (created if
        absent) and it is sent a snapshot of the room's current state. */
    method Connect() returns (snapshot: Event)
      requires registry.Valid()
      modifies registry
      ensures registry.Valid()
      ensures var before := old(registry.Current(roomId));
              registry.rooms == old(registry.rooms)[roomId := before.(clients := before.clients + {channelName})]
      ensures roomId in registry.rooms && channelName in registry.rooms[roomId].clients
      ensures snapshot == StateEvent(registry.rooms[roomId].state)
    {
      var room := registry.GetRoom(roomId);
      room := room.(clients := room.clients + {channelName});
      registry.rooms := registry.rooms[roomId := room];
      snapshot := StateEvent(room.state);
    }

    /** A connection leaves: its channel is removed from the room, and the
        room is dropped from the registry once no channel is left. */
    method Disconnect()
      requires registry.Valid()
      modifies registry
      ensures registry.Valid()
      ensures var before := old(registry.Current(roomId));
              var left := before.clients - {channelName};
              if left == {} then registry.rooms == old(registry.rooms) - {roomId}
              else registry.rooms == old(registry.rooms)[roomId := before.(clients := left)]
      ensures roomId in registry.rooms <==> old(registry.Current(roomId)).clients - {channelName} != {}
    {
      var room := registry.GetRoom(roomId);
      room := room.(clients := room.clients - {channelName});
      registry.rooms := registry.rooms[roomId := room];
      if room.clients == {} {
        registry.rooms := registry.rooms - {roomId};
      }
    }

    /** A message arrives: the room (created if absent) is updated field by
        field as its type demands, and the resulting event is returned.
        `now` is the clock reading taken while handling it and `resolved`
        the playlist lookup's outcome, `None` when the lookup raised. */
    method ReceiveJson(cmd: Command, now: real, resolved: Option<seq<PlaylistItem>>) returns (out: Outbound)
      requires registry.Valid()
      requires roomId in registry.rooms ==> AnchorAtMost(registry.rooms[roomId].state, now)
      modifies registry
      ensures registry.Valid()
      ensures var before := old(registry.Current(roomId));
              var t := Step(before.state, cmd, now, resolved);
              registry.rooms == old(registry.rooms)[roomId := before.(state := t.state)] && out == t.out
    {
      var room := registry.GetRoom(roomId);
      var st := room.state;
      out := NoEvent;
      match cmd {
        case SetPlaylist(pid, given) =>
          if NeedsLookup(pid, given) {
            if resolved.Some? {
              st := st.(playlistId := pid, playlist := resolved.value);
            }
          } else {
            st := st.(playlistId := pid, playlist := given.GetOr([]));
          }
          if !NeedsLookup(pid, given) || resolved.Some? {
            st := st.(index := 0, isPlaying := false, seekOffset := 0.0, playStartServerTime := None);
            out := Broadcast(StateEvent(st));
          }
        case Play =>
          st := st.(isPlaying := true, playStartServerTime := Some(now));
          out := Broadcast(PlayEvent(st.index, st.seekOffset, st.playStartServerTime));
        case Pause =>
          if st.isPlaying && st.playStartServerTime.Some? {
            st := st.(seekOffset := st.seekOffset + (now - st.playStartServerTime.value));
          }
          st := st.(isPlaying := false, playStartServerTime := None);
          out := Broadcast(PauseEvent(st.seekOffset));
        case Seek(seconds) =>
          var requested := seconds.GetOr(0.0);
          st := st.(seekOffset := if requested > 0.0 then requested else 0.0);
          if st.isPlaying {
            st := st.(playStartServerTime := Some(now));
          }
          out := Broadcast(SeekEvent(st.seekOffset, st.playStartServerTime));
        case Next =>
          if st.index < MaxIndex(st.playlist) {
            st := st.(index := st.index + 1);
          }
          st := st.(seekOffset := 0.0, playStartServerTime := if st.isPlaying then Some(now) else None);
          out := Broadcast(StateEvent(st));
        case Prev =>
          if st.index > 0 {
            st := st.(index := st.index - 1);
          }
          st := st.(seekOffset := 0.0, playStartServerTime := if st.isPlaying then Some(now) else None);
          out := Broadcast(StateEvent(st));
        case Ping =>
          out := Reply(PongEvent(now));
        case Unrecognized =>
      }
      registry.rooms := registry.rooms[roomId := room.(state := st)];
    }
  }

  /** The last participant leaves a room that was playing; whoever joins
      the same room id next finds a fresh default room, not the old one. */
  method RejoinAfterLastLeave(id: string, first: string, second: string, items: seq<PlaylistItem>, now: real)
    returns (snapshot: Event)
    ensures snapshot == StateEvent(NewRoomState())
  {
    var registry := new Rooms();
    var a := new RoomConsumer(registry, id, first);
    var joined := a.Connect();
    var sent := a.ReceiveJson(SetPlaylist(None, Some(items)), now, None);
    sent := a.ReceiveJson(Play, now, None);
    a.Disconnect();
    var b := new RoomConsumer(registry, id, second);
    snapshot := b.Connect();
  }

  /** In any registry, once the only channel of a room leaves, the next
      connection to that room id is sent the default state, whatever the
      room held before. */
  method RejoinAfterLastLeaveAnyRoom(registry: Rooms, leaving: RoomConsumer, joining: RoomConsumer)
    returns (snapshot: Event)
    requires registry.Valid()
    requires leaving.registry == registry && joining.registry == registry
    requires leaving.roomId == joining.roomId
    requires leaving.roomId in registry.rooms && registry.rooms[leaving.roomId].clients == {leaving.channelName}
    modifies registry
    ensures snapshot == StateEvent(NewRoomState())
    ensures registry.rooms == old(registry.rooms)[joining.roomId := Room(NewRoomState(), {joining.channelName})]
  {
    ghost var before := registry.rooms;
    leaving.Disconnect();
    assert registry.rooms == before - {joining.roomId};
    ghost var vacant := registry.Current(joining.roomId);
    assert vacant == Room(NewRoomState(), {});
    assert vacant.(clients := vacant.clients + {joining.channelName}) == Room(NewRoomState(), {joining.channelName});
    snapshot := joining.Connect();
  }
}
