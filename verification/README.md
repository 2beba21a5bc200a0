# yt-sync room server, modelled in Dafny

This models the server side of yt-sync. Every room has one authoritative playback timeline: a playlist, a cursor on it, a play/pause flag, a seek offset and an anchor. The anchor is the clock reading at which the current play run began. The anchor lets a client derive the live position from the offset and the server's clock. The React Native client in this repository does not use it: on `PLAY` it seeks to the offset alone.

The model covers three parts:

- the room registry (a dictionary from room id to the room's state and its set of connected channels);
- the connection handlers that join and leave a room;
- the command dispatch that changes the room's state and chooses the event it sends.

Files:

- `state.dfy`, module `RoomStates`: the `RoomState` record and its defaults, the `PlaylistItem` record, the room invariant `Valid`, and the derived playback `Position`.
- `processor.dfy`, module `CommandProcessor`: the decoded commands and the outbound events. Each command is a pure transition function, and these functions are the specification of the dispatch. The module also defines `Step` (the dispatch), `Run` (a trace of commands handled in order) and the lemmas.
- `consumers.dfy`, module `Consumers`: class `Rooms` is the process-wide registry. Its `GetRoom` creates a room lazily. Class `RoomConsumer` is one connection. `Connect`, `Disconnect` and `ReceiveJson` update the registry in place. `ReceiveJson` rewrites the room's state field by field, as the handler does, and is proved equal to `CommandProcessor.Step`.

Two things the handlers depend on become parameters:

- the server's monotonic clock is a `real` argument `now`;
- the playlist lookup's outcome is an argument `resolved`, which is `None` when the lookup raised.

Times and offsets are `real`, not floating point. Where the invariant needs a monotonic clock, the model requires `AnchorAtMost(st, now)`: the reading is not earlier than the current anchor.

Two points where the model and the program part ways:

- `ReceiveJson` does not require its channel to have joined the room. So, unlike the program, it can re-create an absent room with no client. In the program, `self.room_id` is set only in `connect` (server-django/syncapp/consumers.py:16), and the channel is added at consumers.py:21 with no suspension point between lookup and add. The framework runs one connection's handlers in order: `connect`, then each `receive_json`, then `disconnect`. So when `receive_json` runs, its channel is in the room, and `get_room` at consumers.py:33 always finds the entry.
- When the playlist lookup raises, the tuple assignment at consumers.py:39 has not happened yet. So the state is unchanged and nothing is broadcast.

## Model

| member | source | states |
|---|---|---|
| `RoomStates.NewRoomState` | server-django/syncapp/state.py:12-19 | a fresh room has no playlist id, an empty playlist, index 0, is paused, has no anchor and offset 0, and satisfies the room invariant |
| `RoomStates.PositionMonotone` | server-django/syncapp/consumers.py:53-54 | in a valid room the derived position is never negative, stays put while paused and never goes back while playing |
| `CommandProcessor.SetPlaylistStep` | server-django/syncapp/consumers.py:36-43 | the lookup is used exactly when an id is given without a non-empty list. A non-empty given list is installed verbatim. With neither, the playlist is empty. The timeline resets to a valid paused state at index 0, offset 0, with no anchor, and the new state is broadcast. A failed lookup changes nothing and sends nothing |
| `CommandProcessor.PlayStep` | server-django/syncapp/consumers.py:45-50 | play sets the anchor to `now` and keeps the cursor and offset, so playback resumes from the stored offset. When the room was paused the derived position does not jump. The invariant is kept. It broadcasts index, offset and the new anchor |
| `CommandProcessor.PauseStep` | server-django/syncapp/consumers.py:52-56 | when playing, pause adds exactly `now - anchor` to the offset. Otherwise the offset is unchanged. Afterwards the room is paused with no anchor, and the position stays frozen at the position when pause ran. Under a monotonic clock the invariant is kept. It broadcasts the offset |
| `CommandProcessor.SeekStep` | server-django/syncapp/consumers.py:58-64 | the offset becomes the requested second clamped at 0, and a missing value counts as 0. The derived position right after equals that offset. The anchor moves to `now` only while playing. The index and play flag are unchanged. It broadcasts the offset and the anchor |
| `CommandProcessor.NextStep` | server-django/syncapp/consumers.py:66-69 | next moves the cursor up by one only below `max(0, len-1)`, so it stays in range. It restarts the track at offset 0, with a new anchor if playing and none otherwise. It broadcasts the full state |
| `CommandProcessor.PrevStep` | server-django/syncapp/consumers.py:71-74 | prev moves the cursor down by one only above 0, so it stays in range. It restarts the track at offset 0, with a new anchor if playing and none otherwise. It broadcasts the full state |
| `CommandProcessor.Step` | server-django/syncapp/consumers.py:31-77 | ping and unrecognised types change nothing. Only ping answers, with the server time, and only to its sender. Silence happens exactly for unrecognised types and a failed lookup. Every command keeps the invariant under a monotonic clock |
| `CommandProcessor.RunPreservesValid` | server-django/syncapp/consumers.py:31-77 | any sequence of commands handled under a monotonic clock keeps the room invariant and leaves the anchor no later than the last clock reading |
| `CommandProcessor.PauseIdempotent` | server-django/syncapp/consumers.py:52-56 | pausing a second time changes nothing |
| `CommandProcessor.PauseThenPlayResumes` | server-django/syncapp/consumers.py:45-56 | pause followed by play resumes exactly from the position at which playback was paused |
| `CommandProcessor.NextTwiceOnTwoItems` | server-django/syncapp/consumers.py:66-69 | two nexts on the first of two items move the cursor to 1 and never past it |
| `CommandProcessor.SeekWhilePlayingScenario` | server-django/syncapp/consumers.py:36-64 | set [A, B], play at t0, seek to 2 at t0+5 and pause at t0+8: the position right after the seek is 2 and the paused offset is 5 |
| `Consumers.Rooms.constructor` | server-django/syncapp/consumers.py:7 | the registry starts empty |
| `Consumers.Rooms.GetRoom` | server-django/syncapp/consumers.py:9-12 | an existing entry is returned and nothing changes. An absent id gets a fresh default state with no clients. No other room is touched |
| `Consumers.RoomConsumer.Connect` | server-django/syncapp/consumers.py:15-22 | the channel is added to its room's clients (the room is created if absent), the rest of the registry is unchanged, and the joiner receives a snapshot equal to the room's current state |
| `Consumers.RoomConsumer.Disconnect` | server-django/syncapp/consumers.py:24-29 | the channel is removed from its room. The room leaves the registry exactly when no client is left. Otherwise the room keeps its state and the other clients |
| `Consumers.RoomConsumer.ReceiveJson` | server-django/syncapp/consumers.py:31-77 | the room (created if absent) gets the state `Step` prescribes, its clients are unchanged, every other room is untouched, the returned event is `Step`'s event, and every room keeps the invariant |
| `Consumers.RejoinAfterLastLeave` | server-django/syncapp/consumers.py:9-29 | after the last participant leaves a room that was playing, the next join to that room id gets a fresh default state |
| `Consumers.RejoinAfterLastLeaveAnyRoom` | server-django/syncapp/consumers.py:20-29 | in any valid registry, when the only channel of a room disconnects and another connects to the same id, the newcomer gets the default state and the registry holds a fresh room with just that channel |

## Left out

- Transport: joining and leaving the channel-layer group, `accept`, `send_json`, `group_send` and `_fanout` are not modelled. Handlers return the event and say whether it goes to the group (`Broadcast`) or only to the sender (`Reply`). Who belongs to the channel-layer group is not modelled.
- Websocket routing (server-django/syncapp/routing.py) is not modelled. The room id and channel name are constructor arguments of `RoomConsumer`.
- The playlist lookup (server-django/syncapp/playlist.py) is not modelled: its HTTP paging, API-key check and status errors. Its outcome is the `resolved` argument.
- The clock `now_mono` is not modelled. Each handler takes the reading as `now`, and monotonicity is a precondition.
- Floating-point arithmetic is not modelled. Times and offsets are `real`.
- JSON decoding and the `float(...)` coercion of `seconds` are not modelled. Commands arrive already decoded, with `seconds` as a number or absent. `float(...)` also accepts numeric strings and booleans, and raises on `null` and on non-numeric strings. Neither the coercion nor the raise is modelled.
- What happens to the connection after the playlist lookup raises is not modelled. The model only records that the state is not changed and nothing is sent.
- Concurrency is not modelled, including interleavings across the `await` of the playlist lookup. Handlers run one at a time.
- Aliasing is not modelled: the handler mutates the room dictionary shared through the registry. The model writes the updated room value back into the registry map, which has the same observable effect.
- `Consumers.Rooms.Valid` does not include "every registered room has a client". The program keeps this between handlers. The model does not prove it, because `ReceiveJson` does not require its channel to have joined and can therefore create a client-less room.
- The React Native client (client-rn/SyncRoom.tsx) is not part of this model.
