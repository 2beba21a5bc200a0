/** The per-room playback record of the sync server and its default value.

    Times are readings of the server's monotonic clock and offsets are
    seconds, both modelled as `real`. */
module RoomStates {

  /** Python's `Optional[...]`: a value or `None`. */
  datatype Option<T> = None | Some(value: T) {
    function GetOr(default: T): T
    {
      match this
      case Some(v) => v
      case None => default
    }
  }

  /** One video of a playlist, identified by its YouTube video id. */
  datatype PlaylistItem = PlaylistItem(videoId: string, title: string)

  /** The authoritative timeline of one room.
      `playStartServerTime` is the anchor: the clock reading at which the
      current play run began. */
  datatype RoomState = RoomState(
    playlistId: Option<string>,
    playlist: seq<PlaylistItem>,
    index: int,
    isPlaying: bool,
    playStartServerTime: Option<real>,
    seekOffset: real)

  /** The largest index the cursor may take: `max(0, len(playlist) - 1)`. */
  function MaxIndex(playlist: seq<PlaylistItem>): nat
  {
    if |playlist| == 0 then 0 else |playlist| - 1
  }

  /** The room invariant: the anchor is present exactly while playing, the
      cursor stays on the playlist (at 0 when it is empty) and the offset
      is never negative. */
  predicate Valid(st: RoomState)
  {
    && (st.playStartServerTime.Some? <==> st.isPlaying)
    && 0 <= st.index <= MaxIndex(st.playlist)
    && st.seekOffset >= 0.0
  }

  /** The clock reading `now` is not earlier than the anchor, as a monotonic
      clock guarantees for any reading taken after the anchor was set. */
  predicate AnchorAtMost(st: RoomState, now: real)
  {
    st.playStartServerTime.Some? ==> st.playStartServerTime.value <= now
  }

  /** The playback position a participant derives at clock reading `now`:
      the offset plus the time elapsed since the anchor while playing, the
      offset alone otherwise. */
  function Position(st: RoomState, now: real): real
  {
    if st.isPlaying && st.playStartServerTime.Some?
    then st.seekOffset + (now - st.playStartServerTime.value)
    else st.seekOffset
  }

  /** `RoomState()` with every field at its declared default. */
  function NewRoomState(): (s: RoomState)
    ensures Valid(s)
    ensures s.playlistId == None && s.playlist == []
    ensures s.index == 0 && !s.isPlaying
    ensures s.playStartServerTime == None && s.seekOffset == 0.0
  {
    RoomState(None, [], 0, false, None, 0.0)
  }

  /** A valid room's derived position is never negative, does not move
      while paused and never moves backwards while playing. */
  lemma PositionMonotone(st: RoomState, t1: real, t2: real)
    requires Valid(st) && AnchorAtMost(st, t1) && t1 <= t2
    ensures 0.0 <= Position(st, t1) <= Position(st, t2)
    ensures !st.isPlaying ==> Position(st, t1) == Position(st, t2)
  {
  }
}
