/** The command processor of a room: each inbound command is a
    deterministic transition of the room's state at clock reading `now`,
    paired with the event the room sends out. These functions are the
    specification that `Consumers.RoomConsumer.ReceiveJson` is proved
    against. */
module CommandProcessor {
  import opened RoomStates

  /** An inbound message, already decoded; `Unrecognized` stands for every
      other `type` tag, including a missing one. */
  datatype Command =
    | SetPlaylist(playlistId: Option<string>, given: Option<seq<PlaylistItem>>)
    | Play
    | Pause
    | Seek(seconds: Option<real>)
    | Next
    | Prev
    | Ping
    | Unrecognized

  /** An outbound message: `STATE`, `PLAY`, `PAUSE`, `SEEK` and `PONG`. */
  datatype Event =
    | StateEvent(snapshot: RoomState)
    | PlayEvent(index: int, seekOffset: real, playStartServerTime: Option<real>)
    | PauseEvent(seekOffset: real)
    | SeekEvent(seekOffset: real, playStartServerTime: Option<real>)
    | PongEvent(serverTime: real)

  /** Where an event goes: to every member of the room's group, back to the
      sender alone, or nowhere. */
  datatype Outbound = Broadcast(event: Event) | Reply(event: Event) | NoEvent

  /** The room's state after a command, and what it sends. */
  datatype Transition = Transition(state: RoomState, out: Outbound)

  /** Python truthiness of the `playlist_id` field: present and non-empty. */
  predicate IdGiven(pid: Option<string>)
  {
    pid.Some? && pid.value != ""
  }

  /** Python truthiness of the `playlist` field: present and non-empty. */
  predicate ListGiven(given: Option<seq<PlaylistItem>>)
  {
    given.Some? && given.value != []
  }

  /** `SET_PLAYLIST` consults the playlist lookup exactly when an id is
      given and no (non-empty) list is. */
  predicate NeedsLookup(pid: Option<string>, given: Option<seq<PlaylistItem>>)
  {
    IdGiven(pid) && !ListGiven(given)
  }

  /** `SET_PLAYLIST`: install the given or looked-up playlist and reset the
      timeline. `resolved` is the outcome of the playlist lookup, `None`
      when it raised; then nothing changes and nothing is sent. */
  function SetPlaylistStep(st: RoomState, pid: Option<string>, given: Option<seq<PlaylistItem>>,
                           resolved: Option<seq<PlaylistItem>>): (t: Transition)
    ensures NeedsLookup(pid, given) && resolved.None? ==> t == Transition(st, NoEvent)
    ensures !NeedsLookup(pid, given) || resolved.Some? ==>
      && t.state.playlistId == pid
      && (ListGiven(given) ==> t.state.playlist == given.value)
      && (NeedsLookup(pid, given) ==> t.state.playlist == resolved.value)
      && (!IdGiven(pid) && !ListGiven(given) ==> t.state.playlist == [])
      && t.state.index == 0 && !t.state.isPlaying
      && t.state.seekOffset == 0.0 && t.state.playStartServerTime == None
      && Valid(t.state)
      && t.out == Broadcast(StateEvent(t.state))
  {
    if NeedsLookup(pid, given) && resolved.None? then Transition(st, NoEvent)
    else
      var items := if NeedsLookup(pid, given) then resolved.value else given.GetOr([]);
      var s := RoomState(pid, items, 0, false, None, 0.0);
      Transition(s, Broadcast(StateEvent(s)))
  }

  /** `PLAY`: start (or restart) the play run at `now`, keeping the cursor
      and the offset. */
  function PlayStep(st: RoomState, now: real): (t: Transition)
    ensures t.state == st.(isPlaying := true, playStartServerTime := Some(now))
    ensures Valid(st) ==> Valid(t.state)
    ensures AnchorAtMost(t.state, now)
    ensures Position(t.state, now) == st.seekOffset
    ensures !st.isPlaying ==> Position(t.state, now) == Position(st, now)
    ensures t.out == Broadcast(PlayEvent(st.index, st.seekOffset, Some(now)))
  {
    var s := st.(isPlaying := true, playStartServerTime := Some(now));
    Transition(s, Broadcast(PlayEvent(s.index, s.seekOffset, s.playStartServerTime)))
  }

  /** `PAUSE`: fold the time elapsed since the anchor into the offset and
      drop the anchor. */
  function PauseStep(st: RoomState, now: real): (t: Transition)
    ensures !t.state.isPlaying && t.state.playStartServerTime == None
    ensures st.isPlaying && st.playStartServerTime.Some? ==>
      t.state.seekOffset == st.seekOffset + (now - st.playStartServerTime.value)
    ensures !(st.isPlaying && st.playStartServerTime.Some?) ==> t.state.seekOffset == st.seekOffset
    ensures t.state.playlistId == st.playlistId && t.state.playlist == st.playlist
    ensures t.state.index == st.index
    ensures forall later :: Position(t.state, later) == Position(st, now)
    ensures Valid(st) && AnchorAtMost(st, now) ==> Valid(t.state)
    ensures t.out == Broadcast(PauseEvent(t.state.seekOffset))
  {
    var offset := if st.isPlaying && st.playStartServerTime.Some?
                  then st.seekOffset + (now - st.playStartServerTime.value)
                  else st.seekOffset;
    var s := st.(seekOffset := offset, isPlaying := false, playStartServerTime := None);
    Transition(s, Broadcast(PauseEvent(s.seekOffset)))
  }

  /** `SEEK`: move the offset to the requested second, never below zero (a
      missing `seconds` reads as 0), rebasing the anchor if playing. */
  function SeekStep(st: RoomState, seconds: Option<real>, now: real): (t: Transition)
    ensures t.state.seekOffset >= 0.0
    ensures seconds.Some? && seconds.value >= 0.0 ==> t.state.seekOffset == seconds.value
    ensures seconds.None? || seconds.value <= 0.0 ==> t.state.seekOffset == 0.0
    ensures Position(t.state, now) == t.state.seekOffset
    ensures t.state.isPlaying == st.isPlaying && t.state.index == st.index
    ensures t.state.playlistId == st.playlistId && t.state.playlist == st.playlist
    ensures t.state.playStartServerTime == if st.isPlaying then Some(now) else st.playStartServerTime
    ensures Valid(st) ==> Valid(t.state)
    ensures AnchorAtMost(st, now) ==> AnchorAtMost(t.state, now)
    ensures t.out == Broadcast(SeekEvent(t.state.seekOffset, t.state.playStartServerTime))
  {
    var requested := seconds.GetOr(0.0);
    var s0 := st.(seekOffset := if requested > 0.0 then requested else 0.0);
    var s := if s0.isPlaying then s0.(playStartServerTime := Some(now)) else s0;
    Transition(s, Broadcast(SeekEvent(s.seekOffset, s.playStartServerTime)))
  }

  /** The timeline reset shared by `NEXT` and `PREV` once the cursor is
      placed: offset 0 and a fresh anchor only if playing. */
  function Restart(st: RoomState, index: int, now: real): RoomState
  {
    st.(index := index, seekOffset := 0.0,
        playStartServerTime := if st.isPlaying then Some(now) else None)
  }

  /** `NEXT`: advance the cursor unless it is on the last item (or the
      playlist is empty), and restart the track from its beginning. */
  function NextStep(st: RoomState, now: real): (t: Transition)
    ensures st.index < MaxIndex(st.playlist) ==> t.state.index == st.index + 1
    ensures st.index >= MaxIndex(st.playlist) ==> t.state.index == st.index
    ensures 0 <= st.index <= MaxIndex(st.playlist) ==> 0 <= t.state.index <= MaxIndex(t.state.playlist)
    ensures t.state.seekOffset == 0.0 && Position(t.state, now) == 0.0
    ensures t.state.playStartServerTime == if st.isPlaying then Some(now) else None
    ensures t.state.isPlaying == st.isPlaying
    ensures t.state.playlistId == st.playlistId && t.state.playlist == st.playlist
    ensures Valid(st) ==> Valid(t.state)
    ensures t.out == Broadcast(StateEvent(t.state))
  {
    var i := if st.index < MaxIndex(st.playlist) then st.index + 1 else st.index;
    var s := Restart(st, i, now);
    Transition(s, Broadcast(StateEvent(s)))
  }

  /** `PREV`: step the cursor back unless it is on the first item, and
      restart the track from its beginning. */
  function PrevStep(st: RoomState, now: real): (t: Transition)
    ensures st.index > 0 ==> t.state.index == st.index - 1
    ensures st.index <= 0 ==> t.state.index == st.index
    ensures 0 <= st.index <= MaxIndex(st.playlist) ==> 0 <= t.state.index <= MaxIndex(t.state.playlist)
    ensures t.state.seekOffset == 0.0 && Position(t.state, now) == 0.0
    ensures t.state.playStartServerTime == if st.isPlaying then Some(now) else None
    ensures t.state.isPlaying == st.isPlaying
    ensures t.state.playlistId == st.playlistId && t.state.playlist == st.playlist
    ensures Valid(st) ==> Valid(t.state)
    ensures t.out == Broadcast(StateEvent(t.state))
  {
    var i := if st.index > 0 then st.index - 1 else st.index;
    var s := Restart(st, i, now);
    Transition(s, Broadcast(StateEvent(s)))
  }

  /** The dispatch on the command's type. `PING` and unrecognised types
      leave the state alone; only `PING` answers, and only to its sender. */
  function Step(st: RoomState, cmd: Command, now: real, resolved: Option<seq<PlaylistItem>>): (t: Transition)
    ensures cmd.Ping? || cmd.Unrecognized? ==> t.state == st
    ensures t.out.Reply? <==> cmd.Ping?
    ensures cmd.Ping? ==> t.out == Reply(PongEvent(now))
    ensures t.out.NoEvent? <==> cmd.Unrecognized? || (cmd.SetPlaylist? && NeedsLookup(cmd.playlistId, cmd.given) && resolved.None?)
    ensures t.out.NoEvent? ==> t.state == st
    ensures AnchorAtMost(st, now) ==> AnchorAtMost(t.state, now)
    ensures Valid(st) && AnchorAtMost(st, now) ==> Valid(t.state)
  {
    match cmd
    case SetPlaylist(pid, given) => SetPlaylistStep(st, pid, given, resolved)
    case Play => PlayStep(st, now)
    case Pause => PauseStep(st, now)
    case Seek(seconds) => SeekStep(st, seconds, now)
    case Next => NextStep(st, now)
    case Prev => PrevStep(st, now)
    case Ping => Transition(st, Reply(PongEvent(now)))
    case Unrecognized => Transition(st, NoEvent)
  }

  /** One message handled by a room: the command, the clock reading taken
      while handling it, and the playlist lookup's outcome. */
  datatype Input = Input(cmd: Command, now: real, resolved: Option<seq<PlaylistItem>>)

  /** The room's state after handling `trace` in order. */
  function Run(st: RoomState, trace: seq<Input>): RoomState
    decreases |trace|
  {
    if trace == [] then st
    else Run(Step(st, trace[0].cmd, trace[0].now, trace[0].resolved).state, trace[1..])
  }

  /** The clock readings of a trace never go backwards and none precedes
      the anchor of the state it starts from. */
  predicate ClockMonotone(st: RoomState, trace: seq<Input>)
  {
    && (trace != [] ==> AnchorAtMost(st, trace[0].now))
    && forall i, j :: 0 <= i < j < |trace| ==> trace[i].now <= trace[j].now
  }

  /** Every sequence of commands, handled under a monotonic clock, keeps
      the room invariant and leaves the anchor no later than the last
      reading, so the derived position is never negative from then on. */
  lemma {:induction false} RunPreservesValid(st: RoomState, trace: seq<Input>)
    requires Valid(st) && ClockMonotone(st, trace)
    ensures Valid(Run(st, trace))
    ensures trace != [] ==> AnchorAtMost(Run(st, trace), trace[|trace| - 1].now)
    decreases |trace|
  {
    if trace != [] {
      var s1 := Step(st, trace[0].cmd, trace[0].now, trace[0].resolved).state;
      var rest := trace[1..];
      if rest != [] {
        assert AnchorAtMost(s1, rest[0].now);
        assert forall i :: 0 <= i < |rest| ==> rest[i] == trace[i + 1];
      }
      RunPreservesValid(s1, rest);
      if rest != [] {
        assert rest[|rest| - 1] == trace[|trace| - 1];
      }
    }
  }

  /** Pausing twice is the same as pausing once. */
  lemma PauseIdempotent(st: RoomState, t1: real, t2: real)
    ensures PauseStep(PauseStep(st, t1).state, t2) == PauseStep(st, t1)
  {
  }

  /** `PAUSE` followed by `PLAY` loses nothing: playback resumes from the
      position at which it was paused. */
  lemma PauseThenPlayResumes(st: RoomState, t1: real, t2: real)
    ensures PlayStep(PauseStep(st, t1).state, t2).state.seekOffset == Position(st, t1)
    ensures Position(PlayStep(PauseStep(st, t1).state, t2).state, t2) == Position(st, t1)
  {
  }

  /** Two `NEXT`s that both find the cursor on the first of two items move
      it once: the second finds it on the last item and leaves it there. */
  lemma NextTwiceOnTwoItems(st: RoomState, t1: real, t2: real)
    requires |st.playlist| == 2 && st.index == 0
    ensures NextStep(st, t1).state.index == 1
    ensures NextStep(NextStep(st, t1).state, t2).state.index == 1
  {
  }

  /** A playlist of two items is set, played at `t0`, sought to second 2
      five seconds later and paused three seconds after that: the position
      right after the seek is 2 and the paused offset is 5. */
  lemma SeekWhilePlayingScenario(a: PlaylistItem, b: PlaylistItem, t0: real)
    ensures var s1 := Step(NewRoomState(), SetPlaylist(None, Some([a, b])), t0, None).state;
            var s2 := Step(s1, Play, t0, None).state;
            var s3 := Step(s2, Seek(Some(2.0)), t0 + 5.0, None).state;
            var s4 := Step(s3, Pause, t0 + 8.0, None).state;
            && Position(s3, t0 + 5.0) == 2.0
            && s4.seekOffset == 5.0 && !s4.isPlaying && s4.index == 0
  {
  }
}
