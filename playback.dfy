/** The playback handler of a note list item (`useAudioPlayback`, and the
    same handlers written inline in `AudioNoteListItem`): it keeps the loaded
    sound and the latest playback status, and turns button presses and
    status updates into calls on the sound. */
module AudioPlayback {
  import opened Wrappers
  import opened PlaybackProgress

  /** A sound loaded from a note's URI by `Audio.Sound.createAsync`. */
  datatype Sound = Sound(uri: string)

  /** The calls the handler makes on its sound. */
  datatype SoundCall =
    | PauseAsync
    | SetPositionAsync(positionMillis: nat)
    | ReplayAsync
    | UnloadAsync

  /** The player state a sequence of calls acts on: whether it is loaded,
      whether it plays, where the playhead is, and how many calls it has
      rejected. */
  datatype Player = Player(loaded: bool, playing: bool, positionMillis: nat, rejections: nat)

  /** The effect of one call on the player: pausing stops playback, seeking
      moves the playhead, replaying restarts from the beginning, unloading
      releases the sound. A sound that is no longer loaded rejects pause,
      seek and replay (their promises fail with "sound is not loaded") and
      changes nothing else; unloading it again does nothing. */
  function Perform(p: Player, call: SoundCall): Player
  {
    if !p.loaded then
      if call.UnloadAsync? then p else p.(rejections := p.rejections + 1)
    else match call
      case PauseAsync => p.(playing := false)
      case SetPositionAsync(ms) => p.(positionMillis := ms)
      case ReplayAsync => p.(playing := true, positionMillis := 0)
      case UnloadAsync => p.(loaded := false, playing := false)
  }

  /** The effect of calls made one after another. */
  function PerformAll(p: Player, calls: seq<SoundCall>): Player
  {
    if |calls| == 0 then p else Perform(PerformAll(p, calls[..|calls| - 1]), calls[|calls| - 1])
  }

  /** Running two batches of calls is running the first, then the second. */
  lemma {:induction false} PerformAllAppend(p: Player, first: seq<SoundCall>, second: seq<SoundCall>)
    ensures PerformAll(p, first + second) == PerformAll(PerformAll(p, first), second)
  {
    if |second| > 0 {
      var all := first + second;
      assert all[..|all| - 1] == first + second[..|second| - 1];
      PerformAllAppend(p, first, second[..|second| - 1]);
    } else {
      assert first + second == first;
    }
  }

  /** The number of calls in `calls` other than unloading. */
  function PlayerCalls(calls: seq<SoundCall>): (n: nat)
    ensures n <= |calls|
  {
    if |calls| == 0 then 0
    else PlayerCalls(calls[..|calls| - 1]) + if calls[|calls| - 1].UnloadAsync? then 0 else 1
  }

  /** After the cleanup has unloaded the sound, every later pause, seek or
      replay is rejected: the sound stays released and silent, the playhead
      stays where it was unloaded, and each such call counts one rejection. */
  lemma {:induction false} CallsAfterUnloadRejected(p: Player, before: seq<SoundCall>, after: seq<SoundCall>)
    requires PerformAll(p, before).loaded
    ensures var u := PerformAll(p, before);
      var q := PerformAll(p, before + [UnloadAsync] + after);
      !q.loaded && !q.playing && q.positionMillis == u.positionMillis &&
      q.rejections == u.rejections + PlayerCalls(after)
  {
    var unloaded := before + [UnloadAsync];
    assert unloaded[..|before|] == before;
    PerformAllAppend(p, unloaded, after);
    UnloadedRejects(PerformAll(p, unloaded), after);
  }

  lemma {:induction false} UnloadedRejects(u: Player, calls: seq<SoundCall>)
    requires !u.loaded && !u.playing
    ensures PerformAll(u, calls) == u.(rejections := u.rejections + PlayerCalls(calls))
  {
    if |calls| > 0 {
      UnloadedRejects(u, calls[..|calls| - 1]);
    }
  }

  /** The end-of-playback calls leave a loaded sound paused at the start,
      whatever was done to it before. */
  lemma FinishRewinds(p: Player, before: seq<SoundCall>)
    requires PerformAll(p, before).loaded
    ensures var q := PerformAll(p, before + [PauseAsync, SetPositionAsync(0)]);
      q.loaded && !q.playing && q.positionMillis == 0 &&
      q.rejections == PerformAll(p, before).rejections
  {
    var u := PerformAll(p, before);
    PerformAllAppend(p, before, [PauseAsync, SetPositionAsync(0)]);
    assert PerformAll(u, [PauseAsync]) == Perform(u, PauseAsync) by {
      assert [PauseAsync][..0] == [];
    }
    assert [PauseAsync, SetPositionAsync(0)][..1] == [PauseAsync];
  }

  /** A replay leaves a loaded sound playing from the start. */
  lemma ReplayRestarts(p: Player, before: seq<SoundCall>)
    requires PerformAll(p, before).loaded
    ensures var q := PerformAll(p, before + [ReplayAsync]);
      q.loaded && q.playing && q.positionMillis == 0 &&
      q.rejections == PerformAll(p, before).rejections
  {
    PerformAllAppend(p, before, [ReplayAsync]);
    assert [ReplayAsync][..0] == [];
  }

  /** A pause leaves the playhead where it was and stops playback. */
  lemma PauseKeepsPosition(p: Player, before: seq<SoundCall>)
    requires PerformAll(p, before).loaded
    ensures var q := PerformAll(p, before);
      var r := PerformAll(p, before + [PauseAsync]);
      r.loaded && !r.playing && r.positionMillis == q.positionMillis &&
      r.rejections == q.rejections
  {
    PerformAllAppend(p, before, [PauseAsync]);
    assert [PauseAsync][..0] == [];
  }

  class PlaybackHandler {
    /** The latest status reported by the sound; `None` before the first. */
    var status: Option<PlaybackStatus>
    /** The loaded sound, once `createAsync` has produced it. */
    var sound: Option<Sound>
    /** Every call the handler has made on its sound, oldest first. */
    var calls: seq<SoundCall>

    constructor ()
      ensures status == None && sound == None && calls == []
    {
      status := None;
      sound := None;
      calls := [];
    }

    /** `setSound(sound)` once `createAsync` has loaded the note's URI. */
    method LoadSound(loaded: Sound)
      modifies this
      ensures sound == Some(loaded)
      ensures status == old(status) && calls == old(calls)
    {
      sound := Some(loaded);
    }

    /** `onPlaybackStatusUpdate` as registered with `createAsync`, run with the
        `sound` its closure captured in the render that loaded the sound: every
        status becomes the latest one; a loaded status that reports the end of
        playback pauses the captured sound and rewinds it to 0, if there is
        one; any other status makes no call. */
    method OnPlaybackStatusUpdateCaptured(newStatus: PlaybackStatus, captured: Option<Sound>)
      modifies this
      ensures status == Some(newStatus) && sound == old(sound)
      ensures calls == old(calls) +
        if newStatus.Loaded? && newStatus.didJustFinish && captured.Some?
        then [PauseAsync, SetPositionAsync(0)] else []
    {
      status := Some(newStatus);
      if newStatus.Loaded? && newStatus.didJustFinish {
        if captured.Some? {
          calls := calls + [PauseAsync];
        }
        if captured.Some? {
          calls := calls + [SetPositionAsync(0)];
        }
      }
    }

    /** The status callback reading the current sound, as intended: the end
        of playback pauses the loaded sound and rewinds it to 0. */
    method OnPlaybackStatusUpdate(newStatus: PlaybackStatus)
      modifies this
      ensures status == Some(newStatus) && sound == old(sound)
      ensures calls == old(calls) +
        if newStatus.Loaded? && newStatus.didJustFinish && sound.Some?
        then [PauseAsync, SetPositionAsync(0)] else []
    {
      OnPlaybackStatusUpdateCaptured(newStatus, sound);
    }

    /** `playSound`: nothing without a sound; otherwise replay from the start. */
    method PlaySound()
      modifies this
      ensures status == old(status) && sound == old(sound)
      ensures calls == old(calls) + if sound.Some? then [ReplayAsync] else []
    {
      if sound.None? {
        return;
      }
      calls := calls + [ReplayAsync];
    }

    /** `pauseSound`: nothing without a sound; otherwise pause. */
    method PauseSound()
      modifies this
      ensures status == old(status) && sound == old(sound)
      ensures calls == old(calls) + if sound.Some? then [PauseAsync] else []
    {
      if sound.None? {
        return;
      }
      calls := calls + [PauseAsync];
    }

    /** An effect cleanup `if (sound) sound.unloadAsync()` run with the
        `sound` its closure captured when the effect ran. */
    method CleanupCaptured(captured: Option<Sound>)
      modifies this
      ensures status == old(status) && sound == old(sound)
      ensures calls == old(calls) + if captured.Some? then [UnloadAsync] else []
    {
      if captured.Some? {
        calls := calls + [UnloadAsync];
      }
    }

    /** The cleanup of an effect that re-runs whenever the sound changes, so
        that its closure holds the current sound: unload it if there is one. */
    method Cleanup()
      modifies this
      ensures status == old(status) && sound == old(sound)
      ensures calls == old(calls) + if sound.Some? then [UnloadAsync] else []
    {
      CleanupCaptured(sound);
    }

    /** `status?.isLoaded ? status.isPlaying : false`. */
    function IsPlaying(): (r: bool)
      reads this
      ensures r <==> status.Some? && status.value.Loaded? && status.value.isPlaying
    {
      if status.Some? && status.value.Loaded? then status.value.isPlaying else false
    }

    /** The play/pause button: `isPlaying ? pauseSound : playSound`. */
    method Press()
      modifies this
      ensures status == old(status) && sound == old(sound)
      ensures calls == old(calls) +
        if sound.None? then [] else if old(IsPlaying()) then [PauseAsync] else [ReplayAsync]
    {
      if IsPlaying() {
        PauseSound();
      } else {
        PlaySound();
      }
    }
  }

  /** Scenario, with the status callback reading the current sound: a loaded
      sound plays to its end; the finishing status leaves the player paused at
      0, the button shows "play" once the next status reports it stopped, and
      pressing it replays from the start. */
  method FinishThenReplay(uri: string, duration: nat) returns (rewound: Player, player: Player)
    ensures rewound == Player(true, false, 0, 0)
    ensures player == Player(true, true, 0, 0)
  {
    var handler := new PlaybackHandler();
    handler.LoadSound(Sound(uri));
    handler.PlaySound();
    handler.OnPlaybackStatusUpdate(Loaded(duration, Some(duration), false, true));
    var start := Player(true, false, 0, 0);
    ReplayRestarts(start, []);
    assert [] + [ReplayAsync] == [ReplayAsync];
    FinishRewinds(start, [ReplayAsync]);
    var finished := [ReplayAsync, PauseAsync, SetPositionAsync(0)];
    assert [ReplayAsync] + [PauseAsync, SetPositionAsync(0)] == finished;
    assert handler.calls == finished;
    rewound := PerformAll(start, finished);
    assert !handler.IsPlaying();
    handler.Press();
    assert handler.calls == [ReplayAsync, PauseAsync, SetPositionAsync(0), ReplayAsync];
    ReplayRestarts(start, finished);
    assert handler.calls == finished + [ReplayAsync];
    player := PerformAll(start, handler.calls);
  }

  /** The status callback as written: `loadSound` runs in the effect of the
      mount render, so the callback registered with `createAsync` holds that
      render's `sound`, which is undefined. When the sound plays to its end no
      pause and no rewind is made, and the finishing status, whose playhead is
      at the end, leaves every bar drawn as played. */
  method FinishWithMountCallback(uri: string, duration: nat) returns (log: seq<SoundCall>, progress: real)
    ensures PauseAsync !in log && SetPositionAsync(0) !in log
    ensures duration > 0 ==> progress == 1.0
    ensures duration > 0 ==> forall idx :: 0 <= idx < Waveform.NumLines ==> Highlighted(progress, idx)
  {
    var handler := new PlaybackHandler();
    var captured := handler.sound;
    handler.LoadSound(Sound(uri));
    handler.PlaySound();
    handler.OnPlaybackStatusUpdateCaptured(Loaded(duration, Some(duration), false, true), captured);
    log := handler.calls;
    assert log == [ReplayAsync];
    progress := Progress(handler.status);
    ProgressInUnitInterval(handler.status);
    if duration > 0 {
      forall idx | 0 <= idx < Waveform.NumLines
        ensures Highlighted(progress, idx)
      {
        HighlightedAtEnds(idx);
      }
    }
  }

  /** The hook's cleanup as written: the effect depends on the note only, so
      its closure captured `sound` at mount, before the sound was loaded. A
      sound that is playing when the item goes away is never unloaded and
      keeps playing. */
  method HookCleanupLeaksSound(uri: string) returns (player: Player)
    ensures player.loaded && player.playing
  {
    var handler := new PlaybackHandler();
    var captured := handler.sound;
    handler.LoadSound(Sound(uri));
    handler.PlaySound();
    handler.CleanupCaptured(captured);
    assert handler.calls == [ReplayAsync];
    var start := Player(true, false, 0, 0);
    ReplayRestarts(start, []);
    assert [] + [ReplayAsync] == handler.calls;
    player := PerformAll(start, handler.calls);
  }

  /** The cleanup with the current sound, as the list item's effect on
      `[sound]` gets it: a sound playing when the item goes away is released
      and silent, and nothing was rejected. */
  method ItemCleanupReleasesSound(uri: string) returns (player: Player)
    ensures !player.loaded && !player.playing && player.rejections == 0
  {
    var handler := new PlaybackHandler();
    handler.LoadSound(Sound(uri));
    handler.PlaySound();
    handler.Cleanup();
    var log := handler.calls;
    assert log == [ReplayAsync] + [UnloadAsync] + [];
    var start := Player(true, false, 0, 0);
    ReplayRestarts(start, []);
    assert [] + [ReplayAsync] == [ReplayAsync];
    CallsAfterUnloadRejected(start, [ReplayAsync], []);
    player := PerformAll(start, log);
  }
}
