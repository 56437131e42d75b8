/** What a note list item derives from the latest playback status: the
    position and duration it shows, the playback progress, and which bars of
    the waveform are drawn as already played. */
module PlaybackProgress {
  import opened Wrappers
  import Waveform

  /** The part of an `AVPlaybackStatus` the app reads. A loaded status carries
      the playhead and, once known, the duration; `didJustFinish` is true on
      the one update that reports the end of the sound. */
  datatype PlaybackStatus =
    | NotLoaded
    | Loaded(positionMillis: nat, durationMillis: Option<nat>, isPlaying: bool, didJustFinish: bool)

  /** `status?.isLoaded ? status.positionMillis : 0`; `None` is the `null`
      status held before the first update. */
  function Position(status: Option<PlaybackStatus>): (p: nat)
    ensures (status.Some? && status.value.Loaded?) || p == 0
  {
    if status.Some? && status.value.Loaded? then status.value.positionMillis else 0
  }

  /** `status?.isLoaded ? status.durationMillis : 1`. */
  function Duration(status: Option<PlaybackStatus>): (d: Option<nat>)
    ensures (status.Some? && status.value.Loaded?) || d == Some(1)
  {
    if status.Some? && status.value.Loaded? then status.value.durationMillis else Some(1)
  }

  /** `duration ? position / duration : 0`: a missing or zero duration is
      falsy and gives 0 instead of a division. */
  function Progress(status: Option<PlaybackStatus>): (r: real)
    ensures r >= 0.0
  {
    var duration := Duration(status);
    if duration.Some? && duration.value != 0
    then (Position(status) as real) / (duration.value as real)
    else 0.0
  }

  /** Before a sound is loaded (no status yet, or a status that is not
      loaded) the progress is 0. */
  lemma ProgressUnloaded(status: Option<PlaybackStatus>)
    requires status.None? || status.value.NotLoaded?
    ensures Position(status) == 0 && Duration(status) == Some(1)
    ensures Progress(status) == 0.0
  {
  }

  /** A loaded status whose duration is missing or zero gives progress 0,
      wherever the playhead is, rather than a division by zero. */
  lemma ProgressWithoutDuration(status: Option<PlaybackStatus>)
    requires status.Some? && status.value.Loaded?
    requires status.value.durationMillis.None? || status.value.durationMillis.value == 0
    ensures Progress(status) == 0.0
  {
  }

  /** While the playhead is within the sound, the progress is a fraction in
      `[0, 1]`, and it is exactly 1 at the end. */
  lemma ProgressInUnitInterval(status: Option<PlaybackStatus>)
    requires status.Some? && status.value.Loaded? && status.value.durationMillis.Some?
    requires status.value.positionMillis <= status.value.durationMillis.value
    ensures 0.0 <= Progress(status) <= 1.0
    ensures (status.value.durationMillis.value > 0 &&
             status.value.positionMillis == status.value.durationMillis.value) ==> Progress(status) == 1.0
  {
    var p, d := status.value.positionMillis as real, status.value.durationMillis.value as real;
    if d > 0.0 {
      assert p / d * d == p;
    }
  }

  /** `progress > idx / lines.length`: bar `idx` is drawn as already played. */
  function Highlighted(progress: real, idx: nat): (r: bool)
    ensures r ==> progress > 0.0
  {
    progress > (idx as real) / (Waveform.NumLines as real)
  }

  /** The played bars form a prefix of the waveform: if bar `j` is
      highlighted, so is every bar before it. */
  lemma HighlightedPrefix(progress: real, i: nat, j: nat)
    requires i <= j && Highlighted(progress, j)
    ensures Highlighted(progress, i)
  {
    var n := Waveform.NumLines as real;
    assert (i as real) / n <= (j as real) / n;
  }

  /** Exactly the bars before `progress * NumLines` are highlighted. */
  lemma HighlightedIff(progress: real, idx: nat)
    ensures Highlighted(progress, idx) <==> (idx as real) < progress * (Waveform.NumLines as real)
  {
    var n := Waveform.NumLines as real;
    assert (idx as real) / n * n == idx as real;
  }

  /** At progress 0 no bar is highlighted; at progress 1 every bar is. */
  lemma HighlightedAtEnds(idx: nat)
    requires idx < Waveform.NumLines
    ensures !Highlighted(0.0, idx)
    ensures Highlighted(1.0, idx)
  {
    HighlightedIff(0.0, idx);
    HighlightedIff(1.0, idx);
  }
}
