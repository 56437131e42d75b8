/** The recorder of the `useAudioRecorder` hook: the same handlers as the
    notes screen, with every finished recording also stamped with the time
    it was stopped. */
module AudioRecorderHook {
  import opened Wrappers
  import opened RecordingDevice

  /** A finished recording: its URI, its metering and when it was stopped
      (milliseconds since the epoch, `Date.now()`). */
  datatype Recording = Recording(uri: string, metering: seq<real>, timestamp: int)

  class Recorder {
    /** The recording in progress, if any. */
    var recording: Option<RecordingHandle>
    /** `recordings`: the finished recordings, most recent first. */
    var recordings: seq<Recording>
    /** `audioMetering`: the samples of the current recording, oldest first. */
    var audioMetering: seq<real>
    /** `metering.value`: the live level that drives the record-button wave. */
    var level: real

    constructor ()
      ensures recording == None && recordings == [] && audioMetering == [] && level == SilenceLevel
    {
      recording := None;
      recordings := [];
      audioMetering := [];
      level := SilenceLevel;
    }

    /** `startRecording`: the buffer is cleared first; `created` is the new
        recording, or `None` when a device call threw, in which case the
        recording and the list are left as they were. */
    method StartRecording(created: Option<RecordingHandle>)
      modifies this
      ensures audioMetering == []
      ensures recording == if created.Some? then created else old(recording)
      ensures recordings == old(recordings) && level == old(level)
    {
      audioMetering := [];
      if created.None? {
        return;
      }
      recording := created;
    }

    /** The recording-status callback: only a truthy metering value is
        appended (and becomes the live level). */
    method OnRecordingStatusUpdate(metering: Option<real>)
      modifies this
      ensures audioMetering == old(audioMetering) + if IsTruthyMetering(metering) then [metering.value] else []
      ensures level == if IsTruthyMetering(metering) then metering.value else old(level)
      ensures recording == old(recording) && recordings == old(recordings)
    {
      if IsTruthyMetering(metering) {
        level := metering.value;
        audioMetering := audioMetering + [MeteringOr(metering)];
      }
    }

    /** `stopRecording`: nothing without an active recording; otherwise the
        recording is cleared, and with a truthy URI one recording stamped
        with `now` is put in front of the others. */
    method StopRecording(uri: Option<string>, now: int)
      modifies this
      ensures old(recording).None? ==>
        recording == old(recording) && recordings == old(recordings)
      ensures old(recording).Some? ==> recording == None
      ensures old(recording).Some? ==>
        recordings == if IsTruthyUri(uri) then [Recording(uri.value, audioMetering, now)] + old(recordings)
                      else old(recordings)
      ensures audioMetering == old(audioMetering) && level == old(level)
    {
      if recording.None? {
        return;
      }
      recording := None;
      if IsTruthyUri(uri) {
        recordings := [Recording(uri.value, audioMetering, now)] + recordings;
      }
    }
  }

  /** Scenario: two recordings in a row. Each starts from an empty buffer,
      and the later one is listed first with its own samples and time. */
  method TwoRecordings() returns (recordings: seq<Recording>)
    ensures recordings == [Recording("file:///b.m4a", [-5.0], 2000), Recording("file:///a.m4a", [-30.0, -20.0], 1000)]
  {
    var hook := new Recorder();
    hook.StartRecording(Some(RecordingHandle(1)));
    hook.OnRecordingStatusUpdate(Some(-30.0));
    hook.OnRecordingStatusUpdate(Some(-20.0));
    assert hook.recording.Some? && hook.audioMetering == [-30.0, -20.0];
    hook.StopRecording(Some("file:///a.m4a"), 1000);
    hook.StartRecording(Some(RecordingHandle(2)));
    hook.OnRecordingStatusUpdate(Some(-5.0));
    assert hook.recording.Some? && hook.audioMetering == [-5.0];
    hook.StopRecording(Some("file:///b.m4a"), 2000);
    recordings := hook.recordings;
  }
}
