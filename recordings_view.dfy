/** The recorder of `RecordingsView`: notes are bare URIs, and the status
    callback only drives the live level of the record-button wave. */
module RecordingsView {
  import opened Wrappers
  import opened RecordingDevice

  class Recorder {
    /** The recording in progress, if any. */
    var recording: Option<RecordingHandle>
    /** `notes`: the URIs of the finished recordings, most recent first. */
    var notes: seq<string>
    /** `metering.value`: the live level of the current recording. */
    var level: real

    constructor ()
      ensures recording == None && notes == [] && level == SilenceLevel
    {
      recording := None;
      notes := [];
      level := SilenceLevel;
    }

    /** `startRecording`: `created` is the new recording, or `None` when a
        device call threw; then nothing changes. */
    method StartRecording(created: Option<RecordingHandle>)
      modifies this
      ensures recording == if created.Some? then created else old(recording)
      ensures notes == old(notes) && level == old(level)
    {
      if created.None? {
        return;
      }
      recording := created;
    }

    /** The recording-status callback: the live level becomes the metering
        value, or -100 when it is absent or zero. */
    method OnRecordingStatusUpdate(metering: Option<real>)
      modifies this
      ensures level == if IsTruthyMetering(metering) then metering.value else SilenceLevel
      ensures recording == old(recording) && notes == old(notes)
    {
      level := MeteringOr(metering);
    }

    /** `stopRecording`: nothing without an active recording; otherwise the
        recording is cleared and a truthy URI is put in front of the notes. */
    method StopRecording(uri: Option<string>)
      modifies this
      ensures old(recording).None? ==> recording == old(recording) && notes == old(notes)
      ensures old(recording).Some? ==> recording == None
      ensures old(recording).Some? ==>
        notes == if IsTruthyUri(uri) then [uri.value] + old(notes) else old(notes)
      ensures level == old(level)
    {
      if recording.None? {
        return;
      }
      recording := None;
      if IsTruthyUri(uri) {
        notes := [uri.value] + notes;
      }
    }

    /** The record button: `recording ? stopRecording : startRecording`. */
    method Press(created: Option<RecordingHandle>, uri: Option<string>)
      modifies this
      ensures old(recording).Some? ==>
        recording == None && notes == if IsTruthyUri(uri) then [uri.value] + old(notes) else old(notes)
      ensures old(recording).None? ==> recording == created && notes == old(notes)
      ensures level == old(level)
    {
      if recording.Some? {
        StopRecording(uri);
      } else {
        StartRecording(created);
      }
    }
  }

  /** Scenario: the live level follows each status, falling back to -100 on
      a status without a usable value; two presses record one note. */
  method LevelFollowsStatus() returns (levels: seq<real>, notes: seq<string>)
    ensures levels == [-42.0, SilenceLevel, SilenceLevel, -7.5]
    ensures notes == ["file:///c.m4a"]
  {
    var view := new Recorder();
    view.Press(Some(RecordingHandle(3)), None);
    view.OnRecordingStatusUpdate(Some(-42.0));
    levels := [view.level];
    view.OnRecordingStatusUpdate(None);
    levels := levels + [view.level];
    view.OnRecordingStatusUpdate(Some(0.0));
    levels := levels + [view.level];
    view.OnRecordingStatusUpdate(Some(-7.5));
    levels := levels + [view.level];
    view.Press(None, Some("file:///c.m4a"));
    notes := view.notes;
  }
}
