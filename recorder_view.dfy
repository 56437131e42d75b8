/** The recorder of `RecorderView`: URI-only notes and no metering. */
module RecorderView {
  import opened Wrappers
  import opened RecordingDevice

  class Recorder {
    /** The recording in progress, if any. */
    var recording: Option<RecordingHandle>
    /** `notes`: the URIs of the finished recordings, most recent first. */
    var notes: seq<string>

    constructor ()
      ensures recording == None && notes == []
    {
      recording := None;
      notes := [];
    }

    /** `startRecording`: `created` is the new recording, or `None` when a
        device call threw; then nothing changes. */
    method StartRecording(created: Option<RecordingHandle>)
      modifies this
      ensures recording == if created.Some? then created else old(recording)
      ensures notes == old(notes)
    {
      if created.None? {
        return;
      }
      recording := created;
    }

    /** `stopRecording`: nothing without an active recording; otherwise the
        recording is cleared and a truthy URI is put in front of the notes. */
    method StopRecording(uri: Option<string>)
      modifies this
      ensures old(recording).None? ==> recording == old(recording) && notes == old(notes)
      ensures old(recording).Some? ==> recording == None
      ensures old(recording).Some? ==>
        notes == if IsTruthyUri(uri) then [uri.value] + old(notes) else old(notes)
    {
      if recording.None? {
        return;
      }
      recording := None;
      if IsTruthyUri(uri) {
        notes := [uri.value] + notes;
      }
    }

    /** The record button: `recording ? stopRecording : startRecording`. */
    method Press(created: Option<RecordingHandle>, uri: Option<string>)
      modifies this
      ensures old(recording).Some? ==>
        recording == None && notes == if IsTruthyUri(uri) then [uri.value] + old(notes) else old(notes)
      ensures old(recording).None? ==> recording == created && notes == old(notes)
    {
      if recording.Some? {
        StopRecording(uri);
      } else {
        StartRecording(created);
      }
    }
  }

  /** Scenario: three press pairs, the second of which gets no URI back.
      Only the two URIs are kept, the later one first; the button is back to
      "record" at the end. */
  method ThreeSessions() returns (notes: seq<string>, active: bool)
    ensures notes == ["file:///3.m4a", "file:///1.m4a"] && !active
  {
    var view := new Recorder();
    view.Press(Some(RecordingHandle(1)), None);
    view.Press(None, Some("file:///1.m4a"));
    view.Press(Some(RecordingHandle(2)), None);
    view.Press(None, None);
    view.Press(Some(RecordingHandle(3)), None);
    view.Press(None, Some("file:///3.m4a"));
    notes, active := view.notes, view.recording.Some?;
  }
}
