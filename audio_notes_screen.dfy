/** The recorder of `AudioNotesScreen`: the active recording, the metering
    buffer filled while it runs, and the notes, most recent first. */
module AudioNotesScreen {
  import opened Wrappers
  import opened RecordingDevice

  /** `AudioNote`: where the audio was saved and the metering captured with it. */
  datatype AudioNote = AudioNote(uri: string, metering: seq<real>)

  class Recorder {
    /** The recording in progress, if any. */
    var recording: Option<RecordingHandle>
    /** `audioMetering`: the samples of the current recording, oldest first. */
    var audioMetering: seq<real>
    /** `audioNotes`: the finished notes, most recent first. */
    var audioNotes: seq<AudioNote>
    /** `metering.value`: the live level that drives the record-button wave. */
    var level: real

    constructor ()
      ensures recording == None && audioMetering == [] && audioNotes == [] && level == SilenceLevel
    {
      recording := None;
      audioMetering := [];
      audioNotes := [];
      level := SilenceLevel;
    }

    /** `startRecording`: the buffer is cleared before any device call, so it
        is empty whether the start succeeds or throws. `created` is the
        recording `createAsync` produced, or `None` when the permission
        request, the audio-mode change or the creation threw; then the
        recording is left as it was and nothing else changes. */
    method StartRecording(created: Option<RecordingHandle>)
      modifies this
      ensures audioMetering == []
      ensures recording == if created.Some? then created else old(recording)
      ensures audioNotes == old(audioNotes) && level == old(level)
    {
      audioMetering := [];
      if created.None? {
        return;
      }
      recording := created;
    }

    /** The recording-status callback: a truthy metering value becomes the
        live level and is appended to the buffer; an absent or zero value
        changes nothing. Earlier samples are never touched. */
    method OnRecordingStatusUpdate(metering: Option<real>)
      modifies this
      ensures audioMetering == old(audioMetering) + if IsTruthyMetering(metering) then [metering.value] else []
      ensures level == if IsTruthyMetering(metering) then metering.value else old(level)
      ensures recording == old(recording) && audioNotes == old(audioNotes)
    {
      if IsTruthyMetering(metering) {
        level := metering.value;
        audioMetering := audioMetering + [MeteringOr(metering)];
      }
    }

    /** `stopRecording`: nothing without an active recording. Otherwise the
        recording is cleared whatever `getURI()` returns (`uri`); with a
        truthy URI one note holding it and the buffer is put in front of
        the old notes. The buffer itself is left as it is. */
    method StopRecording(uri: Option<string>)
      modifies this
      ensures old(recording).None? ==>
        recording == old(recording) && audioNotes == old(audioNotes)
      ensures old(recording).Some? ==> recording == None
      ensures old(recording).Some? ==>
        audioNotes == if IsTruthyUri(uri) then [AudioNote(uri.value, audioMetering)] + old(audioNotes)
                      else old(audioNotes)
      ensures audioMetering == old(audioMetering) && level == old(level)
    {
      if recording.None? {
        return;
      }
      recording := None;
      if IsTruthyUri(uri) {
        audioNotes := [AudioNote(uri.value, audioMetering)] + audioNotes;
      }
    }

    /** The record button: `recording ? stopRecording : startRecording`. */
    method Press(created: Option<RecordingHandle>, uri: Option<string>)
      modifies this
      ensures old(recording).Some? ==> recording == None && audioMetering == old(audioMetering)
      ensures old(recording).Some? ==>
        audioNotes == if IsTruthyUri(uri) then [AudioNote(uri.value, audioMetering)] + old(audioNotes)
                      else old(audioNotes)
      ensures old(recording).None? ==> recording == created && audioMetering == [] && audioNotes == old(audioNotes)
      ensures level == old(level)
    {
      if recording.Some? {
        StopRecording(uri);
      } else {
        StartRecording(created);
      }
    }
  }

  /** Scenario: start, five metering ticks (and two updates without a usable
      value), stop with a URI. The library then holds exactly one note,
      carrying that URI and the five samples in order. */
  method RecordOneNote() returns (notes: seq<AudioNote>)
    ensures notes == [AudioNote("file:///a.m4a", [-40.0, -35.0, -30.0, -20.0, -10.0])]
  {
    var screen := new Recorder();
    screen.Press(Some(RecordingHandle(1)), None);
    screen.OnRecordingStatusUpdate(Some(-40.0));
    screen.OnRecordingStatusUpdate(Some(-35.0));
    screen.OnRecordingStatusUpdate(None);
    screen.OnRecordingStatusUpdate(Some(-30.0));
    screen.OnRecordingStatusUpdate(Some(-20.0));
    screen.OnRecordingStatusUpdate(Some(0.0));
    screen.OnRecordingStatusUpdate(Some(-10.0));
    assert screen.recording.Some? && screen.audioNotes == [];
    assert screen.audioMetering == [-40.0, -35.0, -30.0, -20.0, -10.0];
    screen.Press(None, Some("file:///a.m4a"));
    notes := screen.audioNotes;
  }

  /** Scenario: after one note has been recorded, a start that throws still
      empties the buffer, leaves the screen idle and keeps the note; a stop
      pressed afterwards finds nothing to stop. */
  method FailedStartAddsNothing() returns (notes: seq<AudioNote>, buffer: seq<real>, active: bool)
    ensures notes == [AudioNote("file:///a.m4a", [-12.0])]
    ensures buffer == [] && !active
  {
    var screen := new Recorder();
    screen.StartRecording(Some(RecordingHandle(1)));
    screen.OnRecordingStatusUpdate(Some(-12.0));
    assert screen.recording.Some? && screen.audioMetering == [-12.0];
    screen.StopRecording(Some("file:///a.m4a"));
    screen.OnRecordingStatusUpdate(Some(-3.0));
    screen.Press(None, None);
    screen.StopRecording(Some("file:///b.m4a"));
    notes, buffer, active := screen.audioNotes, screen.audioMetering, screen.recording.Some?;
  }
}
