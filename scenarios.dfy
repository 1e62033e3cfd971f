/**
 * Whole recording sessions driven through the component's methods, the way
 * the page's buttons and the browser's callbacks would drive them.
 */
module Scenarios {
  import opened Options
  import opened RecordingSession
  import opened RecordingComponent

  /**
   * Two fragments recorded, then stop, whose `stop` event comes with the
   * final data: the blob is the two fragments and the final data in order.
   */
  method ThreeFragments(c1: Chunk, c2: Chunk, final: Chunk) returns (blob: Option<Blob>)
    requires |c1.bytes| > 0 && |c2.bytes| > 0
    ensures blob == Some(Blob(c1.bytes + c2.bytes + final.bytes, WebmType))
  {
    var section := new RecordingSection();
    section.Start();
    section.Acquired(true);
    section.DataAvailable(c1);
    section.DataAvailable(c2);
    section.Stop();
    assert section.chunks == [c1, c2];
    section.OnStop(final);
    ConcatTwo(c1, c2);
    blob := section.audioBlob;
  }

  lemma ConcatTwo(c1: Chunk, c2: Chunk)
    ensures Concat([c1, c2]) == c1.bytes + c2.bytes
  {
    assert [c1, c2][1..] == [c2] && [c2][1..] == [];
    assert Concat([c2]) == c2.bytes by { assert c2.bytes + [] == c2.bytes; }
  }

  /** Two ticks, a pause, a resume, one more tick, stop: the paused stretch adds nothing. */
  method PauseExcluded() returns (seconds: nat, ghost tickWhilePaused: bool)
    ensures seconds == 3 && !tickWhilePaused
  {
    var section := new RecordingSection();
    section.Start();
    section.Acquired(true);
    section.Tick();
    section.Tick();
    section.PauseToggle();
    tickWhilePaused := section.timerRunning || section.orphanTimers > 0;
    section.PauseToggle();
    section.Tick();
    section.Stop();
    seconds := section.duration;
  }

  /** The microphone is refused: no recording, no chunk, no timer. */
  method MicrophoneRefused() returns (recording: bool, chunkCount: nat, timer: bool)
    ensures !recording && chunkCount == 0 && !timer
  {
    var section := new RecordingSection();
    section.Start();
    section.Acquired(false);
    recording, chunkCount, timer := section.isRecording, |section.chunks|, section.timerRunning;
  }

  /**
   * The record button clicked twice before the microphone answers: once
   * stopped, the recording's duration still grows with the interval the ref
   * no longer holds.
   */
  method DoubleClick() returns (recording: bool, stopped: nat, later: nat)
    ensures !recording && later == stopped + 1
  {
    var section := new RecordingSection();
    section.Start();
    section.Start();
    section.Acquired(true);
    section.Acquired(true);
    section.Stop();
    recording, stopped := section.isRecording, section.duration;
    section.Tick();
    later := section.duration;
  }

  /**
   * A fragment recorded and stopped, then start clicked again before the
   * browser delivers the `stop` event: the fragment is lost, and the clip is
   * the final data alone.
   */
  method RestartBeforeStopEvent(c: Chunk, final: Chunk) returns (blob: Option<Blob>)
    requires |c.bytes| > 0
    ensures blob == Some(Blob(final.bytes, WebmType))
  {
    var section := new RecordingSection();
    section.Start();
    section.Acquired(true);
    section.DataAvailable(c);
    section.Stop();
    section.Start();
    section.OnStop(final);
    assert Concat([]) + final.bytes == final.bytes;
    blob := section.audioBlob;
  }

  /**
   * A recording started and stopped with no title typed, its data all
   * delivered with the `stop` event, as by a recorder started without a
   * timeslice.
   */
  method Recorded(c: Chunk) returns (section: RecordingSection)
    requires |c.bytes| > 0
    ensures fresh(section) && section.Valid() && !section.isProcessing
    ensures section.audioBlob == Some(Blob(c.bytes, WebmType)) && section.title == "" && section.duration == 0
  {
    section := new RecordingSection();
    section.Start();
    section.Acquired(true);
    section.Stop();
    section.OnStop(c);
    assert Concat([]) + c.bytes == c.bytes;
  }

  /**
   * Processing without a title uploads nothing and keeps the recording; once
   * a title is typed, processing uploads it and clears the session.
   */
  method TitleRequired(c: Chunk, courseId: Option<int>)
    returns (first: Option<UploadRequest>, kept: bool, second: Option<UploadRequest>, cleared: bool)
    requires |c.bytes| > 0
    ensures first == None && kept
    ensures second == Some(UploadRequest("Lecture 1", Blob(c.bytes, WebmType), courseId, 0)) && cleared
  {
    var section := Recorded(c);
    assert IsBlank("");
    first := section.Process(courseId, true);
    kept := section.audioBlob.Some?;
    section.SetTitle("Lecture 1");
    assert !IsBlank("Lecture 1");
    second := section.Process(courseId, true);
    cleared := section.audioBlob == None && section.title == "";
  }

  /** A failed upload keeps blob, title and duration; the retry sends the very same upload. */
  method RetryAfterFailure(c: Chunk, courseId: Option<int>)
    returns (failed: Option<UploadRequest>, kept: bool, retried: Option<UploadRequest>)
    requires |c.bytes| > 0
    ensures failed.Some? && failed == retried && kept
  {
    var section := Recorded(c);
    section.SetTitle("Lecture 1");
    assert !IsBlank("Lecture 1");
    failed := section.Process(courseId, false);
    kept := section.audioBlob.Some? && section.title == "Lecture 1" && section.duration == 0;
    retried := section.Process(courseId, true);
  }
}
