/** What the recording session's handlers and callbacks guarantee, one event at a time and over whole event sequences. */
module SessionProperties {
  import opened Options
  import opened Text
  import opened RecordingSession

  /**
   * A click on the record button while idle only empties the chunk list and
   * asks for the microphone: nothing records yet, the earlier blob, URL and
   * title stay, and the button still offers to start.
   */
  lemma StartOutcome(s: Session)
    ensures var r := StartStep(s);
      && r.chunks == [] && r.pendingAcquires == s.pendingAcquires + 1
      && r.isRecording == s.isRecording && r.timerRunning == s.timerRunning && r.duration == s.duration
      && r.audioBlob == s.audioBlob && r.audioUrl == s.audioUrl && r.title == s.title
      && Enabled(r, Start) == Enabled(s, Start)
  {
  }

  /**
   * The microphone's answer. A grant records, unpaused, from zero, with the
   * new recorder and stream and an interval in the ref; an interval already in
   * the ref is orphaned and a stream already capturing is dropped. A refusal
   * changes nothing but the outstanding requests. Either way the chunk list,
   * blob, URL and title are as they were.
   */
  lemma AcquiredOutcome(s: Session, acquireOk: bool)
    requires Valid(s) && s.pendingAcquires > 0
    ensures var r := AcquiredStep(s, acquireOk);
      && r.pendingAcquires == s.pendingAcquires - 1
      && r.chunks == s.chunks && r.audioBlob == s.audioBlob && r.audioUrl == s.audioUrl && r.title == s.title
      && (acquireOk ==>
            && r.isRecording && !r.isPaused && r.duration == 0 && r.timerRunning
            && r.recorder == Some(Recording) && r.streamLive
            && r.orphanTimers == s.orphanTimers + (if s.timerRunning then 1 else 0)
            && r.leakedStreams == s.leakedStreams + (if s.streamLive then 1 else 0))
      && (!acquireOk ==>
            && r.isRecording == s.isRecording && r.timerRunning == s.timerRunning
            && r.duration == s.duration && r.streamLive == s.streamLive && r.orphanTimers == s.orphanTimers)
  {
  }

  /**
   * The pause button: a recording recorder becomes paused with its interval
   * cleared, a paused one resumes with a new interval, and without a recording,
   * or when the recorder has already ended, nothing changes. The duration is
   * never touched.
   */
  lemma PauseToggleOutcome(s: Session)
    requires Valid(s)
    ensures var r := PauseToggleStep(s);
      && r.duration == s.duration && r.isRecording == s.isRecording && r.chunks == s.chunks
      && (s.isRecording && s.recorder == Some(Recording) ==> r.isPaused && !r.timerRunning && r.recorder == Some(Paused))
      && (s.isRecording && s.recorder == Some(Paused) ==> !r.isPaused && r.timerRunning && r.recorder == Some(Recording))
      && (!s.isRecording || s.recorder == Some(Inactive) ==> r == s)
  {
  }

  /** With a consistent session the interval runs exactly while the visualizer is active, so ticks arrive only then. */
  lemma TimerRunsWhileVisualizerActive(s: Session)
    requires Consistent(s)
    ensures s.timerRunning <==> VisualizerActive(s)
    ensures Enabled(s, Tick) <==> VisualizerActive(s)
  {
  }

  /**
   * Stop works from a running and from a paused recording alike: afterwards
   * nothing records, nothing is paused, the interval in the ref is cleared, the
   * recorder is inactive with one `stop` event queued if it was still
   * capturing, and duration, chunks and blob are what they were.
   */
  lemma StopOutcome(s: Session)
    requires Valid(s) && s.isRecording
    ensures var r := StopStep(s);
      && !r.isRecording && !r.isPaused && !r.timerRunning && r.recorder == Some(Inactive)
      && r.pendingStops == s.pendingStops + (if Capturing(s.recorder) then 1 else 0)
      && r.duration == s.duration && r.chunks == s.chunks && r.audioBlob == s.audioBlob
  {
  }

  /** Without a recording, stop changes nothing. */
  lemma StopWithoutRecording(s: Session)
    requires !s.isRecording
    ensures StopStep(s) == s
  {
  }

  /**
   * The `stop` event, after the recorder's final data: the blob holds the
   * bytes of the chunks gathered so far followed by that data, as
   * `audio/webm`, shown through a fresh URL; the stream and the interval in
   * the ref are stopped and the URL it replaces is revoked. A recorder still
   * capturing that stream ends and queues its own `stop` event.
   */
  lemma OnStopOutcome(s: Session, final: Chunk)
    requires Valid(s) && s.pendingStops > 0
    ensures var r := OnStopStep(s, final);
      && r.audioBlob == Some(Blob(Concat(s.chunks) + final.bytes, WebmType))
      && r.chunks == (if |final.bytes| > 0 then s.chunks + [final] else s.chunks)
      && r.audioUrl == Some(s.nextUrl) && r.liveUrls == {s.nextUrl}
      && (s.audioUrl.Some? ==> s.audioUrl.value !in r.liveUrls)
      && !r.streamLive && !r.timerRunning && !Capturing(r.recorder)
      && r.pendingStops == (if Capturing(s.recorder) then s.pendingStops else s.pendingStops - 1)
      && r.duration == s.duration && r.isRecording == s.isRecording
  {
  }

  /**
   * The `stop` event leaves the chunk list in place, so a second `stop` event
   * builds a clip that repeats the first clip's bytes before its own final data.
   */
  lemma SecondStopEventRepeatsClip(s: Session, first: Chunk, second: Chunk)
    requires s.pendingStops > 1
    ensures var r := OnStopStep(s, first);
      OnStopStep(r, second).audioBlob == Some(Blob(r.audioBlob.value.bytes + second.bytes, WebmType))
  {
  }

  /**
   * Reset from any state: nothing records or is paused, the duration is zero,
   * blob, URL and title are gone, no URL stays live, no interval is in the
   * ref and no recorder captures. The chunk list is left as it was.
   */
  lemma ResetOutcome(s: Session)
    requires Valid(s)
    ensures var r := ResetStep(s);
      && !r.isRecording && !r.isPaused && r.duration == 0
      && r.audioBlob == None && r.audioUrl == None && r.title == ""
      && r.liveUrls == {} && !r.timerRunning && !Capturing(r.recorder)
      && r.chunks == s.chunks && r.isProcessing == s.isProcessing
  {
  }

  /** Resetting twice is resetting once. */
  lemma ResetIdempotent(s: Session)
    ensures ResetStep(ResetStep(s)) == ResetStep(s)
  {
    var r := ResetStep(s);
    assert !r.isRecording && r.audioUrl == None;
    assert r.liveUrls - UrlSet(r.audioUrl) == r.liveUrls;
  }

  /**
   * A reset during a recording only queues the recorder's `stop` event; when
   * it arrives it sets a blob again, made of the chunks recorded before the
   * reset and the recorder's final data, although the reset had cleared it.
   */
  lemma StaleBlobAfterReset(s: Session, final: Chunk)
    requires Valid(s) && s.isRecording
    ensures ResetStep(s).audioBlob == None
    ensures ResetStep(s).pendingStops == s.pendingStops + (if Capturing(s.recorder) then 1 else 0)
    ensures ResetStep(s).pendingStops > 0 ==>
      OnStopStep(ResetStep(s), final).audioBlob == Some(Blob(Concat(s.chunks) + final.bytes, WebmType))
  {
  }

  /**
   * A `stop` event arriving while the microphone is being asked for builds
   * the blob from the chunk list the click has just emptied: fragments
   * delivered before the click are lost, and the clip is the recorder's final
   * data alone. A recorder started without a timeslice delivers nothing
   * before its final data, so its clip is then complete.
   */
  lemma StopEventDuringAcquireKeepsFinalData(s: Session, final: Chunk)
    requires s.pendingStops > 0
    ensures OnStopStep(StartStep(s), final).audioBlob == Some(Blob(final.bytes, WebmType))
  {
    assert Concat(StartStep(s).chunks) + final.bytes == final.bytes;
  }

  /**
   * A recording started while the previous recorder's `stop` event is still
   * queued is ended when that event arrives: its stream is stopped, so its
   * recorder goes inactive and queues its own `stop` event, and its interval is
   * cleared. The view still shows it recording and active, and the pause
   * button does nothing. The previous recorder's final data lands in the new
   * recording's chunk list, so the next `stop` event delivers, while the view
   * still shows recording, a clip that starts with the previous recording's
   * final data.
   */
  lemma LateStopEventEndsNewRecording(s: Session, previous: Chunk, final: Chunk)
    requires Consistent(s) && !s.isRecording && s.pendingStops > 0
    ensures var r := OnStopStep(AcquiredStep(StartStep(s), true), previous);
      && r.isRecording && VisualizerActive(r) && !r.timerRunning && !r.streamLive
      && r.recorder == Some(Inactive) && r.pendingStops == s.pendingStops
      && PauseToggleStep(r) == r
      && OnStopStep(r, final).isRecording
      && OnStopStep(r, final).audioBlob == Some(Blob(previous.bytes + final.bytes, WebmType))
  {
    var started := AcquiredStep(StartStep(s), true);
    assert Concat(started.chunks) + previous.bytes == previous.bytes;
  }

  /**
   * Two clicks on the record button before the microphone answers start two
   * recordings. The second grant overwrites the first interval's handle and
   * drops the first stream while it captures. Stop then clears only the
   * second interval: the first one still fires, and each tick still adds a
   * second to the stopped recording's duration, even after a reset.
   */
  lemma DoubleStartOrphansInterval(s: Session)
    requires Consistent(s) && !s.isRecording && !s.isProcessing && s.pendingStops == 0
    ensures var t := Step(Step(Step(Step(s, Start), Start), Acquired(true)), Acquired(true));
      && t.isRecording && t.orphanTimers == s.orphanTimers + 1 && t.leakedStreams == s.leakedStreams + 1
      && var u := Step(t, Stop);
      && !u.isRecording && Enabled(u, Tick) && Step(u, Tick).duration == u.duration + 1
      && Enabled(ResetStep(u), Tick)
  {
    var c1 := Step(s, Start);
    assert c1 == StartStep(s);
    var c2 := Step(c1, Start);
    assert c2 == StartStep(c1);
    var a1 := Step(c2, Acquired(true));
    assert a1 == AcquiredStep(c2, true);
    assert !a1.isPaused && a1.timerRunning && a1.streamLive && a1.leakedStreams == s.leakedStreams;
    var t := Step(a1, Acquired(true));
    assert t == AcquiredStep(a1, true);
  }

  /** A title counts as missing exactly when it is made of whitespace only. */
  lemma BlankTitleIff(title: string)
    ensures IsBlank(title) <==> AllWhitespace(title)
  {
    TrimEmptyIff(title);
  }

  /**
   * Processing uploads nothing without a blob or with a whitespace-only
   * title, and then changes nothing; otherwise it uploads the title as typed,
   * the blob, the course and the duration. A successful upload resets the
   * session; a failed one keeps it as it was, so the same upload can be
   * retried. In every case nothing is processing afterwards.
   */
  lemma ProcessOutcome(s: Session, courseId: Option<int>, uploadOk: bool)
    requires !s.isProcessing
    ensures var (r, request) := ProcessStep(s, courseId, uploadOk);
      && (request.None? <==> s.audioBlob.None? || AllWhitespace(s.title))
      && (request.None? ==> r == s)
      && (request.Some? ==> request.value == UploadRequest(s.title, s.audioBlob.value, courseId, s.duration))
      && (request.Some? && uploadOk ==> r == ResetStep(s))
      && (request.Some? && !uploadOk ==> r == s)
      && !r.isProcessing
  {
    BlankTitleIff(s.title);
    if s.audioBlob.Some? && !IsBlank(s.title) && uploadOk {
      ResetKeepsProcessingFlag(s);
    }
  }

  /** Reset neither reads nor writes the processing flag. */
  lemma ResetKeepsProcessingFlag(s: Session)
    requires !s.isProcessing
    ensures ResetStep(s.(isProcessing := true)).(isProcessing := false) == ResetStep(s)
  {
    var p := s.(isProcessing := true);
    var stoppedP := if p.isRecording then StopStep(p) else p;
    var stopped := if s.isRecording then StopStep(s) else s;
    assert stoppedP == stopped.(isProcessing := true);
  }

  /** After a failed upload, trying again sends exactly the same upload. */
  lemma RetrySendsSameUpload(s: Session, courseId: Option<int>)
    requires !s.isProcessing
    ensures var (failed, first) := ProcessStep(s, courseId, false);
      ProcessStep(failed, courseId, true).1 == first
  {
    ProcessOutcome(s, courseId, false);
  }

  /** Unmounting clears the timer, stops the stream and leaves no object URL live. */
  lemma TeardownReleasesAll(s: Session)
    requires Valid(s)
    ensures var r := TeardownStep(s); !r.timerRunning && !r.streamLive && r.liveUrls == {}
  {
  }

  /**
   * Every event keeps a consistent session consistent and drops no live
   * stream, except a granted microphone while an earlier `stop` event or
   * another microphone request is still outstanding.
   */
  lemma StepKeepsConsistent(s: Session, e: Event)
    requires Consistent(s)
    requires !(e.Acquired? && e.acquireOk && (s.pendingStops > 0 || s.pendingAcquires > 1))
    ensures Consistent(Step(s, e))
    ensures Step(s, e).leakedStreams == s.leakedStreams
  {
    if Enabled(s, e) && e.Reset? && s.isRecording {
      assert StopStep(s).pendingStops > 0;
    }
  }

  /** Only a granted microphone request orphans an interval; no other event changes how many are out of reach. */
  lemma OrphansOnlyFromAcquired(s: Session, e: Event)
    requires Valid(s) && !e.Acquired?
    ensures Step(s, e).orphanTimers == s.orphanTimers
  {
    if e.OnStop? && Enabled(s, e) {
      StopEventKeepsCounters(s, e.final);
    }
  }

  /** The `stop` event leaves the duration, the recording flag and the unreachable intervals as they were. */
  lemma StopEventKeepsCounters(s: Session, final: Chunk)
    requires s.pendingStops > 0
    ensures var r := OnStopStep(s, final);
      r.duration == s.duration && r.isRecording == s.isRecording && r.orphanTimers == s.orphanTimers
  {
    var flushed := DataAvailableStep(s, final);
    StopHandlerKeepsCounters(flushed);
    assert OnStopStep(s, final) == StopHandlerStep(flushed);
  }

  lemma StopHandlerKeepsCounters(s: Session)
    requires s.pendingStops > 0
    ensures var r := StopHandlerStep(s);
      r.duration == s.duration && r.isRecording == s.isRecording && r.orphanTimers == s.orphanTimers
  {
  }

  /** Every sequence of events keeps the session valid. */
  lemma {:induction false} RunKeepsValid(s: Session, events: seq<Event>)
    requires Valid(s)
    ensures Valid(Run(s, events))
    decreases |events|
  {
    if events != [] {
      RunKeepsValid(Step(s, events[0]), events[1..]);
    }
  }

  /**
   * The non-empty fragment an event hands to `ondataavailable`: a fragment
   * event's, or the final data delivered with a `stop` event.
   */
  function DeliveredBy(e: Event): seq<Chunk> {
    match e
    case DataAvailable(c) => if |c.bytes| > 0 then [c] else []
    case OnStop(c) => if |c.bytes| > 0 then [c] else []
    case _ => []
  }

  /** The non-empty fragments delivered by a sequence of events, in delivery order. */
  function Delivered(events: seq<Event>): seq<Chunk>
    decreases |events|
  {
    if events == [] then [] else DeliveredBy(events[0]) + Delivered(events[1..])
  }

  predicate NoStart(events: seq<Event>) {
    forall i :: 0 <= i < |events| ==> !events[i].Start?
  }

  /**
   * Every `stop` event of the sequence finds a `stop` queued, as the browser
   * delivers one only for a recorder that was stopped or ended.
   */
  predicate StopsQueued(s: Session, events: seq<Event>)
    decreases |events|
  {
    events == [] ||
    ((events[0].OnStop? ==> s.pendingStops > 0) && StopsQueued(Step(s, events[0]), events[1..]))
  }

  /** An event other than a click on start adds to the chunk list exactly the fragment it delivers, if any. */
  lemma StepChunks(s: Session, e: Event)
    requires !e.Start? && (e.OnStop? ==> s.pendingStops > 0)
    ensures Step(s, e).chunks == s.chunks + DeliveredBy(e)
  {
    if Enabled(s, e) {
      match e
      case Acquired(ok) =>
      case DataAvailable(c) =>
      case Tick =>
      case PauseToggle =>
      case Stop =>
      case OnStop(c) =>
      case Reset =>
      case Process(courseId, ok) =>
      case SetTitle(t) =>
    } else {
      assert !e.DataAvailable? && !e.OnStop?;
    }
  }

  /** Until the next click on start, the chunk list grows by exactly the delivered non-empty fragments, in the order delivered. */
  lemma {:induction false} ChunksInDeliveryOrder(s: Session, events: seq<Event>)
    requires NoStart(events) && StopsQueued(s, events)
    ensures Run(s, events).chunks == s.chunks + Delivered(events)
    decreases |events|
  {
    if events != [] {
      var e, rest := events[0], events[1..];
      var next := Step(s, e);
      assert !e.Start?;
      StepChunks(s, e);
      assert NoStart(rest) by {
        forall i | 0 <= i < |rest| ensures !rest[i].Start? { assert rest[i] == events[i + 1]; }
      }
      ChunksInDeliveryOrder(next, rest);
      assert Run(s, events) == Run(next, rest);
      assert Delivered(events) == DeliveredBy(e) + Delivered(rest);
    }
  }

  /**
   * After a click on start, whatever the events until the `stop` event that
   * ends the clip (the microphone's answer, fragments, ticks, pauses, stop,
   * reset, title edits, other recorders' `stop` events), the finished blob is
   * the delivered fragments' bytes in delivery order followed by the final
   * data, as `audio/webm`.
   */
  lemma ArtifactInDeliveryOrder(s: Session, events: seq<Event>, final: Chunk)
    requires NoStart(events) && StopsQueued(StartStep(s), events)
    requires Run(StartStep(s), events).pendingStops > 0
    ensures OnStopStep(Run(StartStep(s), events), final).audioBlob
      == Some(Blob(Concat(Delivered(events)) + final.bytes, WebmType))
  {
    var t := Run(StartStep(s), events);
    ChunksInDeliveryOrder(StartStep(s), events);
    assert t.chunks == Delivered(events) by { assert [] + Delivered(events) == Delivered(events); }
  }

  /** How many of the ticks in a sequence arrive while the visualizer is active. */
  function ActiveTicks(s: Session, events: seq<Event>): nat
    decreases |events|
  {
    if events == [] then 0
    else (if events[0].Tick? && VisualizerActive(s) then 1 else 0) + ActiveTicks(Step(s, events[0]), events[1..])
  }

  predicate KeepsDuration(events: seq<Event>) {
    forall i :: 0 <= i < |events| ==> !events[i].Acquired? && !events[i].Reset? && !events[i].Process?
  }

  /**
   * Between a granted start and the next reset, the duration grows by one for every
   * tick that arrives while the recording is active and unpaused, and by
   * nothing else: paused stretches, stop and the `stop` event leave it alone.
   */
  lemma {:induction false} DurationCountsActiveTicks(s: Session, events: seq<Event>)
    requires Consistent(s) && KeepsDuration(events)
    ensures Run(s, events).duration == s.duration + ActiveTicks(s, events)
    decreases |events|
  {
    if events != [] {
      var e := events[0];
      StepKeepsConsistent(s, e);
      var next := Step(s, e);
      assert next.duration == s.duration + (if e.Tick? && VisualizerActive(s) then 1 else 0);
      DurationCountsActiveTicks(next, events[1..]);
    }
  }

  /**
   * After stop, with no interval out of reach, the duration stays what it was
   * until a reset or a newly granted start: that is the value uploaded.
   */
  lemma {:induction false} StoppedDurationIsUploaded(s: Session, events: seq<Event>, courseId: Option<int>, uploadOk: bool)
    requires Valid(s) && s.orphanTimers == 0 && !s.isRecording && KeepsDuration(events)
    ensures Run(s, events).duration == s.duration
    ensures var t := Run(s, events); !t.isProcessing ==>
      var request := ProcessStep(t, courseId, uploadOk).1;
      request.Some? ==> request.value.durationSeconds == s.duration
    decreases |events|
  {
    if events != [] {
      StoppedStepKeepsDuration(s, events[0]);
      assert KeepsDuration(events[1..]) by {
        forall i | 0 <= i < |events[1..]| ensures events[1..][i] == events[i + 1] { }
      }
      StoppedDurationIsUploaded(Step(s, events[0]), events[1..], courseId, uploadOk);
    }
  }

  /** One event that neither grants a start, resets nor processes leaves a stopped session stopped, with its duration. */
  lemma StoppedStepKeepsDuration(s: Session, e: Event)
    requires Valid(s) && s.orphanTimers == 0 && !s.isRecording
    requires !e.Acquired? && !e.Reset? && !e.Process?
    ensures var r := Step(s, e); r.duration == s.duration && r.orphanTimers == 0 && !r.isRecording
  {
    OrphansOnlyFromAcquired(s, e);
  }
}
