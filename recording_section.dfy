/**
 * The recording component itself: one field per piece of React state and per
 * ref, one method per handler and per browser callback. Every method is
 * specified by the step function of the same name in `RecordingSession`, whose
 * properties are proved in `SessionProperties`.
 */
module RecordingComponent {
  import opened Options
  import opened Text
  import opened RecordingSession

  class RecordingSection {
    // React state
    var title: string
    var isRecording: bool
    var isPaused: bool
    var duration: nat
    var audioUrl: Option<UrlId>
    var audioBlob: Option<Blob>
    var isProcessing: bool
    // refs
    var recorder: Option<RecorderState>
    var chunks: seq<Chunk>
    var timerRunning: bool
    var streamLive: bool
    // the browser's side: unanswered microphone requests, intervals no longer
    // held by the ref, the object-URL allocator, queued `stop` events, URLs not
    // revoked, and streams dropped from the ref while still capturing
    ghost var pendingAcquires: nat
    ghost var orphanTimers: nat
    var nextUrl: UrlId
    ghost var pendingStops: nat
    ghost var liveUrls: set<UrlId>
    ghost var leakedStreams: nat

    /** The component's whole state as a value. */
    ghost function State(): Session
      reads this
    {
      Session(title, isRecording, isPaused, isProcessing, duration, audioUrl, audioBlob,
              recorder, chunks, timerRunning, streamLive, pendingAcquires, orphanTimers,
              pendingStops, nextUrl, liveUrls, leakedStreams)
    }

    ghost predicate Valid()
      reads this
    {
      RecordingSession.Valid(State())
    }

    /** Mounting the view. */
    constructor ()
      ensures Valid() && State() == Initial()
    {
      title, isRecording, isPaused, isProcessing, duration := "", false, false, false, 0;
      audioUrl, audioBlob, recorder, chunks := None, None, None, [];
      timerRunning, streamLive, nextUrl := false, false, 0;
      pendingAcquires, orphanTimers := 0, 0;
      pendingStops, liveUrls, leakedStreams := 0, {}, 0;
    }

    /** `setIsRecording` and `setIsPaused` together. */
    method SetFlags(recording: bool, paused: bool)
      modifies this
      ensures State() == old(State()).(isRecording := recording, isPaused := paused)
    {
      isRecording := recording;
      isPaused := paused;
    }

    /** `mediaRecorder.start()`, then `setIsRecording(true)`, `setIsPaused(false)` and `setDuration(0)`. */
    method StartRecorder()
      modifies this
      ensures State() == old(State()).(recorder := Some(Recording), isRecording := true, isPaused := false, duration := 0)
    {
      recorder := Some(Recording);
      SetFlags(true, false);
      duration := 0;
    }

    /** `setAudioURL` and `setAudioBlob` together. */
    method SetArtifact(url: Option<UrlId>, blob: Option<Blob>)
      modifies this
      ensures State() == old(State()).(audioUrl := url, audioBlob := blob)
    {
      audioUrl := url;
      audioBlob := blob;
    }

    /** `timerRef.current = setInterval(...)`, overwriting whatever interval the ref held. */
    method StartTimer()
      modifies this
      ensures State() == StartInterval(old(State()))
    {
      if timerRunning {
        orphanTimers := orphanTimers + 1;
      }
      timerRunning := true;
    }

    /** `clearInterval(timerRef.current)`. */
    method ClearTimer()
      modifies this
      ensures State() == old(State()).(timerRunning := false)
    {
      timerRunning := false;
    }

    /** `streamRef.current = stream`: a stream still capturing is dropped without being stopped. */
    method OpenStream()
      modifies this
      ensures State() == old(State()).(
        leakedStreams := if old(streamLive) then old(leakedStreams) + 1 else old(leakedStreams),
        streamLive := true)
    {
      if streamLive {
        leakedStreams := leakedStreams + 1;
      }
      streamLive := true;
    }

    /** Stopping every track of `streamRef.current`, which ends a recorder still capturing it. */
    method StopTracks()
      modifies this
      ensures State() == TracksStopped(old(State()))
    {
      if Capturing(recorder) {
        recorder := Some(Inactive);
        pendingStops := pendingStops + 1;
      }
      streamLive := false;
    }

    /** `URL.createObjectURL`: a fresh URL, live until revoked. */
    method CreateObjectUrl() returns (url: UrlId)
      modifies this
      ensures url == old(nextUrl)
      ensures State() == old(State()).(nextUrl := old(nextUrl) + 1, liveUrls := old(liveUrls) + {url})
    {
      url := nextUrl;
      nextUrl := nextUrl + 1;
      liveUrls := liveUrls + {url};
    }

    /** `URL.revokeObjectURL`, when there is a URL. */
    method Revoke(url: Option<UrlId>)
      modifies this
      ensures State() == old(State()).(liveUrls := old(liveUrls) - UrlSet(url))
    {
      if url.Some? {
        liveUrls := liveUrls - {url.value};
      }
    }

    /** `startRecording` up to its `await`: the microphone is requested. */
    method Start()
      requires Valid()
      modifies this
      ensures State() == StartStep(old(State()))
      ensures Valid()
      ensures chunks == [] && pendingAcquires == old(pendingAcquires) + 1 && isRecording == old(isRecording)
    {
      chunks := [];
      pendingAcquires := pendingAcquires + 1;
    }

    /** The rest of `startRecording`; `acquireOk` is whether `getUserMedia` granted the microphone. */
    method Acquired(acquireOk: bool)
      requires Valid() && pendingAcquires > 0
      modifies this
      ensures State() == AcquiredStep(old(State()), acquireOk)
      ensures Valid()
      ensures acquireOk ==> isRecording && !isPaused && duration == 0 && timerRunning && recorder == Some(Recording)
      ensures acquireOk ==> orphanTimers == if old(timerRunning) then old(orphanTimers) + 1 else old(orphanTimers)
      ensures !acquireOk ==> isRecording == old(isRecording) && timerRunning == old(timerRunning)
    {
      pendingAcquires := pendingAcquires - 1;
      if !acquireOk {
        return;  // error toast
      }
      OpenStream();
      StartRecorder();
      StartTimer();
    }

    /** `ondataavailable`. */
    method DataAvailable(c: Chunk)
      requires Valid()
      modifies this
      ensures State() == DataAvailableStep(old(State()), c)
      ensures Valid()
      ensures chunks == if |c.bytes| > 0 then old(chunks) + [c] else old(chunks)
    {
      if |c.bytes| > 0 {
        chunks := chunks + [c];
      }
    }

    /** One firing of an interval, held by the ref or not: `setDuration(prev => prev + 1)`. */
    method Tick()
      requires Valid() && (timerRunning || orphanTimers > 0)
      modifies this
      ensures State() == TickStep(old(State()))
      ensures Valid()
      ensures duration == old(duration) + 1
      ensures old(timerRunning) ==> isRecording && !isPaused
    {
      duration := duration + 1;
    }

    /** `pauseRecording`, the pause/resume toggle; `pause()` and `resume()` throw on an ended recorder. */
    method PauseToggle()
      requires Valid()
      modifies this
      ensures State() == PauseToggleStep(old(State()))
      ensures Valid()
      ensures duration == old(duration)
      ensures old(isRecording) && Capturing(old(recorder)) ==> isPaused == !old(isPaused) && timerRunning == !isPaused
      ensures !old(isRecording) || old(recorder) == Some(Inactive) ==> State() == old(State())
    {
      if recorder.Some? && isRecording && !isPaused {
        if Capturing(recorder) {
          recorder := Some(Paused);
          isPaused := true;
          ClearTimer();
        }
      } else if recorder.Some? && isRecording && isPaused {
        if Capturing(recorder) {
          recorder := Some(Recording);
          isPaused := false;
          StartTimer();
        }
      }
    }

    /** `stopRecording`; a capturing recorder's `stop` event is queued. */
    method Stop()
      requires Valid()
      modifies this
      ensures State() == StopStep(old(State()))
      ensures Valid()
      ensures !isRecording && !isPaused && !timerRunning && duration == old(duration)
    {
      if recorder.Some? && isRecording {
        if Capturing(recorder) {
          pendingStops := pendingStops + 1;
        }
        recorder := Some(Inactive);
        SetFlags(false, false);
        ClearTimer();
      }
    }

    /** The cleanup of the `audioURL` effect, for the URL of the render it belongs to. */
    method RunEffectCleanup(url: Option<UrlId>)
      modifies this
      ensures State() == EffectCleanup(old(State()), url)
    {
      ClearTimer();
      StopTracks();
      Revoke(url);
    }

    /**
     * A recorder's `stop` event, delivered by the browser for the oldest queued
     * one: `ondataavailable` with the final data, then `onstop`.
     */
    method OnStop(final: Chunk)
      requires Valid() && pendingStops > 0
      modifies this
      ensures State() == OnStopStep(old(State()), final)
      ensures Valid()
      ensures audioBlob == Some(Blob(Concat(old(chunks)) + final.bytes, WebmType))
      ensures !streamLive && !timerRunning && !Capturing(recorder)
    {
      DataAvailable(final);
      var previousUrl := audioUrl;
      ShowBlob();
      StopTracks();
      RunEffectCleanup(previousUrl);
    }

    /** The first half of `onstop`: the chunks become a blob shown through a fresh URL. */
    method ShowBlob()
      requires pendingStops > 0
      modifies this
      ensures State() == old(State()).(
        audioUrl := Some(old(nextUrl)), audioBlob := Some(Blob(Concat(old(chunks)), WebmType)),
        nextUrl := old(nextUrl) + 1, liveUrls := old(liveUrls) + {old(nextUrl)},
        pendingStops := old(pendingStops) - 1)
    {
      pendingStops := pendingStops - 1;
      var blob := Blob(Concat(chunks), WebmType);
      var url := CreateObjectUrl();
      SetArtifact(Some(url), Some(blob));
    }

    /** `resetRecording`. */
    method Reset()
      requires Valid()
      modifies this
      ensures State() == ResetStep(old(State()))
      ensures Valid()
      ensures !isRecording && !isPaused && duration == 0 && audioBlob == None && audioUrl == None && title == ""
    {
      var shownUrl := audioUrl;
      if isRecording {
        Stop();
      }
      title := "";
      SetFlags(false, false);
      duration := 0;
      SetArtifact(None, None);
      Revoke(shownUrl);
      if shownUrl.Some? {
        RunEffectCleanup(shownUrl);
      }
    }

    /**
     * `handleProcessRecording` for the component's `courseId`; `uploadOk` is
     * whether `createRecording` succeeds. Returns the upload made, if any.
     */
    method Process(courseId: Option<int>, uploadOk: bool) returns (request: Option<UploadRequest>)
      requires Valid() && !isProcessing
      modifies this
      ensures (State(), request) == ProcessStep(old(State()), courseId, uploadOk)
      ensures Valid()
      ensures !isProcessing
      ensures request.None? <==> old(audioBlob).None? || IsBlank(old(title))
      ensures request.Some? ==> request.value == UploadRequest(old(title), old(audioBlob).value, courseId, old(duration))
      ensures request.Some? && uploadOk ==> audioBlob == None && title == "" && duration == 0
      ensures request.None? || !uploadOk ==> audioBlob == old(audioBlob) && title == old(title) && duration == old(duration)
    {
      if audioBlob.None? {
        return None;  // "no recording" toast
      }
      if Trim(title) == [] {
        return None;  // "enter a title" toast
      }
      isProcessing := true;
      request := Some(UploadRequest(title, audioBlob.value, courseId, duration));
      if uploadOk {
        Reset();
      }
      isProcessing := false;
    }

    /** The title input's `onChange`. */
    method SetTitle(t: string)
      requires Valid()
      modifies this
      ensures Valid() && State() == SetTitleStep(old(State()), t)
    {
      title := t;
    }

    /** Unmounting the view. */
    method Unmount()
      requires Valid()
      modifies this
      ensures State() == TeardownStep(old(State()))
      ensures !timerRunning && !streamLive && liveUrls == {}
    {
      RunEffectCleanup(audioUrl);
    }
  }
}
