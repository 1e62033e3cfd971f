/**
 * The recording session of the lecture-recording view, as a value.
 *
 * One record holds everything the component's handlers read or write: its
 * React state (title, the three flags, the duration, the finished blob and its
 * object URL), its refs (the recorder, the stream, the chunk list, the timer)
 * and the few facts about the browser the handlers depend on (queued `stop`
 * events, object URLs not yet revoked, streams dropped while still capturing).
 * Each handler and each browser callback is a step function from one record
 * to the next; `Step` and `Run` apply user and browser events in sequence.
 */
module RecordingSession {
  import opened Options
  import opened Text

  type Byte = bv8

  /** A `BlobPart` handed to `ondataavailable`; its `size` is the number of bytes. */
  datatype Chunk = Chunk(bytes: seq<Byte>)

  /** An immutable `Blob`: its bytes and its declared media type. */
  datatype Blob = Blob(bytes: seq<Byte>, mediaType: string)

  /** The media type the finished recording is tagged with. */
  const WebmType: string := "audio/webm"

  /** `MediaRecorder.state`. */
  datatype RecorderState = Inactive | Recording | Paused

  /** An object URL handed out by `URL.createObjectURL`, identified by its creation order. */
  type UrlId = nat

  /** The arguments of one `createRecording` call. */
  datatype UploadRequest = UploadRequest(title: string, audio: Blob, courseId: Option<int>, durationSeconds: nat)

  datatype Session = Session(
    title: string,
    isRecording: bool,
    isPaused: bool,
    isProcessing: bool,
    duration: nat,
    audioUrl: Option<UrlId>,
    audioBlob: Option<Blob>,
    recorder: Option<RecorderState>,  // mediaRecorderRef.current
    chunks: seq<Chunk>,               // chunksRef.current
    timerRunning: bool,               // timerRef.current holds an interval not yet cleared
    streamLive: bool,                 // streamRef.current still has live tracks
    pendingAcquires: nat,             // microphone requests whose answer is still awaited
    orphanTimers: nat,                // intervals whose handle was overwritten in timerRef
    pendingStops: nat,                // stopped recorders whose `stop` event is still queued
    nextUrl: UrlId,                   // the next id `createObjectURL` hands out
    liveUrls: set<UrlId>,             // object URLs created and not revoked
    leakedStreams: nat                // streams dropped from streamRef while still capturing
  )

  /** The state when the view mounts. */
  function Initial(): (r: Session)
    ensures Consistent(r) && !VisualizerActive(r) && r.liveUrls == {} && r.audioBlob == None
  {
    Session("", false, false, false, 0, None, None, None, [], false, false, 0, 0, 0, 0, {}, 0)
  }

  /** The flag handed to the visualizer: it animates only while this holds. */
  predicate VisualizerActive(s: Session) {
    s.isRecording && !s.isPaused
  }

  /** A recorder that is recording or paused: it still captures its stream and will fire `stop` once ended. */
  predicate Capturing(r: Option<RecorderState>) {
    r == Some(Recording) || r == Some(Paused)
  }

  function UrlSet(u: Option<UrlId>): set<UrlId> {
    if u.Some? then {u.value} else {}
  }

  /**
   * What every handler and callback preserves, in every order the browser may
   * deliver them: paused only while recording; while recording the recorder
   * exists and, unless its tracks have ended, matches the flags; a capturing
   * recorder has a live stream; the interval in the ref runs only while the
   * visualizer is active and the recorder records; blob and URL come and go
   * together; and the URL shown is live and the only live one (every other URL
   * has been revoked).
   */
  predicate Valid(s: Session) {
    && (s.isPaused ==> s.isRecording)
    && (s.isRecording ==> s.recorder.Some?)
    && (s.isRecording && Capturing(s.recorder) ==> s.recorder == Some(if s.isPaused then Paused else Recording))
    && (!s.isRecording ==> !Capturing(s.recorder))
    && (Capturing(s.recorder) ==> s.streamLive)
    && (s.timerRunning ==> VisualizerActive(s) && s.recorder == Some(Recording))
    && (s.audioUrl.Some? <==> s.audioBlob.Some?)
    && (s.audioUrl.Some? ==> s.audioUrl.value < s.nextUrl)
    && s.liveUrls == UrlSet(s.audioUrl)
  }

  /**
   * What holds as long as no start is answered while a previous recorder's
   * `stop` event or another microphone request is still outstanding: no
   * interval is out of reach, a recording captures a live stream with nothing
   * else outstanding and runs its interval whenever it is not paused, and once
   * every stop event has been handled no stream is left capturing.
   */
  predicate Consistent(s: Session) {
    && Valid(s)
    && s.orphanTimers == 0
    && (s.isRecording ==> Capturing(s.recorder) && s.pendingStops == 0 && s.pendingAcquires == 0)
    && (s.isRecording ==> s.timerRunning == !s.isPaused)
    && (!s.isRecording && s.pendingStops == 0 ==> !s.streamLive)
  }

  /** Concatenation of the chunks' bytes, as `new Blob(chunks)` lays them out. */
  function Concat(chunks: seq<Chunk>): seq<Byte> {
    if chunks == [] then [] else chunks[0].bytes + Concat(chunks[1..])
  }

  /** The bytes of two chunk lists joined are the bytes of the first followed by those of the second. */
  lemma {:induction false} ConcatAppend(a: seq<Chunk>, b: seq<Chunk>)
    ensures Concat(a + b) == Concat(a) + Concat(b)
    decreases |a|
  {
    if a == [] {
      assert a + b == b;
    } else {
      assert (a + b)[0] == a[0];
      assert (a + b)[1..] == a[1..] + b;
      ConcatAppend(a[1..], b);
    }
  }

  /** Receiving a fragment, empty or not, appends exactly its bytes to the bytes of the chunk list. */
  lemma ConcatReceived(s: Session, c: Chunk)
    ensures Concat(DataAvailableStep(s, c).chunks) == Concat(s.chunks) + c.bytes
  {
    if |c.bytes| > 0 {
      ConcatAppend(s.chunks, [c]);
      assert Concat([c]) == c.bytes + Concat([c][1..]);
      assert c.bytes + [] == c.bytes;
    } else {
      assert Concat(s.chunks) + c.bytes == Concat(s.chunks);
    }
  }

  /**
   * `timerRef.current = setInterval(...)`: an interval still held in the ref
   * is overwritten without being cleared and goes on firing out of reach.
   */
  function StartInterval(s: Session): (r: Session)
    ensures r.timerRunning && r.orphanTimers >= s.orphanTimers
  {
    s.(timerRunning := true, orphanTimers := if s.timerRunning then s.orphanTimers + 1 else s.orphanTimers)
  }

  /**
   * Stopping every track of the stream in `streamRef`. A recorder capturing
   * that stream ends with it, as a media recorder does when all its tracks
   * end: it becomes inactive and queues its own `stop` event.
   */
  function TracksStopped(s: Session): (r: Session)
    ensures !r.streamLive && !Capturing(r.recorder)
  {
    if Capturing(s.recorder) then
      s.(streamLive := false, recorder := Some(Inactive), pendingStops := s.pendingStops + 1)
    else s.(streamLive := false)
  }

  /**
   * Cleanup of the effect that depends on `audioURL`, holding the URL of the
   * render it belongs to. React runs it on unmount AND whenever `audioURL`
   * changes: it clears the interval in the ref, stops the current stream's
   * tracks and revokes that (previous) URL.
   */
  function EffectCleanup(s: Session, url: Option<UrlId>): (r: Session)
    ensures !r.timerRunning && !r.streamLive && !Capturing(r.recorder)
  {
    TracksStopped(s).(timerRunning := false, liveUrls := s.liveUrls - UrlSet(url))
  }

  /**
   * `startRecording` up to its `await`: the chunk list is emptied and the
   * microphone is requested. Nothing else changes until the answer arrives,
   * so the record button still offers to start.
   */
  function StartStep(s: Session): (r: Session)
    ensures Valid(s) ==> Valid(r)
  {
    s.(chunks := [], pendingAcquires := s.pendingAcquires + 1)
  }

  /**
   * The rest of `startRecording`, once `getUserMedia` answers. A refusal only
   * shows a toast. A granted stream replaces the one in `streamRef` (dropping
   * it while still capturing, if it was), and a new recorder starts, with the
   * duration at zero and a new interval in `timerRef`. A finished blob from
   * an earlier recording is left in place.
   */
  function AcquiredStep(s: Session, acquireOk: bool): (r: Session)
    requires s.pendingAcquires > 0
    ensures Valid(s) ==> Valid(r)
  {
    var answered := s.(pendingAcquires := s.pendingAcquires - 1);
    if !acquireOk then answered
    else
      StartInterval(answered.(
        leakedStreams := if s.streamLive then s.leakedStreams + 1 else s.leakedStreams,
        streamLive := true,
        recorder := Some(Recording),
        isRecording := true,
        isPaused := false,
        duration := 0))
  }

  /** `ondataavailable`: a fragment is appended unless it is empty. */
  function DataAvailableStep(s: Session, c: Chunk): (r: Session)
    ensures Valid(s) ==> Valid(r)
  {
    if |c.bytes| > 0 then s.(chunks := s.chunks + [c]) else s
  }

  /** One firing of the one-second interval. */
  function TickStep(s: Session): (r: Session)
    ensures Valid(s) ==> Valid(r)
  {
    s.(duration := s.duration + 1)
  }

  /**
   * `pauseRecording`: pauses a running recording, resumes a paused one, and
   * does nothing otherwise. A recorder whose tracks have ended is inactive, and
   * `pause()` or `resume()` on it throws before the handler changes anything.
   */
  function PauseToggleStep(s: Session): (r: Session)
    ensures Valid(s) ==> Valid(r)
  {
    if s.recorder.Some? && s.isRecording && !s.isPaused then
      if !Capturing(s.recorder) then s
      else s.(recorder := Some(Paused), isPaused := true, timerRunning := false)
    else if s.recorder.Some? && s.isRecording && s.isPaused then
      if !Capturing(s.recorder) then s
      else StartInterval(s.(recorder := Some(Recording), isPaused := false))
    else s
  }

  /**
   * `stopRecording`: checks only `isRecording`, so it also stops a paused
   * recording. A capturing recorder's `stop` event is queued, not delivered;
   * `stop()` on an inactive recorder does nothing.
   */
  function StopStep(s: Session): (r: Session)
    ensures Valid(s) ==> Valid(r)
  {
    if s.recorder.Some? && s.isRecording then
      s.(recorder := Some(Inactive),
         pendingStops := if Capturing(s.recorder) then s.pendingStops + 1 else s.pendingStops,
         isRecording := false, isPaused := false, timerRunning := false)
    else s
  }

  /**
   * A recorder's `stop` event. The browser fires the recorder's last
   * `dataavailable`, holding the data `final` not yet delivered, in the same
   * task just before it, so `ondataavailable` runs first and `onstop` second.
   */
  function OnStopStep(s: Session, final: Chunk): (r: Session)
    requires s.pendingStops > 0
    ensures Valid(s) ==> Valid(r)
    ensures Concat(r.chunks) == Concat(s.chunks) + final.bytes
    ensures r.audioBlob == Some(Blob(Concat(r.chunks), WebmType))
    ensures r.audioUrl == Some(s.nextUrl)
    ensures Valid(s) ==> r.liveUrls == {s.nextUrl}
  {
    ConcatReceived(s, final);
    StopHandlerStep(DataAvailableStep(s, final))
  }

  /**
   * `onstop`: the chunks gathered so far become the blob, tagged `audio/webm`,
   * with a fresh object URL, and the stream in `streamRef` is stopped. The URL
   * changed, so the cleanup of the previous `audioURL` effect runs too.
   */
  function StopHandlerStep(s: Session): (r: Session)
    requires s.pendingStops > 0
    ensures Valid(s) ==> Valid(r)
    ensures r.chunks == s.chunks && r.audioBlob == Some(Blob(Concat(s.chunks), WebmType))
    ensures r.audioUrl == Some(s.nextUrl)
    ensures Valid(s) ==> r.liveUrls == {s.nextUrl}
  {
    var url := s.nextUrl;
    var finished := s.(
      audioUrl := Some(url),
      audioBlob := Some(Blob(Concat(s.chunks), WebmType)),
      nextUrl := s.nextUrl + 1,
      liveUrls := s.liveUrls + {url},
      pendingStops := s.pendingStops - 1);
    EffectCleanup(TracksStopped(finished), s.audioUrl)
  }

  /**
   * `resetRecording`: stops a running recording, then clears title, flags,
   * duration, blob and URL and revokes the URL. The chunk list is not touched.
   * When a URL was shown, its change to null runs the effect cleanup as well.
   */
  function ResetStep(s: Session): (r: Session)
    ensures Valid(s) ==> Valid(r)
    ensures r.chunks == s.chunks
    ensures r.audioUrl == None && r.liveUrls == s.liveUrls - UrlSet(s.audioUrl)
  {
    var stopped := if s.isRecording then StopStep(s) else s;
    var cleared := stopped.(
      title := "", isRecording := false, isPaused := false, duration := 0,
      audioUrl := None, audioBlob := None,
      liveUrls := stopped.liveUrls - UrlSet(s.audioUrl));
    if s.audioUrl.Some? then EffectCleanup(cleared, s.audioUrl) else cleared
  }

  /** The title is blank for `!title.trim()`. */
  predicate IsBlank(title: string) {
    Trim(title) == []
  }

  /**
   * `handleProcessRecording`: nothing is sent without a blob (checked first)
   * or with a blank title; otherwise the title, blob, course and duration are
   * uploaded, and a successful upload resets the session. The second
   * component is the upload that was made, if any.
   */
  function ProcessStep(s: Session, courseId: Option<int>, uploadOk: bool): (r: (Session, Option<UploadRequest>))
    ensures Valid(s) ==> Valid(r.0)
    ensures r.0.chunks == s.chunks
  {
    if s.audioBlob.None? then (s, None)
    else if IsBlank(s.title) then (s, None)
    else
      var request := UploadRequest(s.title, s.audioBlob.value, courseId, s.duration);
      var processing := s.(isProcessing := true);
      var after := if uploadOk then ResetStep(processing) else processing;
      (after.(isProcessing := false), Some(request))
  }

  /** The title input's `onChange`. */
  function SetTitleStep(s: Session, title: string): (r: Session)
    ensures Valid(s) ==> Valid(r)
  {
    s.(title := title)
  }

  /** Unmount: the effect cleanup with the URL currently shown. */
  function TeardownStep(s: Session): (r: Session)
  {
    EffectCleanup(s, s.audioUrl)
  }

  /** A user action (a button or the title input) or a browser callback. */
  datatype Event =
    | Start
    | Acquired(acquireOk: bool)
    | DataAvailable(chunk: Chunk)
    | Tick
    | PauseToggle
    | Stop
    | OnStop(final: Chunk)
    | Reset
    | Process(courseId: Option<int>, uploadOk: bool)
    | SetTitle(title: string)

  /**
   * When an event can happen: buttons and the title input follow their
   * `disabled` expressions (the record button runs `stopRecording` while
   * recording and `startRecording` otherwise), a microphone answer only after
   * a request, an interval fires while any interval runs, and a `stop` event
   * only after a recorder was stopped or ended.
   */
  predicate Enabled(s: Session, e: Event) {
    match e
    case Start => !s.isProcessing && !s.isRecording
    case Acquired(_) => s.pendingAcquires > 0
    case DataAvailable(_) => true
    case Tick => s.timerRunning || s.orphanTimers > 0
    case PauseToggle => s.isRecording && !s.isProcessing
    case Stop => s.isRecording && !s.isProcessing
    case OnStop(_) => s.pendingStops > 0
    case Reset => (s.audioBlob.Some? || s.isRecording) && !s.isProcessing
    case Process(_, _) => s.audioBlob.Some? && !s.isProcessing && !s.isRecording
    case SetTitle(_) => !s.isRecording && !s.isProcessing
  }

  /** The effect of one event; an event that cannot happen (a disabled button) changes nothing. */
  function Step(s: Session, e: Event): (r: Session)
    ensures Valid(s) ==> Valid(r)
  {
    if !Enabled(s, e) then s
    else match e
      case Start => StartStep(s)
      case Acquired(ok) => AcquiredStep(s, ok)
      case DataAvailable(c) => DataAvailableStep(s, c)
      case Tick => TickStep(s)
      case PauseToggle => PauseToggleStep(s)
      case Stop => StopStep(s)
      case OnStop(final) => OnStopStep(s, final)
      case Reset => ResetStep(s)
      case Process(courseId, ok) => ProcessStep(s, courseId, ok).0
      case SetTitle(t) => SetTitleStep(s, t)
  }

  /** The session after a sequence of events. */
  function Run(s: Session, events: seq<Event>): Session
    decreases |events|
  {
    if events == [] then s else Run(Step(s, events[0]), events[1..])
  }
}
