/** The profile page's recording controller and transcription poller
    (Profile.tsx) as a transition system. A `ProfileState` holds the
    component's refs and state variables together with what the browser
    holds on its behalf (pending timers, live intervals, requests in flight);
    an `Event` is one callback the browser runs. Microphone access, the
    recorder, timers and `fetch` are not modelled: they appear only as the
    events they cause. The class in module Profile performs these steps in
    place; this module states what each step does and proves what holds of
    every run. */
module ProfileSpec {
  import opened Js
  import opened ApiService

  const AutoStopMs := 15000
  const PollIntervalMs := 2000
  const RecordingMime := "audio/webm"
  const UploadFilename := "recording.webm"

  const RecordingMsg := "Recording... (max 15 seconds)"
  const StartErrorMsg := "Error starting recording. Please try again."
  const ProcessingMsg := "Processing..."
  const UploadedMsg := "Audio uploaded successfully. Transcription in progress..."
  const UploadFailedMsg := "Failed to upload audio. Please try again."
  const UploadErrorMsg := "An error occurred. Please try again."
  const MottoUpdatedMsg := "Motto updated successfully!"
  const TranscriptionFailedMsg := "An error occurred during transcription. Please try again."
  const PollErrorMsg := "Error checking transcription status. Please try again."

  /** `MediaRecorder.state` as far as the component looks at it. */
  datatype RecorderState = Inactive | Recording

  /** A `setInterval` handle. */
  type Handle = nat

  datatype ProfileState = ProfileState(
    mounted: bool,
    /** `mediaRecorderRef.current`: None until the first recorder is created. */
    recorder: Option<RecorderState>,
    isRecording: bool,
    /** `audioChunksRef.current`. */
    chunks: seq<Chunk>,
    recordingStatus: string,
    /** `getUserMedia` calls not yet settled. */
    startsInFlight: nat,
    /** Pending 15 s timers, earliest first, each with the session that scheduled it. */
    autoStopTimers: seq<nat>,
    /** `stop()` calls whose `onstop` has not run yet. */
    stopEventsPending: nat,
    /** Recorders created so far; session k is the k-th. */
    sessions: nat,
    /** Every blob handed to `sendAudioToServer`, in order. */
    uploads: seq<Blob>,
    uploadsInFlight: nat,
    /** `pollingIntervalRef.current`. */
    intervalRef: Option<Handle>,
    /** Intervals installed and not cleared, each with the task id its closure polls. */
    liveIntervals: map<Handle, JsValue>,
    nextHandle: Handle,
    /** The task id of every tick request issued, in order. */
    polled: seq<JsValue>,
    /** The interval that issued each tick request still in flight. */
    pollsInFlight: multiset<Handle>,
    transcriptionStatus: JsValue,
    /** `fetchUserData` calls made by the poller. */
    profileRefreshes: nat
  )

  datatype Event =
    | RecordMottoClicked                             // handleRecordMotto
    | StartSettled(granted: bool)                    // getUserMedia and the recorder's creation settle
    | ChunkAvailable(data: Chunk)                    // ondataavailable
    | AutoStopFired                                  // the 15 s timeout
    | RecorderStopped                                // onstop
    | UploadSettled(outcome: FetchOutcome)           // the upload request settles
    | IntervalFired(handle: Handle)                  // a poll tick
    | PollSettled(issuer: Handle, outcome: FetchOutcome) // a tick's request settles
    | Unmounted                                      // the effect's cleanup

  /** The component right after mounting. */
  function Initial(): ProfileState
  {
    ProfileState(true, None, false, [], "", 0, [], 0, 0, [], 0, None, map[], 0, [], multiset{}, Str(""), 0)
  }

  /** Which callbacks the browser can run in state `s`. */
  predicate Enabled(s: ProfileState, e: Event)
  {
    match e
    case RecordMottoClicked => s.mounted
    case StartSettled(_) => s.startsInFlight > 0
    case ChunkAvailable(_) => s.recorder.Some?
    case AutoStopFired => |s.autoStopTimers| > 0
    case RecorderStopped => s.stopEventsPending > 0
    case UploadSettled(_) => s.uploadsInFlight > 0
    case IntervalFired(h) => h in s.liveIntervals
    case PollSettled(h, _) => h in s.pollsInFlight
    case Unmounted => s.mounted
  }

  /** `stopRecording`: acts only on a recorder that is recording. */
  function StopRecording(s: ProfileState): (r: ProfileState)
    ensures r.recorder != Some(Recording)
    ensures r.stopEventsPending == s.stopEventsPending + (if s.recorder == Some(Recording) then 1 else 0)
    ensures s.recorder != Some(Recording) ==> r == s
    ensures r.chunks == s.chunks && r.uploads == s.uploads && r.sessions == s.sessions
    ensures r.autoStopTimers == s.autoStopTimers && r.liveIntervals == s.liveIntervals
  {
    if s.recorder == Some(Recording) then
      s.(recorder := Some(Inactive), stopEventsPending := s.stopEventsPending + 1,
         isRecording := false, recordingStatus := ProcessingMsg)
    else s
  }

  /** `handleRecordMotto`: the flag alone decides between starting and stopping. */
  function OnRecordMottoClicked(s: ProfileState): (r: ProfileState)
    ensures s.isRecording ==> r.recorder != Some(Recording) && r.startsInFlight == s.startsInFlight
    ensures !s.isRecording ==> r.recorder == s.recorder && r.stopEventsPending == s.stopEventsPending
    ensures r.chunks == s.chunks && r.uploads == s.uploads && r.liveIntervals == s.liveIntervals
  {
    if !s.isRecording then s.(startsInFlight := s.startsInFlight + 1) else StopRecording(s)
  }

  /** The rest of `startRecording` once `getUserMedia` settles. */
  function OnStartSettled(s: ProfileState, granted: bool): (r: ProfileState)
    requires s.startsInFlight > 0
    ensures r.startsInFlight == s.startsInFlight - 1
    ensures r.sessions == s.sessions + (if granted then 1 else 0)
    ensures s.autoStopTimers <= r.autoStopTimers
    ensures |r.autoStopTimers| == |s.autoStopTimers| + (if granted then 1 else 0)
    ensures r.uploads == s.uploads && r.stopEventsPending == s.stopEventsPending
    ensures r.liveIntervals == s.liveIntervals && r.intervalRef == s.intervalRef
  {
    var settled := s.(startsInFlight := s.startsInFlight - 1);
    if granted then
      settled.(recorder := Some(Recording), chunks := [], isRecording := true,
               recordingStatus := RecordingMsg, sessions := s.sessions + 1,
               autoStopTimers := s.autoStopTimers + [s.sessions + 1])
    else
      settled.(recordingStatus := StartErrorMsg)
  }

  /** `ondataavailable`: a non-empty chunk joins the end of the buffer. */
  function OnChunkAvailable(s: ProfileState, data: Chunk): (r: ProfileState)
    ensures s.chunks <= r.chunks && |r.chunks| <= |s.chunks| + 1
    ensures |r.chunks| > |s.chunks| <==> |data| > 0
    ensures |data| > 0 ==> r.chunks[|s.chunks|] == data
    ensures r.recorder == s.recorder && r.uploads == s.uploads && r.isRecording == s.isRecording
  {
    if |data| > 0 then s.(chunks := s.chunks + [data]) else s
  }

  /** The earliest pending timer fires; it looks only at the current recorder. */
  function OnAutoStopFired(s: ProfileState): (r: ProfileState)
    requires |s.autoStopTimers| > 0
    ensures r.autoStopTimers == s.autoStopTimers[1..]
    ensures r.recorder != Some(Recording)
    ensures r.stopEventsPending == s.stopEventsPending + (if s.recorder == Some(Recording) then 1 else 0)
    ensures r.uploads == s.uploads && r.sessions == s.sessions
  {
    var fired := s.(autoStopTimers := s.autoStopTimers[1..]);
    if s.recorder == Some(Recording) then
      fired.(recorder := Some(Inactive), stopEventsPending := s.stopEventsPending + 1)
    else fired
  }

  /** The blob `onstop` assembles from the buffer. */
  function AssembledBlob(s: ProfileState): Blob
  {
    Blob(s.chunks, RecordingMime)
  }

  /** `onstop`: one blob, one call of `sendAudioToServer`. */
  function OnRecorderStopped(s: ProfileState): (r: ProfileState)
    requires s.stopEventsPending > 0
    ensures s.uploads <= r.uploads && |r.uploads| == |s.uploads| + 1
    ensures r.uploads[|s.uploads|].parts == s.chunks
    ensures r.stopEventsPending == s.stopEventsPending - 1 && r.uploadsInFlight == s.uploadsInFlight + 1
    ensures r.recorder == s.recorder && r.isRecording == s.isRecording && r.chunks == s.chunks
  {
    s.(stopEventsPending := s.stopEventsPending - 1, uploads := s.uploads + [AssembledBlob(s)],
       uploadsInFlight := s.uploadsInFlight + 1)
  }

  /** `clearInterval(pollingIntervalRef.current)` when the ref is set; the ref keeps its value. */
  function ClearCurrentInterval(s: ProfileState): (r: ProfileState)
    ensures r.intervalRef == s.intervalRef && r.liveIntervals.Keys <= s.liveIntervals.Keys
    ensures s.intervalRef.Some? ==> s.intervalRef.value !in r.liveIntervals
    ensures forall h :: h in s.liveIntervals && s.intervalRef != Some(h) ==> h in r.liveIntervals && r.liveIntervals[h] == s.liveIntervals[h]
    ensures r.nextHandle == s.nextHandle && r.recordingStatus == s.recordingStatus && r.uploads == s.uploads
  {
    s.(liveIntervals := if s.intervalRef.Some? then s.liveIntervals - {s.intervalRef.value} else s.liveIntervals)
  }

  /** `startPolling(taskId)`. */
  function StartPolling(s: ProfileState, taskId: JsValue): (r: ProfileState)
    ensures r.intervalRef == Some(s.nextHandle) && r.nextHandle == s.nextHandle + 1
    ensures s.nextHandle in r.liveIntervals && r.liveIntervals[s.nextHandle] == taskId
    ensures s.intervalRef.Some? && s.intervalRef.value != s.nextHandle ==> s.intervalRef.value !in r.liveIntervals
    ensures r.liveIntervals.Keys <= s.liveIntervals.Keys + {s.nextHandle}
  {
    var cleared := ClearCurrentInterval(s);
    cleared.(liveIntervals := cleared.liveIntervals[cleared.nextHandle := taskId],
             intervalRef := Some(cleared.nextHandle), nextHandle := cleared.nextHandle + 1)
  }

  /** The rest of `sendAudioToServer` once the upload request settles. */
  function OnUploadSettled(s: ProfileState, outcome: FetchOutcome): (r: ProfileState)
    requires s.uploadsInFlight > 0
    ensures r.uploadsInFlight == s.uploadsInFlight - 1
    ensures r.recordingStatus == UploadedMsg || r.recordingStatus == UploadFailedMsg || r.recordingStatus == UploadErrorMsg
    ensures r.recordingStatus == UploadedMsg ==> r.intervalRef == Some(s.nextHandle) && s.nextHandle in r.liveIntervals
    ensures r.recordingStatus != UploadedMsg ==> r.liveIntervals == s.liveIntervals && r.intervalRef == s.intervalRef
    ensures r.uploads == s.uploads && r.chunks == s.chunks && r.mounted == s.mounted
  {
    var settled := s.(uploadsInFlight := s.uploadsInFlight - 1);
    match Classify(outcome)
    case Thrown(_) => settled.(recordingStatus := UploadErrorMsg)
    case Ok(response) =>
      match Get(response, "success")
      case Thrown(_) => settled.(recordingStatus := UploadErrorMsg)
      case Ok(success) =>
        if Truthy(success) then StartPolling(settled.(recordingStatus := UploadedMsg), GetOr(response, "task_id"))
        else settled.(recordingStatus := UploadFailedMsg)
  }

  /** A tick issues one status request for the task its closure captured. */
  function OnIntervalFired(s: ProfileState, h: Handle): (r: ProfileState)
    requires h in s.liveIntervals
    ensures s.polled <= r.polled && |r.polled| == |s.polled| + 1 && r.polled[|s.polled|] == s.liveIntervals[h]
    ensures h in r.pollsInFlight && |r.pollsInFlight| == |s.pollsInFlight| + 1
    ensures r.liveIntervals == s.liveIntervals && r.intervalRef == s.intervalRef && r.recordingStatus == s.recordingStatus
  {
    s.(polled := s.polled + [s.liveIntervals[h]], pollsInFlight := s.pollsInFlight + multiset{h})
  }

  /** The catch branch of a tick. */
  function PollFailed(s: ProfileState): (r: ProfileState)
    ensures r.recordingStatus == PollErrorMsg
    ensures r.transcriptionStatus == s.transcriptionStatus && r.profileRefreshes == s.profileRefreshes
    ensures r.intervalRef == s.intervalRef && r.liveIntervals.Keys <= s.liveIntervals.Keys
    ensures s.intervalRef.Some? ==> s.intervalRef.value !in r.liveIntervals
  {
    ClearCurrentInterval(s).(recordingStatus := PollErrorMsg)
  }

  /** A tick's request settles: the tick's callback resumes, and the request
      is no longer in flight. Which interval issued it plays no part. */
  function OnPollSettled(s: ProfileState, issuer: Handle, outcome: FetchOutcome): (r: ProfileState)
    requires issuer in s.pollsInFlight
    ensures r.pollsInFlight <= s.pollsInFlight && |r.pollsInFlight| == |s.pollsInFlight| - 1
    ensures r.liveIntervals.Keys <= s.liveIntervals.Keys && r.nextHandle == s.nextHandle
  {
    TickSettled(s, outcome).(pollsInFlight := s.pollsInFlight - multiset{issuer})
  }

  /** The rest of a tick's callback: an error, or a response whose `status`
      cannot be read, stops polling with the error status. */
  function TickSettled(s: ProfileState, outcome: FetchOutcome): (r: ProfileState)
    ensures r.pollsInFlight == s.pollsInFlight && r.intervalRef == s.intervalRef && r.nextHandle == s.nextHandle
    ensures r.liveIntervals.Keys <= s.liveIntervals.Keys
    ensures r.profileRefreshes == s.profileRefreshes || (r.profileRefreshes == s.profileRefreshes + 1 && r.recordingStatus == MottoUpdatedMsg)
    ensures Classify(outcome).Thrown? ==> r.recordingStatus == PollErrorMsg && r.transcriptionStatus == s.transcriptionStatus
  {
    match Classify(outcome)
    case Thrown(_) => PollFailed(s)
    case Ok(response) =>
      match Get(response, "status")
      case Thrown(_) => PollFailed(s)
      case Ok(status) => TickReported(s, response, status)
  }

  /** The try branch of a tick once `response.status` has been read: the
      status is shown, and a terminal state stops polling. */
  function TickReported(s: ProfileState, response: JsValue, status: JsValue): (r: ProfileState)
    ensures r.transcriptionStatus == status
    ensures r.profileRefreshes == s.profileRefreshes + (if GetOr(response, "state") == Str("SUCCESS") then 1 else 0)
    ensures (GetOr(response, "state") == Str("SUCCESS") || GetOr(response, "state") == Str("FAILURE")) && s.intervalRef.Some?
      ==> s.intervalRef.value !in r.liveIntervals
    ensures GetOr(response, "state") != Str("SUCCESS") && GetOr(response, "state") != Str("FAILURE")
      ==> r.liveIntervals == s.liveIntervals && r.recordingStatus == s.recordingStatus
    ensures r.intervalRef == s.intervalRef && r.pollsInFlight == s.pollsInFlight
  {
    var state := GetOr(response, "state");
    if state == Str("SUCCESS") then
      ClearCurrentInterval(s).(transcriptionStatus := status, recordingStatus := MottoUpdatedMsg,
                               profileRefreshes := s.profileRefreshes + 1)
    else if state == Str("FAILURE") then
      ClearCurrentInterval(s).(transcriptionStatus := status, recordingStatus := TranscriptionFailedMsg)
    else s.(transcriptionStatus := status)
  }

  /** The effect's cleanup clears the ref's interval; requests in flight and
      pending timers are not cancelled. */
  function OnUnmounted(s: ProfileState): (r: ProfileState)
    ensures !r.mounted
    ensures s.intervalRef.Some? ==> s.intervalRef.value !in r.liveIntervals
    ensures r.uploadsInFlight == s.uploadsInFlight && r.pollsInFlight == s.pollsInFlight
    ensures r.stopEventsPending == s.stopEventsPending && r.autoStopTimers == s.autoStopTimers
  {
    ClearCurrentInterval(s).(mounted := false)
  }

  function Step(s: ProfileState, e: Event): ProfileState
    requires Enabled(s, e)
  {
    match e
    case RecordMottoClicked => OnRecordMottoClicked(s)
    case StartSettled(granted) => OnStartSettled(s, granted)
    case ChunkAvailable(data) => OnChunkAvailable(s, data)
    case AutoStopFired => OnAutoStopFired(s)
    case RecorderStopped => OnRecorderStopped(s)
    case UploadSettled(outcome) => OnUploadSettled(s, outcome)
    case IntervalFired(h) => OnIntervalFired(s, h)
    case PollSettled(h, outcome) => OnPollSettled(s, h, outcome)
    case Unmounted => OnUnmounted(s)
  }

  /** A sequence of callbacks each of which the browser can run when its turn comes. */
  predicate EnabledTrace(s: ProfileState, es: seq<Event>)
    decreases |es|
  {
    |es| == 0 || (Enabled(s, es[0]) && EnabledTrace(Step(s, es[0]), es[1..]))
  }

  function Run(s: ProfileState, es: seq<Event>): ProfileState
    requires EnabledTrace(s, es)
    decreases |es|
  {
    if |es| == 0 then s else Run(Step(s, es[0]), es[1..])
  }

  /** At most one interval is live, and it is the one the ref holds. */
  predicate AtMostOneLiveInterval(s: ProfileState)
  {
    forall h :: h in s.liveIntervals ==> s.intervalRef == Some(h)
  }

  /** Every recorder is stopped at most once and every stop yields one
      upload: uploads issued, stops awaiting `onstop` and the recorder still
      recording together never outnumber the recorders created. */
  predicate UploadsWithinSessions(s: ProfileState)
  {
    |s.uploads| + s.stopEventsPending + (if s.recorder == Some(Recording) then 1 else 0) <= s.sessions
  }

  predicate Inv(s: ProfileState)
  {
    && AtMostOneLiveInterval(s)
    && (s.intervalRef.Some? ==> s.intervalRef.value < s.nextHandle)
    && (s.recorder.Some? <==> s.sessions > 0)
    && UploadsWithinSessions(s)
  }

  lemma InitialInv()
    ensures Inv(Initial())
  {
  }

  /** Clearing the ref's interval leaves no interval live. */
  lemma ClearLeavesNone(s: ProfileState)
    requires Inv(s)
    ensures ClearCurrentInterval(s).liveIntervals == map[]
  {
    if s.intervalRef.Some? {
      assert s.liveIntervals.Keys <= {s.intervalRef.value};
    } else {
      assert s.liveIntervals.Keys == {};
    }
    assert ClearCurrentInterval(s).liveIntervals.Keys == {};
  }

  /** `startPolling` clears whatever interval was live before installing a
      fresh one: afterwards exactly one interval is live, the new one, and it
      polls the given task. */
  lemma StartPollingReplaces(s: ProfileState, taskId: JsValue)
    requires Inv(s)
    ensures var r := StartPolling(s, taskId);
            && r.liveIntervals == map[s.nextHandle := taskId]
            && r.intervalRef == Some(s.nextHandle)
            && s.nextHandle !in s.liveIntervals
            && Inv(r)
  {
    ClearLeavesNone(s);
  }

  lemma UploadSettledPreservesInv(s: ProfileState, outcome: FetchOutcome)
    requires Inv(s) && s.uploadsInFlight > 0
    ensures Inv(OnUploadSettled(s, outcome))
  {
    var settled := s.(uploadsInFlight := s.uploadsInFlight - 1, recordingStatus := UploadedMsg);
    var r := Classify(outcome);
    if r.Ok? && Get(r.value, "success").Ok? && Truthy(Get(r.value, "success").value) {
      StartPollingReplaces(settled, GetOr(r.value, "task_id"));
    }
  }

  lemma TickSettledPreservesInv(s: ProfileState, outcome: FetchOutcome)
    requires Inv(s)
    ensures Inv(TickSettled(s, outcome))
  {
    ClearLeavesNone(s);
  }

  lemma PollSettledPreservesInv(s: ProfileState, h: Handle, outcome: FetchOutcome)
    requires Inv(s) && h in s.pollsInFlight
    ensures Inv(OnPollSettled(s, h, outcome))
  {
    TickSettledPreservesInv(s, outcome);
  }

  lemma StepPreservesInv(s: ProfileState, e: Event)
    requires Inv(s) && Enabled(s, e)
    ensures Inv(Step(s, e))
  {
    match e
    case UploadSettled(outcome) => UploadSettledPreservesInv(s, outcome);
    case PollSettled(h, outcome) => PollSettledPreservesInv(s, h, outcome);
    case Unmounted => ClearLeavesNone(s);
    case _ =>
  }

  /** Every state reachable from a good state is good: in particular at most
      one interval is ever live, and uploads never outnumber recorders. */
  lemma {:induction false} RunPreservesInv(s: ProfileState, es: seq<Event>)
    requires Inv(s) && EnabledTrace(s, es)
    ensures Inv(Run(s, es))
    decreases |es|
  {
    if |es| > 0 {
      StepPreservesInv(s, es[0]);
      RunPreservesInv(Step(s, es[0]), es[1..]);
    }
  }

  // ----- Recording controller -----

  /** A granted start empties the buffer before any chunk of the new
      recorder arrives, marks the session recording and schedules one
      auto-stop timer; a refused start only reports the error. */
  lemma StartSettledEffects(s: ProfileState, granted: bool)
    requires s.startsInFlight > 0
    ensures var r := OnStartSettled(s, granted);
            && r.startsInFlight == s.startsInFlight - 1
            && (granted ==>
                  && r.chunks == [] && r.recorder == Some(Recording) && r.isRecording
                  && r.recordingStatus == RecordingMsg
                  && r.sessions == s.sessions + 1
                  && r.autoStopTimers == s.autoStopTimers + [r.sessions])
            && (!granted ==>
                  && r.recordingStatus == StartErrorMsg
                  && r.isRecording == s.isRecording && r.recorder == s.recorder
                  && r.chunks == s.chunks && r.autoStopTimers == s.autoStopTimers
                  && r.sessions == s.sessions)
  {
  }

  /** Predicate over a trace: no start in it is granted. */
  predicate NoGrantedStart(es: seq<Event>)
  {
    forall i :: 0 <= i < |es| ==> es[i] != StartSettled(true)
  }

  /** If no start is ever granted, `isRecording` never becomes true. */
  lemma {:induction false} RefusedStartsNeverRecord(s: ProfileState, es: seq<Event>)
    requires !s.isRecording && EnabledTrace(s, es) && NoGrantedStart(es)
    ensures !Run(s, es).isRecording
    decreases |es|
  {
    if |es| > 0 {
      assert es[0] != StartSettled(true);
      assert NoGrantedStart(es[1..]) by {
        forall i | 0 <= i < |es[1..]| ensures es[1..][i] != StartSettled(true) {
          assert es[1..][i] == es[i + 1];
        }
      }
      RefusedStartsNeverRecord(Step(s, es[0]), es[1..]);
    }
  }

  /** The chunks of size greater than zero, in order. */
  function NonEmptyChunks(cs: seq<Chunk>): seq<Chunk>
  {
    if |cs| == 0 then []
    else if |cs[0]| > 0 then [cs[0]] + NonEmptyChunks(cs[1..])
    else NonEmptyChunks(cs[1..])
  }

  function ChunkEvents(cs: seq<Chunk>): (es: seq<Event>)
    ensures |es| == |cs|
    ensures forall i :: 0 <= i < |cs| ==> es[i] == ChunkAvailable(cs[i])
  {
    if |cs| == 0 then [] else [ChunkAvailable(cs[0])] + ChunkEvents(cs[1..])
  }

  /** Delivered chunks are buffered in arrival order, empty ones dropped. */
  lemma {:induction false} ChunksInArrivalOrder(s: ProfileState, cs: seq<Chunk>)
    requires s.recorder.Some?
    ensures EnabledTrace(s, ChunkEvents(cs))
    ensures Run(s, ChunkEvents(cs)).chunks == s.chunks + NonEmptyChunks(cs)
    decreases |cs|
  {
    if |cs| > 0 {
      var es := ChunkEvents(cs);
      assert es[1..] == ChunkEvents(cs[1..]);
      var next := OnChunkAvailable(s, cs[0]);
      ChunksInArrivalOrder(next, cs[1..]);
      if |cs[0]| > 0 {
        assert s.chunks + NonEmptyChunks(cs) == (s.chunks + [cs[0]]) + NonEmptyChunks(cs[1..]);
      }
    }
  }

  /** `onstop` hands exactly one blob to the upload: every buffered chunk, in
      buffer order, typed audio/webm. The buffer itself is kept. */
  lemma StopEventUploadsBuffer(s: ProfileState)
    requires s.stopEventsPending > 0
    ensures var r := OnRecorderStopped(s);
            && r.uploads == s.uploads + [Blob(s.chunks, "audio/webm")]
            && r.uploadsInFlight == s.uploadsInFlight + 1
            && r.chunks == s.chunks
            && r.stopEventsPending == s.stopEventsPending - 1
  {
  }

  /** Only `onstop` issues uploads. */
  lemma StepUploads(s: ProfileState, e: Event)
    requires Enabled(s, e)
    ensures Step(s, e).uploads == if e.RecorderStopped? then s.uploads + [AssembledBlob(s)] else s.uploads
  {
    match e
    case UploadSettled(outcome) =>
      var settled := s.(uploadsInFlight := s.uploadsInFlight - 1, recordingStatus := UploadedMsg);
      assert forall t :: StartPolling(settled, t).uploads == s.uploads;
    case PollSettled(h, outcome) =>
      assert forall x: ProfileState :: ClearCurrentInterval(x).uploads == x.uploads;
    case Unmounted =>
      assert ClearCurrentInterval(s).uploads == s.uploads;
    case _ =>
  }

  function CountStopEvents(es: seq<Event>): nat
  {
    if |es| == 0 then 0 else (if es[0].RecorderStopped? then 1 else 0) + CountStopEvents(es[1..])
  }

  /** Over any run, the uploads issued are exactly one per `onstop`, appended
      after the earlier ones. */
  lemma {:induction false} UploadsCountStopEvents(s: ProfileState, es: seq<Event>)
    requires EnabledTrace(s, es)
    ensures |Run(s, es).uploads| == |s.uploads| + CountStopEvents(es)
    ensures s.uploads <= Run(s, es).uploads
    decreases |es|
  {
    if |es| > 0 {
      StepUploads(s, es[0]);
      UploadsCountStopEvents(Step(s, es[0]), es[1..]);
    }
  }

  /** Over any run from a good state, no more uploads are issued than
      recorders were created: no recorder is stopped or uploaded twice. */
  lemma NoDoubleUpload(s: ProfileState, es: seq<Event>)
    requires Inv(s) && EnabledTrace(s, es)
    ensures |Run(s, es).uploads| <= Run(s, es).sessions
  {
    RunPreservesInv(s, es);
  }

  /** The click while `isRecording` is the manual stop: it stops a recording
      recorder, clears the flag and reports processing; otherwise nothing. */
  lemma ManualStopEffects(s: ProfileState)
    requires s.isRecording
    ensures var r := OnRecordMottoClicked(s);
            && (s.recorder == Some(Recording) ==>
                  && r.recorder == Some(Inactive) && r.stopEventsPending == s.stopEventsPending + 1
                  && !r.isRecording && r.recordingStatus == ProcessingMsg)
            && (s.recorder != Some(Recording) ==> r == s)
            && r.startsInFlight == s.startsInFlight
  {
  }

  /** The click starts a recording (asks for the microphone) exactly when the
      flag is clear, whatever else is in progress. */
  lemma ClickGatedByFlag(s: ProfileState)
    ensures OnRecordMottoClicked(s).startsInFlight == s.startsInFlight + (if s.isRecording then 0 else 1)
  {
  }

  /** Manual stop then the timer: the timer finds the recorder inactive, so
      there is one stop in all. */
  lemma ManualStopThenTimerIsInert(s: ProfileState)
    requires s.recorder == Some(Recording) && s.isRecording && |s.autoStopTimers| > 0
    ensures var m := OnRecordMottoClicked(s);
            var t := OnAutoStopFired(m);
            && t.stopEventsPending == s.stopEventsPending + 1
            && t == m.(autoStopTimers := s.autoStopTimers[1..])
  {
  }

  /** The timer then a click: the timer stops the recorder but leaves the
      flag set, so the click goes to `stopRecording`, which finds the
      recorder inactive; again one stop in all. */
  lemma TimerThenManualStopIsInert(s: ProfileState)
    requires s.recorder == Some(Recording) && s.isRecording && |s.autoStopTimers| > 0
    ensures var t := OnAutoStopFired(s);
            var m := OnRecordMottoClicked(t);
            && t.stopEventsPending == s.stopEventsPending + 1
            && m == t
  {
  }

  /** The auto-stop never touches `isRecording` or the status line. */
  lemma AutoStopKeepsFlag(s: ProfileState)
    requires |s.autoStopTimers| > 0
    ensures OnAutoStopFired(s).isRecording == s.isRecording
    ensures OnAutoStopFired(s).recordingStatus == s.recordingStatus
    ensures OnAutoStopFired(s).chunks == s.chunks
  {
  }

  /** Consequence: once the timer has stopped a recording started by a
      click, the button does nothing any more, neither start nor stop. */
  lemma AutoStopLocksRecordButton(s: ProfileState)
    requires s.recorder == Some(Recording) && s.isRecording && |s.autoStopTimers| > 0
    ensures var t := OnAutoStopFired(s);
            && t.isRecording && t.recorder == Some(Inactive)
            && OnRecordMottoClicked(t) == t
  {
  }

  /** A timer looks only at the current recorder: one scheduled by an
      earlier session stops the session recording now. */
  lemma StaleTimerStopsCurrentSession(s: ProfileState)
    requires |s.autoStopTimers| > 0 && s.autoStopTimers[0] < s.sessions
    requires s.recorder == Some(Recording)
    ensures var t := OnAutoStopFired(s);
            && t.recorder == Some(Inactive)
            && t.stopEventsPending == s.stopEventsPending + 1
            && t.sessions == s.sessions
  {
  }

  /** The stale timer is reachable from mounting: start, stop by hand,
      start again at once, and the first session's timer cuts the second
      session short while its flag stays set. */
  lemma StaleTimerScenario()
    ensures var s1 := OnStartSettled(OnRecordMottoClicked(Initial()), true);
            var s2 := OnStartSettled(OnRecordMottoClicked(OnRecordMottoClicked(s1)), true);
            var s3 := OnAutoStopFired(s2);
            && s2.autoStopTimers == [1, 2] && s2.sessions == 2
            && s3.recorder == Some(Inactive) && s3.isRecording
            && s3.autoStopTimers == [2] && s3.stopEventsPending == 2
  {
    var s1 := OnStartSettled(OnRecordMottoClicked(Initial()), true);
    assert s1.autoStopTimers == [1] && s1.isRecording && s1.recorder == Some(Recording);
    var stopped := OnRecordMottoClicked(s1);
    assert !stopped.isRecording && stopped.stopEventsPending == 1 && stopped.startsInFlight == 0;
    var s2 := OnStartSettled(OnRecordMottoClicked(stopped), true);
    assert s2.autoStopTimers == [1] + [2];
  }

  // ----- Transcription poller -----

  /** The upload response has a truthy `success`. */
  predicate UploadAccepted(outcome: FetchOutcome)
  {
    var r := Classify(outcome);
    r.Ok? && Get(r.value, "success").Ok? && Truthy(Get(r.value, "success").value)
  }

  /** The upload response arrived and was read, but `success` is falsy. */
  predicate UploadRejected(outcome: FetchOutcome)
  {
    var r := Classify(outcome);
    r.Ok? && Get(r.value, "success").Ok? && !Truthy(Get(r.value, "success").value)
  }

  /** A truthy `success` starts polling the returned `task_id` (the only
      interval then live); a falsy one reports the failed upload, and an
      exception the generic error, neither touching the poller. */
  lemma UploadSettledOutcomes(s: ProfileState, outcome: FetchOutcome)
    requires Inv(s) && s.uploadsInFlight > 0
    ensures var r := OnUploadSettled(s, outcome);
            && (UploadAccepted(outcome) ==>
                  && r.recordingStatus == UploadedMsg
                  && r.liveIntervals == map[s.nextHandle := GetOr(Classify(outcome).value, "task_id")]
                  && r.intervalRef == Some(s.nextHandle))
            && (UploadRejected(outcome) ==>
                  && r.recordingStatus == UploadFailedMsg
                  && r.liveIntervals == s.liveIntervals && r.intervalRef == s.intervalRef)
            && (!UploadAccepted(outcome) && !UploadRejected(outcome) ==>
                  && r.recordingStatus == UploadErrorMsg
                  && r.liveIntervals == s.liveIntervals && r.intervalRef == s.intervalRef)
  {
    var settled := s.(uploadsInFlight := s.uploadsInFlight - 1, recordingStatus := UploadedMsg);
    if UploadAccepted(outcome) {
      StartPollingReplaces(settled, GetOr(Classify(outcome).value, "task_id"));
    }
  }

  /** The tick's response was read and names this state. */
  predicate TickReports(outcome: FetchOutcome, state: string)
  {
    var r := Classify(outcome);
    r.Ok? && Get(r.value, "status").Ok? && GetOr(r.value, "state") == Str(state)
  }

  /** The tick's request or the reading of its response threw. */
  predicate TickThrew(outcome: FetchOutcome)
  {
    var r := Classify(outcome);
    r.Thrown? || Get(r.value, "status").Thrown?
  }

  /** What one tick does: `status` is displayed whatever the state; SUCCESS
      stops polling and refreshes the profile once, FAILURE stops polling
      without a refresh, any other state keeps polling, and an exception
      stops polling and reports the error. */
  lemma PollSettledOutcomes(s: ProfileState, h: Handle, outcome: FetchOutcome)
    requires Inv(s) && h in s.pollsInFlight
    ensures var r := OnPollSettled(s, h, outcome);
            var res := Classify(outcome);
            && (!TickThrew(outcome) ==> r.transcriptionStatus == Get(res.value, "status").value)
            && (TickReports(outcome, "SUCCESS") ==>
                  && r.liveIntervals == map[] && r.profileRefreshes == s.profileRefreshes + 1
                  && r.recordingStatus == MottoUpdatedMsg)
            && (TickReports(outcome, "FAILURE") ==>
                  && r.liveIntervals == map[] && r.profileRefreshes == s.profileRefreshes
                  && r.recordingStatus == TranscriptionFailedMsg)
            && (!TickThrew(outcome) && !TickReports(outcome, "SUCCESS") && !TickReports(outcome, "FAILURE") ==>
                  && r.liveIntervals == s.liveIntervals && r.profileRefreshes == s.profileRefreshes
                  && r.recordingStatus == s.recordingStatus)
            && (TickThrew(outcome) ==>
                  && r.liveIntervals == map[] && r.profileRefreshes == s.profileRefreshes
                  && r.recordingStatus == PollErrorMsg && r.transcriptionStatus == s.transcriptionStatus)
  {
    ClearLeavesNone(s);
  }

  /** A tick issued by an interval that has since been replaced still clears
      the ref's interval when its SUCCESS arrives: the replacement stops. */
  lemma LateTickClearsReplacement(s: ProfileState, stale: Handle, outcome: FetchOutcome)
    requires Inv(s) && stale in s.pollsInFlight
    requires s.intervalRef.Some? && s.intervalRef.value in s.liveIntervals && s.intervalRef.value != stale
    requires TickReports(outcome, "SUCCESS")
    ensures s.intervalRef.value !in OnPollSettled(s, stale, outcome).liveIntervals
  {
    PollSettledOutcomes(s, stale, outcome);
  }

  /** Unmounting leaves no interval live. */
  lemma UnmountClearsPolling(s: ProfileState)
    requires Inv(s) && s.mounted
    ensures OnUnmounted(s).liveIntervals == map[] && !OnUnmounted(s).mounted
  {
    ClearLeavesNone(s);
  }

  /** Unmounting does not cancel an upload in flight: when it is accepted
      afterwards, `startPolling` installs a fresh interval on the unmounted
      component, and since the cleanup has already run and cannot run again,
      only a terminal poll reply will ever clear it. */
  lemma UploadAfterUnmountPolls(s: ProfileState, taskId: JsValue)
    requires Inv(s) && s.mounted && s.uploadsInFlight > 0
    ensures var u := OnUnmounted(s);
            var outcome := Responded(202, Obj(map["success" := Bool(true), "task_id" := taskId]));
            && Enabled(u, UploadSettled(outcome))
            && var r := OnUploadSettled(u, outcome);
            && !r.mounted && !Enabled(r, Unmounted)
            && r.liveIntervals == map[s.nextHandle := taskId]
            && Enabled(r, IntervalFired(s.nextHandle))
  {
    var u := OnUnmounted(s);
    var outcome := Responded(202, Obj(map["success" := Bool(true), "task_id" := taskId]));
    StepPreservesInv(s, Unmounted);
    assert IsOkStatus(202);
    assert UploadAccepted(outcome);
    UploadSettledOutcomes(u, outcome);
  }

  /** A step only ever installs the next fresh handle, and handles are never reused. */
  lemma StepLiveIntervals(s: ProfileState, e: Event)
    requires Inv(s) && Enabled(s, e)
    ensures Step(s, e).liveIntervals.Keys <= s.liveIntervals.Keys + {s.nextHandle}
    ensures s.nextHandle <= Step(s, e).nextHandle
  {
    match e
    case UploadSettled(outcome) =>
      UploadSettledOutcomes(s, outcome);
    case PollSettled(h, outcome) =>
      PollSettledOutcomes(s, h, outcome);
    case Unmounted =>
      ClearLeavesNone(s);
    case _ =>
  }

  /** Once cleared, an interval never fires again: no later step makes it live. */
  lemma {:induction false} ClearedIntervalStaysCleared(s: ProfileState, es: seq<Event>, h: Handle)
    requires Inv(s) && EnabledTrace(s, es)
    requires h < s.nextHandle && h !in s.liveIntervals
    ensures h !in Run(s, es).liveIntervals
    decreases |es|
  {
    if |es| > 0 {
      StepLiveIntervals(s, es[0]);
      StepPreservesInv(s, es[0]);
      ClearedIntervalStaysCleared(Step(s, es[0]), es[1..], h);
    }
  }
}
