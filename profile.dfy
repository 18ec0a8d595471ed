/** The profile page component (Profile.tsx) as an object: its refs and
    state variables are fields, and each browser callback is a method that
    updates them in place, as the source does. A method's `modifies` clause
    names the only fields it may change, and its postcondition ties each of
    them to the same field of the `ProfileSpec` step for its callback
    (`OnStartSettled` for `StartSettled`, and so on) applied to the old
    state; together they say that the new `State()` is that step, so
    everything proved of the steps (at most one live interval, one upload
    per stop, ...) holds of the object. Requests are returned as the `HttpRequest` the
    request service builds; `token` is what local storage holds. */
module Profile {
  import opened Js
  import opened ApiService
  import Spec = ProfileSpec

  class UserProfile {
    const api: ApiClient
    var mounted: bool
    var recorder: Option<Spec.RecorderState>
    var isRecording: bool
    var chunks: seq<Chunk>
    var recordingStatus: string
    var startsInFlight: nat
    var autoStopTimers: seq<nat>
    var stopEventsPending: nat
    var sessions: nat
    var uploads: seq<Blob>
    var uploadsInFlight: nat
    var intervalRef: Option<Spec.Handle>
    var liveIntervals: map<Spec.Handle, JsValue>
    var nextHandle: Spec.Handle
    var polled: seq<JsValue>
    var pollsInFlight: multiset<Spec.Handle>
    var transcriptionStatus: JsValue
    var profileRefreshes: nat

    ghost function State(): Spec.ProfileState
      reads this
    {
      Spec.ProfileState(mounted, recorder, isRecording, chunks, recordingStatus, startsInFlight,
                        autoStopTimers, stopEventsPending, sessions, uploads, uploadsInFlight,
                        intervalRef, liveIntervals, nextHandle, polled, pollsInFlight,
                        transcriptionStatus, profileRefreshes)
    }

    /** Mounting: every state variable at its initial value. */
    constructor (api: ApiClient)
      ensures this.api == api
      ensures State() == Spec.Initial()
    {
      this.api := api;
      mounted := true;
      recorder := None;
      isRecording := false;
      chunks := [];
      recordingStatus := "";
      startsInFlight := 0;
      autoStopTimers := [];
      stopEventsPending := 0;
      sessions := 0;
      uploads := [];
      uploadsInFlight := 0;
      intervalRef := None;
      liveIntervals := map[];
      nextHandle := 0;
      polled := [];
      pollsInFlight := multiset{};
      transcriptionStatus := Str("");
      profileRefreshes := 0;
    }

    /** The record button. */
    method HandleRecordMotto()
      requires mounted
      modifies this`startsInFlight, this`recorder, this`stopEventsPending, this`isRecording, this`recordingStatus
      ensures var t := Spec.OnRecordMottoClicked(old(State()));
              && startsInFlight == t.startsInFlight && recorder == t.recorder
              && stopEventsPending == t.stopEventsPending && isRecording == t.isRecording
              && recordingStatus == t.recordingStatus
    {
      if !isRecording {
        StartRecording();
      } else {
        StopRecording();
      }
    }

    /** The synchronous part of `startRecording`: ask for the microphone. */
    method StartRecording()
      modifies this`startsInFlight
      ensures startsInFlight == old(startsInFlight) + 1
    {
      startsInFlight := startsInFlight + 1;
    }

    method StopRecording()
      modifies this`recorder, this`stopEventsPending, this`isRecording, this`recordingStatus
      ensures var t := Spec.StopRecording(old(State()));
              && recorder == t.recorder && stopEventsPending == t.stopEventsPending
              && isRecording == t.isRecording && recordingStatus == t.recordingStatus
    {
      if recorder == Some(Spec.Recording) {
        recorder := Some(Spec.Inactive);
        stopEventsPending := stopEventsPending + 1;
        isRecording := false;
        recordingStatus := Spec.ProcessingMsg;
      }
    }

    /** The rest of `startRecording`: a fresh recorder with an empty buffer,
        started, and its 15 s timer scheduled; or the error status. */
    method StartSettled(granted: bool)
      requires startsInFlight > 0
      modifies this`startsInFlight, this`sessions, this`recorder, this`chunks, this`isRecording,
               this`recordingStatus, this`autoStopTimers
      ensures var t := Spec.OnStartSettled(old(State()), granted);
              && startsInFlight == t.startsInFlight && sessions == t.sessions && recorder == t.recorder
              && chunks == t.chunks && isRecording == t.isRecording
              && recordingStatus == t.recordingStatus && autoStopTimers == t.autoStopTimers
    {
      startsInFlight := startsInFlight - 1;
      if granted {
        sessions := sessions + 1;
        recorder := Some(Spec.Recording);
        chunks := [];
        isRecording := true;
        recordingStatus := Spec.RecordingMsg;
        autoStopTimers := autoStopTimers + [sessions];
      } else {
        recordingStatus := Spec.StartErrorMsg;
      }
    }

    /** `ondataavailable`. */
    method DataAvailable(data: Chunk)
      requires recorder.Some?
      modifies this`chunks
      ensures chunks == Spec.OnChunkAvailable(old(State()), data).chunks
    {
      if |data| > 0 {
        chunks := chunks + [data];
      }
    }

    /** The 15 s timeout callback. */
    method AutoStopTimeout()
      requires |autoStopTimers| > 0
      modifies this`autoStopTimers, this`recorder, this`stopEventsPending
      ensures var t := Spec.OnAutoStopFired(old(State()));
              autoStopTimers == t.autoStopTimers && recorder == t.recorder && stopEventsPending == t.stopEventsPending
    {
      autoStopTimers := autoStopTimers[1..];
      if recorder == Some(Spec.Recording) {
        recorder := Some(Spec.Inactive);
        stopEventsPending := stopEventsPending + 1;
      }
    }

    /** `onstop`: assemble the buffer into one blob and upload it. */
    method RecorderStopped(token: Option<string>) returns (req: HttpRequest)
      requires stopEventsPending > 0
      modifies this`stopEventsPending, this`uploads, this`uploadsInFlight
      ensures var t := Spec.OnRecorderStopped(old(State()));
              stopEventsPending == t.stopEventsPending && uploads == t.uploads && uploadsInFlight == t.uploadsInFlight
      ensures req == RequestFor(api.appVersion, "/upload", "POST",
                                Form([FormPart("audio", Spec.AssembledBlob(old(State())), Spec.UploadFilename)]),
                                true, true, token)
    {
      stopEventsPending := stopEventsPending - 1;
      var audioBlob := Blob(chunks, Spec.RecordingMime);
      req := SendAudioToServer(audioBlob, token);
    }

    /** The synchronous part of `sendAudioToServer`: the blob goes out as the
        `audio` part of a multipart form, with the bearer token. */
    method SendAudioToServer(audioBlob: Blob, token: Option<string>) returns (req: HttpRequest)
      modifies this`uploads, this`uploadsInFlight
      ensures uploads == old(uploads) + [audioBlob] && uploadsInFlight == old(uploadsInFlight) + 1
      ensures req == RequestFor(api.appVersion, "/upload", "POST",
                                Form([FormPart("audio", audioBlob, Spec.UploadFilename)]), true, true, token)
    {
      var formData := Form([FormPart("audio", audioBlob, Spec.UploadFilename)]);
      req := api.Send("/upload", "POST", formData, true, true, token);
      uploads := uploads + [audioBlob];
      uploadsInFlight := uploadsInFlight + 1;
    }

    /** The rest of `sendAudioToServer` once the upload settles: on `success`,
        report it and poll the returned task; otherwise report the failure
        or the error. */
    method UploadSettled(outcome: FetchOutcome)
      requires uploadsInFlight > 0
      modifies this`uploadsInFlight, this`recordingStatus, this`liveIntervals, this`intervalRef, this`nextHandle
      ensures var t := Spec.OnUploadSettled(old(State()), outcome);
              && uploadsInFlight == t.uploadsInFlight && recordingStatus == t.recordingStatus
              && liveIntervals == t.liveIntervals && intervalRef == t.intervalRef && nextHandle == t.nextHandle
    {
      uploadsInFlight := uploadsInFlight - 1;
      var response := Classify(outcome);
      if response.Thrown? {
        recordingStatus := Spec.UploadErrorMsg;
      } else {
        var success := Get(response.value, "success");
        if success.Thrown? {
          recordingStatus := Spec.UploadErrorMsg;
        } else if Truthy(success.value) {
          recordingStatus := Spec.UploadedMsg;
          StartPolling(GetOr(response.value, "task_id"));
        } else {
          recordingStatus := Spec.UploadFailedMsg;
        }
      }
    }

    /** `clearInterval(pollingIntervalRef.current)` if the ref is set; the ref is not reset. */
    method ClearPollingInterval()
      modifies this`liveIntervals
      ensures liveIntervals == Spec.ClearCurrentInterval(old(State())).liveIntervals
    {
      if intervalRef.Some? {
        liveIntervals := liveIntervals - {intervalRef.value};
      }
    }

    /** `startPolling(taskId)`: clear the current interval, install a new one every 2 s. */
    method StartPolling(taskId: JsValue)
      modifies this`liveIntervals, this`intervalRef, this`nextHandle
      ensures var t := Spec.StartPolling(old(State()), taskId);
              liveIntervals == t.liveIntervals && intervalRef == t.intervalRef && nextHandle == t.nextHandle
    {
      ClearPollingInterval();
      liveIntervals := liveIntervals[nextHandle := taskId];
      intervalRef := Some(nextHandle);
      nextHandle := nextHandle + 1;
    }

    /** A tick of interval `h`: request the status of the task it polls. */
    method IntervalTick(h: Spec.Handle, token: Option<string>) returns (req: HttpRequest)
      requires h in liveIntervals
      modifies this`polled, this`pollsInFlight
      ensures var t := Spec.OnIntervalFired(old(State()), h);
              polled == t.polled && pollsInFlight == t.pollsInFlight
      ensures req == RequestFor(api.appVersion, "/transcription_status/" + TemplateText(old(liveIntervals)[h]),
                                "GET", Null, true, false, token)
    {
      var taskId := liveIntervals[h];
      req := api.Send("/transcription_status/" + TemplateText(taskId), "GET", Null, true, false, token);
      polled := polled + [taskId];
      pollsInFlight := pollsInFlight + multiset{h};
    }

    /** The catch branch of a tick. */
    method PollFailed()
      modifies this`liveIntervals, this`recordingStatus
      ensures var t := Spec.PollFailed(old(State()));
              liveIntervals == t.liveIntervals && recordingStatus == t.recordingStatus
    {
      ClearPollingInterval();
      recordingStatus := Spec.PollErrorMsg;
    }

    /** The try branch of a tick once `response.status` has been read; on
        SUCCESS the profile refresh `GET /user` is issued. */
    method PollReported(response: JsValue, status: JsValue, token: Option<string>)
      returns (refresh: Option<HttpRequest>)
      modifies this`transcriptionStatus, this`liveIntervals, this`recordingStatus, this`profileRefreshes
      ensures var t := Spec.TickReported(old(State()), response, status);
              && transcriptionStatus == t.transcriptionStatus && liveIntervals == t.liveIntervals
              && recordingStatus == t.recordingStatus && profileRefreshes == t.profileRefreshes
      ensures refresh.Some? <==> GetOr(response, "state") == Str("SUCCESS")
      ensures refresh.Some? ==> refresh.value == RequestFor(api.appVersion, "/user", "GET", Null, true, false, token)
    {
      refresh := None;
      transcriptionStatus := status;
      var state := GetOr(response, "state");
      if state == Str("SUCCESS") {
        ClearPollingInterval();
        recordingStatus := Spec.MottoUpdatedMsg;
        var req := api.Send("/user", "GET", Null, true, false, token);
        refresh := Some(req);
        profileRefreshes := profileRefreshes + 1;
      } else if state == Str("FAILURE") {
        ClearPollingInterval();
        recordingStatus := Spec.TranscriptionFailedMsg;
      }
    }

    /** A tick's request settles: the tick's callback resumes, and on
        SUCCESS the profile refresh request is returned. */
    method PollSettled(issuer: Spec.Handle, outcome: FetchOutcome, token: Option<string>)
      returns (refresh: Option<HttpRequest>)
      requires issuer in pollsInFlight
      modifies this`pollsInFlight, this`transcriptionStatus, this`liveIntervals, this`recordingStatus,
               this`profileRefreshes
      ensures var t := Spec.OnPollSettled(old(State()), issuer, outcome);
              && pollsInFlight == t.pollsInFlight && transcriptionStatus == t.transcriptionStatus
              && liveIntervals == t.liveIntervals && recordingStatus == t.recordingStatus
              && profileRefreshes == t.profileRefreshes
      ensures refresh.Some? <==> profileRefreshes == old(profileRefreshes) + 1
      ensures refresh.Some? ==> refresh.value == RequestFor(api.appVersion, "/user", "GET", Null, true, false, token)
    {
      refresh := ResumeTick(outcome, token);
      pollsInFlight := pollsInFlight - multiset{issuer};
    }

    /** The rest of a tick's callback: an error, or a response whose
        `status` cannot be read, stops polling with the error status. */
    method ResumeTick(outcome: FetchOutcome, token: Option<string>) returns (refresh: Option<HttpRequest>)
      modifies this`transcriptionStatus, this`liveIntervals, this`recordingStatus, this`profileRefreshes
      ensures var t := Spec.TickSettled(old(State()), outcome);
              && transcriptionStatus == t.transcriptionStatus && liveIntervals == t.liveIntervals
              && recordingStatus == t.recordingStatus && profileRefreshes == t.profileRefreshes
      ensures refresh.Some? <==> profileRefreshes == old(profileRefreshes) + 1
      ensures refresh.Some? ==> refresh.value == RequestFor(api.appVersion, "/user", "GET", Null, true, false, token)
    {
      refresh := None;
      var response := Classify(outcome);
      if response.Thrown? {
        PollFailed();
      } else {
        var status := Get(response.value, "status");
        if status.Thrown? {
          PollFailed();
        } else {
          refresh := PollReported(response.value, status.value, token);
        }
      }
    }

    /** The mount effect's cleanup. */
    method Unmount()
      requires mounted
      modifies this`liveIntervals, this`mounted
      ensures var t := Spec.OnUnmounted(old(State()));
              liveIntervals == t.liveIntervals && mounted == t.mounted
    {
      ClearPollingInterval();
      mounted := false;
    }
  }
}
