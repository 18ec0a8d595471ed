# Motto recorder: client state machines and backend decisions

This is a model of a small web application with two halves.

- **The React client.** A user registers and logs in. On the profile page they record a spoken motto, at most 15 seconds of it. The client uploads the recording and polls until the transcription is ready.
- **The Flask backend.** It stores users and queues the transcription task. It answers status polls from the task store.

The backend refuses clients whose declared version is below 1.2.0, replying with status 426. The client starts out declaring 1.1.0. A version manager switches it to 1.2.0 five seconds after start-up.

The model has these modules:

- `Js`: the JavaScript values exchanged, with truthiness, property access (which throws on null and undefined) and thrown errors.
- `ApiService` (APIService.ts): the request service. It holds the declared version, builds each request's headers and body, and classifies the reply:
  - 426 becomes the error "Update required";
  - any other failure status becomes "Network response was not ok";
  - a success status yields the parsed body.
- `VersionManager` (VersionManager.ts): the one-slot update callback and the timer that updates the version.
- `App` (App.tsx): the sticky `needsUpdate` flag, the start-up probe `GET /`, and the registered callback.
- The profile page (Profile.tsx), in two modules:
  - `ProfileSpec` is the component as a transition system over its state. Each browser callback is an event: the microphone request settling, a chunk, the 15 s timer, the recorder's stop event, the upload settling, a poll tick, a tick's request settling, and unmounting. The invariants and the trace properties are proved on it.
  - `Profile.UserProfile` is the same component as an object whose fields are its refs and state variables. Its methods update the fields in place, and their `modifies` frames name the fields each callback may touch. Each method's postcondition equates every field it changes with that field after the matching `ProfileSpec` step from the old state.
- `RegisterForm` and `LoginForm` (Register.tsx and Login.tsx): the request each form sends, and how the settled request becomes a navigation or a message.
- `Versions`: the client version as `packaging` compares it for plain releases. It is a tuple of numbers with trailing zeros ignored, ordered lexicographically. The module has a parser for dotted decimals and its round trip.
- `Backend` (app.py): the parts the server decides.
  - The `check_version` gate.
  - The decorators on each route, outermost first.
  - The login, user, upload and transcription-status decisions.
  - A `Server` class whose handlers update the user table, the upload folder and the task queue.

  Hashing, encryption, token creation and verification, and the Celery result store are opaque inputs.
- `EndToEnd`: one exchange at a time, from the client request, through the server's decorators and view, to what the client does with the reply.

Four behaviours of the code shape the model:

- The backend's in-progress task state is `PROCESSING` (src/backend/app.py:165, set by src/backend/celery_tasks.py:27).
- The chunk buffer is emptied only when the next recording starts (src/frontend/src/components/Profile.tsx:49). The stop handler leaves it in place (src/frontend/src/components/Profile.tsx:57-60).
- The 15 s timer stops the recorder but does not clear `isRecording` (src/frontend/src/components/Profile.tsx:66-70).
- The route `/` has no version check (src/backend/app.py:69-71), so the start-up probe never receives a 426 from this backend. `EndToEnd.ProbeNeverRaisesUpdateFlag` proves this.

## Model

| member | source | states |
|---|---|---|
| ApiService.HeadersFor | src/frontend/src/services/APIService.ts:33-46 | `app-version` is always the declared version. `Content-Type: application/json` is present iff the body is not form data. `Authorization: Bearer <token>` is present iff auth is asked for and a non-empty token is stored. No other header is ever set. |
| ApiService.WireBodyFor | src/frontend/src/services/APIService.ts:52 | Form data is passed through unchanged. Any other body is sent as JSON exactly when it is truthy, and as null otherwise. |
| ApiService.RequestFor | src/frontend/src/services/APIService.ts:26-53 | The request goes to base URL + endpoint, with the given verb and the headers and body above. |
| ApiService.Classify | src/frontend/src/services/APIService.ts:55-66 | 426 gives "Update required", tested before the ok check. Any other non-2xx gives "Network response was not ok". A 2xx yields the parsed body. A rejected fetch is rethrown. |
| ApiService.StaleIffStatus426 | src/frontend/src/services/APIService.ts:55-61 | "Update required" is reported iff the status is 426. The generic error is reported iff it is some other failure status. A value is returned iff the status is 2xx. |
| ApiService.ContentTypeMatchesBody | src/frontend/src/services/APIService.ts:37-39 | A Content-Type is declared iff the body is not passed raw, and a JSON body always travels with the JSON content type. |
| ApiService.ApiClient.constructor | src/frontend/src/services/APIService.ts:6-9 | The declared version starts at "1.1.0". |
| ApiService.ApiClient.GetAppVersion | src/frontend/src/services/APIService.ts:18-20 | Returns the declared version. |
| ApiService.ApiClient.UpdateAppVersion | src/frontend/src/services/APIService.ts:22-24 | Afterwards the declared version is the new one. |
| ApiService.ApiClient.BuildHeaders | src/frontend/src/services/APIService.ts:33-46 | The header object built by conditional assignment equals `HeadersFor` of the current version. |
| ApiService.ApiClient.Send | src/frontend/src/services/APIService.ts:26-53 | The request handed to fetch is `RequestFor` of the current version. |
| ApiService.ApiServiceModule.GetInstance | src/frontend/src/services/APIService.ts:11-16 | The first call creates a client at "1.1.0". Every later call returns that same object. |
| ApiService.ApiServiceModule.GetInstanceTwice | src/frontend/src/services/APIService.ts:11-16 | Two calls return the same instance. |
| VersionManager.Manager.constructor | src/frontend/src/services/VersionManager.ts:5-15 | A new manager holds no callback and has the one update timer pending. |
| VersionManager.Manager.SetUpdateCallback | src/frontend/src/services/VersionManager.ts:24-26 | The slot holds exactly the new callback, replacing any earlier one. The timer is untouched. |
| VersionManager.Manager.FireUpdateTimer | src/frontend/src/services/VersionManager.ts:9-14 | The version becomes "1.2.0". The callback held at that moment, if any, is invoked, and none is invoked when the slot is empty. The timer does not fire again. |
| VersionManager.ManagerModule.GetInstance | src/frontend/src/services/VersionManager.ts:17-22 | Creates the manager once and returns the same one thereafter. |
| App.ProbeRaisesUpdate | src/frontend/src/App.tsx:23-27 | The catch branch sets the flag iff the error is exactly "Update required". |
| App.NeedsUpdateAfterProbe | src/frontend/src/App.tsx:20-28 | The flag is sticky. From false it becomes true iff the probe's request is classified "Update required". |
| App.ProbeFlagIffStatus426 | src/frontend/src/App.tsx:20-28 | Against a server that answers, the probe raises the flag iff the status is 426. |
| App.App.constructor | src/frontend/src/App.tsx:12 | `needsUpdate` starts false, and no probe has been issued. |
| App.App.Mount | src/frontend/src/App.tsx:14-18 | Mounting registers this component's callback and issues exactly one unauthenticated `GET /` at the declared version (probe issued at lines 30-32). |
| App.App.ProbeSettled | src/frontend/src/App.tsx:20-28 | The flag becomes `NeedsUpdateAfterProbe` of the old flag and the outcome. |
| App.App.RunUpdateCallback | src/frontend/src/App.tsx:15-17 | The registered callback clears the flag. |
| App.App.VersionUpdateArrives | src/frontend/src/services/VersionManager.ts:9-14 | The version becomes "1.2.0" before the callback runs. The flag is cleared iff this component's callback is the one held. |
| App.StaleThenUpdated | src/frontend/src/App.tsx:12-32 | A stale client answered 426 raises the flag, and the version update clears it again. |
| ProfileSpec.StopRecording | src/frontend/src/components/Profile.tsx:77-83 | Afterwards no recorder is recording. A stop is requested iff one was recording, and otherwise nothing changes. The buffer, the uploads, the timers and the poller are untouched. |
| ProfileSpec.OnRecordMottoClicked | src/frontend/src/components/Profile.tsx:135-141 | With the flag set, the click leaves no recorder recording and asks for no microphone. With it clear, the click stops nothing. The buffer, the uploads and the poller are untouched. |
| ProfileSpec.OnStartSettled | src/frontend/src/components/Profile.tsx:45-75 | One microphone request retires. A granted one adds one session and one auto-stop timer after the pending ones; a refused one adds neither. No upload, stop or interval changes. |
| ProfileSpec.OnChunkAvailable | src/frontend/src/components/Profile.tsx:51-55 | The buffer keeps its chunks and grows by one iff the chunk is non-empty, and that chunk goes at the end. The recorder, the flag and the uploads are untouched. |
| ProfileSpec.OnAutoStopFired | src/frontend/src/components/Profile.tsx:66-70 | The earliest timer retires. Afterwards no recorder is recording, and a stop is requested iff one was. |
| ProfileSpec.OnRecorderStopped | src/frontend/src/components/Profile.tsx:57-60 | Exactly one upload is appended after the earlier ones, made of the current buffer. The buffer, the recorder and the flag are kept. |
| ProfileSpec.ClearCurrentInterval | src/frontend/src/components/Profile.tsx:104-106 | The ref's interval is no longer live. Every other live interval stays live with its task. The ref keeps its value. |
| ProfileSpec.StartPolling | src/frontend/src/components/Profile.tsx:103-108 | A fresh handle becomes live polling the given task and is stored in the ref. The interval the ref held before is no longer live, and no other handle becomes live. |
| ProfileSpec.OnUploadSettled | src/frontend/src/components/Profile.tsx:85-101 | One upload retires and the status is one of the three upload messages. Only the success message comes with a new live interval held by the ref; otherwise the poller is unchanged. The component's mounted state is untouched. |
| ProfileSpec.OnIntervalFired | src/frontend/src/components/Profile.tsx:108-110 | One status request is issued, for the task the interval's closure captured. No interval and no message changes. |
| ProfileSpec.PollFailed | src/frontend/src/components/Profile.tsx:125-131 | The poll error message is shown and the ref's interval stops. The displayed transcription status and the refresh count are kept. |
| ProfileSpec.TickSettled | src/frontend/src/components/Profile.tsx:109-131 | No interval becomes live. The profile is refreshed at most once, and only together with "Motto updated successfully!". A thrown request shows the poll error. |
| ProfileSpec.TickReported | src/frontend/src/components/Profile.tsx:111-124 | The reported status is displayed. The profile is refreshed iff the state is SUCCESS. SUCCESS and FAILURE stop the ref's interval; any other state changes neither the intervals nor the message. |
| ProfileSpec.OnPollSettled | src/frontend/src/components/Profile.tsx:108-132 | Exactly one request in flight retires, and no interval becomes live. |
| ProfileSpec.OnUnmounted | src/frontend/src/components/Profile.tsx:24-28 | The component is unmounted and the ref's interval stops. Uploads, polls, stop events and timers that are pending are not cancelled. |
| ProfileSpec.InitialInv | src/frontend/src/components/Profile.tsx:11-29 | The mounted component satisfies the invariant: at most one live interval, which is the ref's, and no more uploads than recorders. |
| ProfileSpec.ClearLeavesNone | src/frontend/src/components/Profile.tsx:114-116 | Under the invariant, clearing the ref's interval leaves no interval live. |
| ProfileSpec.StartPollingReplaces | src/frontend/src/components/Profile.tsx:103-108 | `startPolling` clears any live interval first. Afterwards exactly one interval is live, a fresh handle polling the given task, and the invariant holds. |
| ProfileSpec.UploadSettledPreservesInv | src/frontend/src/components/Profile.tsx:89-100 | The upload reply keeps the invariant. |
| ProfileSpec.TickSettledPreservesInv | src/frontend/src/components/Profile.tsx:109-131 | A tick's settled request keeps the invariant. |
| ProfileSpec.PollSettledPreservesInv | src/frontend/src/components/Profile.tsx:108-132 | The same for the event that also retires the in-flight request. |
| ProfileSpec.StepPreservesInv | src/frontend/src/components/Profile.tsx:22-141 | Every callback the browser can run keeps the invariant. |
| ProfileSpec.RunPreservesInv | src/frontend/src/components/Profile.tsx:22-141 | Every run of callbacks keeps the invariant, so at most one interval is ever live. |
| ProfileSpec.StartSettledEffects | src/frontend/src/components/Profile.tsx:47-74 | A granted start creates a recorder with an empty buffer, sets the flag and "Recording... (max 15 seconds)", and schedules one 15 s timer. A refused start shows "Error starting recording. Please try again." and changes nothing else. |
| ProfileSpec.RefusedStartsNeverRecord | src/frontend/src/components/Profile.tsx:71-74 | If no start is ever granted, `isRecording` is never set. |
| ProfileSpec.ChunksInArrivalOrder | src/frontend/src/components/Profile.tsx:51-55 | After any sequence of chunk deliveries, the buffer has gained exactly the non-empty chunks, in arrival order. |
| ProfileSpec.StopEventUploadsBuffer | src/frontend/src/components/Profile.tsx:57-60 | A stop event issues exactly one upload: a blob of all buffered chunks in order, typed audio/webm. The buffer is kept. |
| ProfileSpec.StepUploads | src/frontend/src/components/Profile.tsx:57-60 | The stop event is the only callback that issues an upload. |
| ProfileSpec.UploadsCountStopEvents | src/frontend/src/components/Profile.tsx:57-60 | Over any run, the uploads issued are exactly one per stop event, appended in order. |
| ProfileSpec.NoDoubleUpload | src/frontend/src/components/Profile.tsx:66-83 | Over any run, uploads never outnumber the recorders created, so no recording is uploaded twice. |
| ProfileSpec.ManualStopEffects | src/frontend/src/components/Profile.tsx:77-83 | A click while the flag is set stops a recording recorder, clears the flag and shows "Processing...". With the recorder not recording, it changes nothing. |
| ProfileSpec.ClickGatedByFlag | src/frontend/src/components/Profile.tsx:135-141 | A click asks for the microphone iff the flag is clear. |
| ProfileSpec.ManualStopThenTimerIsInert | src/frontend/src/components/Profile.tsx:66-83 | A manual stop followed by the timer makes one stop in all. The timer only retires itself. |
| ProfileSpec.TimerThenManualStopIsInert | src/frontend/src/components/Profile.tsx:66-83 | The timer followed by a click makes one stop in all. The click changes nothing. |
| ProfileSpec.AutoStopKeepsFlag | src/frontend/src/components/Profile.tsx:66-70 | The auto-stop leaves `isRecording`, the status line and the buffer unchanged. |
| ProfileSpec.AutoStopLocksRecordButton | src/frontend/src/components/Profile.tsx:66-83 | After an auto-stop the flag is still set while the recorder is inactive, so the record button neither starts nor stops anything. |
| ProfileSpec.StaleTimerStopsCurrentSession | src/frontend/src/components/Profile.tsx:66-70 | A timer scheduled by an earlier session stops the session that is recording now. |
| ProfileSpec.StaleTimerScenario | src/frontend/src/components/Profile.tsx:45-83 | That happens from mounting in six callbacks: start, manual stop, start, and the first timer cuts the second session short with its flag still set. |
| ProfileSpec.UploadSettledOutcomes | src/frontend/src/components/Profile.tsx:89-100 | A truthy `success` shows the upload message and makes the returned `task_id` the only polled task. A falsy one shows "Failed to upload audio...", and a thrown error "An error occurred...", neither touching the poller. |
| ProfileSpec.PollSettledOutcomes | src/frontend/src/components/Profile.tsx:109-131 | `status` is displayed whatever the state. SUCCESS stops polling, refreshes the profile once and shows "Motto updated successfully!". FAILURE stops polling without a refresh. Any other state keeps polling. An exception stops polling with the error text and leaves the displayed status. |
| ProfileSpec.LateTickClearsReplacement | src/frontend/src/components/Profile.tsx:113-116 | The SUCCESS reply to a tick from a replaced interval clears the replacement, because the callback clears whatever the ref holds. |
| ProfileSpec.UnmountClearsPolling | src/frontend/src/components/Profile.tsx:24-28 | At the moment of unmounting, no interval is left live. |
| ProfileSpec.UploadAfterUnmountPolls | src/frontend/src/components/Profile.tsx:89-108 | An upload still in flight at unmount that is then accepted installs a live interval on the unmounted component. The cleanup cannot run again to clear it (cleanup at lines 24-28). |
| ProfileSpec.StepLiveIntervals | src/frontend/src/components/Profile.tsx:103-132 | A step can only make the next fresh handle live, and handles grow. |
| ProfileSpec.ClearedIntervalStaysCleared | src/frontend/src/components/Profile.tsx:103-132 | Once cleared, an interval never becomes live again in any later run. |
| Profile.UserProfile.constructor | src/frontend/src/components/Profile.tsx:11-20 | After mounting, every field is at its initial value. |
| Profile.UserProfile.HandleRecordMotto | src/frontend/src/components/Profile.tsx:135-141 | The fields it may change become those of `OnRecordMottoClicked`: a start when the flag is clear, `stopRecording` otherwise. |
| Profile.UserProfile.StartRecording | src/frontend/src/components/Profile.tsx:45-47 | One more microphone request is in flight. |
| Profile.UserProfile.StopRecording | src/frontend/src/components/Profile.tsx:77-83 | The recorder, pending stops, flag and status become those of the `StopRecording` step. |
| Profile.UserProfile.StartSettled | src/frontend/src/components/Profile.tsx:47-74 | The seven fields it may change become those of `OnStartSettled`. |
| Profile.UserProfile.DataAvailable | src/frontend/src/components/Profile.tsx:51-55 | The buffer becomes that of `OnChunkAvailable`. |
| Profile.UserProfile.AutoStopTimeout | src/frontend/src/components/Profile.tsx:66-70 | The timers, recorder and pending stops become those of `OnAutoStopFired`. |
| Profile.UserProfile.RecorderStopped | src/frontend/src/components/Profile.tsx:57-60 | Becomes `OnRecorderStopped`. The request sent is the authenticated form POST to `/upload` of the assembled blob named "recording.webm". |
| Profile.UserProfile.SendAudioToServer | src/frontend/src/components/Profile.tsx:85-90 | Appends the blob to the uploads issued and sends it as the `audio` part of an authenticated form POST to `/upload`. |
| Profile.UserProfile.UploadSettled | src/frontend/src/components/Profile.tsx:89-100 | The five fields it may change become those of `OnUploadSettled`. |
| Profile.UserProfile.ClearPollingInterval | src/frontend/src/components/Profile.tsx:114-116 | The ref's interval is no longer live, and the ref keeps its value. |
| Profile.UserProfile.StartPolling | src/frontend/src/components/Profile.tsx:103-108 | Becomes `StartPolling` of the task id. |
| Profile.UserProfile.IntervalTick | src/frontend/src/components/Profile.tsx:108-110 | Becomes `OnIntervalFired`. The request sent is the authenticated `GET /transcription_status/<task id as the template prints it>`. |
| Profile.UserProfile.PollFailed | src/frontend/src/components/Profile.tsx:125-130 | Becomes the `PollFailed` step: the ref's interval is cleared and the error text shown. |
| Profile.UserProfile.PollReported | src/frontend/src/components/Profile.tsx:111-124 | Becomes `TickReported`. A profile refresh (`GET /user`, authenticated) is sent iff the state is SUCCESS. |
| Profile.UserProfile.PollSettled | src/frontend/src/components/Profile.tsx:108-132 | Becomes `OnPollSettled`. A refresh is sent iff the refresh count grows. |
| Profile.UserProfile.ResumeTick | src/frontend/src/components/Profile.tsx:109-131 | Becomes `TickSettled`. A refresh is sent iff the refresh count grows. |
| Profile.UserProfile.Unmount | src/frontend/src/components/Profile.tsx:24-28 | Becomes `OnUnmounted`: no interval remains live. |
| RegisterForm.RegisterRequest | src/frontend/src/components/Register.tsx:15 | An unauthenticated JSON POST to `/register` carrying username, password and motto, with exactly the version and content-type headers. |
| RegisterForm.HandleRegister | src/frontend/src/components/Register.tsx:12-24 | Navigates to `/login` iff the reply's `message` is exactly "User registered successfully". Any other message shows "Registration failed. Please try again.". A thrown request or a null reply shows "An error occurred. Please try again.". |
| RegisterForm.RegisterOutcomeByStatus | src/frontend/src/components/Register.tsx:14-23 | Against a server that answers, only a 2xx whose body has the exact message navigates. Every failure status, 426 included, shows the generic error. |
| LoginForm.LoginRequest | src/frontend/src/components/Login.tsx:16 | An unauthenticated JSON POST to `/login` with username and password. |
| LoginForm.HandleLogin | src/frontend/src/components/Login.tsx:13-27 | A truthy `token` logs in with that token and goes to `/profile`. A falsy one shows "Login failed. Please try again.". A thrown request or a null reply shows "An error occurred. Please try again.". |
| LoginForm.FailureStatusReachesCatch | src/frontend/src/components/Login.tsx:16-26 | Every failure status, the 401 of bad credentials included, shows the generic error. "Login failed" appears iff a 2xx reply has no truthy token. |
| Versions.Scan | src/backend/app.py:63-64 | A successful scan extends the components already read. |
| Versions.ParseRelease | src/backend/app.py:64 | A header that parses is a non-empty release. |
| Versions.ParseRender | src/backend/app.py:64 | Parsing the dotted text of any release gives that release back. |
| Versions.Trim | src/backend/app.py:64 | Removes exactly the trailing zero components. |
| Versions.LessTrichotomy | src/backend/app.py:64 | Version `<` is a strict total order up to trailing zeros: exactly one of a < b, a = b, b < a. |
| Versions.LessTransitive | src/backend/app.py:64 | Version `<` is transitive. |
| Versions.PaddingIsSame | src/backend/app.py:64 | Appending zero components never changes a version. |
| Backend.CheckVersion | src/backend/app.py:60-67 | The gate refuses with 426 iff the header, or "0.0.0" when absent, parses to a release below 1.2.0. Any refusal is that reply or the server error of an unparsable header. |
| Backend.Guards | src/backend/app.py:69-156 | The gate covers exactly register, login, user and upload. The JWT check covers exactly user, upload and transcription status. Where both apply, the JWT check is outermost. |
| Backend.RunGuards | src/backend/app.py:60-67 | A refusal comes from a decorator in the list, with that decorator's own reply. The outermost decorator's refusal is always the answer. The view runs iff every decorator lets it, with the token's identity when a token was checked. |
| Backend.FirstRefusalAnswers | src/backend/app.py:95-97 | Whatever the later decorators would say, the first decorator that refuses gives the answer. |
| Backend.MissingHeaderIsStale | src/backend/app.py:63-65 | A request without the header is refused with 426. |
| Backend.GateIffBelowMinimum | src/backend/app.py:14-15 | For any release in the header, the gate refuses exactly the releases below 1.2.0 (line 64-65). |
| Backend.GateOnClientVersions | src/backend/app.py:60-67 | "1.1.0" is refused and "1.2.0" passes. |
| Backend.GateComparesNumerically | src/backend/app.py:64 | "1.2" and "1.10.0" pass: versions compare as numbers, not as text. |
| Backend.UngatedRoutesNeverRefuseVersion | src/backend/app.py:69-71 | `/` and `/transcription_status` never answer with the gate's reply, and `/` always runs its view (status route at lines 154-156). |
| Backend.JwtCheckedBeforeVersion | src/backend/app.py:95-97 | On `/user` and `/upload`, a rejected token gets the JWT reply whatever the version (upload at lines 118-120). |
| Backend.StaleClientRefused | src/backend/app.py:60-67 | On a gated route, a stale client whose token is accepted gets the 426 reply. |
| Backend.UserAt | src/backend/app.py:104 | The user with that id, present iff the id is in range. |
| Backend.IndexReply | src/backend/app.py:69-71 | `/` answers 200 with body `{"status": 200}`. |
| Backend.NewUser | src/backend/app.py:76-79 | A user is built iff the body has text `password`, `motto` and `username`. It gets that name, the hash of the password and the encryption of the motto. |
| Backend.FirstByName | src/backend/app.py:89 | The earliest user with that name, or none iff no user has it. |
| Backend.RegisterReply | src/backend/app.py:73-83 | 201 with the success message and a token for the new id iff the body has the three text fields; otherwise the server error. |
| Backend.LoginReply | src/backend/app.py:85-93 | A body without `username` is a server error. A 200 means the first user of that name exists and the password checks against its hash, and the token names that user. Any other reply is 401 "Invalid credentials" or the server error. |
| Backend.LoginSucceedsIff | src/backend/app.py:85-93 | Login returns 200 with a token for the first user of that name iff that user exists and the password checks. Otherwise it returns 401 "Invalid credentials". |
| Backend.UnknownUserNeedsNoPassword | src/backend/app.py:89-90 | For an unknown name the password is never read, so a body without one still gets 401. |
| Backend.UserReply | src/backend/app.py:98-116 | 404 "User not found" iff no user has the token's id. For an existing user, an empty motto gives 200 with the name and a null motto. A decryptable one gives 200 with the name and the decrypted motto. A motto that fails to decrypt gives 401 "Authentication failed". No other status occurs. |
| Backend.CheckUpload | src/backend/app.py:125-148 | The upload checks run in order: user missing (404), no `audio` part (400), empty filename (400), otherwise the file is accepted. |
| Backend.ProcessingErrorUnreachable | src/backend/app.py:136-148 | The "Error processing audio file" branch is never taken. |
| Backend.UploadPath | src/backend/app.py:137-138 | The path lies in the upload folder, starts with `audio_` and ends with `.webm`. |
| Backend.UploadReply | src/backend/app.py:126-146 | 202 with `success: true`, the start message and the task id iff the file was accepted. |
| Backend.AsyncResult | src/backend/app.py:158 | A stored task is read as stored. An id the store does not know reads as PENDING with no payload. |
| Backend.StatusText | src/backend/app.py:160-204 | The status text is "Unknown state" iff the state is none of PENDING, PROCESSING, SUCCESS and FAILURE. PROCESSING reads "Transcription is in progress...". |
| Backend.MottoUpdate | src/backend/app.py:175-186 | The motto is rewritten iff the task is SUCCESS with a non-empty stored result and the user exists, and then with that result. |
| Backend.StatusReply | src/backend/app.py:160-206 | The reply is a server error iff a SUCCESS or FAILURE task's payload is not a dict. Any other reply is a 200 object. A FAILURE reply carries the stored error, or "Unknown error occurred" without one. |
| Backend.StatusEchoesState | src/backend/app.py:160-206 | Every reply is a 200 or a server error. A 200 echoes the task state and that state's fixed status text. An unknown state carries "Unexpected task state". |
| Backend.SuccessReplyMatchesUpdate | src/backend/app.py:170-192 | A SUCCESS reply echoes the result iff the motto is updated with it. Without a result, it says "Transcription result not found" and updates nothing. |
| Backend.FailureWithExceptionIsServerError | src/backend/app.py:193-198 | A FAILURE whose info is an exception object (Celery's form) has no `get`, so the reply is a server error and nothing is updated. |
| Backend.WithMotto | src/backend/app.py:179-182 | Only the motto of that one user changes. |
| Backend.Server.constructor | src/backend/app.py:31-58 | An empty user table, upload folder and queue. |
| Backend.Server.RegisterView | src/backend/app.py:73-83 | Returns `RegisterReply`. The new user is appended iff the body has the three text fields. |
| Backend.Server.UploadView | src/backend/app.py:118-152 | Returns `UploadReply` of the checks. An accepted file is saved under `uploads/audio_<id>_<seconds>.webm` and that path is queued; otherwise nothing changes. |
| Backend.Server.TranscriptionStatusView | src/backend/app.py:154-206 | Returns `StatusReply`. The user's motto becomes the encrypted transcription exactly when `MottoUpdate` says so. |
| Backend.Server.Handle | src/backend/app.py:60-156 | When a decorator refuses, its reply is sent and no state changes: the view does not run. Otherwise the route's view answers and the new state is given per route: register appends `NewUser` when it is defined, upload saves and queues an accepted file at `UploadPath`, and the status route rewrites the motto per `MottoUpdate`. Every other part of the state is kept. |
| Backend.RegisteredUserCanLogin | src/backend/app.py:73-93 | A user registered under a new name logs in with the same password and gets a token for the new id. |
| Backend.DuplicateNameShadowed | src/backend/app.py:79-89 | A second registration under a taken name is never found by login, because login takes the first match. |
| EndToEnd.Flatten | src/frontend/src/components/Profile.tsx:58 | A blob is empty iff all its parts are, and it is at least as long as each part. |
| EndToEnd.FlattenAppend | src/frontend/src/components/Profile.tsx:51-60 | A blob of two runs of parts holds the first run's bytes followed by the second's, so chunks buffered one at a time reach the upload in arrival order. |
| EndToEnd.FilesOf | src/backend/app.py:129-132 | The server sees one file per field name sent. For every name, that file is the first part sent under it, with that part's filename and bytes. |
| EndToEnd.ProbeNeverRaisesUpdateFlag | src/frontend/src/App.tsx:20-28 | Whatever version the client declares, the probe gets the plain 200 from `/` (app.py lines 69-71), and the flag stays as it was. |
| EndToEnd.StaleClientCannotRegister | src/frontend/src/components/Register.tsx:14-23 | A client at 1.1.0 is refused with 426 at `/register`, and the form shows the generic error. |
| EndToEnd.UpdatedClientRegisters | src/frontend/src/components/Register.tsx:14-17 | At 1.2.0 the registration passes the gate, stores the user, and the form goes to `/login`. |
| EndToEnd.RegisteredReplyNavigates | src/frontend/src/components/Register.tsx:16-17 | The 201 of a stored registration leads to `/login`. |
| EndToEnd.UpdatedClientLogsIn | src/frontend/src/components/Login.tsx:14-26 | At 1.2.0, correct credentials log in with the first matching user's token. Anything else shows the generic error, never "Login failed". |
| EndToEnd.LoginReplyShown | src/frontend/src/components/Login.tsx:18-26 | The same outcome from the server's login reply to the form's decision. |
| EndToEnd.UploadStartsPollingTask | src/frontend/src/components/Profile.tsx:85-93 | An upload at 1.2.0 for an existing user is accepted with the recording's bytes, and the profile then polls exactly the new task. |
| EndToEnd.AcceptedUploadPolls | src/frontend/src/components/Profile.tsx:91-93 | An accepted upload's reply makes the profile poll the task id it names. |
| EndToEnd.StaleUploadIsRefused | src/frontend/src/components/Profile.tsx:97-99 | An upload at 1.1.0 with a good token is refused by the gate, and the profile shows the generic error without polling. |
| EndToEnd.PollFollowsTaskState | src/frontend/src/components/Profile.tsx:110-124 | A poll answered from the result store shows the state's status text. SUCCESS and FAILURE stop polling, SUCCESS also refreshing the profile once, and other states keep polling. |
| EndToEnd.FailedTaskShowsPollError | src/frontend/src/components/Profile.tsx:125-130 | A failed Celery task is answered with a server error, so the profile stops polling with the status-check error rather than the transcription-failed text. |

## Left out

- Real browser and network machinery: `fetch`, `MediaRecorder`, `getUserMedia`, timers and local storage. They are replaced by events and parameters.
  - A stored token is a parameter.
  - `fetch` either answers with a status and parsed JSON or rejects.
  - A reply body that is not JSON, which makes `response.json()` reject, is not modelled.
- Wall-clock time and the interleaving of callbacks beyond an explicit event sequence.
  - Auto-stop timers fire in the order they were scheduled, since they all have the same delay.
  - The upload handler receives the time in whole seconds.
- JSX rendering: the update overlay shown iff `needsUpdate`, UpdateMessage.tsx, Home.tsx, routing internals and console logging.
- `handleLogout`, and the `login` of the authentication context. The session context module is not part of this model. `LoginForm.HandleLogin` only reports the token it would hand over.
- The profile's initial `fetchUserData` on mount, and what the fetched user data does to the page. `profileRefreshes` counts only the poller's refreshes.
- State updates after unmount: React ignores state setters called after unmounting, but the model still updates its fields. In particular, an upload that settles after unmount starts an interval that the cleanup never clears (`ProfileSpec.UploadAfterUnmountPolls`).
- ProfileSpec invariants: the invariant is proved on `ProfileSpec`. The `Profile.UserProfile` methods carry no `Valid()` precondition or postcondition. Each method is tied field by field to its `ProfileSpec` step, so the invariant carries over through that correspondence.
- Backend services:
  - SQLAlchemy, bcrypt, Fernet and flask_jwt_extended are opaque functions. The Fernet key is regenerated at each start, so decryption can fail; that failure is an input.
  - A user's id is its position in the table, since ids are autoincremented and users are never deleted.
  - Database commit failures, and the resulting "An unexpected error occurred" and "Error updating user motto" replies, are not modelled.
  - The user model file is not part of this model, so no uniqueness constraint on names is assumed.
- The Celery worker (transcription through Whisper or the mock, retries, file deletion) and the broker configuration. The result store is a map given with each request. An id it does not know reads as PENDING.
- Version syntax: only plain dotted-decimal versions are parsed. Pre-release, post-release, dev, local and epoch segments, as well as surrounding whitespace and a leading "v", are not modelled. A header that is not a plain release is treated as an exception, which gives a server error.
- Malformed request bodies: a JSON body that is missing or not an object gives a server error, which is how the views fail on it. The content-type check of newer Flask versions (415) is not modelled.
- Error pages: the HTML error page Flask sends on an unhandled exception is modelled as a 500 with a null body.
- JSON encoding between client and server: JSON text is parsed back into the value it was written from. JavaScript's dropping of `undefined` members in `JSON.stringify` is not modelled.
