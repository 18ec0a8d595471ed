/** The client against this backend: a request the client builds is what the
    server's views read, and the server's reply is what the client's request
    layer classifies. These lemmas follow one exchange from the form or
    component that issues it to the state it leaves behind. */
module EndToEnd {
  import opened Js
  import opened ApiService
  import opened Backend
  import App
  import VersionManager
  import RegisterForm
  import LoginForm
  import ProfileSpec

  /** The bytes of a Blob: its parts one after another. */
  function Flatten(parts: seq<Chunk>): (bytes: seq<bv8>)
    ensures |bytes| == 0 <==> forall i :: 0 <= i < |parts| ==> |parts[i]| == 0
    ensures forall i :: 0 <= i < |parts| ==> |parts[i]| <= |bytes|
    decreases |parts|
  {
    if |parts| == 0 then [] else parts[0] + Flatten(parts[1..])
  }

  /** A Blob built from two runs of parts holds the bytes of the first run
      followed by those of the second: the recorder's chunks, appended one at
      a time, end up in the upload in the order they arrived. */
  lemma {:induction false} FlattenAppend(a: seq<Chunk>, b: seq<Chunk>)
    ensures Flatten(a + b) == Flatten(a) + Flatten(b)
    decreases |a|
  {
    if |a| > 0 {
      assert (a + b)[0] == a[0];
      assert (a + b)[1..] == a[1..] + b;
      FlattenAppend(a[1..], b);
    } else {
      assert a + b == b;
    }
  }

  /** `request.files` of a multipart body: each field name maps to its first part. */
  function FilesOf(parts: seq<FormPart>): (files: map<string, FileStorage>)
    ensures files.Keys == set i | 0 <= i < |parts| :: parts[i].name
    ensures forall i :: (0 <= i < |parts| && (forall j :: 0 <= j < i ==> parts[j].name != parts[i].name)
      ==> files[parts[i].name] == FileStorage(parts[i].filename, Flatten(parts[i].blob.parts)))
    decreases |parts|
  {
    if |parts| == 0 then map[]
    else
      var rest := parts[1..];
      assert forall i :: 1 <= i < |parts| ==> rest[i - 1] == parts[i];
      FilesOf(rest)[parts[0].name := FileStorage(parts[0].filename, Flatten(parts[0].blob.parts))]
  }

  /** What the server reads of a request the client sent: the headers as
      sent, the JSON text parsed back into the value it was written from
      (`None`, null, without one), and the files of a form body. */
  function Deliver(req: HttpRequest): Request
  {
    var json := if req.body.JsonText? then req.body.value else Null;
    var files := if req.body.Raw? && req.body.value.Form? then FilesOf(req.body.value.parts) else map[];
    Request(req.headers, json, files)
  }

  /** What `fetch` settles with for a reply. */
  function Answer(r: Response): FetchOutcome
  {
    Responded(r.status, r.body)
  }

  /** A JSON request arrives with the version it declared and the body it
      was built from. */
  lemma JsonRequestDelivered(version: string, endpoint: string, body: JsValue)
    requires body.Obj?
    ensures var req := Deliver(RequestFor(version, endpoint, "POST", body, false, false, None));
      "app-version" in req.headers && req.headers["app-version"] == version && req.json == body
  {
  }

  /** An upload arrives with the version it declared and the recording as
      its only file, under "audio". */
  lemma UploadDelivered(version: string, blob: Blob, token: Option<string>)
    ensures var req := Deliver(UploadRequest(version, blob, token));
      "app-version" in req.headers && req.headers["app-version"] == version
      && req.files == map["audio" := FileStorage(ProfileSpec.UploadFilename, Flatten(blob.parts))]
  {
    var parts := [FormPart("audio", blob, ProfileSpec.UploadFilename)];
    assert parts[1..] == [];
    assert FilesOf(parts) == map[][ "audio" := FileStorage(ProfileSpec.UploadFilename, Flatten(blob.parts))];
  }

  /** The startup probe `GET /` passes no decorator, so whatever version the
      client declares the reply is the plain 200 and the update flag stays as
      it was: against this backend the probe never reports a stale client. */
  lemma ProbeNeverRaisesUpdateFlag(version: string, o: Oracles, needsUpdate: bool)
    ensures var req := Deliver(RequestFor(version, "/", "GET", Undefined, false, false, None));
      GuardsFor(Index, req.headers, o) == Pass(None)
      && App.NeedsUpdateAfterProbe(needsUpdate, Answer(IndexReply())) == needsUpdate
  {
    StaleIffStatus426(200, IndexReply().body);
  }

  /** A client still declaring 1.1.0 is refused at registration with the 426
      reply, which the form shows as its generic error text. */
  lemma StaleClientCannotRegister(username: string, password: string, motto: string, o: Oracles)
    ensures var req := Deliver(RegisterForm.RegisterRequest(InitialVersion, username, password, motto));
      GuardsFor(Register, req.headers, o) == Stop(VersionGate, UpdateRequiredReply)
      && RegisterForm.HandleRegister(Classify(Answer(UpdateRequiredReply))) == RegisterForm.ShowError(RegisterForm.ErrorMsg)
  {
    var req := Deliver(RegisterForm.RegisterRequest(InitialVersion, username, password, motto));
    GateOnClientVersions(req.headers);
  }

  /** Once the version is 1.2.0, a registration with all three fields is
      stored and the form goes to the login page. */
  lemma UpdatedClientRegisters(users: seq<UserRecord>, username: string, password: string, motto: string, o: Oracles)
    ensures var req := Deliver(RegisterForm.RegisterRequest(VersionManager.UpdatedVersion, username, password, motto));
      GuardsFor(Register, req.headers, o) == Pass(None)
      && NewUser(req.json, o) == Some(UserRecord(username, o.hashPassword(password), o.encrypt(motto)))
      && RegisterForm.HandleRegister(Classify(Answer(RegisterReply(|users|, req.json, o)))) == RegisterForm.NavigateTo("/login")
  {
    var body := RegisterForm.RegisterBody(username, password, motto);
    JsonRequestDelivered(VersionManager.UpdatedVersion, "/register", body);
    var req := Deliver(RegisterForm.RegisterRequest(VersionManager.UpdatedVersion, username, password, motto));
    GateOnClientVersions(req.headers);
    RegisterBodyStored(username, password, motto, o);
    RegisteredReplyNavigates(|users|, body, o);
  }

  lemma RegisterBodyStored(username: string, password: string, motto: string, o: Oracles)
    ensures NewUser(RegisterForm.RegisterBody(username, password, motto), o) == Some(UserRecord(username, o.hashPassword(password), o.encrypt(motto)))
  {
    var body := RegisterForm.RegisterBody(username, password, motto);
    assert TextField(body, "password") == Some(password);
    assert TextField(body, "motto") == Some(motto);
    assert TextField(body, "username") == Some(username);
  }

  /** The 201 reply of a stored registration leads the form to the login page. */
  lemma RegisteredReplyNavigates(count: nat, body: JsValue, o: Oracles)
    requires NewUser(body, o).Some?
    ensures RegisterForm.HandleRegister(Classify(Answer(RegisterReply(count, body, o)))) == RegisterForm.NavigateTo("/login")
  {
    var r := RegisterReply(count, body, o);
    assert Classify(Answer(r)) == Ok(r.body);
    assert Get(r.body, "message") == Ok(Str(RegisterForm.RegisteredMsg));
  }

  /** Login from an updated client: correct credentials log in with the
      token of the first user of that name; anything else comes back as the
      401, which the form shows as the generic error text, never as "Login
      failed". */
  lemma UpdatedClientLogsIn(users: seq<UserRecord>, name: string, password: string, o: Oracles)
    requires forall id: nat :: o.createToken(id) != ""
    ensures var req := Deliver(LoginForm.LoginRequest(VersionManager.UpdatedVersion, name, password));
      var i := FirstByName(users, name);
      var shown := LoginForm.HandleLogin(Classify(Answer(LoginReply(users, req.json, o))));
      GuardsFor(Login, req.headers, o) == Pass(None)
      && shown == if i.Some? && o.checkPassword(users[i.value].passwordHash, password)
                  then LoginForm.LogIn(Str(o.createToken(i.value + 1)), "/profile")
                  else LoginForm.ShowMessage(LoginForm.ErrorMsg)
  {
    var body := LoginForm.LoginBody(name, password);
    JsonRequestDelivered(VersionManager.UpdatedVersion, "/login", body);
    var req := Deliver(LoginForm.LoginRequest(VersionManager.UpdatedVersion, name, password));
    GateOnClientVersions(req.headers);
    LoginReplyShown(users, name, password, o);
  }

  lemma LoginReplyShown(users: seq<UserRecord>, name: string, password: string, o: Oracles)
    requires forall id: nat :: o.createToken(id) != ""
    ensures var i := FirstByName(users, name);
      LoginForm.HandleLogin(Classify(Answer(LoginReply(users, LoginForm.LoginBody(name, password), o))))
      == if i.Some? && o.checkPassword(users[i.value].passwordHash, password)
         then LoginForm.LogIn(Str(o.createToken(i.value + 1)), "/profile")
         else LoginForm.ShowMessage(LoginForm.ErrorMsg)
  {
    LoginSucceedsIff(users, name, password, o);
    var r := LoginReply(users, LoginForm.LoginBody(name, password), o);
    StaleIffStatus426(r.status, r.body);
  }

  /** The request `sendAudioToServer` issues for a blob. */
  function UploadRequest(version: string, blob: Blob, token: Option<string>): HttpRequest
  {
    RequestFor(version, "/upload", "POST", Form([FormPart("audio", blob, ProfileSpec.UploadFilename)]), true, true, token)
  }

  /** An upload from an updated client whose token names an existing user is
      accepted: the recording's bytes are what the server saves, and the
      reply makes the profile poll exactly the new task. */
  lemma UploadStartsPollingTask(s: ProfileSpec.ProfileState, blob: Blob, token: Option<string>,
                                users: seq<UserRecord>, id: nat, env: Environment, o: Oracles)
    requires ProfileSpec.Inv(s) && s.uploadsInFlight > 0
    requires o.verifyJwt(UploadRequest(VersionManager.UpdatedVersion, blob, token).headers) == Authenticated(id)
    requires 1 <= id <= |users|
    ensures var req := Deliver(UploadRequest(VersionManager.UpdatedVersion, blob, token));
      var c := CheckUpload(users, Some(id), req.files);
      var after := ProfileSpec.OnUploadSettled(s, Answer(UploadReply(c, env.nextTaskId)));
      GuardsFor(Upload, req.headers, o) == Pass(Some(id))
      && c == Accept(FileStorage(ProfileSpec.UploadFilename, Flatten(blob.parts)))
      && after.recordingStatus == ProfileSpec.UploadedMsg
      && after.liveIntervals == map[s.nextHandle := Str(env.nextTaskId)]
  {
    UploadDelivered(VersionManager.UpdatedVersion, blob, token);
    var req := Deliver(UploadRequest(VersionManager.UpdatedVersion, blob, token));
    GateOnClientVersions(req.headers);
    var c := CheckUpload(users, Some(id), req.files);
    assert c == Accept(FileStorage(ProfileSpec.UploadFilename, Flatten(blob.parts)));
    AcceptedUploadPolls(s, c, env.nextTaskId);
  }

  /** An accepted upload's reply makes the profile poll the task it names. */
  lemma AcceptedUploadPolls(s: ProfileSpec.ProfileState, c: UploadCheck, taskId: string)
    requires ProfileSpec.Inv(s) && s.uploadsInFlight > 0 && c.Accept?
    ensures var after := ProfileSpec.OnUploadSettled(s, Answer(UploadReply(c, taskId)));
      after.recordingStatus == ProfileSpec.UploadedMsg
      && after.liveIntervals == map[s.nextHandle := Str(taskId)]
  {
    var outcome := Answer(UploadReply(c, taskId));
    assert Classify(outcome) == Ok(UploadReply(c, taskId).body);
    assert GetOr(Classify(outcome).value, "task_id") == Str(taskId);
    assert ProfileSpec.UploadAccepted(outcome);
    ProfileSpec.UploadSettledOutcomes(s, outcome);
  }

  /** The same upload from a client still at 1.1.0 passes the token check and
      is refused by the version gate: nothing is saved, and the profile shows
      the generic error and does not poll. */
  lemma StaleUploadIsRefused(s: ProfileSpec.ProfileState, blob: Blob, token: Option<string>, o: Oracles)
    requires ProfileSpec.Inv(s) && s.uploadsInFlight > 0
    requires o.verifyJwt(UploadRequest(InitialVersion, blob, token).headers).Authenticated?
    ensures var req := Deliver(UploadRequest(InitialVersion, blob, token));
      var after := ProfileSpec.OnUploadSettled(s, Answer(UpdateRequiredReply));
      GuardsFor(Upload, req.headers, o) == Stop(VersionGate, UpdateRequiredReply)
      && after.recordingStatus == ProfileSpec.UploadErrorMsg
      && after.liveIntervals == s.liveIntervals
  {
    var req := Deliver(UploadRequest(InitialVersion, blob, token));
    GateOnClientVersions(req.headers);
    ProfileSpec.UploadSettledOutcomes(s, Answer(UpdateRequiredReply));
  }

  /** A poll answered from the result store: the profile shows the state's
      status text; SUCCESS and FAILURE stop the polling, SUCCESS also
      refreshing the profile once, and every other state keeps it going. */
  lemma PollFollowsTaskState(s: ProfileSpec.ProfileState, h: ProfileSpec.Handle,
                             users: seq<UserRecord>, id: Option<nat>, task: TaskView)
    requires ProfileSpec.Inv(s) && h in s.pollsInFlight
    requires task.payload.Dict?
    ensures var after := ProfileSpec.OnPollSettled(s, h, Answer(StatusReply(users, id, task)));
      after.transcriptionStatus == Str(StatusText(task.state))
      && (task.state == "SUCCESS" || task.state == "FAILURE" ==> after.liveIntervals == map[])
      && (task.state != "SUCCESS" && task.state != "FAILURE" ==> after.liveIntervals == s.liveIntervals)
      && after.profileRefreshes == s.profileRefreshes + (if task.state == "SUCCESS" then 1 else 0)
  {
    var outcome := Answer(StatusReply(users, id, task));
    StatusEchoesState(users, id, task);
    ProfileSpec.PollSettledOutcomes(s, h, outcome);
  }

  /** A failed Celery task keeps an exception as its `info`, so its poll is
      answered with a server error: the profile stops polling with the
      status-check error text instead of the transcription-failed one, and
      the displayed transcription status is not updated. */
  lemma FailedTaskShowsPollError(s: ProfileSpec.ProfileState, h: ProfileSpec.Handle,
                                 users: seq<UserRecord>, id: Option<nat>, text: string)
    requires ProfileSpec.Inv(s) && h in s.pollsInFlight
    ensures var after := ProfileSpec.OnPollSettled(s, h, Answer(StatusReply(users, id, TaskView("FAILURE", Raised(text)))));
      after.recordingStatus == ProfileSpec.PollErrorMsg
      && after.liveIntervals == map[]
      && after.transcriptionStatus == s.transcriptionStatus
  {
    FailureWithExceptionIsServerError(users, id, text);
    ProfileSpec.PollSettledOutcomes(s, h, Answer(InternalServerError));
  }
}
