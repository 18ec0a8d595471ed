/** The Flask backend (app.py): the `check_version` gate and which routes it
    guards, the order of the `jwt_required` and `check_version` decorators,
    the login, user and upload decisions, and the mapping from a Celery task
    state to the transcription-status reply.

    Password hashing, token creation and verification, motto encryption and
    the Celery result store are opaque: the hashing, crypto and JWT steps are
    the functions of an `Oracles` value, and the task store is a map in the
    `Environment` of a request. The database is the `users` field of a
    `Server`; a user's id is its position in that list plus one, as
    autoincrement ids without deletions are. */
module Backend {
  import opened Js
  import opened Versions

  // ---------------------------------------------------------------------------
  // Requests, responses and the opaque steps
  // ---------------------------------------------------------------------------

  /** A reply: the status code and the `jsonify`d body. */
  datatype Response = Response(status: int, body: JsValue)

  /** An uploaded file part (`request.files[name]`). */
  datatype FileStorage = FileStorage(filename: string, content: seq<bv8>)

  /** What a handler reads from a request: its headers, the parsed JSON body
      and the uploaded file parts by field name. */
  datatype Request = Request(headers: map<string, string>, json: JsValue, files: map<string, FileStorage>)

  /** The outcome of `jwt_required()`: the token's identity, or the reply the
      JWT library sends instead of running the view. */
  datatype JwtCheck = Authenticated(identity: nat) | Rejected(response: Response)

  /** The opaque steps: bcrypt, Fernet (decryption fails, `None`, on a token
      made under another key), token creation and the JWT check. */
  datatype Oracles = Oracles(
    hashPassword: string -> string,
    checkPassword: (string, string) -> bool,
    encrypt: string -> string,
    decrypt: string -> Option<string>,
    createToken: nat -> string,
    verifyJwt: map<string, string> -> JwtCheck)

  /** A stored user; `motto` is the encrypted motto. */
  datatype UserRecord = UserRecord(username: string, passwordHash: string, motto: string)

  /** What the Celery result store says about a task: the dict it stored, an
      exception object (how Celery keeps a failed task's `info`), or nothing
      (`None`, as for a pending task). Stored values are strings. */
  datatype TaskPayload = NoPayload | Dict(fields: map<string, string>) | Raised(exceptionText: string)

  datatype TaskView = TaskView(state: string, payload: TaskPayload)

  /** The parts of a request's surroundings the handlers read: the clock (in
      whole seconds), the id Celery gives the next queued task, and the
      result store. */
  datatype Environment = Environment(now: nat, nextTaskId: string, tasks: map<string, TaskView>)

  /** The reply Flask sends when a view raises. */
  const InternalServerError := Response(500, Null)

  function MessageReply(status: int, text: string): Response
  {
    Response(status, Obj(map["message" := Str(text)]))
  }

  // ---------------------------------------------------------------------------
  // The version gate and the decorators
  // ---------------------------------------------------------------------------

  const MinimumRequiredVersion: Release := [1, 2, 0]
  const CurrentVersion: Release := [1, 2, 0]
  const DefaultVersionHeader := "0.0.0"
  const UpdateClientMsg := "Please update your client application"
  const UpdateRequiredReply := MessageReply(426, UpdateClientMsg)

  /** The `app-version` header, "0.0.0" when absent. */
  function HeaderVersion(headers: map<string, string>): string
  {
    if "app-version" in headers then headers["app-version"] else DefaultVersionHeader
  }

  datatype GateDecision = Proceed | Refuse(response: Response)

  /** `check_version`: a version below the minimum gets the 426 reply and the
      view does not run; a header that is not a release raises. */
  function CheckVersion(headers: map<string, string>): (d: GateDecision)
    ensures d.Refuse? && d.response.status == 426 <==>
      ParseRelease(HeaderVersion(headers)).Some? && Less(ParseRelease(HeaderVersion(headers)).value, MinimumRequiredVersion)
    ensures d.Refuse? ==> d.response == UpdateRequiredReply || d.response == InternalServerError
  {
    match ParseRelease(HeaderVersion(headers))
    case None => Refuse(InternalServerError)
    case Some(v) => if Less(v, MinimumRequiredVersion) then Refuse(UpdateRequiredReply) else Proceed
  }

  datatype Route = Index | Register | Login | UserInfo | Upload | TranscriptionStatus(taskId: string)

  datatype Guard = JwtRequired | VersionGate

  /** The decorators of each view, outermost first. */
  function Guards(route: Route): (gs: seq<Guard>)
    ensures VersionGate in gs <==> route.Register? || route.Login? || route.UserInfo? || route.Upload?
    ensures JwtRequired in gs <==> route.UserInfo? || route.Upload? || route.TranscriptionStatus?
    ensures JwtRequired in gs && VersionGate in gs ==> gs == [JwtRequired, VersionGate]
  {
    match route
    case Index => []
    case Register => [VersionGate]
    case Login => [VersionGate]
    case UserInfo => [JwtRequired, VersionGate]
    case Upload => [JwtRequired, VersionGate]
    case TranscriptionStatus(_) => [JwtRequired]
  }

  datatype GuardOutcome = Pass(identity: Option<nat>) | Stop(guard: Guard, response: Response)

  /** Whether one decorator, run on its own, refuses the request. */
  predicate Refuses(gd: Guard, headers: map<string, string>, verifyJwt: map<string, string> -> JwtCheck)
  {
    match gd
    case JwtRequired => verifyJwt(headers).Rejected?
    case VersionGate => CheckVersion(headers).Refuse?
  }

  /** The reply of a refusing decorator. */
  function Refusal(gd: Guard, headers: map<string, string>, verifyJwt: map<string, string> -> JwtCheck): Response
    requires Refuses(gd, headers, verifyJwt)
  {
    match gd
    case JwtRequired => verifyJwt(headers).response
    case VersionGate => CheckVersion(headers).response
  }

  /** Runs the decorators outermost first; the first one that refuses
      answers, and the view runs only when all of them let it. */
  function RunGuards(gs: seq<Guard>, headers: map<string, string>, verifyJwt: map<string, string> -> JwtCheck, identity: Option<nat>): (g: GuardOutcome)
    ensures g.Stop? ==> g.guard in gs
    ensures g.Stop? && g.guard == VersionGate ==> CheckVersion(headers) == Refuse(g.response)
    ensures g.Stop? && g.guard == JwtRequired ==> verifyJwt(headers) == Rejected(g.response)
    ensures g.Pass? <==> (VersionGate in gs ==> CheckVersion(headers).Proceed?) && (JwtRequired in gs ==> verifyJwt(headers).Authenticated?)
    ensures g.Pass? && JwtRequired in gs ==> g.identity == Some(verifyJwt(headers).identity)
    ensures g.Pass? && JwtRequired !in gs ==> g.identity == identity
    ensures |gs| > 0 && Refuses(gs[0], headers, verifyJwt) ==> g == Stop(gs[0], Refusal(gs[0], headers, verifyJwt))
    decreases |gs|
  {
    if |gs| == 0 then Pass(identity)
    else
      match gs[0]
      case JwtRequired =>
        (match verifyJwt(headers)
         case Rejected(r) => Stop(JwtRequired, r)
         case Authenticated(id) => RunGuards(gs[1..], headers, verifyJwt, Some(id)))
      case VersionGate =>
        (match CheckVersion(headers)
         case Refuse(r) => Stop(VersionGate, r)
         case Proceed => RunGuards(gs[1..], headers, verifyJwt, identity))
  }

  function GuardsFor(route: Route, headers: map<string, string>, o: Oracles): GuardOutcome
  {
    RunGuards(Guards(route), headers, o.verifyJwt, None)
  }

  /** The first decorator that refuses answers, whatever the ones after it
      would have said. */
  lemma {:induction false} FirstRefusalAnswers(gs: seq<Guard>, headers: map<string, string>, verifyJwt: map<string, string> -> JwtCheck, identity: Option<nat>, k: nat)
    requires k < |gs| && Refuses(gs[k], headers, verifyJwt)
    requires forall j :: 0 <= j < k ==> !Refuses(gs[j], headers, verifyJwt)
    ensures RunGuards(gs, headers, verifyJwt, identity) == Stop(gs[k], Refusal(gs[k], headers, verifyJwt))
    decreases k
  {
    if k > 0 {
      assert !Refuses(gs[0], headers, verifyJwt);
      var next := if gs[0] == JwtRequired then Some(verifyJwt(headers).identity) else identity;
      assert RunGuards(gs, headers, verifyJwt, identity) == RunGuards(gs[1..], headers, verifyJwt, next);
      FirstRefusalAnswers(gs[1..], headers, verifyJwt, next, k - 1);
    }
  }

  /** A client that sends no `app-version` header counts as "0.0.0" and is
      refused on every gated route. */
  lemma MissingHeaderIsStale()
    ensures CheckVersion(map[]) == Refuse(UpdateRequiredReply)
  {
    ParseRender([0, 0, 0]);
    assert Render([0, 0, 0]) == DefaultVersionHeader;
  }

  /** For a header that is a release, the gate refuses exactly the releases
      below 1.2.0, with the 426 reply. */
  lemma GateIffBelowMinimum(headers: map<string, string>, r: Release)
    requires |r| > 0 && "app-version" in headers && headers["app-version"] == Render(r)
    ensures CheckVersion(headers) == (if Less(r, MinimumRequiredVersion) then Refuse(UpdateRequiredReply) else Proceed)
  {
    ParseRender(r);
  }

  /** The stale client 1.1.0 is refused and the updated client 1.2.0 passes. */
  lemma GateOnClientVersions(headers: map<string, string>)
    requires "app-version" in headers
    ensures headers["app-version"] == "1.1.0" ==> CheckVersion(headers) == Refuse(UpdateRequiredReply)
    ensures headers["app-version"] == "1.2.0" ==> CheckVersion(headers) == Proceed
  {
    ParseRender([1, 1, 0]);
    assert Render([1, 1, 0]) == "1.1.0";
    assert Trim([1, 1, 0]) == [1, 1];
    ParseRender([1, 2, 0]);
    assert Render([1, 2, 0]) == "1.2.0";
    assert Trim([1, 2, 0]) == [1, 2];
  }

  /** Versions compare as numbers with trailing zeros ignored: "1.2" is the
      minimum itself, and 1.10.0 is above it although it sorts lower as text. */
  lemma GateComparesNumerically()
    ensures CheckVersion(map["app-version" := "1.2"]) == Proceed
    ensures CheckVersion(map["app-version" := "1.10.0"]) == Proceed
  {
    ParseRender([1, 2]);
    assert Render([1, 2]) == "1.2";
    assert Trim([1, 2, 0]) == [1, 2];
    ParseRender([1, 10, 0]);
    assert Render([1, 10, 0]) == "1.10.0";
    assert Trim([1, 10, 0]) == [1, 10];
  }

  /** `/` and `/transcription_status/<id>` are not behind the gate: whatever
      the version header, no reply of theirs comes from it. */
  lemma UngatedRoutesNeverRefuseVersion(route: Route, headers: map<string, string>, o: Oracles)
    requires route.Index? || route.TranscriptionStatus?
    ensures var g := GuardsFor(route, headers, o); !(g.Stop? && g.guard == VersionGate)
    ensures route.Index? ==> GuardsFor(route, headers, o) == Pass(None)
  {
  }

  /** On `/user` and `/upload` the token is checked first: a rejected token
      gets the JWT library's reply even from a stale client. */
  lemma JwtCheckedBeforeVersion(route: Route, headers: map<string, string>, o: Oracles)
    requires route.UserInfo? || route.Upload?
    requires o.verifyJwt(headers).Rejected?
    ensures GuardsFor(route, headers, o) == Stop(JwtRequired, o.verifyJwt(headers).response)
  {
  }

  /** On a gated route, a client whose version is below the minimum and whose
      token (where one is required) is accepted gets the 426 reply. */
  lemma StaleClientRefused(route: Route, headers: map<string, string>, o: Oracles, v: Release)
    requires VersionGate in Guards(route)
    requires ParseRelease(HeaderVersion(headers)) == Some(v) && Less(v, MinimumRequiredVersion)
    requires JwtRequired in Guards(route) ==> o.verifyJwt(headers).Authenticated?
    ensures GuardsFor(route, headers, o) == Stop(VersionGate, UpdateRequiredReply)
  {
  }

  // ---------------------------------------------------------------------------
  // The views' decisions
  // ---------------------------------------------------------------------------

  const RegisteredMsg := "User registered successfully"
  const InvalidCredentialsMsg := "Invalid credentials"
  const UserNotFoundMsg := "User not found"
  const AuthenticationFailedMsg := "Authentication failed"
  const NoAudioMsg := "No audio file provided"
  const NoFileSelectedMsg := "No audio file selected"
  const ProcessingErrorMsg := "Error processing audio file"
  const UploadStartedMsg := "Audio uploaded and transcription started"
  const UploadFolder := "uploads"

  function IndexReply(): (r: Response)
    ensures r.status == 200 && r.body == Obj(map["status" := Num(200)])
  {
    Response(200, Obj(map["status" := Num(200)]))
  }

  /** `data[key]` on the JSON body: `None` when it raises (no such key, or a
      body that is not an object). */
  function Field(data: JsValue, key: string): Option<JsValue>
  {
    if data.Obj? && key in data.fields then Some(data.fields[key]) else None
  }

  /** `data[key]` used where a string is needed (hashing, encryption). */
  function TextField(data: JsValue, key: string): Option<string>
  {
    match Field(data, key)
    case Some(Str(s)) => Some(s)
    case _ => None
  }

  /** `User.query.get(id)`. */
  function UserAt(users: seq<UserRecord>, id: Option<nat>): (u: Option<UserRecord>)
    ensures u.Some? <==> id.Some? && 1 <= id.value <= |users|
    ensures u.Some? ==> u.value == users[id.value - 1]
  {
    if id.Some? && 1 <= id.value <= |users| then Some(users[id.value - 1]) else None
  }

  /** `User.query.filter_by(username=name).first()`, as a list position. */
  function FirstByName(users: seq<UserRecord>, name: string): (i: Option<nat>)
    ensures i.Some? ==> i.value < |users| && users[i.value].username == name
    ensures i.Some? ==> forall j :: 0 <= j < i.value ==> users[j].username != name
    ensures i.None? ==> forall j :: 0 <= j < |users| ==> users[j].username != name
    decreases |users|
  {
    if |users| == 0 then None
    else if users[0].username == name then Some(0)
    else
      match FirstByName(users[1..], name)
      case None => None
      case Some(k) => Some(k + 1)
  }

  /** The user `register` inserts, or `None` when reading the body raises. */
  function NewUser(data: JsValue, o: Oracles): (u: Option<UserRecord>)
    ensures u.Some? <==> TextField(data, "password").Some? && TextField(data, "motto").Some? && TextField(data, "username").Some?
    ensures u.Some? ==>
      && u.value.username == TextField(data, "username").value
      && u.value.passwordHash == o.hashPassword(TextField(data, "password").value)
      && u.value.motto == o.encrypt(TextField(data, "motto").value)
  {
    match (TextField(data, "password"), TextField(data, "motto"), TextField(data, "username"))
    case (Some(p), Some(m), Some(n)) => Some(UserRecord(n, o.hashPassword(p), o.encrypt(m)))
    case _ => None
  }

  /** The `register` reply when `|users|` users existed before. */
  function RegisterReply(count: nat, data: JsValue, o: Oracles): (r: Response)
    ensures r.status == 201 <==> NewUser(data, o).Some?
    ensures r.status != 201 ==> r == InternalServerError
    ensures r.status == 201 ==> r.body == Obj(map["message" := Str(RegisteredMsg), "token" := Str(o.createToken(count + 1))])
  {
    if NewUser(data, o).Some? then
      Response(201, Obj(map["message" := Str(RegisteredMsg), "token" := Str(o.createToken(count + 1))]))
    else InternalServerError
  }

  /** `login`: the first user with the name, then the password check (only
      read when such a user exists). */
  function LoginReply(users: seq<UserRecord>, data: JsValue, o: Oracles): (r: Response)
    ensures Field(data, "username").None? ==> r == InternalServerError
    ensures r.status == 200 ==>
      && Field(data, "username").Some? && Field(data, "username").value.Str?
      && FirstByName(users, Field(data, "username").value.s).Some?
      && TextField(data, "password").Some?
      && var i := FirstByName(users, Field(data, "username").value.s).value;
         o.checkPassword(users[i].passwordHash, TextField(data, "password").value)
         && r.body == Obj(map["token" := Str(o.createToken(i + 1))])
    ensures r.status != 200 ==> r == MessageReply(401, InvalidCredentialsMsg) || r == InternalServerError
  {
    match Field(data, "username")
    case None => InternalServerError
    case Some(name) =>
      var i := if name.Str? then FirstByName(users, name.s) else None;
      if i.None? then MessageReply(401, InvalidCredentialsMsg)
      else
        match TextField(data, "password")
        case None => InternalServerError
        case Some(p) =>
          if o.checkPassword(users[i.value].passwordHash, p) then
            Response(200, Obj(map["token" := Str(o.createToken(i.value + 1))]))
          else MessageReply(401, InvalidCredentialsMsg)
  }

  /** Login yields a token exactly when the first user of that name exists and
      the password checks against its hash; the token names that user. Every
      other well-formed login is the 401 "Invalid credentials". */
  lemma LoginSucceedsIff(users: seq<UserRecord>, name: string, password: string, o: Oracles)
    ensures var r := LoginReply(users, Obj(map["username" := Str(name), "password" := Str(password)]), o);
      var i := FirstByName(users, name);
      (r.status == 200 <==> i.Some? && o.checkPassword(users[i.value].passwordHash, password))
      && (r.status == 200 ==> r.body == Obj(map["token" := Str(o.createToken(i.value + 1))]))
      && (r.status != 200 ==> r == MessageReply(401, InvalidCredentialsMsg))
  {
    var data := Obj(map["username" := Str(name), "password" := Str(password)]);
    assert Field(data, "username") == Some(Str(name));
    assert TextField(data, "password") == Some(password);
  }

  /** A login naming an unknown user is refused before the password is read,
      so a body without a password is a 401 rather than an error. */
  lemma UnknownUserNeedsNoPassword(users: seq<UserRecord>, name: string, o: Oracles)
    requires forall j :: 0 <= j < |users| ==> users[j].username != name
    ensures LoginReply(users, Obj(map["username" := Str(name)]), o) == MessageReply(401, InvalidCredentialsMsg)
  {
    var data := Obj(map["username" := Str(name)]);
    assert Field(data, "username") == Some(Str(name));
  }

  /** `/user` for the token's identity: the name and the decrypted motto (null
      for an empty one), 404 for a missing user, and 401 when decryption
      raises. */
  function UserReply(users: seq<UserRecord>, id: Option<nat>, o: Oracles): (r: Response)
    ensures r.status == 404 <==> UserAt(users, id).None?
    ensures r.status == 404 ==> r == MessageReply(404, UserNotFoundMsg)
    ensures r.status == 200 || r.status == 401 || r.status == 404
    ensures UserAt(users, id).Some? ==> var u := UserAt(users, id).value;
      && (u.motto == "" ==> r == Response(200, Obj(map["username" := Str(u.username), "motto" := Null])))
      && (u.motto != "" && o.decrypt(u.motto).Some? ==>
            r == Response(200, Obj(map["username" := Str(u.username), "motto" := Str(o.decrypt(u.motto).value)])))
      && (r.status == 401 <==> u.motto != "" && o.decrypt(u.motto).None?)
    ensures r.status == 401 ==> r == MessageReply(401, AuthenticationFailedMsg)
  {
    match UserAt(users, id)
    case None => MessageReply(404, UserNotFoundMsg)
    case Some(u) =>
      if u.motto == "" then
        Response(200, Obj(map["username" := Str(u.username), "motto" := Null]))
      else
        match o.decrypt(u.motto)
        case None => MessageReply(401, AuthenticationFailedMsg)
        case Some(m) => Response(200, Obj(map["username" := Str(u.username), "motto" := Str(m)]))
  }

  /** The branches of `upload_audio`, in the order they are tried. */
  datatype UploadCheck = UserMissing | NoAudioPart | NoFileSelected | Accept(file: FileStorage) | ProcessingError

  /** A `FileStorage` is truthy when its filename is non-empty. */
  predicate FileTruthy(f: FileStorage)
  {
    f.filename != ""
  }

  function CheckUpload(users: seq<UserRecord>, id: Option<nat>, files: map<string, FileStorage>): (c: UploadCheck)
    ensures c == UserMissing <==> UserAt(users, id).None?
    ensures c == NoAudioPart <==> UserAt(users, id).Some? && "audio" !in files
    ensures c == NoFileSelected <==> UserAt(users, id).Some? && "audio" in files && files["audio"].filename == ""
    ensures c.Accept? <==> UserAt(users, id).Some? && "audio" in files && files["audio"].filename != ""
    ensures c.Accept? ==> c.file == files["audio"]
  {
    if UserAt(users, id).None? then UserMissing
    else if "audio" !in files then NoAudioPart
    else if files["audio"].filename == "" then NoFileSelected
    else if FileTruthy(files["audio"]) then Accept(files["audio"])
    else ProcessingError
  }

  /** The "Error processing audio file" branch cannot be taken: a file that
      passed the empty-filename check is truthy. */
  lemma ProcessingErrorUnreachable(users: seq<UserRecord>, id: Option<nat>, files: map<string, FileStorage>)
    ensures CheckUpload(users, id, files) != ProcessingError
  {
  }

  /** Where an accepted upload is saved: `audio_<user id>_<seconds>.webm`. */
  function UploadPath(id: nat, now: nat): (path: string)
    ensures |path| > |UploadFolder| + 12
    ensures path[..|UploadFolder| + 7] == UploadFolder + "/audio_" && path[|path| - 5..] == ".webm"
  {
    UploadFolder + "/audio_" + NatToString(id) + "_" + NatToString(now) + ".webm"
  }

  function UploadReply(c: UploadCheck, taskId: string): (r: Response)
    ensures r.status == 202 <==> c.Accept?
    ensures r.status == 202 ==> r.body == Obj(map["success" := Bool(true), "message" := Str(UploadStartedMsg), "task_id" := Str(taskId)])
  {
    match c
    case UserMissing => MessageReply(404, UserNotFoundMsg)
    case NoAudioPart => MessageReply(400, NoAudioMsg)
    case NoFileSelected => MessageReply(400, NoFileSelectedMsg)
    case Accept(_) =>
      Response(202, Obj(map["success" := Bool(true), "message" := Str(UploadStartedMsg), "task_id" := Str(taskId)]))
    case ProcessingError => MessageReply(500, ProcessingErrorMsg)
  }

  // ---------------------------------------------------------------------------
  // Transcription status
  // ---------------------------------------------------------------------------

  const ResultUpdatedMsg := "Transcription completed and motto updated"
  const ResultNotFoundMsg := "Transcription result not found"
  const UnknownErrorText := "Unknown error occurred"

  /** `process_audio.AsyncResult(id)`: a task the store does not know is
      reported as PENDING. */
  function AsyncResult(env: Environment, taskId: string): (t: TaskView)
    ensures taskId in env.tasks ==> t == env.tasks[taskId]
    ensures taskId !in env.tasks ==> t.state == "PENDING" && t.payload.NoPayload?
  {
    if taskId in env.tasks then env.tasks[taskId] else TaskView("PENDING", NoPayload)
  }

  /** `payload.get(key)`: only a dict has `get`; anything else raises. */
  function PayloadGet(p: TaskPayload, key: string): Result<Option<string>>
  {
    match p
    case Dict(fields) => Ok(if key in fields then Some(fields[key]) else None)
    case _ => Thrown("AttributeError")
  }

  /** The fixed status text of each state. */
  function StatusText(state: string): (text: string)
    ensures text == "Unknown state" <==> state != "PENDING" && state != "PROCESSING" && state != "SUCCESS" && state != "FAILURE"
    ensures state == "PROCESSING" ==> text == "Transcription is in progress..."
  {
    if state == "PENDING" then "Transcription is pending..."
    else if state == "PROCESSING" then "Transcription is in progress..."
    else if state == "SUCCESS" then "Transcription completed"
    else if state == "FAILURE" then "Transcription failed"
    else "Unknown state"
  }

  /** The transcription a SUCCESS reply writes into the motto of the user
      `id`: a non-empty stored result and an existing user. */
  function MottoUpdate(users: seq<UserRecord>, id: Option<nat>, task: TaskView): (t: Option<string>)
    ensures t.Some? ==> task.state == "SUCCESS" && UserAt(users, id).Some? && t.value != ""
    ensures t.Some? ==> PayloadGet(task.payload, "result") == Ok(Some(t.value))
    ensures task.state == "SUCCESS" && UserAt(users, id).Some? && task.payload.Dict?
      && "result" in task.payload.fields && task.payload.fields["result"] != ""
      ==> t == Some(task.payload.fields["result"])
  {
    if task.state == "SUCCESS" && UserAt(users, id).Some? then
      match PayloadGet(task.payload, "result")
      case Ok(Some(text)) => if text != "" then Some(text) else None
      case _ => None
    else None
  }

  /** The reply of `transcription_status`. */
  function StatusReply(users: seq<UserRecord>, id: Option<nat>, task: TaskView): (r: Response)
    ensures r == InternalServerError <==> (task.state == "SUCCESS" || task.state == "FAILURE") && !task.payload.Dict?
    ensures r != InternalServerError ==> r.status == 200 && r.body.Obj?
    ensures task.state == "FAILURE" && task.payload.Dict? ==>
      "error" in r.body.fields && r.body.fields["error"] == Str(if "error" in task.payload.fields then task.payload.fields["error"] else UnknownErrorText)
  {
    var base := map["state" := Str(task.state), "status" := Str(StatusText(task.state))];
    if task.state == "SUCCESS" then
      match PayloadGet(task.payload, "result")
      case Thrown(_) => InternalServerError
      case Ok(result) =>
        if result.Some? && result.value != "" then
          if UserAt(users, id).Some? then
            Response(200, Obj(base["message" := Str(ResultUpdatedMsg)]["result" := Str(result.value)]))
          else Response(200, Obj(base["message" := Str(UserNotFoundMsg)]))
        else Response(200, Obj(base["message" := Str(ResultNotFoundMsg)]))
    else if task.state == "FAILURE" then
      match PayloadGet(task.payload, "error")
      case Thrown(_) => InternalServerError
      case Ok(e) => Response(200, Obj(base["error" := Str(if e.Some? then e.value else UnknownErrorText)]))
    else if task.state == "PENDING" || task.state == "PROCESSING" then Response(200, Obj(base))
    else Response(200, Obj(base["error" := Str("Unexpected task state")]))
  }

  /** Every reply that is not an error echoes the task's state and the fixed
      status text of that state; an unknown state also carries an error. */
  lemma StatusEchoesState(users: seq<UserRecord>, id: Option<nat>, task: TaskView)
    ensures var r := StatusReply(users, id, task);
      r.status == 200 || r == InternalServerError
    ensures var r := StatusReply(users, id, task);
      r.status == 200 ==> (r.body.Obj? && r.body.fields["state"] == Str(task.state)
        && r.body.fields["status"] == Str(StatusText(task.state)))
    ensures var r := StatusReply(users, id, task);
      task.state !in {"PENDING", "PROCESSING", "SUCCESS", "FAILURE"} ==> r.body.fields["error"] == Str("Unexpected task state")
  {
  }

  /** A SUCCESS reply echoes the transcription exactly when it also writes it
      into the motto; a SUCCESS without a result says so and writes nothing. */
  lemma SuccessReplyMatchesUpdate(users: seq<UserRecord>, id: Option<nat>, task: TaskView)
    requires task.state == "SUCCESS" && task.payload.Dict?
    ensures var r := StatusReply(users, id, task);
      var t := MottoUpdate(users, id, task);
      r.status == 200
      && (t.Some? <==> "result" in r.body.fields)
      && (t.Some? ==> r.body.fields["result"] == Str(t.value) && r.body.fields["message"] == Str(ResultUpdatedMsg))
      && (("result" !in task.payload.fields || task.payload.fields["result"] == "") ==>
            t.None? && r.body.fields["message"] == Str(ResultNotFoundMsg))
  {
  }

  /** Celery keeps a failed task's exception object as its `info`, which has
      no `get`: a FAILURE stored that way is answered with a server error
      rather than the "Transcription failed" reply. */
  lemma FailureWithExceptionIsServerError(users: seq<UserRecord>, id: Option<nat>, text: string)
    ensures StatusReply(users, id, TaskView("FAILURE", Raised(text))) == InternalServerError
    ensures MottoUpdate(users, id, TaskView("FAILURE", Raised(text))).None?
  {
  }

  // ---------------------------------------------------------------------------
  // The server
  // ---------------------------------------------------------------------------

  /** `users` with the motto of user `id` replaced by `encrypted`. */
  function WithMotto(users: seq<UserRecord>, id: nat, encrypted: string): (u: seq<UserRecord>)
    requires 1 <= id <= |users|
    ensures |u| == |users| && u[id - 1].motto == encrypted
    ensures u[id - 1].username == users[id - 1].username && u[id - 1].passwordHash == users[id - 1].passwordHash
    ensures forall j :: 0 <= j < |users| && j != id - 1 ==> u[j] == users[j]
  {
    users[id - 1 := users[id - 1].(motto := encrypted)]
  }

  class Server {
    const oracles: Oracles
    /** The users table, in insertion order. */
    var users: seq<UserRecord>
    /** The upload folder: saved file contents by path. */
    var savedFiles: map<string, seq<bv8>>
    /** The paths handed to `process_audio.delay`, in order. */
    var queued: seq<string>

    constructor (oracles: Oracles)
      ensures this.oracles == oracles && users == [] && savedFiles == map[] && queued == []
    {
      this.oracles := oracles;
      users := [];
      savedFiles := map[];
      queued := [];
    }

    /** `register`: inserts the new user and answers with a token for its id. */
    method RegisterView(data: JsValue) returns (r: Response)
      modifies this`users
      ensures r == RegisterReply(|old(users)|, data, oracles)
      ensures users == old(users) + (if NewUser(data, oracles).Some? then [NewUser(data, oracles).value] else [])
    {
      r := RegisterReply(|users|, data, oracles);
      var u := NewUser(data, oracles);
      if u.Some? {
        users := users + [u.value];
      }
    }

    /** `upload_audio`: an accepted file is saved under its path and queued
        for transcription, and the reply carries the new task's id. */
    method UploadView(id: Option<nat>, files: map<string, FileStorage>, now: nat, taskId: string) returns (r: Response)
      modifies this`savedFiles, this`queued
      ensures var c := CheckUpload(users, id, files);
        r == UploadReply(c, taskId)
        && (c.Accept? ==> savedFiles == old(savedFiles)[UploadPath(id.value, now) := c.file.content]
                          && queued == old(queued) + [UploadPath(id.value, now)])
        && (!c.Accept? ==> savedFiles == old(savedFiles) && queued == old(queued))
    {
      var c := CheckUpload(users, id, files);
      r := UploadReply(c, taskId);
      if c.Accept? {
        var path := UploadPath(id.value, now);
        savedFiles := savedFiles[path := c.file.content];
        queued := queued + [path];
      }
    }

    /** `transcription_status`: a SUCCESS with a result replaces the user's
        motto with the encrypted transcription. */
    method TranscriptionStatusView(id: Option<nat>, task: TaskView) returns (r: Response)
      modifies this`users
      ensures r == StatusReply(old(users), id, task)
      ensures var t := MottoUpdate(old(users), id, task);
        users == if t.Some? then WithMotto(old(users), id.value, oracles.encrypt(t.value)) else old(users)
    {
      r := StatusReply(users, id, task);
      var t := MottoUpdate(users, id, task);
      if t.Some? {
        users := WithMotto(users, id.value, oracles.encrypt(t.value));
      }
    }

    /** A request to `route`: the decorators run first; when one refuses,
        its reply is sent and nothing changes, otherwise the view answers. */
    method Handle(route: Route, req: Request, env: Environment) returns (r: Response)
      modifies this`users, this`savedFiles, this`queued
      ensures var g := GuardsFor(route, req.headers, oracles);
        g.Stop? ==> r == g.response && users == old(users) && savedFiles == old(savedFiles) && queued == old(queued)
      ensures var g := GuardsFor(route, req.headers, oracles);
        g.Pass? ==> match route
          case Index => r == IndexReply() && users == old(users) && savedFiles == old(savedFiles) && queued == old(queued)
          case Register => r == RegisterReply(|old(users)|, req.json, oracles) && savedFiles == old(savedFiles) && queued == old(queued)
            && users == old(users) + (if NewUser(req.json, oracles).Some? then [NewUser(req.json, oracles).value] else [])
          case Login => r == LoginReply(old(users), req.json, oracles) && users == old(users) && savedFiles == old(savedFiles) && queued == old(queued)
          case UserInfo => r == UserReply(old(users), g.identity, oracles) && users == old(users) && savedFiles == old(savedFiles) && queued == old(queued)
          case Upload => var c := CheckUpload(old(users), g.identity, req.files);
            r == UploadReply(c, env.nextTaskId) && users == old(users)
            && (c.Accept? ==> savedFiles == old(savedFiles)[UploadPath(g.identity.value, env.now) := c.file.content]
                              && queued == old(queued) + [UploadPath(g.identity.value, env.now)])
            && (!c.Accept? ==> savedFiles == old(savedFiles) && queued == old(queued))
          case TranscriptionStatus(taskId) => var task := AsyncResult(env, taskId);
            var t := MottoUpdate(old(users), g.identity, task);
            r == StatusReply(old(users), g.identity, task) && savedFiles == old(savedFiles) && queued == old(queued)
            && users == (if t.Some? then WithMotto(old(users), g.identity.value, oracles.encrypt(t.value)) else old(users))
    {
      var g := GuardsFor(route, req.headers, oracles);
      if g.Stop? {
        r := g.response;
        return;
      }
      match route
      case Index =>
        r := IndexReply();
      case Register =>
        r := RegisterView(req.json);
      case Login =>
        r := LoginReply(users, req.json, oracles);
      case UserInfo =>
        r := UserReply(users, g.identity, oracles);
      case Upload =>
        r := UploadView(g.identity, req.files, env.now, env.nextTaskId);
      case TranscriptionStatus(taskId) =>
        r := TranscriptionStatusView(g.identity, AsyncResult(env, taskId));
    }
  }

  /** A user registered under a name nobody had before can log in with the
      same password (given that the hash checks against its own password),
      and the token names the new user. */
  lemma RegisteredUserCanLogin(users: seq<UserRecord>, name: string, password: string, motto: string, o: Oracles)
    requires forall j :: 0 <= j < |users| ==> users[j].username != name
    requires o.checkPassword(o.hashPassword(password), password)
    ensures var data := Obj(map["username" := Str(name), "password" := Str(password), "motto" := Str(motto)]);
      NewUser(data, o).Some?
      && LoginReply(users + [NewUser(data, o).value], Obj(map["username" := Str(name), "password" := Str(password)]), o)
         == Response(200, Obj(map["token" := Str(o.createToken(|users| + 1))]))
  {
    var data := Obj(map["username" := Str(name), "password" := Str(password), "motto" := Str(motto)]);
    assert TextField(data, "password") == Some(password);
    assert TextField(data, "motto") == Some(motto);
    assert TextField(data, "username") == Some(name);
    var after := users + [NewUser(data, o).value];
    assert after[|users|].username == name;
    assert FirstByName(after, name) == Some(|users|);
    LoginSucceedsIff(after, name, password, o);
  }

  /** Appending a user does not change the first match of a name some
      earlier user already has. */
  lemma {:induction false} FirstByNameAppend(users: seq<UserRecord>, extra: UserRecord, i: nat, name: string)
    requires i < |users| && users[i].username == name
    ensures FirstByName(users + [extra], name) == FirstByName(users, name)
    decreases |users|
  {
    if users[0].username != name {
      assert (users + [extra])[1..] == users[1..] + [extra];
      FirstByNameAppend(users[1..], extra, i - 1, name);
    }
  }

  /** Names are not unique here: a second registration under a taken name
      adds a user that login never finds, since it takes the first match. */
  lemma DuplicateNameShadowed(users: seq<UserRecord>, i: nat, name: string, data: JsValue, o: Oracles)
    requires i < |users| && users[i].username == name
    requires NewUser(data, o).Some? && NewUser(data, o).value.username == name
    ensures FirstByName(users + [NewUser(data, o).value], name) == FirstByName(users, name)
    ensures FirstByName(users, name).Some? && FirstByName(users, name).value <= i
  {
    FirstByNameAppend(users, NewUser(data, o).value, i, name);
  }
}
