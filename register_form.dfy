/** The registration form (Register.tsx): what `handleRegister` sends and
    what it does with the settled request, a navigation to the login page or
    an error text. */
module RegisterForm {
  import opened Js
  import opened ApiService

  const RegisteredMsg := "User registered successfully"
  const FailedMsg := "Registration failed. Please try again."
  const ErrorMsg := "An error occurred. Please try again."

  datatype Outcome = NavigateTo(path: string) | ShowError(text: string)

  function RegisterBody(username: string, password: string, motto: string): JsValue
  {
    Obj(map["username" := Str(username), "password" := Str(password), "motto" := Str(motto)])
  }

  /** The request `handleRegister` issues: an unauthenticated JSON POST to
      `/register` carrying the three fields. */
  function RegisterRequest(version: string, username: string, password: string, motto: string): (req: HttpRequest)
    ensures req.url == BaseUrl + "/register" && req.verb == "POST"
    ensures req.body == JsonText(RegisterBody(username, password, motto))
    ensures req.headers == map["app-version" := version, "Content-Type" := "application/json"]
  {
    RequestFor(version, "/register", "POST", RegisterBody(username, password, motto), false, false, None)
  }

  /** `handleRegister` once the request settles: the login page exactly when
      the reply's `message` is the registration text (strict equality), the
      failure text for any other message, and the generic error text when
      the request throws or the reply is null. */
  function HandleRegister(settled: Result<JsValue>): (o: Outcome)
    ensures o.NavigateTo? <==> settled.Ok? && Get(settled.value, "message") == Ok(Str(RegisteredMsg))
    ensures o.NavigateTo? ==> o.path == "/login"
    ensures o == ShowError(FailedMsg) <==>
      settled.Ok? && Get(settled.value, "message").Ok? && Get(settled.value, "message").value != Str(RegisteredMsg)
    ensures o == ShowError(ErrorMsg) <==> settled.Thrown? || Get(settled.value, "message").Thrown?
  {
    match settled
    case Thrown(_) => ShowError(ErrorMsg)
    case Ok(data) =>
      match Get(data, "message")
      case Thrown(_) => ShowError(ErrorMsg)
      case Ok(message) => if message == Str(RegisteredMsg) then NavigateTo("/login") else ShowError(FailedMsg)
  }

  /** Against a server that answers: only a success status whose body carries
      the exact registration message leads to the login page, and every
      failure status, 426 included, shows the generic error text rather than
      a text of its own. */
  lemma RegisterOutcomeByStatus(status: int, json: JsValue)
    ensures HandleRegister(Classify(Responded(status, json))).NavigateTo? <==>
      IsOkStatus(status) && json.Obj? && "message" in json.fields && json.fields["message"] == Str(RegisteredMsg)
    ensures !IsOkStatus(status) ==> HandleRegister(Classify(Responded(status, json))) == ShowError(ErrorMsg)
  {
  }
}
