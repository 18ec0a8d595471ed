/** The login form (Login.tsx): what `handleLogin` sends and what it does
    with the settled request, storing the token and going to the profile
    page, or a message. */
module LoginForm {
  import opened Js
  import opened ApiService

  const LoginFailedMsg := "Login failed. Please try again."
  const ErrorMsg := "An error occurred. Please try again."

  /** `LogIn` hands the token to the session context and then navigates. */
  datatype Outcome = LogIn(token: JsValue, path: string) | ShowMessage(text: string)

  function LoginBody(username: string, password: string): JsValue
  {
    Obj(map["username" := Str(username), "password" := Str(password)])
  }

  /** The request `handleLogin` issues: an unauthenticated JSON POST to
      `/login` with the two fields. */
  function LoginRequest(version: string, username: string, password: string): (req: HttpRequest)
    ensures req.url == BaseUrl + "/login" && req.verb == "POST"
    ensures req.body == JsonText(LoginBody(username, password))
    ensures req.headers == map["app-version" := version, "Content-Type" := "application/json"]
  {
    RequestFor(version, "/login", "POST", LoginBody(username, password), false, false, None)
  }

  /** `handleLogin` once the request settles: a truthy `token` logs in with
      that token and goes to the profile page, a falsy one shows the login
      failure text, and a thrown request (or a null reply) the generic
      error text. */
  function HandleLogin(settled: Result<JsValue>): (o: Outcome)
    ensures o.LogIn? <==> settled.Ok? && Get(settled.value, "token").Ok? && Truthy(Get(settled.value, "token").value)
    ensures o.LogIn? ==> o.token == GetOr(settled.value, "token") && o.path == "/profile"
    ensures o == ShowMessage(LoginFailedMsg) <==>
      settled.Ok? && Get(settled.value, "token").Ok? && !Truthy(Get(settled.value, "token").value)
    ensures o == ShowMessage(ErrorMsg) <==> settled.Thrown? || Get(settled.value, "token").Thrown?
  {
    match settled
    case Thrown(_) => ShowMessage(ErrorMsg)
    case Ok(data) =>
      match Get(data, "token")
      case Thrown(_) => ShowMessage(ErrorMsg)
      case Ok(token) => if Truthy(token) then LogIn(token, "/profile") else ShowMessage(LoginFailedMsg)
  }

  /** Refused credentials come back as a failure status, which the request
      layer throws: the form shows the generic error text, never the login
      failure text. That text appears only for a success reply without a
      truthy token. */
  lemma FailureStatusReachesCatch(status: int, json: JsValue)
    ensures !IsOkStatus(status) ==> HandleLogin(Classify(Responded(status, json))) == ShowMessage(ErrorMsg)
    ensures HandleLogin(Classify(Responded(status, json))) == ShowMessage(LoginFailedMsg) <==>
      IsOkStatus(status) && !json.Null? && !json.Undefined? && !Truthy(GetOr(json, "token"))
  {
  }
}
