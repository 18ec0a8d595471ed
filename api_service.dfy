/** The client's request layer (APIService.ts): one object holding the
    declared client version, which builds every outbound request (headers
    and body) and classifies every response, turning status 426 into the
    distinguished "Update required" error. `fetch` is not modelled: a request
    yields an `HttpRequest` value, and what the network answers is a
    `FetchOutcome` handed back to `Classify`. */
module ApiService {
  import opened Js

  const BaseUrl := "http://localhost:3002"
  /** The version a fresh client declares ("start with an old version"). */
  const InitialVersion := "1.1.0"

  const UpdateRequired := "Update required"
  const NotOk := "Network response was not ok"

  /** What is handed to `fetch` as `body`: `null`, the value itself, or its JSON text. */
  datatype Wire = NoBody | Raw(value: JsValue) | JsonText(value: JsValue)

  datatype HttpRequest = HttpRequest(url: string, verb: string, headers: map<string, string>, body: Wire)

  /** What `fetch` settles with: a response with its status and parsed JSON, or a rejection. */
  datatype FetchOutcome = Responded(status: int, json: JsValue) | NetworkFailure(message: string)

  /** `localStorage.getItem('token')` is a bearer token only when it is a non-empty string. */
  predicate HasToken(token: Option<string>)
  {
    token.Some? && token.value != ""
  }

  /** The header object `request` builds. */
  function HeadersFor(version: string, auth: bool, isFormData: bool, token: Option<string>): (h: map<string, string>)
    ensures "app-version" in h && h["app-version"] == version
    ensures ("Content-Type" in h) <==> !isFormData
    ensures "Content-Type" in h ==> h["Content-Type"] == "application/json"
    ensures ("Authorization" in h) <==> auth && HasToken(token)
    ensures "Authorization" in h ==> h["Authorization"] == "Bearer " + token.value
    ensures h.Keys <= {"app-version", "Content-Type", "Authorization"}
  {
    var base := map["app-version" := version];
    var typed := if isFormData then base else base["Content-Type" := "application/json"];
    if auth && HasToken(token) then typed["Authorization" := "Bearer " + token.value] else typed
  }

  /** The `body` handed to `fetch`: form data unchanged, any other present body
      as JSON text, and `null` for an absent (falsy) body. */
  function WireBodyFor(body: JsValue, isFormData: bool): (w: Wire)
    ensures isFormData ==> w == Raw(body)
    ensures !isFormData ==> !w.Raw?
    ensures !isFormData ==> (w.JsonText? <==> Truthy(body))
    ensures w.JsonText? ==> w.value == body
  {
    if isFormData then Raw(body) else if Truthy(body) then JsonText(body) else NoBody
  }

  function RequestFor(version: string, endpoint: string, verb: string, body: JsValue,
                      auth: bool, isFormData: bool, token: Option<string>): (req: HttpRequest)
    ensures req.url == BaseUrl + endpoint && req.verb == verb
    ensures req.headers == HeadersFor(version, auth, isFormData, token)
    ensures req.body == WireBodyFor(body, isFormData)
  {
    HttpRequest(BaseUrl + endpoint, verb, HeadersFor(version, auth, isFormData, token), WireBodyFor(body, isFormData))
  }

  /** `response.ok`. */
  predicate IsOkStatus(status: int)
  {
    200 <= status <= 299
  }

  /** How `request` settles once `fetch` has: 426 first, then any other
      non-ok status, then the parsed body; a rejected `fetch` is rethrown. */
  function Classify(outcome: FetchOutcome): (r: Result<JsValue>)
    ensures outcome.Responded? && outcome.status == 426 ==> r == Thrown(UpdateRequired)
    ensures outcome.Responded? && outcome.status != 426 && !IsOkStatus(outcome.status) ==> r == Thrown(NotOk)
    ensures outcome.Responded? && IsOkStatus(outcome.status) ==> r == Ok(outcome.json)
    ensures outcome.NetworkFailure? ==> r == Thrown(outcome.message)
  {
    match outcome
    case NetworkFailure(msg) => Thrown(msg)
    case Responded(status, json) =>
      if status == 426 then Thrown(UpdateRequired)
      else if !IsOkStatus(status) then Thrown(NotOk)
      else Ok(json)
  }

  /** A response is reported as "Update required" exactly when its status is
      426; it is reported as the generic error exactly when it is any other
      failure status. */
  lemma StaleIffStatus426(status: int, json: JsValue)
    ensures Classify(Responded(status, json)) == Thrown(UpdateRequired) <==> status == 426
    ensures Classify(Responded(status, json)) == Thrown(NotOk) <==> status != 426 && !IsOkStatus(status)
    ensures Classify(Responded(status, json)).Ok? <==> IsOkStatus(status)
  {
    assert UpdateRequired != NotOk by { assert |UpdateRequired| != |NotOk|; }
  }

  /** The JSON content type is declared exactly when the body is not passed
      through raw, and a JSON body is only ever sent with it. */
  lemma ContentTypeMatchesBody(version: string, endpoint: string, verb: string, body: JsValue,
                               auth: bool, isFormData: bool, token: Option<string>)
    ensures var req := RequestFor(version, endpoint, verb, body, auth, isFormData, token);
            && (("Content-Type" in req.headers) <==> !req.body.Raw?)
            && (req.body.JsonText? ==> req.headers["Content-Type"] == "application/json")
  {
  }

  /** The process-wide request service: the declared version is its one piece
      of mutable state. */
  class ApiClient {
    const baseUrl: string := BaseUrl
    var appVersion: string

    constructor ()
      ensures appVersion == InitialVersion
    {
      appVersion := InitialVersion;
    }

    method GetAppVersion() returns (v: string)
      ensures v == appVersion
    {
      v := appVersion;
    }

    method UpdateAppVersion(newVersion: string)
      modifies this
      ensures appVersion == newVersion
    {
      appVersion := newVersion;
    }

    /** The header object, built by conditional assignment. */
    method BuildHeaders(auth: bool, isFormData: bool, token: Option<string>) returns (h: map<string, string>)
      ensures h == HeadersFor(appVersion, auth, isFormData, token)
    {
      h := map["app-version" := appVersion];
      if !isFormData {
        h := h["Content-Type" := "application/json"];
      }
      if auth {
        if HasToken(token) {
          h := h["Authorization" := "Bearer " + token.value];
        }
      }
    }

    /** The request `request(endpoint, verb, body, auth, isFormData)` hands
        to `fetch`, with `token` what local storage holds. */
    method Send(endpoint: string, verb: string, body: JsValue, auth: bool, isFormData: bool,
                token: Option<string>) returns (req: HttpRequest)
      ensures req == RequestFor(appVersion, endpoint, verb, body, auth, isFormData, token)
    {
      var headers := BuildHeaders(auth, isFormData, token);
      var wire := if isFormData then Raw(body) else if Truthy(body) then JsonText(body) else NoBody;
      req := HttpRequest(baseUrl + endpoint, verb, headers, wire);
    }
  }

  /** The module-level slot behind `getInstance`. */
  class ApiServiceModule {
    var instance: ApiClient?

    constructor ()
      ensures instance == null
    {
      instance := null;
    }

    method GetInstance() returns (s: ApiClient)
      modifies this
      ensures old(instance) != null ==> s == old(instance)
      ensures old(instance) == null ==> fresh(s) && s.appVersion == InitialVersion
      ensures instance == s
    {
      if instance == null {
        instance := new ApiClient();
      }
      s := instance;
    }

    /** Two successive `getInstance` calls return the same object. */
    method GetInstanceTwice() returns (first: ApiClient, second: ApiClient)
      modifies this
      ensures first == second && instance == first
    {
      first := GetInstance();
      second := GetInstance();
    }
  }
}
