/**
 * What one `NetworkManager` call does, as pure functions of the store state
 * it reads, the platform services it uses and what the transport returns:
 * the request it builds (or the retained one it resends), the response it
 * resolves to, and the store actions it dispatches, in order.
 */
module NetworkSpec {
  import opened Wrappers
  import opened Strings
  import opened JsValue
  import opened Http
  import opened ReduxStore
  import AuthReducer
  import ErrorReducer
  import ToastReducer

  /**
   * The services the middleware calls but whose code is not modelled: the
   * base URL, the AES-and-base64 `encryptData`, `decryptData` (None when it
   * throws), `JSON.stringify` and `JSON.parse` (None when it throws).
   */
  datatype Platform = Platform(
    baseUrl: string,
    encrypt: string -> string,
    decrypt: string -> Option<string>,
    stringify: Value -> string,
    parse: string -> Option<Value>)

  /** The argument object of one call; `Undefined` stands for an omitted property. */
  datatype Call = Call(
    api: Endpoint,
    apiParams: Value,
    apiBody: Value,
    apiFormData: Value,
    skipToast: bool,
    skipErrorScreen: bool)

  /** The resolved `NetworkResponse`; each field holds whatever JavaScript value the code put there. */
  datatype NetworkResponse = NetworkResponse(success: Value, data: Value, error: Value, code: Value, message: Value)

  /** The promise either resolves to a response or rejects with a TypeError raised while building the request. */
  datatype Outcome = Resolved(response: NetworkResponse) | Rejected(reason: string)

  /** The whole observable effect of a call: its outcome, the actions it dispatched and the request it sent. */
  datatype Effect = Effect(outcome: Outcome, actions: seq<Action>, sent: Option<RequestConfig>)

  const TYPE_ERROR := "TypeError"
  const TIMEOUT := 10000
  const MULTIPART := "multipart/form-data"
  const JSON_TYPE := "application/json"
  const NO_INTERNET := "No internet connection"
  const NETWORK_ERROR := "Network Error"
  const OFFLINE_TITLE := "Oops!"
  const OFFLINE_MESSAGE := "It seems your internet connection is off. Please check your connection and try again!"

  /** The fixed response of a success path whose body cannot be decrypted or parsed. */
  const DecryptFailed := NetworkResponse(Bool(false), Null, Str("Failed to decrypt response"), Num(500), Str("Response decryption failed"))

  /** The response of a failure while offline with the error screen enabled. */
  const OfflineResponse := NetworkResponse(Bool(false), Null, Str(NO_INTERNET), Num(500), Str(NO_INTERNET))

  const SessionExpiredToast := ToastReducer.ToastPayload(
    ToastReducer.Error, Some("Session Expired"), Str("You've been logged out. Please login again."), 3000)

  /** A destructuring default `= {}` applies to an omitted argument only. */
  function Defaulted(v: Value): (r: Value)
    ensures v.Undefined? ==> r == Obj(map[])
    ensures !v.Undefined? ==> r == v
  {
    if v.Undefined? then Obj(map[]) else v
  }

  /** `decryptData` of `${v}` followed by `JSON.parse`; None when either throws. */
  function Decode(p: Platform, v: Value): Option<Value> {
    match p.decrypt(ToText(v))
    case None => None
    case Some(t) => p.parse(t)
  }

  /** The `?reqData=` query suffix: present exactly when `params` has an own key. */
  function ParamsSuffix(p: Platform, params: Value): string {
    if KeyCount(params) > 0 then "?reqData=" + p.encrypt(p.stringify(params)) else ""
  }

  /** The headers: the content type, and the bare access token when authenticated. */
  function Headers(formData: Value, auth: AuthReducer.AuthState): map<string, string> {
    var h := map["Content-Type" := if Truthy(formData) then MULTIPART else JSON_TYPE];
    if auth.isAuthenticated then h["Authorization" := ToText(auth.accessToken)] else h
  }

  /**
   * The body after `body['token'] = accessToken`. An array takes the property but
   * `JSON.stringify` ignores it; assigning to a primitive or to null throws.
   */
  function WithToken(body: Value, auth: AuthReducer.AuthState): Result<Value> {
    if !auth.isAuthenticated then Ok(body)
    else
      match body
      case Obj(m) => Ok(Obj(m["token" := auth.accessToken]))
      case Arr(_) => Ok(body)
      case _ => Err(TYPE_ERROR)
  }

  /** `Boolean(apiFormData) && Object.keys(apiFormData).length > 0`. */
  predicate HasFormFields(formData: Value) {
    Truthy(formData) && KeyCount(formData) > 0
  }

  /** One `profileImages` part per element of the array, in order. */
  function ImageParts(items: seq<Value>): (parts: seq<FormPart>)
    ensures |parts| == |items|
    ensures forall k :: 0 <= k < |items| ==> parts[k] == FormPart("profileImages", items[k])
  {
    seq(|items|, k requires 0 <= k < |items| => FormPart("profileImages", items[k]))
  }

  /** The `data` of a non-GET request, whose encrypted JSON body is `encrypted`. */
  function NonGetPayload(path: string, formData: Value, encrypted: string): Result<Payload> {
    if Contains(path, REGISTER_ROUTE) then
      if HasFormFields(formData) then
        var images := Get(formData, "profileImages");
        if !images.Arr? then Err(TYPE_ERROR)
        else
          Ok(Form(ImageParts(images.items)
                  + [FormPart("profilePic", Get(formData, "profile")),
                     FormPart("securityFiles", Get(formData, "securityFiles")),
                     FormPart("reqData", Str(encrypted))]))
      else Ok(Form([FormPart("reqData", Str(encrypted))]))
    else if Contains(path, UPDATE_PROFILE_ROUTE) && HasFormFields(formData) then
      Ok(Form([FormPart("profilePic", formData), FormPart("reqData", Str(encrypted))]))
    else Ok(JsonBody(encrypted))
  }

  /** The request config a call builds when no retained config exists, or the TypeError it throws. */
  function BuildRequest(p: Platform, call: Call, auth: AuthReducer.AuthState): Result<RequestConfig> {
    var params := Defaulted(call.apiParams);
    if params.Null? then Err(TYPE_ERROR)
    else
      var config := RequestConfig(call.api.verb, p.baseUrl + call.api.path + ParamsSuffix(p, params),
                                  Headers(call.apiFormData, auth), TIMEOUT, NoData);
      var body := WithToken(Defaulted(call.apiBody), auth);
      if body.Err? then Err(body.error)
      else if call.api.verb == GET then Ok(config)
      else
        var payload := NonGetPayload(call.api.path, call.apiFormData, p.encrypt(p.stringify(body.value)));
        if payload.Err? then Err(payload.error) else Ok(config.(data := payload.value))
  }

  /** The config a call sends: the retained one when the error-screen slot holds one, otherwise a fresh one. */
  function ConfigFor(s: StoreState, p: Platform, call: Call): Result<RequestConfig> {
    match s.errorScreen.networkConfig
    case Some(cfg) => Ok(cfg)
    case None => BuildRequest(p, call, s.auth)
  }

  /** The error screen a failure while offline shows; it keeps the config that was sent. */
  function OfflinePayload(cfg: RequestConfig): ErrorReducer.ErrorPayload {
    ErrorReducer.ErrorPayload(OFFLINE_TITLE, OFFLINE_MESSAGE, "Try again", Some(cfg))
  }

  /** Logout, and its toast unless skipped, when the code is exactly 401 and the caller was authenticated. */
  function SessionActions(code: Value, isAuthenticated: bool, skipToast: bool): seq<Action> {
    if code == Num(401) && isAuthenticated then
      [Auth(AuthReducer.Logout)] + (if skipToast then [] else [Toast(ToastReducer.ShowToast(SessionExpiredToast))])
    else []
  }

  /** The code, message and response the failure path derives from the thrown error. */
  datatype Failure = Failure(code: Value, message: Value, response: Value)

  function FailureFields(p: Platform, reply: Option<HttpReply>, errMessage: string): Failure {
    if reply.Some? && Truthy(reply.value.data) then
      var raw := reply.value.data;
      match Decode(p, Get(raw, "data"))
      case Some(dec) =>
        var resp := Get(dec, "response");
        Failure(Or(Get(resp, "status"), Or(Num(reply.value.status), Num(500))),
                Or(Get(resp, "message"), Str(NETWORK_ERROR)), dec)
      case None =>
        Failure(Or(Num(reply.value.status), Num(500)),
                Or(Get(raw, "message"), Or(Str(reply.value.statusText), Str(NETWORK_ERROR))), raw)
    else Failure(Num(500), Or(Str(errMessage), Str(NETWORK_ERROR)), Null)
  }

  /** The generic error toast of a failure whose code is not 401. */
  function ErrorToast(f: Failure): ToastReducer.ToastPayload {
    ToastReducer.ToastPayload(ToastReducer.Error, Some("Error"),
      Or(Get(f.response, "msg"), Or(f.message, Str("Something went wrong"))), 3000)
  }

  /** The actions of a failure other than the offline short cut: the 401 handling, then the error toast for any other code. */
  function FailureActions(f: Failure, isAuthenticated: bool, skipToast: bool): seq<Action> {
    SessionActions(f.code, isAuthenticated, skipToast)
    + (if f.code != Num(401) && !skipToast then [Toast(ToastReducer.ShowToast(ErrorToast(f)))] else [])
  }

  predicate IsOkStatus(status: int) { status == 200 || status == 201 }

  /** The actions of a decoded delivered response: hide the error screen on 200/201, then the 401 handling. */
  function DeliveredActions(status: int, code: Value, isAuthenticated: bool, skipToast: bool): seq<Action> {
    (if IsOkStatus(status) then [ErrorScreen(ErrorReducer.HideErrorScreen)] else [])
    + SessionActions(code, isAuthenticated, skipToast)
  }

  /** The response and actions of a transport failure, given the config that was sent. */
  function ResolveThrown(p: Platform, cfg: RequestConfig, t: Transport, isOnline: bool,
                         isAuthenticated: bool, skipToast: bool, skipErrorScreen: bool): (NetworkResponse, seq<Action>)
    requires t.Thrown?
  {
    if !isOnline && !skipErrorScreen then
      (OfflineResponse,
       [ErrorScreen(ErrorReducer.ShowErrorScreen(OfflinePayload(cfg)))])
    else
      var f := FailureFields(p, t.response, t.message);
      (NetworkResponse(Bool(false), f.response, Str(t.display), f.code, f.message),
       FailureActions(f, isAuthenticated, skipToast))
  }

  /** The response and actions of a delivered HTTP response. */
  function ResolveDelivered(p: Platform, t: Transport, isAuthenticated: bool, skipToast: bool): (NetworkResponse, seq<Action>)
    requires t.Delivered?
  {
    match Decode(p, Get(t.body, "data"))
    case None => (DecryptFailed, [])
    case Some(dec) =>
      var resp := Get(dec, "response");
      var code := Or(Get(resp, "status"), Num(t.status));
      var ok := IsOkStatus(t.status);
      (NetworkResponse(
         if ok then Coalesce(Get(dec, "status"), Bool(true)) else Bool(false),
         if ok then Get(resp, "data") else Null,
         Or(Get(resp, "error"), Str("")),
         code,
         Or(Get(resp, "message"), Str(""))),
       DeliveredActions(t.status, code, isAuthenticated, skipToast))
  }

  /** One whole call, from the store state it starts from. */
  function Plan(s: StoreState, p: Platform, call: Call, isOnline: bool, transport: RequestConfig -> Transport): Effect {
    match ConfigFor(s, p, call)
    case Err(e) => Effect(Rejected(e), [], None)
    case Ok(cfg) =>
      var t := transport(cfg);
      var (r, acts) :=
        if t.Thrown? then ResolveThrown(p, cfg, t, isOnline, s.auth.isAuthenticated, call.skipToast, call.skipErrorScreen)
        else ResolveDelivered(p, t, s.auth.isAuthenticated, call.skipToast);
      Effect(Resolved(r), acts, Some(cfg))
  }
}
