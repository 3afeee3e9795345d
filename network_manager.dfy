/**
 * `NetworkManager` as the sequence of steps the middleware takes: it reads
 * the auth snapshot and the retained config from the store, builds or reuses
 * a request config, hands it to the transport, and resolves the outcome
 * while dispatching actions into the store.
 */
module NetworkMiddleware {
  import opened Wrappers
  import opened JsValue
  import opened Http
  import opened ReduxStore
  import opened NetworkSpec
  import AuthReducer
  import ErrorReducer
  import ToastReducer

  /**
   * The request-building half: headers and the body's token are written in
   * place, and `config.data` is set only for non-GET requests.
   */
  method BuildConfig(p: Platform, call: Call, auth: AuthReducer.AuthState) returns (r: Result<RequestConfig>)
    ensures r == BuildRequest(p, call, auth)
  {
    var params := Defaulted(call.apiParams);
    var body := Defaulted(call.apiBody);
    var headers := map["Content-Type" := if Truthy(call.apiFormData) then MULTIPART else JSON_TYPE];
    if params.Null? {
      return Err(TYPE_ERROR);
    }
    var url := p.baseUrl + call.api.path + ParamsSuffix(p, params);
    if auth.isAuthenticated {
      headers := headers["Authorization" := ToText(auth.accessToken)];
    }
    var config := RequestConfig(call.api.verb, url, headers, TIMEOUT, NoData);
    if auth.isAuthenticated {
      match body {
        case Obj(m) => body := Obj(m["token" := auth.accessToken]);
        case Arr(_) =>
        case _ => return Err(TYPE_ERROR);
      }
    }
    assert WithToken(Defaulted(call.apiBody), auth) == Ok(body);
    if call.api.verb != GET {
      var encryptedBody := p.encrypt(p.stringify(body));
      if Strings.Contains(call.api.path, REGISTER_ROUTE) {
        var parts: seq<FormPart> := [];
        if HasFormFields(call.apiFormData) {
          var images := Get(call.apiFormData, "profileImages");
          if !images.Arr? {
            return Err(TYPE_ERROR);
          }
          var i := 0;
          while i < |images.items|
            invariant 0 <= i <= |images.items|
            invariant parts == ImageParts(images.items[..i])
          {
            parts := parts + [FormPart("profileImages", images.items[i])];
            i := i + 1;
          }
          assert images.items[..i] == images.items;
          parts := parts + [FormPart("profilePic", Get(call.apiFormData, "profile")),
                            FormPart("securityFiles", Get(call.apiFormData, "securityFiles"))];
          parts := parts + [FormPart("reqData", Str(encryptedBody))];
          assert parts == ImageParts(images.items)
            + [FormPart("profilePic", Get(call.apiFormData, "profile")),
               FormPart("securityFiles", Get(call.apiFormData, "securityFiles")),
               FormPart("reqData", Str(encryptedBody))];
        } else {
          parts := [FormPart("reqData", Str(encryptedBody))];
        }
        config := config.(data := Form(parts));
        assert NonGetPayload(call.api.path, call.apiFormData, encryptedBody) == Ok(Form(parts));
      } else if Strings.Contains(call.api.path, UPDATE_PROFILE_ROUTE) {
        if HasFormFields(call.apiFormData) {
          config := config.(data := Form([FormPart("profilePic", call.apiFormData), FormPart("reqData", Str(encryptedBody))]));
        } else {
          config := config.(data := JsonBody(encryptedBody));
        }
      } else {
        config := config.(data := JsonBody(encryptedBody));
      }
      assert NonGetPayload(call.api.path, call.apiFormData, encryptedBody) == Ok(config.data);
    }
    return Ok(config);
  }

  /** `dispatch(a)`, recording the action in the ghost list of this call's actions. */
  method Emit(store: Store, ghost s0: StoreState, ghost log0: seq<Action>, ghost acts: seq<Action>, a: Action)
    returns (ghost acts': seq<Action>)
    requires store.State() == Replay(s0, acts) && store.log == log0 + acts
    modifies store, store.auth, store.errorScreen, store.toast, store.popup, store.loader, store.lang
    ensures acts' == acts + [a]
    ensures store.State() == Replay(s0, acts') && store.log == log0 + acts'
  {
    store.Dispatch(a);
    ReplaySnoc(s0, acts, a);
    acts' := acts + [a];
  }

  /** The 401 handling both halves share: log out, and toast unless skipped. */
  method HandleSession(store: Store, ghost s0: StoreState, ghost log0: seq<Action>, ghost acts: seq<Action>,
                       code: Value, isAuthenticated: bool, skipToast: bool)
    returns (ghost acts': seq<Action>)
    requires store.State() == Replay(s0, acts) && store.log == log0 + acts
    modifies store, store.auth, store.errorScreen, store.toast, store.popup, store.loader, store.lang
    ensures acts' == acts + SessionActions(code, isAuthenticated, skipToast)
    ensures store.State() == Replay(s0, acts') && store.log == log0 + acts'
  {
    acts' := acts;
    if code == Num(401) && isAuthenticated {
      acts' := Emit(store, s0, log0, acts', Auth(AuthReducer.Logout));
      if !skipToast {
        acts' := Emit(store, s0, log0, acts', Toast(ToastReducer.ShowToast(SessionExpiredToast)));
      }
    }
  }

  /**
   * The failure half: the offline short cut, then the code, message and
   * response taken from the thrown error, then the session and error toasts.
   */
  method HandleFailure(store: Store, ghost s0: StoreState, ghost log0: seq<Action>, p: Platform,
                       tempRecentConfig: RequestConfig, result: Transport, isOnline: bool,
                       isAuthenticated: bool, skipToast: bool, skipErrorScreen: bool)
    returns (r: NetworkResponse, ghost acts: seq<Action>)
    requires result.Thrown?
    requires store.State() == s0 && store.log == log0
    modifies store, store.auth, store.errorScreen, store.toast, store.popup, store.loader, store.lang
    ensures r == ResolveThrown(p, tempRecentConfig, result, isOnline, isAuthenticated, skipToast, skipErrorScreen).0
    ensures acts == ResolveThrown(p, tempRecentConfig, result, isOnline, isAuthenticated, skipToast, skipErrorScreen).1
    ensures store.State() == Replay(s0, acts) && store.log == log0 + acts
  {
    acts := [];
    var message: Value := Str("");
    var data: Value := Null;
    var response: Value := Null;
    var success: Value := Bool(false);
    var code: Value := Num(500);
    if !isOnline && !skipErrorScreen {
      acts := Emit(store, s0, log0, acts, ErrorScreen(ErrorReducer.ShowErrorScreen(
        ErrorReducer.ErrorPayload(OFFLINE_TITLE, OFFLINE_MESSAGE, "Try again", Some(tempRecentConfig)))));
      assert acts == [ErrorScreen(ErrorReducer.ShowErrorScreen(OfflinePayload(tempRecentConfig)))];
      return NetworkResponse(success, data, Str(NO_INTERNET), code, Str(NO_INTERNET)), acts;
    }
    var errorResponse := result.response;
    if errorResponse.Some? && Truthy(errorResponse.value.data) {
      var decrypted := Decode(p, Get(errorResponse.value.data, "data"));
      if decrypted.Some? {
        var decryptResponse := decrypted.value;
        code := Or(Get(Get(decryptResponse, "response"), "status"), Or(Num(errorResponse.value.status), Num(500)));
        message := Or(Get(Get(decryptResponse, "response"), "message"), Str(NETWORK_ERROR));
        response := decryptResponse;
      } else {
        code := Or(Num(errorResponse.value.status), Num(500));
        message := Or(Get(errorResponse.value.data, "message"), Or(Str(errorResponse.value.statusText), Str(NETWORK_ERROR)));
        response := errorResponse.value.data;
      }
    } else {
      code := Num(500);
      message := Or(Str(result.message), Str(NETWORK_ERROR));
      response := Null;
    }
    assert Failure(code, message, response) == FailureFields(p, result.response, result.message);
    acts := HandleSession(store, s0, log0, acts, code, isAuthenticated, skipToast);
    if code != Num(401) && !skipToast {
      acts := Emit(store, s0, log0, acts, Toast(ToastReducer.ShowToast(ToastReducer.ToastPayload(
        ToastReducer.Error, Some("Error"), Or(Get(response, "msg"), Or(message, Str("Something went wrong"))), 3000))));
    }
    return NetworkResponse(success, response, Str(result.display), code, message), acts;
  }

  /** The success half: decrypt and parse the body, then hide the error screen on 200/201. */
  method HandleDelivered(store: Store, ghost s0: StoreState, ghost log0: seq<Action>, p: Platform,
                         result: Transport, isAuthenticated: bool, skipToast: bool)
    returns (r: NetworkResponse, ghost acts: seq<Action>)
    requires result.Delivered?
    requires store.State() == s0 && store.log == log0
    modifies store, store.auth, store.errorScreen, store.toast, store.popup, store.loader, store.lang
    ensures r == ResolveDelivered(p, result, isAuthenticated, skipToast).0
    ensures acts == ResolveDelivered(p, result, isAuthenticated, skipToast).1
    ensures store.State() == Replay(s0, acts) && store.log == log0 + acts
  {
    acts := [];
    var data: Value := Null;
    var success: Value := Bool(false);
    var decrypted := Decode(p, Get(result.body, "data"));
    if decrypted.None? {
      return DecryptFailed, acts;
    }
    var decryptResponse := decrypted.value;
    var code := Or(Get(Get(decryptResponse, "response"), "status"), Num(result.status));
    var message := Or(Get(Get(decryptResponse, "response"), "message"), Str(""));
    var response := Get(Get(decryptResponse, "response"), "data");
    var error := Or(Get(Get(decryptResponse, "response"), "error"), Str(""));
    if result.status == 200 || result.status == 201 {
      data := response;
      success := Coalesce(Get(decryptResponse, "status"), Bool(true));
      acts := Emit(store, s0, log0, acts, ErrorScreen(ErrorReducer.HideErrorScreen));
    }
    ghost var hidden := acts;
    assert hidden == if IsOkStatus(result.status) then [ErrorScreen(ErrorReducer.HideErrorScreen)] else [];
    acts := HandleSession(store, s0, log0, acts, code, isAuthenticated, skipToast);
    assert Decode(p, Get(result.body, "data")) == Some(decryptResponse);
    return NetworkResponse(success, data, error, code, message), acts;
  }

  /**
   * One call. Its outcome, the config it sent and the actions it dispatched
   * are those of `Plan` from the store state the call started in.
   */
  method NetworkManager(store: Store, p: Platform, call: Call, isOnline: bool, transport: RequestConfig -> Transport)
    returns (out: Outcome, sent: Option<RequestConfig>)
    modifies store, store.auth, store.errorScreen, store.toast, store.popup, store.loader, store.lang
    ensures var e := Plan(old(store.State()), p, call, isOnline, transport);
      out == e.outcome && sent == e.sent
      && store.State() == Replay(old(store.State()), e.actions)
      && store.log == old(store.log) + e.actions
  {
    ghost var s0 := store.State();
    ghost var log0 := store.log;
    var auth := store.auth.State();
    var networkConfig := store.errorScreen.networkConfig;
    var tempRecentConfig: RequestConfig;
    if networkConfig.Some? {
      tempRecentConfig := networkConfig.value;
    } else {
      var built := BuildConfig(p, call, auth);
      if built.Err? {
        return Rejected(built.error), None;
      }
      tempRecentConfig := built.value;
    }
    assert ConfigFor(s0, p, call) == Ok(tempRecentConfig);
    sent := Some(tempRecentConfig);

    var result := transport(tempRecentConfig);
    var r: NetworkResponse;
    ghost var acts: seq<Action>;
    if result.Thrown? {
      r, acts := HandleFailure(store, s0, log0, p, tempRecentConfig, result, isOnline,
                               auth.isAuthenticated, call.skipToast, call.skipErrorScreen);
    } else {
      // A delivered response object is always truthy, so the source's fallback return is never reached.
      r, acts := HandleDelivered(store, s0, log0, p, result, auth.isAuthenticated, call.skipToast);
    }
    out := Resolved(r);
  }
}
