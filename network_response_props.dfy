/**
 * What one call guarantees as a whole: which request it sends, how it
 * resolves each transport outcome, which actions it dispatches and what the
 * retained-config slot holds afterwards; and what two calls in a row do.
 */
module ResponseProperties {
  import opened Wrappers
  import opened JsValue
  import opened Http
  import opened ReduxStore
  import opened NetworkSpec
  import AuthReducer
  import ErrorReducer
  import ToastReducer

  /** The transport outcome of the request a call sent. */
  function TransportOf(e: Effect, transport: RequestConfig -> Transport): Transport
    requires e.sent.Some?
  {
    transport(e.sent.value)
  }

  /**
   * A retained config is resent verbatim: the call's own api, params, body
   * and form data make no difference, and the promise never rejects.
   */
  lemma RetainedConfigIsResent(s: StoreState, p: Platform, c1: Call, c2: Call, isOnline: bool,
                               transport: RequestConfig -> Transport)
    requires s.errorScreen.networkConfig.Some?
    requires c1.skipToast == c2.skipToast && c1.skipErrorScreen == c2.skipErrorScreen
    ensures Plan(s, p, c1, isOnline, transport).sent == s.errorScreen.networkConfig
    ensures Plan(s, p, c1, isOnline, transport).outcome.Resolved?
    ensures Plan(s, p, c1, isOnline, transport) == Plan(s, p, c2, isOnline, transport)
  {
  }

  /** Without a retained config the call sends the request it builds, and rejects, sending nothing, when building throws. */
  lemma FreshRequestWhenNoneRetained(s: StoreState, p: Platform, call: Call, isOnline: bool,
                                     transport: RequestConfig -> Transport)
    requires s.errorScreen.networkConfig.None?
    ensures var e := Plan(s, p, call, isOnline, transport);
      var b := BuildRequest(p, call, s.auth);
      (b.Ok? ==> e.sent == Some(b.value) && e.outcome.Resolved?)
      && (b.Err? ==> e.sent == None && e.outcome == Rejected(TYPE_ERROR) && e.actions == [])
  {
    var b := BuildRequest(p, call, s.auth);
    if b.Err? {
      RequestFailsWithTypeError(p, call, s.auth);
    }
  }

  lemma RequestFailsWithTypeError(p: Platform, call: Call, auth: AuthReducer.AuthState)
    requires BuildRequest(p, call, auth).Err?
    ensures BuildRequest(p, call, auth).error == TYPE_ERROR
  {
  }

  /** A call rejects only when it had to build its request and building threw; then it does nothing else. */
  lemma RejectsOnlyOnBuildFailure(s: StoreState, p: Platform, call: Call, isOnline: bool,
                                  transport: RequestConfig -> Transport)
    ensures var e := Plan(s, p, call, isOnline, transport);
      (e.outcome.Rejected? <==> s.errorScreen.networkConfig.None? && BuildRequest(p, call, s.auth).Err?)
      && (e.outcome.Rejected? ==> e.actions == [] && e.sent == None)
      && (e.outcome.Resolved? <==> e.sent.Some?)
  {
  }

  /**
   * A failure while offline, with the error screen allowed, shows the error
   * screen holding the sent config and returns the no-connection response;
   * afterwards the slot holds that config.
   */
  lemma OfflineFailureRetainsConfig(s: StoreState, p: Platform, call: Call, transport: RequestConfig -> Transport)
    requires ConfigFor(s, p, call).Ok?
    requires transport(ConfigFor(s, p, call).value).Thrown?
    requires !call.skipErrorScreen
    ensures var e := Plan(s, p, call, false, transport);
      e.outcome == Resolved(OfflineResponse)
      && e.actions == [ErrorScreen(ErrorReducer.ShowErrorScreen(OfflinePayload(e.sent.value)))]
      && Replay(s, e.actions).errorScreen.networkConfig == e.sent
      && Replay(s, e.actions).errorScreen.status
      && Replay(s, e.actions).auth == s.auth
  {
    var e := Plan(s, p, call, false, transport);
    assert e.actions[..0] == [];
  }

  /** The connectivity flag is read before sending but acted on only after the transport has failed, and never when the error screen is skipped. */
  lemma OnlineFlagMattersOnlyOnFailure(s: StoreState, p: Platform, call: Call, transport: RequestConfig -> Transport)
    ensures var e := Plan(s, p, call, true, transport);
      Plan(s, p, call, false, transport) != e ==>
        e.sent.Some? && TransportOf(e, transport).Thrown? && !call.skipErrorScreen
  {
  }

  /** The failure path never succeeds, and its code and message are never falsy. */
  lemma FailureResponse(s: StoreState, p: Platform, call: Call, isOnline: bool, transport: RequestConfig -> Transport)
    requires ConfigFor(s, p, call).Ok?
    requires transport(ConfigFor(s, p, call).value).Thrown?
    ensures var r := Plan(s, p, call, isOnline, transport).outcome.response;
      r.success == Bool(false) && Truthy(r.code) && Truthy(r.message)
  {
    var t := transport(ConfigFor(s, p, call).value);
    if isOnline || call.skipErrorScreen {
      var f := FailureFields(p, t.response, t.message);
      if t.response.Some? && Truthy(t.response.value.data) {
        OrTruthy(Num(t.response.value.status), Num(500));
        OrTruthy(Str(t.response.value.statusText), Str(NETWORK_ERROR));
      }
    }
  }

  /**
   * How the failure path picks its code: 500 with no response body, the
   * HTTP status (500 when it is 0) when the body cannot be decoded, and the
   * decoded `response.status` when it is truthy.
   */
  lemma FailureCode(p: Platform, reply: Option<HttpReply>, errMessage: string)
    ensures var f := FailureFields(p, reply, errMessage);
      (!(reply.Some? && Truthy(reply.value.data)) ==>
         f.code == Num(500) && f.response == Null && f.message == Or(Str(errMessage), Str(NETWORK_ERROR)))
      && (reply.Some? && Truthy(reply.value.data) && Decode(p, Get(reply.value.data, "data")).None? ==>
            f.code == Num(if reply.value.status != 0 then reply.value.status else 500)
            && f.response == reply.value.data)
      && (reply.Some? && Truthy(reply.value.data) && Decode(p, Get(reply.value.data, "data")).Some?
          && Truthy(Get(Get(Decode(p, Get(reply.value.data, "data")).value, "response"), "status")) ==>
            f.code == Get(Get(Decode(p, Get(reply.value.data, "data")).value, "response"), "status"))
  {
  }

  /** The actions of a call whose transport failed, other than the offline short cut. */
  lemma PlanOnFailure(s: StoreState, p: Platform, call: Call, isOnline: bool, transport: RequestConfig -> Transport)
    requires ConfigFor(s, p, call).Ok? && transport(ConfigFor(s, p, call).value).Thrown?
    requires isOnline || call.skipErrorScreen
    ensures var t := transport(ConfigFor(s, p, call).value);
      var f := FailureFields(p, t.response, t.message);
      Plan(s, p, call, isOnline, transport).actions == FailureActions(f, s.auth.isAuthenticated, call.skipToast)
      && Plan(s, p, call, isOnline, transport).outcome.response.code == f.code
  {
  }

  /** The actions of a call whose response was delivered and decoded. */
  lemma PlanOnDecoded(s: StoreState, p: Platform, call: Call, isOnline: bool, transport: RequestConfig -> Transport)
    requires ConfigFor(s, p, call).Ok? && transport(ConfigFor(s, p, call).value).Delivered?
    requires Decode(p, Get(transport(ConfigFor(s, p, call).value).body, "data")).Some?
    ensures var t := transport(ConfigFor(s, p, call).value);
      var dec := Decode(p, Get(t.body, "data")).value;
      var code := Or(Get(Get(dec, "response"), "status"), Num(t.status));
      Plan(s, p, call, isOnline, transport).actions == DeliveredActions(t.status, code, s.auth.isAuthenticated, call.skipToast)
      && Plan(s, p, call, isOnline, transport).outcome.response.code == code
  {
  }

  /** The 401 handling logs out at most once, exactly on code 401 while authenticated, and never touches the error screen. */
  lemma SessionActionsFacts(code: Value, isAuthenticated: bool, skipToast: bool)
    ensures Auth(AuthReducer.Logout) in SessionActions(code, isAuthenticated, skipToast) <==> code == Num(401) && isAuthenticated
    ensures multiset(SessionActions(code, isAuthenticated, skipToast))[Auth(AuthReducer.Logout)] <= 1
    ensures forall a :: a in SessionActions(code, isAuthenticated, skipToast) ==> !a.ErrorScreen?
  {
  }

  /** Logout is dispatched exactly when the caller was authenticated and the resolved code is exactly 401, and then only once. */
  lemma LogoutExactlyOn401(s: StoreState, p: Platform, call: Call, isOnline: bool, transport: RequestConfig -> Transport)
    ensures var e := Plan(s, p, call, isOnline, transport);
      (Auth(AuthReducer.Logout) in e.actions <==>
         s.auth.isAuthenticated && e.outcome.Resolved? && e.outcome.response.code == Num(401))
      && multiset(e.actions)[Auth(AuthReducer.Logout)] <= 1
  {
    var e := Plan(s, p, call, isOnline, transport);
    var isAuth := s.auth.isAuthenticated;
    match ConfigFor(s, p, call) {
      case Err(_) =>
      case Ok(cfg) =>
        var t := transport(cfg);
        if t.Thrown? {
          if isOnline || call.skipErrorScreen {
            var f := FailureFields(p, t.response, t.message);
            assert e.actions == FailureActions(f, isAuth, call.skipToast);
            assert e.outcome.response.code == f.code;
            SessionActionsFacts(f.code, isAuth, call.skipToast);
          }
        } else {
          match Decode(p, Get(t.body, "data")) {
            case None =>
            case Some(dec) =>
              var code := Or(Get(Get(dec, "response"), "status"), Num(t.status));
              assert e.actions == DeliveredActions(t.status, code, isAuth, call.skipToast);
              assert e.outcome.response.code == code;
              SessionActionsFacts(code, isAuth, call.skipToast);
          }
        }
    }
  }

  /** A logout among actions of other slices leaves the auth slice in its initial state. */
  lemma LogoutAmong(s: StoreState, xs: seq<Action>, ys: seq<Action>)
    requires forall k :: 0 <= k < |ys| ==> !ys[k].Auth?
    ensures Replay(s, xs + [Auth(AuthReducer.Logout)] + ys).auth == AuthReducer.Initial
  {
    ReplayAppend(s, xs + [Auth(AuthReducer.Logout)], ys);
    ReplaySnoc(s, xs, Auth(AuthReducer.Logout));
    ReplayAuthUntouched(Replay(s, xs + [Auth(AuthReducer.Logout)]), ys);
  }

  /** A hide followed by actions of other slices leaves the error-screen slice hidden with an empty slot. */
  lemma HideFirst(s: StoreState, ys: seq<Action>)
    requires forall k :: 0 <= k < |ys| ==> !ys[k].ErrorScreen?
    ensures Replay(s, [ErrorScreen(ErrorReducer.HideErrorScreen)] + ys).errorScreen
            == ErrorReducer.Apply(s.errorScreen, ErrorReducer.HideErrorScreen)
  {
    ReplayAppend(s, [ErrorScreen(ErrorReducer.HideErrorScreen)], ys);
    ReplaySnoc(s, [], ErrorScreen(ErrorReducer.HideErrorScreen));
    assert [] + [ErrorScreen(ErrorReducer.HideErrorScreen)] == [ErrorScreen(ErrorReducer.HideErrorScreen)];
    ReplayErrorScreenUntouched(Replay(s, [ErrorScreen(ErrorReducer.HideErrorScreen)]), ys);
  }

  /** A failed call that dispatched logout leaves the auth slice logged out. */
  lemma LogoutOnFailure(s: StoreState, p: Platform, call: Call, isOnline: bool, transport: RequestConfig -> Transport)
    requires ConfigFor(s, p, call).Ok? && transport(ConfigFor(s, p, call).value).Thrown?
    requires isOnline || call.skipErrorScreen
    requires Auth(AuthReducer.Logout) in Plan(s, p, call, isOnline, transport).actions
    ensures Replay(s, Plan(s, p, call, isOnline, transport).actions).auth == AuthReducer.Initial
  {
    var acts := Plan(s, p, call, isOnline, transport).actions;
    var toastTail: seq<Action> := if call.skipToast then [] else [Toast(ToastReducer.ShowToast(SessionExpiredToast))];
    var t := transport(ConfigFor(s, p, call).value);
    PlanOnFailure(s, p, call, isOnline, transport);
    var f := FailureFields(p, t.response, t.message);
    SessionActionsFacts(f.code, s.auth.isAuthenticated, call.skipToast);
    assert acts == [] + [Auth(AuthReducer.Logout)] + toastTail;
    LogoutAmong(s, [], toastTail);
  }

  /** A delivered call that dispatched logout leaves the auth slice logged out. */
  lemma LogoutOnDelivered(s: StoreState, p: Platform, call: Call, isOnline: bool, transport: RequestConfig -> Transport)
    requires ConfigFor(s, p, call).Ok? && transport(ConfigFor(s, p, call).value).Delivered?
    requires Auth(AuthReducer.Logout) in Plan(s, p, call, isOnline, transport).actions
    ensures Replay(s, Plan(s, p, call, isOnline, transport).actions).auth == AuthReducer.Initial
  {
    var acts := Plan(s, p, call, isOnline, transport).actions;
    var toastTail: seq<Action> := if call.skipToast then [] else [Toast(ToastReducer.ShowToast(SessionExpiredToast))];
    var t := transport(ConfigFor(s, p, call).value);
    PlanOnDecoded(s, p, call, isOnline, transport);
    var dec := Decode(p, Get(t.body, "data")).value;
    var code := Or(Get(Get(dec, "response"), "status"), Num(t.status));
    var hidden: seq<Action> := if IsOkStatus(t.status) then [ErrorScreen(ErrorReducer.HideErrorScreen)] else [];
    SessionActionsFacts(code, s.auth.isAuthenticated, call.skipToast);
    assert acts == hidden + [Auth(AuthReducer.Logout)] + toastTail;
    LogoutAmong(s, hidden, toastTail);
  }

  /** After a call the auth slice is logged out if the call dispatched logout, and untouched otherwise. */
  lemma AuthAfterCall(s: StoreState, p: Platform, call: Call, isOnline: bool, transport: RequestConfig -> Transport)
    ensures var e := Plan(s, p, call, isOnline, transport);
      (Auth(AuthReducer.Logout) in e.actions ==> Replay(s, e.actions).auth == AuthReducer.Initial)
      && (Auth(AuthReducer.Logout) !in e.actions ==> Replay(s, e.actions).auth == s.auth)
  {
    var acts := Plan(s, p, call, isOnline, transport).actions;
    if Auth(AuthReducer.Logout) !in acts {
      ReplayAuthUntouched(s, acts);
    } else if transport(ConfigFor(s, p, call).value).Thrown? {
      LogoutOnFailure(s, p, call, isOnline, transport);
    } else {
      LogoutOnDelivered(s, p, call, isOnline, transport);
    }
  }

  /**
   * The retained-config slot after a call: emptied by a hide, set to the sent
   * config by the offline error screen, and otherwise left as it was.
   */
  lemma SlotAfterCall(s: StoreState, p: Platform, call: Call, isOnline: bool, transport: RequestConfig -> Transport)
    ensures var e := Plan(s, p, call, isOnline, transport);
      var after := Replay(s, e.actions).errorScreen.networkConfig;
      (ErrorScreen(ErrorReducer.HideErrorScreen) in e.actions ==> after == None)
      && (e.sent.Some? && ErrorScreen(ErrorReducer.ShowErrorScreen(OfflinePayload(e.sent.value))) in e.actions ==> after == e.sent)
      && ((forall a :: a in e.actions ==> !a.ErrorScreen?) ==> after == s.errorScreen.networkConfig)
  {
    var acts := Plan(s, p, call, isOnline, transport).actions;
    if acts != [] {
      var t := transport(ConfigFor(s, p, call).value);
      if t.Thrown? && !isOnline && !call.skipErrorScreen {
        SlotAfterOffline(s, p, call, transport);
      } else if t.Thrown? {
        SlotAfterFailure(s, p, call, isOnline, transport);
      } else {
        SlotAfterDecoded(s, p, call, isOnline, transport);
      }
    }
  }

  lemma SlotAfterOffline(s: StoreState, p: Platform, call: Call, transport: RequestConfig -> Transport)
    requires ConfigFor(s, p, call).Ok? && transport(ConfigFor(s, p, call).value).Thrown? && !call.skipErrorScreen
    ensures var e := Plan(s, p, call, false, transport);
      Replay(s, e.actions).errorScreen.networkConfig == e.sent
      && e.actions == [ErrorScreen(ErrorReducer.ShowErrorScreen(OfflinePayload(e.sent.value)))]
  {
    var acts := Plan(s, p, call, false, transport).actions;
    ReplaySnoc(s, [], acts[0]);
    assert [] + [acts[0]] == acts;
  }

  lemma SlotAfterFailure(s: StoreState, p: Platform, call: Call, isOnline: bool, transport: RequestConfig -> Transport)
    requires ConfigFor(s, p, call).Ok? && transport(ConfigFor(s, p, call).value).Thrown?
    requires isOnline || call.skipErrorScreen
    ensures var acts := Plan(s, p, call, isOnline, transport).actions;
      (forall a :: a in acts ==> !a.ErrorScreen?) && Replay(s, acts).errorScreen == s.errorScreen
  {
    var acts := Plan(s, p, call, isOnline, transport).actions;
    var t := transport(ConfigFor(s, p, call).value);
    PlanOnFailure(s, p, call, isOnline, transport);
    var f := FailureFields(p, t.response, t.message);
    SessionActionsFacts(f.code, s.auth.isAuthenticated, call.skipToast);
    ReplayErrorScreenUntouched(s, acts);
  }

  lemma SlotAfterDecoded(s: StoreState, p: Platform, call: Call, isOnline: bool, transport: RequestConfig -> Transport)
    requires ConfigFor(s, p, call).Ok? && transport(ConfigFor(s, p, call).value).Delivered?
    requires Decode(p, Get(transport(ConfigFor(s, p, call).value).body, "data")).Some?
    ensures var acts := Plan(s, p, call, isOnline, transport).actions;
      var t := transport(ConfigFor(s, p, call).value);
      (IsOkStatus(t.status) ==> ErrorScreen(ErrorReducer.HideErrorScreen) in acts
                                && Replay(s, acts).errorScreen.networkConfig == None)
      && (!IsOkStatus(t.status) ==> (forall a :: a in acts ==> !a.ErrorScreen?)
                                    && Replay(s, acts).errorScreen == s.errorScreen)
  {
    var acts := Plan(s, p, call, isOnline, transport).actions;
    var t := transport(ConfigFor(s, p, call).value);
    PlanOnDecoded(s, p, call, isOnline, transport);
    var dec := Decode(p, Get(t.body, "data")).value;
    var code := Or(Get(Get(dec, "response"), "status"), Num(t.status));
    var rest := SessionActions(code, s.auth.isAuthenticated, call.skipToast);
    SessionActionsFacts(code, s.auth.isAuthenticated, call.skipToast);
    if IsOkStatus(t.status) {
      assert acts == [ErrorScreen(ErrorReducer.HideErrorScreen)] + rest;
      HideFirst(s, rest);
    } else {
      assert acts == rest;
      ReplayErrorScreenUntouched(s, acts);
    }
  }

  /** A retained config stays in the slot until a 200/201 response hides the error screen. */
  lemma RetainedUntilHidden(s: StoreState, p: Platform, call: Call, isOnline: bool, transport: RequestConfig -> Transport)
    requires s.errorScreen.networkConfig.Some?
    ensures var e := Plan(s, p, call, isOnline, transport);
      Replay(s, e.actions).errorScreen.networkConfig
        == if ErrorScreen(ErrorReducer.HideErrorScreen) in e.actions then None else s.errorScreen.networkConfig
  {
    var t := transport(s.errorScreen.networkConfig.value);
    if t.Thrown? && !isOnline && !call.skipErrorScreen {
      SlotAfterOffline(s, p, call, transport);
    } else if t.Thrown? {
      SlotAfterFailure(s, p, call, isOnline, transport);
    } else if Decode(p, Get(t.body, "data")).Some? {
      SlotAfterDecoded(s, p, call, isOnline, transport);
    }
  }

  /**
   * A call that fails offline is retried by the next call, whatever that call
   * asks for: the next call sends the same config.
   */
  lemma OfflineThenRetry(s: StoreState, p: Platform, first: Call, second: Call, isOnline: bool,
                         t1: RequestConfig -> Transport, t2: RequestConfig -> Transport)
    requires ConfigFor(s, p, first).Ok? && t1(ConfigFor(s, p, first).value).Thrown?
    requires !first.skipErrorScreen
    ensures var e1 := Plan(s, p, first, false, t1);
      var e2 := Plan(Replay(s, e1.actions), p, second, isOnline, t2);
      e2.sent == e1.sent && e2.outcome.Resolved?
  {
    SlotAfterOffline(s, p, first, t1);
  }

  /** The error screen is hidden exactly when a 200/201 response was delivered and decoded. */
  lemma HideExactlyOnOk(s: StoreState, p: Platform, call: Call, isOnline: bool, transport: RequestConfig -> Transport)
    ensures var e := Plan(s, p, call, isOnline, transport);
      ErrorScreen(ErrorReducer.HideErrorScreen) in e.actions <==>
        e.sent.Some? && TransportOf(e, transport).Delivered? && IsOkStatus(TransportOf(e, transport).status)
        && Decode(p, Get(TransportOf(e, transport).body, "data")).Some?
  {
    var acts := Plan(s, p, call, isOnline, transport).actions;
    if ConfigFor(s, p, call).Ok? {
      var t := transport(ConfigFor(s, p, call).value);
      if t.Thrown? && (isOnline || call.skipErrorScreen) {
        SlotAfterFailure(s, p, call, isOnline, transport);
      } else if t.Delivered? && Decode(p, Get(t.body, "data")).Some? {
        SlotAfterDecoded(s, p, call, isOnline, transport);
      }
    }
  }

  /**
   * `success` is anything but false only for a decoded 200/201 response; any
   * other delivered status gives `success: false` and `data: null`, and an
   * undecodable body gives the fixed decryption-failure response with no action.
   */
  lemma SuccessOnlyOnOk(s: StoreState, p: Platform, call: Call, isOnline: bool, transport: RequestConfig -> Transport)
    ensures var e := Plan(s, p, call, isOnline, transport);
      (e.outcome.Resolved? && e.outcome.response.success != Bool(false) ==>
         e.sent.Some? && TransportOf(e, transport).Delivered? && IsOkStatus(TransportOf(e, transport).status)
         && Decode(p, Get(TransportOf(e, transport).body, "data")).Some?)
      && (e.sent.Some? && TransportOf(e, transport).Delivered? && !IsOkStatus(TransportOf(e, transport).status) ==>
            e.outcome.response.success == Bool(false) && e.outcome.response.data == Null)
      && (e.sent.Some? && TransportOf(e, transport).Delivered?
          && Decode(p, Get(TransportOf(e, transport).body, "data")).None? ==>
            e.outcome == Resolved(DecryptFailed) && e.actions == [])
  {
  }

  /**
   * On a decoded 200/201 response `success` is the decrypted `status` taken
   * with `??`: it is true exactly when that status is missing, null or true,
   * and any other status, falsy or not, comes through unchanged.
   */
  lemma SuccessOnOk(s: StoreState, p: Platform, call: Call, isOnline: bool, transport: RequestConfig -> Transport)
    requires ConfigFor(s, p, call).Ok?
    requires transport(ConfigFor(s, p, call).value).Delivered?
    requires IsOkStatus(transport(ConfigFor(s, p, call).value).status)
    requires Decode(p, Get(transport(ConfigFor(s, p, call).value).body, "data")).Some?
    ensures var status := Get(Decode(p, Get(transport(ConfigFor(s, p, call).value).body, "data")).value, "status");
      var success := Plan(s, p, call, isOnline, transport).outcome.response.success;
      (success == Bool(true) <==> Nullish(status) || status == Bool(true))
      && (!Nullish(status) ==> success == status)
  {
  }

  /** With `skipToast` no toast is dispatched; logout is not suppressed by it. */
  lemma SkipToastSilences(s: StoreState, p: Platform, call: Call, isOnline: bool, transport: RequestConfig -> Transport)
    requires call.skipToast
    ensures forall a :: a in Plan(s, p, call, isOnline, transport).actions ==> !a.Toast?
  {
    var acts := Plan(s, p, call, isOnline, transport).actions;
    if ConfigFor(s, p, call).Ok? {
      var t := transport(ConfigFor(s, p, call).value);
      if t.Thrown? && (isOnline || call.skipErrorScreen) {
        PlanOnFailure(s, p, call, isOnline, transport);
      } else if t.Delivered? && Decode(p, Get(t.body, "data")).Some? {
        PlanOnDecoded(s, p, call, isOnline, transport);
      }
    }
  }

  /** Every toast a call dispatches is an error toast with a truthy message. */
  lemma ToastsNeverEmpty(s: StoreState, p: Platform, call: Call, isOnline: bool, transport: RequestConfig -> Transport)
    ensures forall a :: a in Plan(s, p, call, isOnline, transport).actions && a.Toast? ==>
      a.toast.ShowToast? && a.toast.payload.kind == ToastReducer.Error && Truthy(a.toast.payload.message)
  {
    var acts := Plan(s, p, call, isOnline, transport).actions;
    if ConfigFor(s, p, call).Ok? {
      var t := transport(ConfigFor(s, p, call).value);
      if t.Thrown? && (isOnline || call.skipErrorScreen) {
        PlanOnFailure(s, p, call, isOnline, transport);
        var f := FailureFields(p, t.response, t.message);
        OrTruthy(f.message, Str("Something went wrong"));
        OrTruthy(Get(f.response, "msg"), Or(f.message, Str("Something went wrong")));
      } else if t.Delivered? && Decode(p, Get(t.body, "data")).Some? {
        PlanOnDecoded(s, p, call, isOnline, transport);
      }
    }
  }

  /**
   * On the failure path the toasts follow the code: the session toast with a
   * logout for 401 while authenticated, the error toast for any other code,
   * and nothing at all for a 401 while unauthenticated.
   */
  lemma FailureToasts(s: StoreState, p: Platform, call: Call, isOnline: bool, transport: RequestConfig -> Transport)
    requires ConfigFor(s, p, call).Ok? && transport(ConfigFor(s, p, call).value).Thrown?
    requires isOnline || call.skipErrorScreen
    ensures var e := Plan(s, p, call, isOnline, transport);
      var f := FailureFields(p, transport(e.sent.value).response, transport(e.sent.value).message);
      (Toast(ToastReducer.ShowToast(SessionExpiredToast)) in e.actions <==>
         f.code == Num(401) && s.auth.isAuthenticated && !call.skipToast)
      && (Toast(ToastReducer.ShowToast(ErrorToast(f))) in e.actions <==> f.code != Num(401) && !call.skipToast)
      && (f.code == Num(401) && !s.auth.isAuthenticated ==> e.actions == [])
  {
    PlanOnFailure(s, p, call, isOnline, transport);
  }
}
