/**
 * What the request-building half of the middleware guarantees: when it
 * fails, the query suffix and the server's reading of it, the headers, the
 * payload shapes and the body the server recovers from `reqData`.
 */
module RequestProperties {
  import opened Wrappers
  import opened Strings
  import opened JsValue
  import opened Http
  import opened ReduxStore
  import opened NetworkSpec
  import AuthReducer

  /** How a server reads `?reqData=` back: the text after it, decrypted and parsed. */
  function ServerQuery(p: Platform, url: string, route: string): Option<Value> {
    var prefix := route + "?reqData=";
    if StartsWith(url, prefix) then Decode(p, Str(url[|prefix|..])) else None
  }

  /** The position of the first form part called `name`, or `|parts|` when there is none. */
  function FieldIndex(parts: seq<FormPart>, name: string): (i: nat)
    ensures i <= |parts|
    ensures i < |parts| ==> parts[i].name == name
    ensures forall k :: 0 <= k < i ==> parts[k].name != name
  {
    if parts == [] || parts[0].name == name then 0 else 1 + FieldIndex(parts[1..], name)
  }

  /** The value of the first form part called `name`, as a server reading the form finds it. */
  function FormField(parts: seq<FormPart>, name: string): Option<Value> {
    var i := FieldIndex(parts, name);
    if i < |parts| then Some(parts[i].value) else None
  }

  /** The encrypted body a payload carries, as the server finds it. */
  function ReqDataOf(data: Payload): Option<string> {
    match data
    case NoData => None
    case JsonBody(t) => Some(t)
    case Form(parts) =>
      match FormField(parts, "reqData")
      case Some(Str(t)) => Some(t)
      case _ => None
  }

  /** The conditions under which building a request throws, and nothing else. */
  lemma BuildRequestFails(p: Platform, call: Call, auth: AuthReducer.AuthState)
    ensures BuildRequest(p, call, auth).Err? <==>
      Defaulted(call.apiParams).Null?
      || (auth.isAuthenticated && !Defaulted(call.apiBody).Obj? && !Defaulted(call.apiBody).Arr?)
      || (call.api.verb != GET && Contains(call.api.path, REGISTER_ROUTE)
          && HasFormFields(call.apiFormData) && !Get(call.apiFormData, "profileImages").Arr?)
    ensures BuildRequest(p, call, auth).Err? ==> BuildRequest(p, call, auth).error == TYPE_ERROR
  {
  }

  /**
   * The URL is the base URL and the route, followed, when the params have an
   * own key, by `?reqData=` and the raw ciphertext of their JSON text and by
   * nothing otherwise.
   */
  lemma ParamsUrl(p: Platform, call: Call, auth: AuthReducer.AuthState)
    requires BuildRequest(p, call, auth).Ok?
    ensures var url := BuildRequest(p, call, auth).value.url;
      (KeyCount(Defaulted(call.apiParams)) > 0 ==>
         url == p.baseUrl + call.api.path + "?reqData=" + p.encrypt(p.stringify(Defaulted(call.apiParams))))
      && (KeyCount(Defaulted(call.apiParams)) == 0 ==> url == p.baseUrl + call.api.path)
  {
    var params := Defaulted(call.apiParams);
    var route := p.baseUrl + call.api.path;
    assert BuildRequest(p, call, auth).value.url == route + ParamsSuffix(p, params);
    if KeyCount(params) > 0 {
      assert route + ParamsSuffix(p, params) == route + "?reqData=" + p.encrypt(p.stringify(params));
    } else {
      assert route + ParamsSuffix(p, params) == route + "";
      assert route + "" == route;
    }
  }

  /**
   * Params with an own key add exactly one `?reqData=` suffix, which a server
   * that reads the query text unescaped and inverts the codec reads back as
   * the params; empty params add nothing.
   */
  lemma ParamsInUrl(p: Platform, call: Call, auth: AuthReducer.AuthState)
    requires BuildRequest(p, call, auth).Ok?
    requires p.decrypt(p.encrypt(p.stringify(Defaulted(call.apiParams)))) == Some(p.stringify(Defaulted(call.apiParams)))
    requires p.parse(p.stringify(Defaulted(call.apiParams))) == Some(Defaulted(call.apiParams))
    ensures var url := BuildRequest(p, call, auth).value.url;
      StartsWith(url, p.baseUrl + call.api.path)
      && (KeyCount(Defaulted(call.apiParams)) == 0 <==> url == p.baseUrl + call.api.path)
      && (KeyCount(Defaulted(call.apiParams)) > 0 ==>
            ServerQuery(p, url, p.baseUrl + call.api.path) == Some(Defaulted(call.apiParams)))
  {
    var params := Defaulted(call.apiParams);
    var route := p.baseUrl + call.api.path;
    var url := BuildRequest(p, call, auth).value.url;
    assert url == route + ParamsSuffix(p, params);
    assert url[..|route|] == route;
    if KeyCount(params) > 0 {
      var prefix := route + "?reqData=";
      var enc := p.encrypt(p.stringify(params));
      assert url == prefix + enc;
      assert url[..|prefix|] == prefix;
      assert url[|prefix|..] == enc;
    }
  }

  /** Headers: a content type, multipart exactly when form data is truthy, and the bare token exactly when authenticated. */
  lemma RequestHeaders(p: Platform, call: Call, auth: AuthReducer.AuthState)
    requires BuildRequest(p, call, auth).Ok?
    ensures var cfg := BuildRequest(p, call, auth).value;
      "Content-Type" in cfg.headers
      && (cfg.headers["Content-Type"] == MULTIPART <==> Truthy(call.apiFormData))
      && ("Authorization" in cfg.headers <==> auth.isAuthenticated)
      && (auth.isAuthenticated ==> cfg.headers["Authorization"] == ToText(auth.accessToken))
      && cfg.headers.Keys <= {"Content-Type", "Authorization"}
      && cfg.timeout == 10000 && cfg.verb == call.api.verb
  {
  }

  /**
   * GET requests carry no data; every other request carries the encrypted
   * JSON of the body with its token, as a form exactly for the two upload routes.
   */
  lemma RequestPayload(p: Platform, call: Call, auth: AuthReducer.AuthState)
    requires BuildRequest(p, call, auth).Ok?
    ensures WithToken(Defaulted(call.apiBody), auth).Ok?
    ensures var cfg := BuildRequest(p, call, auth).value;
      (cfg.data.NoData? <==> call.api.verb == GET)
      && (call.api.verb != GET ==>
            ReqDataOf(cfg.data) == Some(p.encrypt(p.stringify(WithToken(Defaulted(call.apiBody), auth).value))))
      && (cfg.data.Form? <==>
            call.api.verb != GET
            && (Contains(call.api.path, REGISTER_ROUTE)
                || (Contains(call.api.path, UPDATE_PROFILE_ROUTE) && HasFormFields(call.apiFormData))))
  {
    var cfg := BuildRequest(p, call, auth).value;
    if call.api.verb != GET && cfg.data.Form? {
      var parts := cfg.data.parts;
      var enc := p.encrypt(p.stringify(WithToken(Defaulted(call.apiBody), auth).value));
      if Contains(call.api.path, REGISTER_ROUTE) && HasFormFields(call.apiFormData) {
        var images := Get(call.apiFormData, "profileImages").items;
        var tail := [FormPart("profilePic", Get(call.apiFormData, "profile")),
                     FormPart("securityFiles", Get(call.apiFormData, "securityFiles")),
                     FormPart("reqData", Str(enc))];
        assert parts == ImageParts(images) + tail;
        FormFieldAfter(ImageParts(images), tail, "reqData");
        assert FieldIndex(tail[2..], "reqData") == 0;
        assert FieldIndex(tail[1..], "reqData") == 1 by { assert tail[1..][1..] == tail[2..]; }
        assert FieldIndex(tail, "reqData") == 2;
      } else if Contains(call.api.path, REGISTER_ROUTE) {
        assert parts == [FormPart("reqData", Str(enc))];
        assert FieldIndex(parts, "reqData") == 0;
      } else {
        assert parts == [FormPart("profilePic", call.apiFormData), FormPart("reqData", Str(enc))];
        assert FieldIndex(parts[1..], "reqData") == 0;
        assert FieldIndex(parts, "reqData") == 1;
      }
    }
  }

  /** A name absent from the first parts is looked up in the rest. */
  lemma {:induction false} FormFieldAfter(xs: seq<FormPart>, ys: seq<FormPart>, name: string)
    requires forall k :: 0 <= k < |xs| ==> xs[k].name != name
    ensures FieldIndex(xs + ys, name) == |xs| + FieldIndex(ys, name)
    ensures FormField(xs + ys, name) == FormField(ys, name)
  {
    if xs != [] {
      assert (xs + ys)[0] == xs[0];
      assert (xs + ys)[1..] == xs[1..] + ys;
      FormFieldAfter(xs[1..], ys, name);
    } else {
      assert xs + ys == ys;
    }
  }

  /**
   * A server that inverts the codec recovers from `reqData` the caller's body
   * with `token` set to the access token when authenticated, and the body
   * itself otherwise.
   */
  lemma ServerRecoversBody(p: Platform, call: Call, auth: AuthReducer.AuthState)
    requires BuildRequest(p, call, auth).Ok? && call.api.verb != GET
    requires var b := WithToken(Defaulted(call.apiBody), auth).value;
      p.decrypt(p.encrypt(p.stringify(b))) == Some(p.stringify(b)) && p.parse(p.stringify(b)) == Some(b)
    ensures var sent := ReqDataOf(BuildRequest(p, call, auth).value.data);
      sent.Some? && Decode(p, Str(sent.value)).Some?
      && var got := Decode(p, Str(sent.value)).value;
      (!auth.isAuthenticated ==> got == Defaulted(call.apiBody))
      && (auth.isAuthenticated && Defaulted(call.apiBody).Obj? ==>
            got.Obj? && Get(got, "token") == auth.accessToken
            && got.fields.Keys == Defaulted(call.apiBody).fields.Keys + {"token"}
            && forall k :: k in got.fields && k != "token" ==> got.fields[k] == Defaulted(call.apiBody).fields[k])
  {
    RequestPayload(p, call, auth);
  }
}
