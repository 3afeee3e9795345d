/** The `toast` slice: one transient message. */
module ToastReducer {
  import opened Wrappers
  import opened JsValue

  datatype ToastType = Error | Success | Warn | Info

  datatype ToastState = ToastState(
    status: bool,
    kind: ToastType,
    title: string,
    message: Value,
    duration: int)

  /** A `showToast` payload; `title` is optional. */
  datatype ToastPayload = ToastPayload(kind: ToastType, title: Option<string>, message: Value, duration: int)

  datatype Action = ShowToast(payload: ToastPayload) | HideToast

  const Initial := ToastState(false, Success, "", Str(""), 3000)

  function TitleOrEmpty(t: Option<string>): string {
    match t
    case Some(s) => s
    case None => ""
  }

  function Apply(s: ToastState, a: Action): ToastState {
    match a
    case ShowToast(p) =>
      s.(status := true, kind := p.kind, title := TitleOrEmpty(p.title),
         message := p.message, duration := p.duration)
    case HideToast =>
      s.(status := false)
  }

  class ToastSlice {
    var status: bool
    var kind: ToastType
    var title: string
    var message: Value
    var duration: int

    function State(): ToastState
      reads this
    {
      ToastState(status, kind, title, message, duration)
    }

    constructor ()
      ensures State() == Initial
    {
      status, kind, title, message, duration := false, Success, "", Str(""), 3000;
    }

    /** `showToast`: shown, with type, message and duration copied and a missing title read as ''. */
    method ShowToast(p: ToastPayload)
      modifies this
      ensures State() == Apply(old(State()), Action.ShowToast(p))
    {
      status := true;
      kind := p.kind;
      title := TitleOrEmpty(p.title);
      message := p.message;
      duration := p.duration;
    }

    /** `hideToast`: only the visibility flag changes. */
    method HideToast()
      modifies this
      ensures State() == Apply(old(State()), Action.HideToast)
    {
      status := false;
    }
  }

  lemma InitialToast()
    ensures !Initial.status && Initial.kind == Success && Initial.duration == 3000
    ensures Initial.title == "" && Initial.message == Str("")
  {
  }

  /** A shown toast carries the payload's fields; without a title it shows ''. */
  lemma ShowCopiesPayload(s: ToastState, p: ToastPayload)
    ensures var r := Apply(s, ShowToast(p));
      r.status && r.kind == p.kind && r.message == p.message && r.duration == p.duration
      && (p.title.None? ==> r.title == "") && (p.title.Some? ==> r.title == p.title.value)
  {
  }

  /** Hiding keeps type, title, message and duration. */
  lemma HideOnlyClearsStatus(s: ToastState)
    ensures Apply(s, HideToast) == s.(status := false)
  {
  }

  lemma HideIdempotent(s: ToastState)
    ensures Apply(Apply(s, HideToast), HideToast) == Apply(s, HideToast)
  {
  }
}
