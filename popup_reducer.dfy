/** The `popup` slice: a modal with a title, a button and an action tag. */
module PopupReducer {
  import opened Wrappers

  datatype PopupState = PopupState(status: bool, title: string, buttonLabel: string, onPressType: string)

  datatype PopupPayload = PopupPayload(title: string, buttonLabel: string, onPressType: Option<string>)

  datatype Action = ShowPopup(payload: PopupPayload) | HidePopup

  const Initial := PopupState(false, "", "", "")

  /** `Boolean(onPressType) ? onPressType : ''`. */
  function PressTypeOrEmpty(t: Option<string>): string {
    if t.Some? && t.value != "" then t.value else ""
  }

  function Apply(s: PopupState, a: Action): PopupState {
    match a
    case ShowPopup(p) =>
      s.(status := true, title := p.title, buttonLabel := p.buttonLabel,
         onPressType := PressTypeOrEmpty(p.onPressType))
    case HidePopup =>
      s.(status := false, title := "", buttonLabel := "", onPressType := "")
  }

  class PopupSlice {
    var status: bool
    var title: string
    var buttonLabel: string
    var onPressType: string

    function State(): PopupState
      reads this
    {
      PopupState(status, title, buttonLabel, onPressType)
    }

    constructor ()
      ensures State() == Initial
    {
      status, title, buttonLabel, onPressType := false, "", "", "";
    }

    /** `showPopup`: shown with the payload's title and label; an absent or empty tag becomes ''. */
    method ShowPopup(p: PopupPayload)
      modifies this
      ensures State() == Apply(old(State()), Action.ShowPopup(p))
    {
      status := true;
      title := p.title;
      buttonLabel := p.buttonLabel;
      onPressType := PressTypeOrEmpty(p.onPressType);
    }

    /** `hidePopup`: all four fields reset. */
    method HidePopup()
      modifies this
      ensures State() == Apply(old(State()), Action.HidePopup)
    {
      status := false;
      title := "";
      buttonLabel := "";
      onPressType := "";
    }
  }

  /** A shown popup carries the payload's title and label, and its tag when that is truthy. */
  lemma ShowCopiesPayload(s: PopupState, p: PopupPayload)
    ensures var r := Apply(s, ShowPopup(p));
      r.status && r.title == p.title && r.buttonLabel == p.buttonLabel
      && (p.onPressType.Some? && p.onPressType.value != "" ==> r.onPressType == p.onPressType.value)
      && (p.onPressType.None? || p.onPressType == Some("") ==> r.onPressType == "")
  {
  }

  /** Hiding from any state gives exactly the initial state. */
  lemma HideIsInitial(s: PopupState)
    ensures Apply(s, HidePopup) == Initial
  {
  }

  lemma HideIdempotent(s: PopupState)
    ensures Apply(Apply(s, HidePopup), HidePopup) == Apply(s, HidePopup)
  {
  }
}
