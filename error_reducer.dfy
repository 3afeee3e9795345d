/**
 * The `errorScreen` slice: the full-screen error overlay and the single slot
 * that keeps the request config of the call that failed while offline.
 */
module ErrorReducer {
  import opened Wrappers
  import opened Http

  datatype ErrorState = ErrorState(
    status: bool,
    title: string,
    message: string,
    buttonLabel: string,
    networkConfig: Option<RequestConfig>)

  datatype ErrorPayload = ErrorPayload(
    title: string,
    message: string,
    buttonLabel: string,
    networkConfig: Option<RequestConfig>)

  datatype Action = ShowErrorScreen(payload: ErrorPayload) | HideErrorScreen

  const Initial := ErrorState(false, "", "", "Try again", None)

  function Apply(s: ErrorState, a: Action): ErrorState {
    match a
    case ShowErrorScreen(p) =>
      s.(status := true, title := p.title, message := p.message,
         buttonLabel := p.buttonLabel, networkConfig := p.networkConfig)
    case HideErrorScreen =>
      s.(status := false, title := "", message := "", networkConfig := None)
  }

  class ErrorSlice {
    var status: bool
    var title: string
    var message: string
    var buttonLabel: string
    var networkConfig: Option<RequestConfig>

    function State(): ErrorState
      reads this
    {
      ErrorState(status, title, message, buttonLabel, networkConfig)
    }

    constructor ()
      ensures State() == Initial
    {
      status, title, message, buttonLabel, networkConfig := false, "", "", "Try again", None;
    }

    /** `showErrorScreen`: the overlay shows the payload and keeps its request config. */
    method ShowErrorScreen(p: ErrorPayload)
      modifies this
      ensures State() == Apply(old(State()), Action.ShowErrorScreen(p))
      ensures status && networkConfig == p.networkConfig
    {
      status := true;
      title := p.title;
      message := p.message;
      buttonLabel := p.buttonLabel;
      networkConfig := p.networkConfig;
    }

    /** `hideErrorScreen`: hidden, texts and retained config cleared, button label kept. */
    method HideErrorScreen()
      modifies this
      ensures State() == Apply(old(State()), Action.HideErrorScreen)
      ensures !status && networkConfig == None && buttonLabel == old(buttonLabel)
    {
      status := false;
      title := "";
      message := "";
      networkConfig := None;
    }
  }

  /** Initially hidden, labelled 'Try again', with no retained request. */
  lemma InitialIsHidden()
    ensures !Initial.status && Initial.buttonLabel == "Try again" && Initial.networkConfig == None
  {
  }

  /** A second show replaces the first completely: the slot holds only the last config. */
  lemma ShowLastWriteWins(s: ErrorState, p1: ErrorPayload, p2: ErrorPayload)
    ensures Apply(Apply(s, ShowErrorScreen(p1)), ShowErrorScreen(p2)) == Apply(s, ShowErrorScreen(p2))
  {
  }

  /** After a show, the slot holds the payload's config, which the network middleware reuses. */
  lemma ShowRetainsConfig(s: ErrorState, p: ErrorPayload)
    ensures Apply(s, ShowErrorScreen(p)).networkConfig == p.networkConfig
    ensures Apply(s, ShowErrorScreen(p)).status
  {
  }

  /** Hiding clears the slot and the texts but never touches the button label. */
  lemma HideKeepsButtonLabel(s: ErrorState)
    ensures Apply(s, HideErrorScreen).buttonLabel == s.buttonLabel
    ensures Apply(s, HideErrorScreen) == Initial.(buttonLabel := s.buttonLabel)
  {
  }

  lemma HideIdempotent(s: ErrorState)
    ensures Apply(Apply(s, HideErrorScreen), HideErrorScreen) == Apply(s, HideErrorScreen)
  {
  }
}
