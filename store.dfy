/**
 * The root store: the slices the model covers, combined under their keys,
 * with a dispatch that routes each action to its slice's case reducer.
 * Persistence and the theme slice are not part of this model.
 */
module ReduxStore {
  import AuthReducer
  import ErrorReducer
  import ToastReducer
  import PopupReducer
  import LoaderReducer
  import LangReducer

  /** An action of one of the combined slices. */
  datatype Action =
    | Auth(auth: AuthReducer.Action)
    | ErrorScreen(errorScreen: ErrorReducer.Action)
    | Toast(toast: ToastReducer.Action)
    | Popup(popup: PopupReducer.Action)
    | Loader(loader: LoaderReducer.Action)
    | Lang(lang: LangReducer.Action)

  datatype StoreState = StoreState(
    auth: AuthReducer.AuthState,
    errorScreen: ErrorReducer.ErrorState,
    toast: ToastReducer.ToastState,
    popup: PopupReducer.PopupState,
    loader: LoaderReducer.LoaderState,
    lang: LangReducer.LangState)

  const Initial := StoreState(
    AuthReducer.Initial, ErrorReducer.Initial, ToastReducer.Initial,
    PopupReducer.Initial, LoaderReducer.Initial, LangReducer.Initial)

  /** The root reducer: an action changes its own slice and leaves the others alone. */
  function Step(s: StoreState, a: Action): StoreState {
    match a
    case Auth(x) => s.(auth := AuthReducer.Apply(s.auth, x))
    case ErrorScreen(x) => s.(errorScreen := ErrorReducer.Apply(s.errorScreen, x))
    case Toast(x) => s.(toast := ToastReducer.Apply(s.toast, x))
    case Popup(x) => s.(popup := PopupReducer.Apply(s.popup, x))
    case Loader(x) => s.(loader := LoaderReducer.Apply(s.loader, x))
    case Lang(x) => s.(lang := LangReducer.Apply(s.lang, x))
  }

  /** The state after dispatching `acts` in order, starting from `s`. */
  function Replay(s: StoreState, acts: seq<Action>): StoreState
    decreases |acts|
  {
    if acts == [] then s else Step(Replay(s, acts[..|acts| - 1]), acts[|acts| - 1])
  }

  /** Dispatching two batches one after the other is dispatching their concatenation. */
  lemma {:induction false} ReplayAppend(s: StoreState, xs: seq<Action>, ys: seq<Action>)
    ensures Replay(s, xs + ys) == Replay(Replay(s, xs), ys)
    decreases |ys|
  {
    if ys == [] {
      assert xs + ys == xs;
    } else {
      assert (xs + ys)[..|xs + ys| - 1] == xs + ys[..|ys| - 1];
      ReplayAppend(s, xs, ys[..|ys| - 1]);
    }
  }

  /** Dispatching one more action is one more step of the root reducer. */
  lemma ReplaySnoc(s: StoreState, acts: seq<Action>, a: Action)
    ensures Replay(s, acts + [a]) == Step(Replay(s, acts), a)
  {
    assert (acts + [a])[..|acts|] == acts;
  }

  /** Actions of other slices leave the auth slice as it is. */
  lemma {:induction false} ReplayAuthUntouched(s: StoreState, acts: seq<Action>)
    requires forall k :: 0 <= k < |acts| ==> !acts[k].Auth?
    ensures Replay(s, acts).auth == s.auth
    decreases |acts|
  {
    if acts != [] {
      ReplayAuthUntouched(s, acts[..|acts| - 1]);
    }
  }

  /** Actions of other slices leave the error-screen slice as it is. */
  lemma {:induction false} ReplayErrorScreenUntouched(s: StoreState, acts: seq<Action>)
    requires forall k :: 0 <= k < |acts| ==> !acts[k].ErrorScreen?
    ensures Replay(s, acts).errorScreen == s.errorScreen
    decreases |acts|
  {
    if acts != [] {
      ReplayErrorScreenUntouched(s, acts[..|acts| - 1]);
    }
  }

  /** The store object: one slice object per key, and the log of dispatched actions. */
  class Store {
    const auth: AuthReducer.AuthSlice
    const errorScreen: ErrorReducer.ErrorSlice
    const toast: ToastReducer.ToastSlice
    const popup: PopupReducer.PopupSlice
    const loader: LoaderReducer.LoaderSlice
    const lang: LangReducer.LangSlice
    var log: seq<Action>

    function State(): StoreState
      reads this, auth, errorScreen, toast, popup, loader, lang
    {
      StoreState(auth.State(), errorScreen.State(), toast.State(), popup.State(), loader.State(), lang.State())
    }

    constructor ()
      ensures State() == Initial && log == []
    {
      auth := new AuthReducer.AuthSlice();
      errorScreen := new ErrorReducer.ErrorSlice();
      toast := new ToastReducer.ToastSlice();
      popup := new PopupReducer.PopupSlice();
      loader := new LoaderReducer.LoaderSlice();
      lang := new LangReducer.LangSlice();
      log := [];
    }

    /** `store.dispatch`: the action reaches its slice's case reducer and is logged. */
    method Dispatch(a: Action)
      modifies this, auth, errorScreen, toast, popup, loader, lang
      ensures State() == Step(old(State()), a)
      ensures log == old(log) + [a]
    {
      match a {
        case Auth(x) =>
          match x {
            case Login(p) => auth.LoginReducer(p);
            case Logout => auth.LogoutReducer();
            case RefreshToken(t) => auth.RefreshTokenReducer(t);
          }
        case ErrorScreen(x) =>
          match x {
            case ShowErrorScreen(p) => errorScreen.ShowErrorScreen(p);
            case HideErrorScreen => errorScreen.HideErrorScreen();
          }
        case Toast(x) =>
          match x {
            case ShowToast(p) => toast.ShowToast(p);
            case HideToast => toast.HideToast();
          }
        case Popup(x) =>
          match x {
            case ShowPopup(p) => popup.ShowPopup(p);
            case HidePopup => popup.HidePopup();
          }
        case Loader(x) =>
          match x {
            case ShowLoader => loader.ShowLoader();
            case HideLoader => loader.HideLoader();
          }
        case Lang(x) =>
          match x {
            case SelectLang(l) => lang.SelectLang(l);
            case DefaultLang => lang.DefaultLang();
          }
      }
      log := log + [a];
    }
  }
}
