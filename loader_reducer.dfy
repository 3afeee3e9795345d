/** The `loader` slice: a single busy flag. */
module LoaderReducer {

  datatype LoaderState = LoaderState(status: bool)

  datatype Action = ShowLoader | HideLoader

  const Initial := LoaderState(false)

  function Apply(s: LoaderState, a: Action): LoaderState {
    match a
    case ShowLoader => s.(status := true)
    case HideLoader => s.(status := false)
  }

  class LoaderSlice {
    var status: bool

    function State(): LoaderState
      reads this
    {
      LoaderState(status)
    }

    constructor ()
      ensures State() == Initial
    {
      status := false;
    }

    method ShowLoader()
      modifies this
      ensures State() == Apply(old(State()), Action.ShowLoader)
      ensures status
    {
      status := true;
    }

    method HideLoader()
      modifies this
      ensures State() == Apply(old(State()), Action.HideLoader)
      ensures !status
    {
      status := false;
    }
  }

  /** The state after an action depends on that action alone, so each action is idempotent. */
  lemma ActionDeterminesState(s1: LoaderState, s2: LoaderState, a: Action)
    ensures Apply(s1, a) == Apply(s2, a)
    ensures Apply(Apply(s1, a), a) == Apply(s1, a)
    ensures Apply(s1, a).status <==> a == ShowLoader
  {
  }
}
