/** The `lang` slice: the selected language code. */
module LangReducer {

  datatype LangState = LangState(selectedLang: string)

  datatype Action = SelectLang(prevLang: string) | DefaultLang

  /** No language chosen yet. */
  const Initial := LangState("")

  function Apply(s: LangState, a: Action): LangState {
    match a
    case SelectLang(l) => s.(selectedLang := l)
    case DefaultLang => s.(selectedLang := "en")
  }

  class LangSlice {
    var selectedLang: string

    function State(): LangState
      reads this
    {
      LangState(selectedLang)
    }

    constructor ()
      ensures State() == Initial
    {
      selectedLang := "";
    }

    /** `selectLang`: the payload's `prevLang` becomes the selected language. */
    method SelectLang(prevLang: string)
      modifies this
      ensures State() == Apply(old(State()), Action.SelectLang(prevLang))
      ensures selectedLang == prevLang
    {
      selectedLang := prevLang;
    }

    /** `defaultLang`: English. */
    method DefaultLang()
      modifies this
      ensures State() == Apply(old(State()), Action.DefaultLang)
      ensures selectedLang == "en"
    {
      selectedLang := "en";
    }
  }

  /** Both actions forget the previous selection, so repeating one changes nothing. */
  lemma ActionsIdempotent(s1: LangState, s2: LangState, a: Action)
    ensures Apply(s1, a) == Apply(s2, a)
    ensures Apply(Apply(s1, a), a) == Apply(s1, a)
  {
  }
}
