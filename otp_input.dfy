/**
 * The OTP entry boxes: a buffer of one string per box, updated in place by
 * typing, pasting and backspace, the focused box, and whether the user
 * has touched the component. The parent's `otp` state receives a copy of
 * the buffer after every change.
 */
module OtpInput {
  import opened Strings
  import Validators

  /** The component's state as values: the buffer, the focused box (-1 for none) and the touched flag. */
  datatype OtpState = OtpState(values: seq<string>, focusedIndex: int, isTouched: bool)

  const BACKSPACE := "Backspace"

  /** A box holds nothing or a single digit. */
  predicate CleanSlot(s: string) { s == "" || (|s| == 1 && IsDigit(s[0])) }

  predicate Clean(values: seq<string>) { forall i :: 0 <= i < |values| ==> CleanSlot(values[i]) }

  /** `numericValue.split('')`: one box per digit. */
  function Chars(s: string): (boxes: seq<string>)
    ensures |boxes| == |s|
    ensures forall i :: 0 <= i < |s| ==> boxes[i] == [s[i]]
  {
    seq(|s|, i requires 0 <= i < |s| => [s[i]])
  }

  /** The boxes read together as one code. */
  function Concat(boxes: seq<string>): string {
    if boxes == [] then "" else boxes[0] + Concat(boxes[1..])
  }

  /** `handleTextChange`: only a value with exactly one digit is written, and focus then moves on, or stays on the last box. */
  function TextChange(st: OtpState, otpLength: nat, index: nat, value: string): OtpState
    requires index < |st.values|
  {
    var numericValue := DigitsOnly(value);
    if |numericValue| == 1 then
      st.(values := st.values[index := numericValue],
          focusedIndex := if index < otpLength - 1 then index + 1 else index)
    else st
  }

  /** `handleFullOtpChange`: accepted when the digits of the text fill exactly the boxes, which then hold them. */
  function FullOtpChange(st: OtpState, otpLength: nat, fullOtpString: string): (OtpState, bool) {
    var numericValue := DigitsOnly(fullOtpString);
    if |numericValue| == otpLength then
      (st.(values := Chars(numericValue), focusedIndex := otpLength - 1), true)
    else (st, false)
  }

  /** `handleKeyPress`: backspace clears the box, or, on an empty box after the first, the box before it, which takes the focus. */
  function KeyPress(st: OtpState, key: string, index: nat): OtpState
    requires index < |st.values|
  {
    if key == BACKSPACE then
      if st.values[index] == "" && index > 0 then
        st.(values := st.values[index - 1 := ""], focusedIndex := index - 1)
      else if st.values[index] != "" then
        st.(values := st.values[index := ""])
      else st
    else st
  }

  /** `text.slice(-1)`, or '' for an empty text. */
  function LastChar(text: string): (r: string)
    ensures |r| <= 1
    ensures text != [] ==> r == [text[|text| - 1]]
  {
    if |text| > 0 then text[|text| - 1..] else ""
  }

  /** A box's `onChangeText`: a paste if it fills the boxes, otherwise the last character typed. */
  function ChangeText(st: OtpState, otpLength: nat, index: nat, text: string): OtpState
    requires index < |st.values|
  {
    var (pasted, accepted) := FullOtpChange(st, otpLength, text);
    if accepted then pasted else TextChange(st, otpLength, index, LastChar(text))
  }

  /** `handleInputFocus`. */
  function Focus(st: OtpState, index: int): OtpState {
    st.(focusedIndex := index, isTouched := true)
  }

  /** `handleInputBlur`: its callback keeps the `otp` of the first render, and clears the focus only if that was empty. */
  function Blur(st: OtpState, initialOtp: seq<string>): OtpState {
    if |initialOtp| == 0 then st.(focusedIndex := -1) else st
  }

  /** `otp.every(digit => digit.length === 1)`; the component also uses it as `isOtpValid`. */
  predicate IsFilled(otp: seq<string>) { forall i :: 0 <= i < |otp| ==> |otp[i]| == 1 }

  /** `handleIsDigitFilled`: the box exists and holds one character. */
  predicate DigitFilled(values: seq<string>, index: int) {
    0 <= index < |values| && |values[index]| == 1
  }

  /** The error style of box `index`: filled, touched, not valid and filled. */
  predicate ShowErrorStyle(st: OtpState, index: int) {
    var isOtpValid := IsFilled(st.values);
    DigitFilled(st.values, index) && st.isTouched && !isOtpValid && IsFilled(st.values)
  }

  // ---------------------------------------------------------------- properties

  /** Validity is defined as being filled, so the error style is never shown. */
  lemma NeverShowsError(st: OtpState, index: int)
    ensures !ShowErrorStyle(st, index)
  {
  }

  /** Typing never writes anything but a single digit; an entry that is not one leaves the boxes alone. */
  lemma TypingWritesOneDigit(st: OtpState, otpLength: nat, index: nat, value: string)
    requires index < |st.values|
    ensures var t := TextChange(st, otpLength, index, value);
      |t.values| == |st.values| && t.isTouched == st.isTouched
      && (forall i :: 0 <= i < |st.values| && i != index ==> t.values[i] == st.values[i])
      && (t.values[index] == st.values[index] || (|t.values[index]| == 1 && IsDigit(t.values[index][0])))
      && (|DigitsOnly(value)| != 1 ==> t == st)
  {
  }

  /** After a digit is written focus moves to the next box, and stays on the last one. */
  lemma TypingMovesFocus(st: OtpState, otpLength: nat, index: nat, value: string)
    requires index < |st.values| && index < otpLength
    requires |DigitsOnly(value)| == 1
    ensures var t := TextChange(st, otpLength, index, value);
      t.values[index] == DigitsOnly(value)
      && (index + 1 < otpLength ==> t.focusedIndex == index + 1)
      && (index + 1 == otpLength ==> t.focusedIndex == index)
      && 0 <= t.focusedIndex < otpLength
  {
  }

  /** A paste is accepted exactly when its digits number `otpLength`; the boxes then hold those digits, one each, and are filled. */
  lemma PasteFills(st: OtpState, otpLength: nat, text: string)
    ensures var (t, accepted) := FullOtpChange(st, otpLength, text);
      (accepted <==> |DigitsOnly(text)| == otpLength)
      && (accepted ==> |t.values| == otpLength && IsFilled(t.values) && Clean(t.values)
                       && t.focusedIndex == otpLength - 1 && Concat(t.values) == DigitsOnly(text))
      && (!accepted ==> t == st)
  {
    var d := DigitsOnly(text);
    if |d| == otpLength {
      JoinChars(d);
    }
  }

  lemma {:induction false} JoinChars(s: string)
    ensures Concat(Chars(s)) == s
    decreases |s|
  {
    if s != [] {
      assert Chars(s)[1..] == Chars(s[1..]);
      JoinChars(s[1..]);
    }
  }

  /** Backspace on a filled box clears it, and on an empty box after the first clears the one before and focuses it. */
  lemma BackspaceClears(st: OtpState, index: nat)
    requires index < |st.values|
    ensures var t := KeyPress(st, BACKSPACE, index);
      |t.values| == |st.values|
      && (st.values[index] != "" ==> t.values == st.values[index := ""] && t.focusedIndex == st.focusedIndex)
      && (st.values[index] == "" && index > 0 ==> t.values == st.values[index - 1 := ""] && t.focusedIndex == index - 1)
      && (st.values[index] == "" && index == 0 ==> t == st)
  {
  }

  /** Typing a digit into an empty box and pressing backspace in the box it moved to gives the boxes back, with focus on the first box again. */
  lemma BackspaceUndoesTyping(st: OtpState, otpLength: nat, index: nat, value: string)
    requires index + 1 < |st.values| && index + 1 < otpLength
    requires st.values[index] == "" && st.values[index + 1] == ""
    requires |DigitsOnly(value)| == 1
    ensures var t := TextChange(st, otpLength, index, value);
      t.focusedIndex == index + 1
      && KeyPress(t, BACKSPACE, index + 1).values == st.values
      && KeyPress(t, BACKSPACE, index + 1).focusedIndex == index
  {
    var t := TextChange(st, otpLength, index, value);
    assert t.values[index + 1] == "";
    assert t.values[index := ""] == st.values;
  }

  /** Every handler keeps the boxes clean: each holds nothing or one digit. */
  lemma ChangeKeepsClean(st: OtpState, otpLength: nat, index: nat, text: string, key: string)
    requires index < |st.values| && Clean(st.values)
    ensures Clean(ChangeText(st, otpLength, index, text).values)
    ensures Clean(KeyPress(st, key, index).values)
  {
    var d := DigitsOnly(LastChar(text));
    if |d| == 1 {
      assert IsDigit(d[0]);
    }
  }

  /** Clean boxes always pass the OTP validator, so it accepts partly filled boxes too. */
  lemma CleanPassesValidator(values: seq<string>)
    requires Clean(values)
    ensures forall k :: 0 <= k < |values| ==> Validators.IsNumeric(values[k])
  {
    forall k | 0 <= k < |values| ensures Validators.IsNumeric(values[k]) {
      Validators.SlotIsNumeric(values[k]);
    }
  }

  /** Only a paste replaces the buffer's length; typing and backspace keep it. */
  lemma ChangeTextResult(st: OtpState, otpLength: nat, index: nat, text: string)
    requires index < |st.values|
    ensures var t := ChangeText(st, otpLength, index, text);
      (|DigitsOnly(text)| == otpLength ==> t == FullOtpChange(st, otpLength, text).0)
      && (|DigitsOnly(text)| != otpLength ==> t == TextChange(st, otpLength, index, LastChar(text)))
  {
  }

  /** With a non-empty `otp` at the first render the blur handler never clears the focus. */
  lemma BlurKeepsFocus(st: OtpState, initialOtp: seq<string>)
    requires |initialOtp| > 0
    ensures Blur(st, initialOtp) == st
  {
  }

  /** Focusing a box marks the component touched. */
  lemma FocusTouches(st: OtpState, index: int)
    ensures Focus(st, index).isTouched && Focus(st, index).focusedIndex == index
    ensures Focus(st, index).values == st.values
  {
  }

  // ---------------------------------------------------------------- the component

  /** The component instance: the internal buffer, which the handlers change in place, and the parent's `otp` copy. */
  class OtpBoxes {
    const otpLength: nat
    /** The `otp` prop of the first render, which the blur handler keeps. */
    const initialOtp: seq<string>
    /** `internalOtpValuesRef.current`. */
    var values: array<string>
    /** The parent's `otp` state. */
    var otp: seq<string>
    var focusedIndex: int
    var isTouched: bool

    /** There is a box for every input, and the parent's copy is up to date. */
    predicate Valid()
      reads this, values
    {
      otpLength <= values.Length && otp == values[..]
    }

    function State(): OtpState
      reads this, values
    {
      OtpState(values[..], focusedIndex, isTouched)
    }

    constructor (otpLength: nat, otp: seq<string>)
      requires otpLength <= |otp|
      ensures Valid() && this.otpLength == otpLength && initialOtp == otp
      ensures State() == OtpState(otp, -1, false)
    {
      this.otpLength := otpLength;
      initialOtp := otp;
      values := new string[|otp|](i requires 0 <= i < |otp| => otp[i]);
      this.otp := otp;
      focusedIndex := -1;
      isTouched := false;
    }

    /** `updateExternalOtp`: the parent receives a copy of the buffer. */
    method UpdateExternalOtp()
      modifies this
      ensures otp == values[..]
      ensures values == old(values) && focusedIndex == old(focusedIndex) && isTouched == old(isTouched)
    {
      otp := values[..];
    }

    method HandleTextChange(index: nat, value: string)
      requires Valid() && index < otpLength
      modifies this, values
      ensures Valid() && values == old(values)
      ensures State() == TextChange(old(State()), otpLength, index, value)
    {
      var numericValue := DigitsOnly(value);
      if |numericValue| == 1 {
        values[index] := numericValue;
        UpdateExternalOtp();
        if index < otpLength - 1 {
          focusedIndex := index + 1;
        } else {
          focusedIndex := index;
        }
      }
    }

    method HandleFullOtpChange(fullOtpString: string) returns (accepted: bool)
      requires Valid()
      modifies this
      ensures Valid() && (values == old(values) || fresh(values))
      ensures (State(), accepted) == FullOtpChange(old(State()), otpLength, fullOtpString)
    {
      var numericValue := DigitsOnly(fullOtpString);
      if |numericValue| == otpLength {
        values := new string[otpLength](i requires 0 <= i < otpLength => [numericValue[i]]);
        UpdateExternalOtp();
        focusedIndex := otpLength - 1;
        assert values[..] == Chars(numericValue);
        return true;
      }
      return false;
    }

    method HandleKeyPress(key: string, index: nat)
      requires Valid() && index < otpLength
      modifies this, values
      ensures Valid() && values == old(values)
      ensures State() == KeyPress(old(State()), key, index)
    {
      if key == BACKSPACE {
        var currentDigit := values[index];
        if currentDigit == "" && index > 0 {
          var prevIndex := index - 1;
          values[prevIndex] := "";
          UpdateExternalOtp();
          focusedIndex := prevIndex;
        } else if currentDigit != "" {
          values[index] := "";
          UpdateExternalOtp();
        }
      }
    }

    /** A box's `onChangeText`. */
    method OnChangeText(index: nat, text: string)
      requires Valid() && index < otpLength
      modifies this, values
      ensures Valid() && (values == old(values) || fresh(values))
      ensures State() == ChangeText(old(State()), otpLength, index, text)
    {
      var pasted := HandleFullOtpChange(text);
      if pasted {
        return;
      }
      var singleChar := if |text| > 0 then text[|text| - 1..] else "";
      HandleTextChange(index, singleChar);
    }

    method HandleInputFocus(index: int)
      modifies this
      ensures values == old(values) && otp == old(otp)
      ensures State() == Focus(old(State()), index)
    {
      focusedIndex := index;
      isTouched := true;
    }

    /** The blur handler, with its timer's delay left out. */
    method HandleInputBlur()
      modifies this
      ensures values == old(values) && otp == old(otp)
      ensures State() == Blur(old(State()), initialOtp)
    {
      if |initialOtp| == 0 {
        focusedIndex := -1;
      }
    }

    /** `isOtpValid`, which the parent is notified of. */
    function IsOtpValid(): (valid: bool)
      reads this
      ensures valid <==> forall i :: 0 <= i < |otp| ==> |otp[i]| == 1
    {
      IsFilled(otp)
    }
  }
}
