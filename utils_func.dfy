/**
 * The general helpers: overwriting an array's prefix in place, the
 * dashboard name search, the calendar quarter of a month, and the
 * translation lookup by the selected language.
 */
module UtilsFunc {
  import opened Wrappers
  import opened Strings
  import opened JsValue
  import LangReducer

  // ---------------------------------------------------------------- getUpdateArr

  /** A JavaScript array of strings, shared by reference. */
  class JsArray {
    var elems: seq<string>

    constructor (init: seq<string>)
      ensures elems == init
    {
      elems := init;
    }

    /** `a[i] = x` for an index at most the length: overwrites the slot, or appends at the end. */
    method Set(i: nat, x: string)
      requires i <= |elems|
      modifies this
      ensures elems == if i < |old(elems)| then old(elems)[i := x] else old(elems) + [x]
    {
      if i < |elems| {
        elems := elems[i := x];
      } else {
        elems := elems + [x];
      }
    }
  }

  function Max(a: nat, b: nat): nat { if a < b then b else a }

  /** The contents of `a` after its first `|b|` slots are overwritten by `b`. */
  function Overwrite(a: seq<string>, b: seq<string>): (r: seq<string>)
    ensures |r| == Max(|a|, |b|)
    ensures forall i :: 0 <= i < |b| ==> r[i] == b[i]
    ensures forall i :: |b| <= i < |a| ==> r[i] == a[i]
  {
    if |b| < |a| then b + a[|b|..] else b
  }

  /** Writing one more slot of `b` extends the overwritten prefix by one. */
  lemma OverwriteStep(a: seq<string>, b: seq<string>, i: nat)
    requires i < |b|
    ensures var c := Overwrite(a, b[..i]);
      i <= |c| && Overwrite(a, b[..i + 1]) == if i < |c| then c[i := b[i]] else c + [b[i]]
  {
    var c := Overwrite(a, b[..i]);
    var d := if i < |c| then c[i := b[i]] else c + [b[i]];
    assert |Overwrite(a, b[..i + 1])| == |d|;
    forall k | 0 <= k < |d| ensures Overwrite(a, b[..i + 1])[k] == d[k] {
      if k < i {
        assert b[..i + 1][k] == b[..i][k];
      }
    }
  }

  /** `getUpdateArr`: copies `data2` over the front of `data1`, in place, and returns `data1` itself. */
  method GetUpdateArr(data1: JsArray, data2: seq<string>) returns (r: JsArray)
    modifies data1
    ensures r == data1
    ensures data1.elems == Overwrite(old(data1.elems), data2)
  {
    var i := 0;
    while i < |data2|
      invariant 0 <= i <= |data2|
      invariant data1.elems == Overwrite(old(data1.elems), data2[..i])
    {
      OverwriteStep(old(data1.elems), data2, i);
      data1.Set(i, data2[i]);
      i := i + 1;
    }
    assert data2[..|data2|] == data2;
    return data1;
  }

  /** Overwriting twice with the same data changes nothing more, and an array overwritten with itself is unchanged. */
  lemma OverwriteIdempotent(a: seq<string>, b: seq<string>)
    ensures Overwrite(Overwrite(a, b), b) == Overwrite(a, b)
    ensures Overwrite(a, a) == a
    ensures |b| >= |a| ==> Overwrite(a, b) == b
  {
    var c := Overwrite(a, b);
    assert |Overwrite(c, b)| == |c|;
    forall k | 0 <= k < |c| ensures Overwrite(c, b)[k] == c[k] {
    }
    assert Overwrite(a, a) == a by {
      forall k | 0 <= k < |a| ensures Overwrite(a, a)[k] == a[k] {
      }
    }
  }

  // ---------------------------------------------------------------- searchDashboardData

  const TYPE_ERROR := "TypeError"

  /** `name?.toLowerCase().includes(needle)`: nullish names do not match; a name that is not a string has no `toLowerCase` and throws. */
  function NameMatches(name: Value, needle: string): Result<bool> {
    match name
    case Undefined => Ok(false)
    case Null => Ok(false)
    case Str(s) => Ok(Contains(ToLower(s), needle))
    case _ => Err(TYPE_ERROR)
  }

  /** The filter callback: `first_name` first, and `last_name` only when the first does not match. */
  function ItemMatches(item: Value, needle: string): (r: Result<bool>)
    ensures r.Ok? ==>
              (r.value <==> NameMatches(Get(item, "first_name"), needle) == Ok(true)
                            || NameMatches(Get(item, "last_name"), needle) == Ok(true))
  {
    var first := NameMatches(Get(item, "first_name"), needle);
    if first.Err? then first
    else if first.value then Ok(true)
    else NameMatches(Get(item, "last_name"), needle)
  }

  /** `xs` is `ys` with some elements removed, the rest kept in order. */
  predicate IsSubsequence(xs: seq<Value>, ys: seq<Value>)
    decreases |ys|
  {
    xs == [] || (ys != [] && ((xs[0] == ys[0] && IsSubsequence(xs[1..], ys[1..])) || IsSubsequence(xs, ys[1..])))
  }

  /** `data.filter(item => ItemMatches(item, needle))`, which throws if the callback throws on any item. */
  function Filter(data: seq<Value>, needle: string): (r: Result<seq<Value>>)
    ensures r.Ok? <==> forall i :: 0 <= i < |data| ==> ItemMatches(data[i], needle).Ok?
  {
    if data == [] then Ok([])
    else
      var m := ItemMatches(data[0], needle);
      var rest := Filter(data[1..], needle);
      assert forall i :: 1 <= i < |data| ==> data[i] == data[1..][i - 1];
      if m.Err? then Err(m.error)
      else if rest.Err? then rest
      else if m.value then Ok([data[0]] + rest.value)
      else rest
  }

  /** What the filter keeps is an in-order selection of the data, and every kept item matches. */
  lemma {:induction false} FilterSound(data: seq<Value>, needle: string)
    requires Filter(data, needle).Ok?
    ensures IsSubsequence(Filter(data, needle).value, data)
    ensures forall x :: x in Filter(data, needle).value ==> ItemMatches(x, needle) == Ok(true)
  {
    if data != [] {
      var rest := Filter(data[1..], needle);
      FilterSound(data[1..], needle);
      if ItemMatches(data[0], needle) == Ok(true) {
        assert ([data[0]] + rest.value)[1..] == rest.value;
      }
    }
  }

  /** Every matching item is kept. */
  /** A successful filter keeps exactly the items of `data` that match. */
  lemma {:induction false} FilterExact(data: seq<Value>, needle: string)
    requires Filter(data, needle).Ok?
    ensures forall x :: x in Filter(data, needle).value <==> x in data && ItemMatches(x, needle) == Ok(true)
  {
    if data != [] {
      FilterExact(data[1..], needle);
      assert data == [data[0]] + data[1..];
    }
  }

  lemma {:induction false} FilterComplete(data: seq<Value>, needle: string, i: nat)
    requires Filter(data, needle).Ok? && i < |data| && ItemMatches(data[i], needle) == Ok(true)
    ensures data[i] in Filter(data, needle).value
  {
    if i > 0 {
      assert data[i] == data[1..][i - 1];
      FilterComplete(data[1..], needle, i - 1);
    }
  }

  /** Filtering a concatenation filters each part: the search keeps exactly the matching items, in their order. */
  lemma {:induction false} FilterAppend(xs: seq<Value>, ys: seq<Value>, needle: string)
    requires Filter(xs, needle).Ok? && Filter(ys, needle).Ok?
    ensures Filter(xs + ys, needle) == Ok(Filter(xs, needle).value + Filter(ys, needle).value)
  {
    if xs == [] {
      assert xs + ys == ys;
      assert Filter(xs, needle).value == [];
      assert Filter(ys, needle) == Ok(Filter(ys, needle).value);
      assert [] + Filter(ys, needle).value == Filter(ys, needle).value;
    } else {
      var zs := xs + ys;
      assert zs[0] == xs[0];
      assert zs[1..] == xs[1..] + ys;
      FilterAppend(xs[1..], ys, needle);
      var rest := Filter(xs[1..], needle).value;
      if ItemMatches(xs[0], needle) == Ok(true) {
        assert Filter(xs, needle) == Ok([xs[0]] + rest);
        assert Filter(zs, needle) == Ok([xs[0]] + (rest + Filter(ys, needle).value));
        assert [xs[0]] + (rest + Filter(ys, needle).value) == ([xs[0]] + rest) + Filter(ys, needle).value;
      } else {
        assert Filter(zs, needle) == Ok(rest + Filter(ys, needle).value);
      }
    }
  }

  /** A single item is kept exactly when it matches. */
  lemma FilterSingle(x: Value, needle: string)
    requires ItemMatches(x, needle).Ok?
    ensures Filter([x], needle) == Ok(if ItemMatches(x, needle).value then [x] else [])
  {
    var data := [x];
    assert data[1..] == [];
    assert Filter(data[1..], needle) == Ok([]);
    assert data != [] && data[0] == x;
    assert [x] + [] == [x];
  }

  /**
   * `searchDashboardData`: a missing or empty search returns a copy of the
   * data; otherwise the items whose first or last name, lower-cased,
   * contains the lower-cased search.
   */
  function SearchDashboardData(data: seq<Value>, search: Option<string>): (r: Result<seq<Value>>)
    ensures (search.None? || search.value == "") ==> r == Ok(data)
    ensures r.Ok? ==> IsSubsequence(r.value, data)
    ensures search.Some? && search.value != "" && r.Ok? ==>
              forall x :: x in r.value <==> x in data && ItemMatches(x, ToLower(search.value)) == Ok(true)
  {
    if search.Some? && |search.value| > 0 then
      var r := Filter(data, ToLower(search.value));
      if r.Ok? then FilterSound(data, ToLower(search.value)); FilterExact(data, ToLower(search.value)); r else r
    else
      assert IsSubsequence(data, data) by { SubsequenceRefl(data); }
      Ok(data)
  }

  lemma {:induction false} SubsequenceRefl(xs: seq<Value>)
    ensures IsSubsequence(xs, xs)
    decreases |xs|
  {
    if xs != [] {
      SubsequenceRefl(xs[1..]);
    }
  }

  /** The search ignores the case of the ASCII letters of the search text. */
  lemma SearchIgnoresCase(data: seq<Value>, a: string, b: string)
    requires ToLower(a) == ToLower(b)
    ensures SearchDashboardData(data, Some(a)) == SearchDashboardData(data, Some(b))
  {
    assert |a| == |ToLower(a)| == |ToLower(b)| == |b|;
  }

  // ---------------------------------------------------------------- getCurrentQuarterDate

  datatype QuarterDate = QuarterDate(quarter: string, year: string)

  const QUARTERS: seq<string> := ["Q1", "Q2", "Q3", "Q4"]

  /** `getCurrentQuarterDate`, with the month (1-12) and year of today as parameters; no result for any other month. */
  function GetCurrentQuarterDate(month: int, year: int): (r: Option<QuarterDate>)
    ensures r.Some? <==> 1 <= month <= 12
    ensures r.Some? ==> r.value.year == IntToString(year) && r.value.quarter in QUARTERS
  {
    if 1 <= month <= 3 then Some(QuarterDate("Q1", IntToString(year)))
    else if 4 <= month <= 6 then Some(QuarterDate("Q2", IntToString(year)))
    else if 7 <= month <= 9 then Some(QuarterDate("Q3", IntToString(year)))
    else if 10 <= month <= 12 then Some(QuarterDate("Q4", IntToString(year)))
    else None
  }

  /** Quarter `q` (counting from 1) covers exactly the months `3q-2` to `3q`. */
  lemma QuarterMonths(month: int, year: int, q: nat)
    requires 1 <= q <= 4
    ensures (GetCurrentQuarterDate(month, year).Some? && GetCurrentQuarterDate(month, year).value.quarter == QUARTERS[q - 1])
            <==> 3 * q - 2 <= month <= 3 * q
  {
  }

  // ---------------------------------------------------------------- getCovertedString

  /**
   * `getCovertedString`: a key of the translation table gives its first
   * entry when the selected language is 'en' and its second otherwise;
   * any other string is returned as it is. No result models `undefined`,
   * from an entry too short for the index.
   */
  function GetConvertedString(str: string, lang: LangReducer.LangState, langList: map<string, seq<string>>): (r: Option<string>)
    ensures str !in langList ==> r == Some(str)
    ensures str in langList && |langList[str]| >= 2 ==> r.Some? && r.value in langList[str]
  {
    if str in langList then
      var index := if lang.selectedLang == "en" then 0 else 1;
      if index < |langList[str]| then Some(langList[str][index]) else None
    else Some(str)
  }

  /** After `defaultLang` the first translation is shown; in the initial state, before any language is chosen, the second is. */
  lemma ConvertedByLanguage(str: string, s: LangReducer.LangState, langList: map<string, seq<string>>)
    requires str in langList && |langList[str]| >= 2
    ensures GetConvertedString(str, LangReducer.Apply(s, LangReducer.DefaultLang), langList) == Some(langList[str][0])
    ensures GetConvertedString(str, LangReducer.Initial, langList) == Some(langList[str][1])
    ensures s.selectedLang != "en" ==> GetConvertedString(str, s, langList) == Some(langList[str][1])
  {
  }
}
