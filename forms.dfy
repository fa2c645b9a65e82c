/** Form submissions as the server actions read them: `formData.get(name)`
    answers a text entry, an uploaded file or nothing, and the actions turn
    entries into numbers with `Number(x)` and into text with
    `String(x || '')`. */
module Forms {
  import opened Wrappers
  import opened Text

  /** A `FormDataEntryValue`: a text value or an uploaded file. */
  datatype Entry = TextEntry(s: string) | FileEntry

  type FormData = map<string, Entry>

  /** `formData.get(name)`: `None` is the source's `null`. */
  function Get(form: FormData, name: string): (r: Option<Entry>)
    ensures r.Some? <==> name in form
  {
    if name in form then Some(form[name]) else None
  }

  /** What `String(file)` gives for an uploaded file. */
  const FileText: string := "[object File]"

  /** `String(formData.get(name) || '')`: a missing entry reads as empty. */
  function StringOf(v: Option<Entry>): (r: string)
    ensures v.None? ==> r == ""
    ensures v.Some? && v.value.TextEntry? ==> r == v.value.s
  {
    match v
    case None => ""
    case Some(TextEntry(s)) => s
    case Some(FileEntry) => FileText
  }

  /** A JavaScript number: finite, or NaN. */
  datatype Num = Finite(value: real) | NaN

  predicate IsDigit(c: char) {
    '0' <= c <= '9'
  }

  predicate AllDigits(s: string) {
    forall i :: 0 <= i < |s| ==> IsDigit(s[i])
  }

  /** The value of a string of decimal digits, read from the last digit back. */
  function DigitsValue(s: string): nat
    requires AllDigits(s)
  {
    if s == [] then 0
    else DigitsValue(s[..|s| - 1]) * 10 + (s[|s| - 1] as int - '0' as int)
  }

  /** `x` divided by ten `n` times: the value of `n` digits after the point. */
  function Tenths(x: real, n: nat): (r: real)
    ensures x >= 0.0 ==> r >= 0.0
  {
    if n == 0 then x else Tenths(x, n - 1) / 10.0
  }

  /** The position of the first `c` in `s`. */
  function FirstIndex(s: string, c: char): (i: nat)
    requires c in s
    ensures i < |s| && s[i] == c && c !in s[..i]
  {
    if s[0] == c then 0
    else
      assert c in s[1..] by { var j :| 0 <= j < |s| && s[j] == c; assert s[1..][j - 1] == c; }
      var j := FirstIndex(s[1..], c);
      assert s[..j + 1] == [s[0]] + s[1..][..j];
      j + 1
  }

  /** An unsigned decimal literal: digits, optionally a point and more
      digits, with at least one digit in all. */
  function ParseUnsigned(s: string): (r: Option<real>)
    ensures r.Some? ==> s != [] && r.value >= 0.0
  {
    if '.' !in s then
      if s != [] && AllDigits(s) then Some(DigitsValue(s) as real) else None
    else
      var i := FirstIndex(s, '.');
      var whole, frac := s[..i], s[i + 1..];
      if (whole != [] || frac != []) && AllDigits(whole) && AllDigits(frac)
      then Some(DigitsValue(whole) as real + Tenths(DigitsValue(frac) as real, |frac|))
      else None
  }

  /** A decimal literal with an optional sign. */
  function ParseDecimal(s: string): (r: Option<real>)
    ensures s != [] && IsDigit(s[0]) ==> r == ParseUnsigned(s)
  {
    if s != [] && s[0] == '-' then
      match ParseUnsigned(s[1..])
      case Some(x) => Some(-x)
      case None => None
    else if s != [] && s[0] == '+' then ParseUnsigned(s[1..])
    else ParseUnsigned(s)
  }

  /** `Number(s)` for a string: white space around the literal is ignored
      and a blank string is 0. */
  function StringToNumber(s: string): (n: Num)
    ensures Trim(s) == [] ==> n == Finite(0.0)
  {
    var t := Trim(s);
    if t == [] then Finite(0.0)
    else match ParseDecimal(t)
      case Some(x) => Finite(x)
      case None => NaN
  }

  /** `Number(formData.get(name))`: `Number(null)` is 0 and a file is NaN. */
  function ToNumber(v: Option<Entry>): (n: Num)
    ensures v.None? ==> n == Finite(0.0)
    ensures v == Some(FileEntry) ==> n == NaN
  {
    match v
    case None => Finite(0.0)
    case Some(TextEntry(s)) => StringToNumber(s)
    case Some(FileEntry) => NaN
  }

  /** A number is truthy unless it is 0 or NaN. */
  predicate Truthy(n: Num) {
    n.Finite? && n.value != 0.0
  }

  /** `Number(x) || fallback`. */
  function NumberOr(v: Option<Entry>, fallback: real): (r: real)
    ensures fallback != 0.0 ==> r != 0.0
    ensures r != fallback ==> ToNumber(v) == Finite(r)
    ensures Truthy(ToNumber(v)) ==> r == ToNumber(v).value
    ensures !Truthy(ToNumber(v)) ==> r == fallback
  {
    var n := ToNumber(v);
    if Truthy(n) then n.value else fallback
  }

  /** `Number(x) || null`. */
  function NumberOrNull(v: Option<Entry>): (r: Option<real>)
    ensures r.None? <==> !Truthy(ToNumber(v))
    ensures r.Some? ==> r.value != 0.0 && ToNumber(v) == Finite(r.value)
  {
    var n := ToNumber(v);
    if Truthy(n) then Some(n.value) else None
  }

  /** A missing, blank, zero or non-numeric entry falls back. */
  lemma NumberOrFallsBack(v: Option<Entry>, fallback: real)
    requires v.None? || v == Some(FileEntry)
          || (v.Some? && v.value.TextEntry? && (Trim(v.value.s) == [] || Trim(v.value.s) == "0"
                                                || ParseDecimal(Trim(v.value.s)).None?))
    ensures NumberOr(v, fallback) == fallback
  {
    if v.Some? && v.value.TextEntry? && Trim(v.value.s) == "0" {
      assert ParseDecimal("0") == Some(0.0) by {
        assert "0"[..0] == [];
      }
    }
  }

  /** Digits with no space at either end are their own trim. */
  lemma DigitsTrimmed(s: string)
    requires s != [] && AllDigits(s)
    ensures Trim(s) == s
  {
    TrimOfTrimmed(s);
  }

  /** `NatToString` writes the digits `DigitsValue` reads back. */
  lemma {:induction false} DigitsValueOfNat(n: nat)
    ensures AllDigits(NatToString(n)) && DigitsValue(NatToString(n)) == n
    decreases n
  {
    var s := NatToString(n);
    if n >= 10 {
      DigitsValueOfNat(n / 10);
      assert s[..|s| - 1] == NatToString(n / 10);
    }
  }

  /** A whole number typed into a form field reads back as itself. */
  lemma NumberOfNatText(n: nat)
    ensures ToNumber(Some(TextEntry(NatToString(n)))) == Finite(n as real)
  {
    var s := NatToString(n);
    DigitsValueOfNat(n);
    DigitsTrimmed(s);
  }
}
