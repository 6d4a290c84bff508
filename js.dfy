/** JavaScript values as the service sees them: `undefined`, numbers, truthiness,
    the text of a template literal `${n}` and the `Number(...)` conversion. */
module Js {

  /** A value that may be `undefined`. */
  datatype Option<+T> = None | Some(value: T)

  /** A value or a thrown error. */
  datatype Result<+T, +E> = Ok(value: T) | Err(error: E)

  /** A JavaScript number, restricted to the integers and NaN. */
  datatype Number = Finite(value: int) | NaN

  /** `!!s` for an optional string: neither `undefined` nor `""`. */
  predicate TruthyString(s: Option<string>) {
    s.Some? && s.value != ""
  }

  /** `!!n` for an optional number: neither `undefined`, NaN nor 0. */
  predicate TruthyNumber(n: Option<Number>) {
    n.Some? && n.value.Finite? && n.value.value != 0
  }

  /** `!!n` for an optional integer. */
  predicate TruthyInt(n: Option<int>) {
    n.Some? && n.value != 0
  }

  predicate IsDigit(c: char) {
    '0' <= c <= '9'
  }

  predicate AllDigits(s: string) {
    forall i :: 0 <= i < |s| ==> IsDigit(s[i])
  }

  function DigitChar(d: nat): (c: char)
    requires d < 10
    ensures IsDigit(c) && c as int - '0' as int == d
  {
    ('0' as int + d) as char
  }

  /** Decimal digits of a natural number, without leading zeros. */
  function NatString(n: nat): (s: string)
    ensures |s| >= 1 && AllDigits(s)
    ensures n > 0 ==> s[0] != '0'
    decreases n
  {
    if n < 10 then [DigitChar(n)] else NatString(n / 10) + [DigitChar(n % 10)]
  }

  /** The text of the template literal `${n}` for an integer `n`. */
  function DecimalString(n: int): (s: string)
    ensures |s| >= 1
    ensures s[0] == '-' <==> n < 0
  {
    if n < 0 then "-" + NatString(-n) else NatString(n)
  }

  /** The value of a string of decimal digits (leading zeros allowed). */
  function DigitsValue(s: string): nat
    requires AllDigits(s)
    decreases |s|
  {
    if s == [] then 0 else 10 * DigitsValue(s[..|s| - 1]) + (s[|s| - 1] as int - '0' as int)
  }

  /** The value of a two-digit string. */
  lemma TwoDigitsValue(s: string)
    requires |s| == 2 && AllDigits(s)
    ensures DigitsValue(s) == 10 * (s[0] as int - '0' as int) + (s[1] as int - '0' as int)
  {
    var first := s[..1];
    assert first[..0] == [] && first[0] == s[0];
    assert DigitsValue(first) == s[0] as int - '0' as int;
    assert s[..|s| - 1] == first;
  }

  lemma {:induction false} DigitsValueOfNatString(n: nat)
    ensures DigitsValue(NatString(n)) == n
    decreases n
  {
    if n >= 10 {
      var s := NatString(n);
      DigitsValueOfNatString(n / 10);
      assert s[..|s| - 1] == NatString(n / 10);
    }
  }

  function Pow10(k: nat): (p: nat)
    ensures p >= 1
  {
    if k == 0 then 1 else 10 * Pow10(k - 1)
  }

  /** A natural number has at most `k` digits exactly when it is below 10^k. */
  lemma {:induction false} NatStringLength(n: nat, k: nat)
    requires k >= 1
    ensures |NatString(n)| <= k <==> n < Pow10(k)
    decreases n
  {
    if n >= 10 {
      assert |NatString(n)| == |NatString(n / 10)| + 1;
      if k == 1 {
        assert Pow10(1) == 10;
      } else {
        NatStringLength(n / 10, k - 1);
        assert n / 10 < Pow10(k - 1) <==> n < 10 * Pow10(k - 1);
      }
    } else {
      assert Pow10(k) == 10 * Pow10(k - 1);
    }
  }

  /** The characters `Number(...)` skips around its argument: the white space and
      line terminators of ECMAScript (tab to carriage return, space, no-break space,
      the Unicode space separators, the line and paragraph separators and the byte
      order mark). */
  predicate IsSpace(c: char) {
    '\t' <= c <= '\r' || c == ' ' || c == '\U{00A0}' || c == '\U{1680}'
    || '\U{2000}' <= c <= '\U{200A}' || c == '\U{2028}' || c == '\U{2029}'
    || c == '\U{202F}' || c == '\U{205F}' || c == '\U{3000}' || c == '\U{FEFF}'
  }

  function TrimStart(s: string): (t: string)
    ensures |t| <= |s| && t == s[|s| - |t|..]
    ensures t == [] || !IsSpace(t[0])
    ensures s != [] && !IsSpace(s[0]) ==> t == s
    ensures forall i :: 0 <= i < |s| - |t| ==> IsSpace(s[i])
  {
    if s != [] && IsSpace(s[0]) then
      var t := TrimStart(s[1..]);
      assert forall i :: 1 <= i < |s| - |t| ==> s[i] == s[1..][i - 1];
      t
    else s
  }

  function TrimEnd(s: string): (t: string)
    ensures |t| <= |s| && t == s[..|t|]
    ensures t == [] || !IsSpace(t[|t| - 1])
    ensures s != [] && !IsSpace(s[|s| - 1]) ==> t == s
    ensures forall i :: |t| <= i < |s| ==> IsSpace(s[i])
  {
    if s != [] && IsSpace(s[|s| - 1]) then TrimEnd(s[..|s| - 1]) else s
  }

  function Trim(s: string): string {
    TrimEnd(TrimStart(s))
  }

  /** `Number(raw)` for a query parameter: `undefined` gives NaN, a blank string 0,
      an optionally signed run of decimal digits its value, anything else NaN. */
  function ToNumber(raw: Option<string>): (r: Number)
    ensures raw.None? ==> r == NaN
    ensures raw.Some? && (forall i :: 0 <= i < |raw.value| ==> IsSpace(raw.value[i])) ==> r == Finite(0)
  {
    match raw
    case None => NaN
    case Some(s) => IntegerValue(Trim(s))
  }

  /** The value of a trimmed numeric literal. */
  function IntegerValue(t: string): Number {
    if t == "" then Finite(0)
    else if (t[0] == '-' || t[0] == '+') && |t| > 1 && AllDigits(t[1..]) then
      var magnitude: int := DigitsValue(t[1..]);
      Finite(if t[0] == '-' then -magnitude else magnitude)
    else if AllDigits(t) then Finite(DigitsValue(t))
    else NaN
  }

  /** `Number` reads back every integer from its decimal text. */
  lemma ToNumberOfDecimalString(n: int)
    ensures ToNumber(Some(DecimalString(n))) == Finite(n)
  {
    var s := DecimalString(n);
    assert IsDigit(s[|s| - 1]) && !IsSpace(s[|s| - 1]);
    assert (IsDigit(s[0]) || s[0] == '-') && !IsSpace(s[0]);
    TrimNoSpaces(s);
    if n < 0 {
      assert s[1..] == NatString(-n);
      DigitsValueOfNatString(-n);
    } else {
      DigitsValueOfNatString(n);
      assert s[0] != '-' && s[0] != '+';
    }
  }

  /** A text that neither starts nor ends with a space is its own trim. */
  lemma TrimNoSpaces(s: string)
    requires s != [] && !IsSpace(s[0]) && !IsSpace(s[|s| - 1])
    ensures Trim(s) == s
  {
    assert TrimStart(s) == s;
  }

  /** A missing parameter, or a word with a letter in it, is NaN. */
  lemma ToNumberRejectsNonNumeric(raw: Option<string>, i: nat)
    requires raw.Some? ==> i < |raw.value| && !IsDigit(raw.value[i]) && !IsSpace(raw.value[i])
                           && raw.value[i] != '-' && raw.value[i] != '+'
    ensures ToNumber(raw) == NaN
  {
    if raw.Some? {
      var s := raw.value;
      var t0 := TrimStart(s);
      var t := TrimEnd(t0);
      var skipped := |s| - |t0|;
      assert i >= skipped;
      assert i - skipped < |t|;
      assert t[i - skipped] == t0[i - skipped] == s[i];
      IntegerValueRejects(t, i - skipped);
    }
  }

  /** A literal with a character that is neither a digit nor a sign has no value. */
  lemma IntegerValueRejects(t: string, j: nat)
    requires j < |t| && !IsDigit(t[j]) && t[j] != '-' && t[j] != '+'
    ensures IntegerValue(t) == NaN
  {
    assert !AllDigits(t);
    if j > 0 {
      assert t[1..][j - 1] == t[j];
      assert !AllDigits(t[1..]);
    }
  }
}
