/**
 * The few pieces of JavaScript runtime behaviour that the modelled code leans on:
 * `undefined` as an absent value, truthiness and the `||` operator on optional
 * strings and numbers, number-to-string for array indices, `String.prototype.trim`
 * emptiness and upper-casing.
 */
module JsRuntime {

  /** A value that may be `undefined` (or `null`). */
  datatype Option<+T> = None | Some(value: T)

  /** JavaScript truthiness of an optional string: `undefined` and `""` are falsy. */
  predicate Truthy(s: Option<string>) {
    s.Some? && s.value != ""
  }

  /** JavaScript truthiness of an optional number: `undefined` and `0` are falsy. */
  predicate TruthyNumber(n: Option<int>) {
    n.Some? && n.value != 0
  }

  /**
   * `a || b` on optional strings: a truthy left operand is the result, otherwise
   * the right operand is, whatever it holds (so `undefined || ""` is `""`).
   */
  function Or(a: Option<string>, b: Option<string>): (r: Option<string>)
    ensures r == a || r == b
    ensures Truthy(r) <==> Truthy(a) || Truthy(b)
    ensures !Truthy(a) ==> r == b
  {
    if Truthy(a) then a else b
  }

  /** `a || b` on optional numbers, with `0` falsy. */
  function OrNumber(a: Option<int>, b: Option<int>): (r: Option<int>)
    ensures r == a || r == b
    ensures TruthyNumber(r) <==> TruthyNumber(a) || TruthyNumber(b)
    ensures !TruthyNumber(a) ==> r == b
  {
    if TruthyNumber(a) then a else b
  }

  /** Reference reading of a chain of `||`: the first non-empty string, if any. */
  function FirstNonEmpty(a: Option<string>, b: Option<string>): (r: Option<string>)
    ensures r.Some? ==> r.value != ""
    ensures r.None? <==> !Truthy(a) && !Truthy(b)
  {
    if Truthy(a) then a else if Truthy(b) then b else None
  }

  /** A chain `a || b` agrees with FirstNonEmpty whenever it yields a non-empty string. */
  lemma OrIsFirstNonEmpty(a: Option<string>, b: Option<string>)
    ensures Truthy(Or(a, b)) <==> FirstNonEmpty(a, b).Some?
    ensures Truthy(Or(a, b)) ==> Or(a, b) == FirstNonEmpty(a, b)
  {
  }

  predicate IsDigit(c: char) {
    '0' <= c <= '9'
  }

  predicate AllDigits(s: string) {
    forall i :: 0 <= i < |s| ==> IsDigit(s[i])
  }

  function DigitChar(d: nat): (c: char)
    requires d < 10
    ensures IsDigit(c)
    ensures c as int - '0' as int == d
  {
    ('0' as int + d) as char
  }

  /** `String(n)` / `${n}` for a non-negative integer: its decimal digits without leading zeros. */
  function NatToString(n: nat): (s: string)
    ensures |s| >= 1
    ensures AllDigits(s)
    ensures (|s| == 1) <==> n < 10
    ensures s[0] == '0' ==> n == 0
    decreases n
  {
    if n < 10 then [DigitChar(n)] else NatToString(n / 10) + [DigitChar(n % 10)]
  }

  /** Distinct numbers print differently: the decimal rendering is injective. */
  lemma {:induction false} NatToStringInjective(m: nat, n: nat)
    requires NatToString(m) == NatToString(n)
    ensures m == n
    decreases m
  {
    if m < 10 || n < 10 {
      assert m < 10 && n < 10;
      assert DigitChar(m) == NatToString(m)[0] == NatToString(n)[0] == DigitChar(n);
    } else {
      var sm, sn := NatToString(m), NatToString(n);
      assert sm[|sm| - 1] == DigitChar(m % 10);
      assert sn[|sn| - 1] == DigitChar(n % 10);
      assert NatToString(m / 10) == sm[..|sm| - 1] == sn[..|sn| - 1] == NatToString(n / 10);
      NatToStringInjective(m / 10, n / 10);
    }
  }

  /** The value of a string of decimal digits, read from the left. */
  function DigitsValue(s: string): nat
    requires AllDigits(s)
  {
    if s == [] then 0 else DigitsValue(s[..|s| - 1]) * 10 + (s[|s| - 1] as int - '0' as int)
  }

  /** The decimal text of `n` reads back as `n`. */
  lemma {:induction false} NatToStringValue(n: nat)
    ensures DigitsValue(NatToString(n)) == n
    decreases n
  {
    var s := NatToString(n);
    if n < 10 {
      assert s[..0] == [];
    } else {
      assert s[..|s| - 1] == NatToString(n / 10);
      NatToStringValue(n / 10);
    }
  }

  /**
   * A JavaScript number as the code compares and floors it: not-a-number, a
   * finite value, or an infinity. Floating-point rounding is not modelled.
   */
  datatype JsNumber = NaN | Finite(value: real) | Infinite(negative: bool)

  /** `x <= 0`, which is false for NaN. */
  predicate AtMostZero(x: JsNumber) {
    match x
    case NaN => false
    case Finite(v) => v <= 0.0
    case Infinite(negative) => negative
  }

  /** `x > y`, which is false whenever either side is NaN. */
  predicate Greater(x: JsNumber, y: JsNumber) {
    match (x, y)
    case (NaN, _) => false
    case (_, NaN) => false
    case (Finite(a), Finite(b)) => a > b
    case (Finite(_), Infinite(n)) => n
    case (Infinite(m), Finite(_)) => !m
    case (Infinite(m), Infinite(n)) => !m && n
  }

  /**
   * Against zero, `x > 0` is the negation of `x <= 0` except at NaN, where
   * both comparisons are false.
   */
  lemma GreaterThanZero(x: JsNumber)
    ensures Greater(x, Finite(0.0)) <==> !x.NaN? && !AtMostZero(x)
    ensures x.NaN? ==> !Greater(x, Finite(0.0)) && !AtMostZero(x)
  {
  }

  /** `Math.floor(x)`: NaN and the infinities are kept. */
  function Floor(x: JsNumber): (r: JsNumber)
    ensures r.NaN? <==> x.NaN?
    ensures r.Finite? <==> x.Finite?
    ensures !x.Finite? ==> r == x
    ensures x.Finite? ==> r.value <= x.value < r.value + 1.0 && r.value == r.value.Floor as real
  {
    match x
    case Finite(v) => Finite(v.Floor as real)
    case _ => x
  }

  /** `x * k` for a positive integer `k`. */
  function Times(x: JsNumber, k: nat): (r: JsNumber)
    requires k > 0
    ensures r.NaN? <==> x.NaN?
    ensures x.Finite? ==> r == Finite(x.value * k as real)
    ensures !x.Finite? ==> r == x
  {
    match x
    case Finite(v) => Finite(v * k as real)
    case _ => x
  }

  /**
   * The characters `String.prototype.trim` strips: the WhiteSpace and
   * LineTerminator code points of ECMAScript (section 12.2 and 12.3 of ECMA-262).
   */
  predicate IsJsWhitespace(c: char) {
    c in {'\U{9}', '\U{B}', '\U{C}', ' ', '\U{A0}', '\U{FEFF}',
          '\U{A}', '\U{D}', '\U{2028}', '\U{2029}',
          '\U{1680}', '\U{2000}', '\U{2001}', '\U{2002}', '\U{2003}', '\U{2004}', '\U{2005}',
          '\U{2006}', '\U{2007}', '\U{2008}', '\U{2009}', '\U{200A}', '\U{202F}', '\U{205F}', '\U{3000}'}
  }

  /** `s.trim()` removes leading and trailing whitespace. */
  function Trim(s: string): (r: string)
    ensures |r| <= |s|
    ensures r != [] ==> !IsJsWhitespace(r[0]) && !IsJsWhitespace(r[|r| - 1])
    decreases |s|
  {
    if s == [] then []
    else if IsJsWhitespace(s[0]) then Trim(s[1..])
    else if IsJsWhitespace(s[|s| - 1]) then Trim(s[..|s| - 1])
    else s
  }

  /** `!s.trim()`: the trimmed string is empty exactly when every character is whitespace. */
  lemma {:induction false} TrimEmptyIffBlank(s: string)
    ensures Trim(s) == [] <==> forall i :: 0 <= i < |s| ==> IsJsWhitespace(s[i])
    decreases |s|
  {
    if s == [] {
    } else if IsJsWhitespace(s[0]) {
      TrimEmptyIffBlank(s[1..]);
      assert forall i :: 1 <= i < |s| ==> s[i] == s[1..][i - 1];
    } else if IsJsWhitespace(s[|s| - 1]) {
      TrimEmptyIffBlank(s[..|s| - 1]);
      assert s[..|s| - 1][0] == s[0];
    } else {
    }
  }

  /** Upper-casing of one character; only the ASCII letters are mapped. */
  function UpperChar(c: char): (u: char)
    ensures 'a' <= c <= 'z' ==> 'A' <= u <= 'Z' && u as int == c as int - 32
    ensures !('a' <= c <= 'z') ==> u == c
  {
    if 'a' <= c <= 'z' then (c as int - 32) as char else c
  }

  /** `s.toUpperCase()`, restricted to the ASCII letters. */
  function Upper(s: string): (r: string)
    ensures |r| == |s|
    ensures forall i :: 0 <= i < |s| ==> r[i] == UpperChar(s[i])
  {
    seq(|s|, i requires 0 <= i < |s| => UpperChar(s[i]))
  }
}
