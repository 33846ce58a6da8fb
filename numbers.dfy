/** JavaScript number parsing as the output parser uses it: `parseFloat`,
    `parseInt(_, 10)` and `Math.round`, applied to the text a `[\d.]+` or
    `\d+` group captured. Values are exact rationals; NaN is kept apart. */
module Numbers {
  import opened Text

  /** A JavaScript number as the parser can produce it: a finite
      non-negative value, or NaN. */
  datatype JsNumber = Num(value: real) | NaN

  /** A JavaScript value used as a condition: NaN and 0 are falsy. */
  predicate Truthy(n: JsNumber) {
    n.Num? && n.value != 0.0
  }

  /** The value of the digits after a decimal point: `0.d1d2...`. */
  function FractionValue(ds: string): (v: real)
    requires forall k :: 0 <= k < |ds| ==> IsDigit(ds[k])
    ensures 0.0 <= v < 1.0
  {
    if |ds| == 0 then 0.0
    else
      assert IsDigit(ds[0]);
      ((ds[0] as int - '0' as int) as real + FractionValue(ds[1..])) / 10.0
  }

  /** `parseFloat(s)` on a string made of digits and dots: the value of the
      longest prefix of the form `digits[.digits]` with at least one digit,
      or NaN when there is no digit before the second dot. */
  function ParseFloat(s: string): (r: JsNumber)
    ensures r.Num? ==> r.value >= 0.0
    ensures r.NaN? <==> (s == [] || !IsDigit(s[0])) && (|s| < 2 || s[0] != '.' || !IsDigit(s[1]))
  {
    var a := SpanFrom(s, 0, IsDigit);
    var whole := DigitsValue(s[..a]);
    if a < |s| && s[a] == '.' then
      var b := SpanFrom(s, a + 1, IsDigit);
      if a == 0 && b == a + 1 then NaN
      else Num(whole as real + FractionValue(s[a + 1..b]))
    else if a == 0 then NaN
    else Num(whole as real)
  }

  /** `parseInt(s, 10)` on such a string: the value of its leading digits, or
      NaN when it does not start with a digit. */
  function ParseIntPrefix(s: string): (r: JsNumber)
    ensures r.Num? ==> r.value >= 0.0 && r.value == r.value.Floor as real
    ensures r.NaN? <==> s == [] || !IsDigit(s[0])
  {
    var a := SpanFrom(s, 0, IsDigit);
    if a == 0 then NaN else Num(DigitsValue(s[..a]) as real)
  }

  /** `Math.round(x)` for x >= 0: the nearest integer, halves rounded up. */
  function Round(x: real): (n: int)
    requires x >= 0.0
    ensures n >= 0
    ensures x - 0.5 < n as real <= x + 0.5
  {
    (x + 0.5).Floor
  }

  /** A whole digit string read by `parseInt` is its decimal value. */
  lemma ParseIntOfDigits(ds: string)
    requires |ds| >= 1 && forall k :: 0 <= k < |ds| ==> IsDigit(ds[k])
    ensures ParseIntPrefix(ds) == Num(DigitsValue(ds) as real)
  {
    assert SpanFrom(ds, 0, IsDigit) == |ds|;
    assert ds[..|ds|] == ds;
  }

  /** A whole digit string read by `parseFloat` is its decimal value. */
  lemma ParseFloatOfDigits(ds: string)
    requires |ds| >= 1 && forall k :: 0 <= k < |ds| ==> IsDigit(ds[k])
    ensures ParseFloat(ds) == Num(DigitsValue(ds) as real)
  {
    assert SpanFrom(ds, 0, IsDigit) == |ds|;
    assert ds[..|ds|] == ds;
  }
}
