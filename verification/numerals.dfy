/** The C library conversions the parser and the printer rely on: atoll,
    atof and the "%lld" format. atof's result is an exact rational: the
    model does not round to double. */
module Numerals {
  import opened Wrappers
  import opened Chars
  import opened Values

  function DigitValue(c: char): (d: nat)
    requires IsDigit(c)
    ensures d <= 9
  {
    (c - '0') as nat
  }

  function DigitChar(d: nat): (c: char)
    requires d <= 9
    ensures IsDigit(c) && DigitValue(c) == d
  {
    ('0' as int + d) as char
  }

  /** The number a run of decimal digits denotes. */
  function DigitsValue(w: string): (n: nat)
    requires AllDigits(w)
    decreases |w|
  {
    if |w| == 0 then 0 else 10 * DigitsValue(w[..|w| - 1]) + DigitValue(w[|w| - 1])
  }

  /** The decimal digits of a natural number, no leading zeros. */
  function NatToString(n: nat): (w: string)
    ensures |w| >= 1 && AllDigits(w)
    ensures DigitsValue(w) == n
    ensures |w| > 1 ==> w[0] != '0'
    decreases n
  {
    if n < 10 then [DigitChar(n)]
    else
      var w := NatToString(n / 10) + [DigitChar(n % 10)];
      assert w[..|w| - 1] == NatToString(n / 10);
      w
  }

  /** sprintf("%lld"): an optional '-' and the decimal digits. */
  function IntToString(i: int): (w: string)
    ensures |w| >= 1
    ensures i >= 0 ==> AllDigits(w) && DigitsValue(w) == i
    ensures i < 0 ==> w[0] == '-' && AllDigits(w[1..]) && DigitsValue(w[1..]) == -i
  {
    if i < 0 then "-" + NatToString(-i) else NatToString(i)
  }

  /** atoll: leading white space, an optional sign, then the longest run of
      digits (none reads as 0). A value outside `long long` is undefined
      behaviour: None. */
  function AtoLL(s: string): (r: Option<int>)
    ensures r.Some? ==> InInt64(r.value)
  {
    var i := SpaceEnd(s, 0);
    var neg := At(s, i) == '-';
    var j := if At(s, i) == '-' || At(s, i) == '+' then i + 1 else i;
    var e := DigitsEnd(s, j);
    DigitSlice(s, j, e);
    var m: int := DigitsValue(s[j..e]);
    var v: int := if neg then -m else m;
    if InInt64(v) then Some(v) else None
  }

  /** A plain run of digits reads as the number it denotes. */
  lemma AtoLLDigits(w: string)
    requires |w| >= 1 && AllDigits(w) && DigitsValue(w) <= INT64_MAX
    ensures AtoLL(w) == Some(DigitsValue(w))
  {
    assert SpaceEnd(w, 0) == 0;
    assert DigitsEnd(w, 0) == |w|;
    assert w[0..|w|] == w;
  }

  /** Printing a `long long` and reading it back gives the same number. */
  lemma AtoLLRoundTrip(i: int)
    requires InInt64(i)
    ensures AtoLL(IntToString(i)) == Some(i)
  {
    var w := IntToString(i);
    assert SpaceEnd(w, 0) == 0;
    if i < 0 {
      assert DigitsEnd(w, 1) == |w| by {
        forall k | 1 <= k < |w| ensures IsDigit(w[k]) { assert w[k] == w[1..][k - 1]; }
        DigitsRun(w, 1);
      }
      assert w[1..|w|] == w[1..];
    } else {
      DigitsRun(w, 0);
      assert w[0..|w|] == w;
    }
  }

  lemma {:induction false} DigitsRun(s: string, i: nat)
    requires i <= |s| && forall k :: i <= k < |s| ==> IsDigit(s[k])
    ensures DigitsEnd(s, i) == |s|
    decreases |s| - i
  {
    if i < |s| { DigitsRun(s, i + 1); }
  }

  /** 10^e as an exact rational, for any integer e. */
  function Pow10(e: int): (p: real)
    ensures p > 0.0
    decreases if e < 0 then -e else e
  {
    if e == 0 then 1.0
    else if e > 0 then 10.0 * Pow10(e - 1)
    else Pow10(e + 1) / 10.0
  }

  /** atof on decimal text: white space, a sign, digits with an optional
      '.', then an exponent that counts only when digits follow its marker.
      No digits at all reads as 0. Hexadecimal, "inf" and "nan" forms are
      not modelled: None. */
  function AtoF(s: string): (r: Option<real>)
    ensures At(s, SpaceEnd(s, 0)) == '0' && At(s, SpaceEnd(s, 0) + 1) in "xX" ==> r.None?
  {
    var i := SpaceEnd(s, 0);
    var neg := At(s, i) == '-';
    var j := if At(s, i) == '-' || At(s, i) == '+' then i + 1 else i;
    if At(s, j) in "iInN" || (At(s, j) == '0' && At(s, j + 1) in "xX") then None
    else
      var a := DigitsEnd(s, j);
      var c := if At(s, a) == '.' then DigitsEnd(s, a + 1) else a;
      var b := if At(s, a) == '.' then a + 1 else a;
      DigitSlice(s, j, a);
      DigitSlice(s, b, c);
      var whole := s[j..a];
      var frac := s[b..c];
      var exp := ExponentAt(s, c);
      var mant := DigitsValue(whole + frac) as real;
      var v := mant * Pow10(exp - |frac|);
      Some(if neg then -v else v)
  }

  /** The exponent after a mantissa ending at `c`: a marker, an optional
      sign and at least one digit, else 0. */
  function ExponentAt(s: string, c: nat): (e: int)
    requires c <= |s|
  {
    if At(s, c) == 'e' || At(s, c) == 'E' then
      var k := if At(s, c + 1) == '-' || At(s, c + 1) == '+' then c + 2 else c + 1;
      if k <= |s| && DigitsEnd(s, k) > k then
        DigitSlice(s, k, DigitsEnd(s, k));
        var n: int := DigitsValue(s[k..DigitsEnd(s, k)]);
        if At(s, c + 1) == '-' then -n else n
      else 0
    else 0
  }

  /** A run of digits reads as the same number through atof. */
  lemma AtoFDigits(w: string)
    requires |w| >= 1 && AllDigits(w)
    ensures AtoF(w) == Some(DigitsValue(w) as real)
  {
    DigitsRun(w, 0);
    assert IsDigit(w[0]) && At(w, 0) == w[0];
    assert At(w, 1) !in "xX" by {
      if |w| > 1 { assert IsDigit(w[1]); }
    }
    assert At(w, |w|) == '\0';
    AtoFPlain(w);
    assert w[..|w|] == w;
  }

  /** atof on text with no leading space, sign, special word or hexadecimal
      prefix and no '.' or exponent after its leading digits reads those
      digits. */
  lemma AtoFPlain(s: string)
    requires SpaceEnd(s, 0) == 0 && At(s, 0) !in "iInN-+" && At(s, 1) !in "xX"
    requires At(s, DigitsEnd(s, 0)) !in ".eE"
    ensures AtoF(s) == Some(DigitsValue(s[..DigitsEnd(s, 0)]) as real)
  {
    var a := DigitsEnd(s, 0);
    assert ExponentAt(s, a) == 0;
    assert s[0..a] + s[a..a] == s[..a];
  }
}
