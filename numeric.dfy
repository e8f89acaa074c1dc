/** Numbers of the calculator.

    Both implementations compute in IEEE doubles; this model computes in `real`.
    The primitives they borrow from the host (`Math.pow`, `Math.sin`, ...) are not
    modelled: they are the fields of a `MathLib` value that every evaluator takes
    as a parameter, so every result holds for any choice of them. */
module Numeric {
  import opened Outcomes

  /** The host's one-argument primitives (`Math.sin`, ..., `Math.log10`, `Math.log`). */
  datatype Prim = Sin | Cos | Tan | Asin | Acos | Atan | Sinh | Cosh | Tanh
                | Sqrt | Cbrt | Log10 | Log | Abs

  /** The host's power function and one-argument primitives. */
  datatype MathLib = MathLib(pow: (real, real) -> real, prim: (Prim, real) -> real)

  /** A result that leaves the reals (an IEEE infinity or NaN in the source). */
  datatype NumError = NonReal

  /** The double nearest to pi and to e, as the hosts' `Math.PI` and `Math.E` print. */
  const PI_VALUE: real := 3.141592653589793
  const E_VALUE: real := 2.718281828459045

  predicate IsDigitChar(c: char) {
    '0' <= c <= '9'
  }

  function DigitValue(c: char): (d: nat)
    requires IsDigitChar(c)
    ensures d <= 9
  {
    c as int - '0' as int
  }

  /** The glyph of a decimal digit. */
  function DigitGlyph(d: nat): (c: char)
    requires d <= 9
    ensures IsDigitChar(c) && DigitValue(c) == d
  {
    ('0' as int + d) as char
  }

  predicate AllDigits(s: string) {
    forall k :: 0 <= k < |s| ==> IsDigitChar(s[k])
  }

  /** The value of a string of decimal digits, most significant first. */
  function DigitsValue(s: string): nat
    requires AllDigits(s)
  {
    if s == [] then 0 else 10 * DigitsValue(s[..|s| - 1]) + DigitValue(s[|s| - 1])
  }

  /** The length of the longest prefix of `s` made of decimal digits. */
  function DigitPrefix(s: string): (n: nat)
    ensures n <= |s| && AllDigits(s[..n])
    ensures n < |s| ==> !IsDigitChar(s[n])
  {
    if s == [] || !IsDigitChar(s[0]) then 0
    else
      var n := 1 + DigitPrefix(s[1..]);
      assert s[..n] == [s[0]] + s[1..][..n - 1];
      n
  }

  /** The value of the digits after a decimal point, `0.fraction`, read from
      the last digit towards the point. */
  function FractionValue(fraction: string): real
    requires AllDigits(fraction)
  {
    if fraction == [] then 0.0
    else (DigitValue(fraction[0]) as real + FractionValue(fraction[1..])) / 10.0
  }

  /** The value of `digits` `.` `fraction`. */
  function DecimalValue(digits: string, fraction: string): real
    requires AllDigits(digits) && AllDigits(fraction)
  {
    DigitsValue(digits) as real + FractionValue(fraction)
  }

  /** The characters a literal run can hold: digits, the decimal point and the minus sign. */
  predicate IsLiteralChar(c: char) {
    IsDigitChar(c) || c == '.' || c == '-'
  }

  /** JavaScript's `parseFloat` as the calculator uses it, on the glyphs of a
      literal run (digits, `.` and `-`): an optional leading `-`, then the longest
      prefix of the form digits [`.` digits]; `None` (NaN) when that prefix holds
      no digit. Whatever follows the prefix is ignored. Leading blanks, `+`,
      exponents and `Infinity`, which never occur in a literal run, are not read. */
  function ParseFloat(s: string): Option<real>
  {
    if |s| > 0 && s[0] == '-' then
      var r := ParseUnsigned(s, 1);
      if r.None? then None else Some(-r.value)
    else ParseUnsigned(s, 0)
  }

  /** The longest prefix of `s[i..]` of the form digits [`.` digits], read as a
      decimal; `None` when it holds no digit. */
  function ParseUnsigned(s: string, i: nat): Option<real>
    requires i <= |s|
  {
    var n := DigitsEnd(s, i);
    var f := if n < |s| && s[n] == '.' then DigitsEnd(s, n + 1) else n;
    if n == i && f <= n + 1 then None
    else Some(IntValue(s, i, n) as real + FracValue(s, n + 1, f))
  }

  /** The end of the run of decimal digits that starts at `j`. */
  function DigitsEnd(s: string, j: nat): (n: nat)
    requires j <= |s|
    ensures j <= n <= |s| && (forall k :: j <= k < n ==> IsDigitChar(s[k]))
    ensures n < |s| ==> !IsDigitChar(s[n])
    decreases |s| - j
  {
    if j < |s| && IsDigitChar(s[j]) then DigitsEnd(s, j + 1) else j
  }

  /** The integer the digits `s[i..n]` spell, most significant first. */
  function IntValue(s: string, i: nat, n: nat): nat
    requires i <= n <= |s| && forall k :: i <= k < n ==> IsDigitChar(s[k])
    decreases n - i
  {
    if n == i then 0 else 10 * IntValue(s, i, n - 1) + DigitValue(s[n - 1])
  }

  /** The value `0.d1d2...` of the digits `s[j..f]` after a decimal point. */
  function FracValue(s: string, j: nat, f: nat): real
    requires f <= |s| && forall k :: j <= k < f ==> IsDigitChar(s[k])
    decreases f - j
  {
    if f <= j then 0.0 else (DigitValue(s[j]) as real + FracValue(s, j + 1, f)) / 10.0
  }

  /** The digit run from `j` ends where the digits stop. */
  lemma {:induction false} DigitsEndAt(s: string, j: nat, n: nat)
    requires j <= n <= |s| && (forall k :: j <= k < n ==> IsDigitChar(s[k]))
    requires n < |s| ==> !IsDigitChar(s[n])
    ensures DigitsEnd(s, j) == n
    decreases n - j
  {
    if j < n {
      DigitsEndAt(s, j + 1, n);
    }
  }

  /** The scanned integer is the value of the digit string. */
  lemma {:induction false} IntValueDigits(s: string, i: nat, n: nat)
    requires i <= n <= |s| && forall k :: i <= k < n ==> IsDigitChar(s[k])
    ensures AllDigits(s[i..n]) && IntValue(s, i, n) == DigitsValue(s[i..n])
    decreases n - i
  {
    if n > i {
      IntValueDigits(s, i, n - 1);
      assert s[i..n][..n - i - 1] == s[i..n - 1];
    }
  }

  /** The scanned fraction is the value of the digit string. */
  lemma {:induction false} FracValueDigits(s: string, j: nat, f: nat)
    requires j <= f <= |s| && forall k :: j <= k < f ==> IsDigitChar(s[k])
    ensures AllDigits(s[j..f]) && FracValue(s, j, f) == FractionValue(s[j..f])
    decreases f - j
  {
    if j < f {
      FracValueDigits(s, j + 1, f);
      assert s[j..f][1..] == s[j + 1..f];
    }
  }

  /** Java's `Double.parseDouble` on the glyphs of a literal run, read left to
      right: the whole string must be digits [`.` digits] with at least one
      digit; `None` stands for the `NumberFormatException` it throws otherwise. */
  function ParseDouble(s: string): Option<real>
  {
    WholeFrom(s, 0, 0)
  }

  /** The integer part from `i` on, `acc` being the value of the digits before `i`. */
  function WholeFrom(s: string, i: nat, acc: nat): Option<real>
    requires i <= |s|
    decreases |s| - i
  {
    if i == |s| then (if i == 0 then None else Some(acc as real))
    else if IsDigitChar(s[i]) then WholeFrom(s, i + 1, 10 * acc + DigitValue(s[i]))
    else if s[i] != '.' || (i == 0 && |s| == 1) then None
    else
      var f := FractionFrom(s, i + 1);
      if f.None? then None else Some(acc as real + f.value)
  }

  /** The digits from `j` to the end as the fraction `0.d1d2...`; `None` when
      anything but a digit follows. */
  function FractionFrom(s: string, j: nat): Option<real>
    requires j <= |s|
    decreases |s| - j
  {
    if j == |s| then Some(0.0)
    else if !IsDigitChar(s[j]) then None
    else
      var f := FractionFrom(s, j + 1);
      if f.None? then None else Some((DigitValue(s[j]) as real + f.value) / 10.0)
  }

  /** Reading the integer part of a digit string from `i` completes its value. */
  lemma {:induction false} WholeFromDigits(s: string, i: nat)
    requires AllDigits(s) && s != [] && i <= |s|
    ensures AllDigits(s[..i]) && WholeFrom(s, i, DigitsValue(s[..i])) == Some(DigitsValue(s) as real)
    decreases |s| - i
  {
    assert AllDigits(s[..i]) by {
      forall k | 0 <= k < i ensures IsDigitChar(s[..i][k]) {
        assert s[..i][k] == s[k];
      }
    }
    if i == |s| {
      assert s[..i] == s;
    } else {
      WholeFromDigits(s, i + 1);
      assert s[..i + 1][..i] == s[..i];
    }
  }

  /** Reading the fraction digits from `j` gives the value of `0.s[j..]`. */
  lemma {:induction false} FractionFromDigits(s: string, j: nat)
    requires j <= |s| && forall k :: j <= k < |s| ==> IsDigitChar(s[k])
    ensures AllDigits(s[j..]) && FractionFrom(s, j) == Some(FractionValue(s[j..]))
    decreases |s| - j
  {
    if j < |s| {
      FractionFromDigits(s, j + 1);
      assert s[j..][1..] == s[j + 1..];
    }
  }

  lemma {:induction false} DigitPrefixOfDigits(a: string, t: string)
    requires AllDigits(a)
    requires t == [] || !IsDigitChar(t[0])
    ensures DigitPrefix(a + t) == |a|
  {
    if a != [] {
      assert (a + t)[1..] == a[1..] + t;
      DigitPrefixOfDigits(a[1..], t);
    } else {
      assert a + t == t;
    }
  }

  /** A run of digits parses, in both hosts, to the integer it spells. */
  lemma ParseDigits(a: string)
    requires AllDigits(a) && a != []
    ensures ParseFloat(a) == Some(DigitsValue(a) as real)
    ensures ParseDouble(a) == Some(DigitsValue(a) as real)
  {
    DigitsEndAt(a, 0, |a|);
    IntValueDigits(a, 0, |a|);
    assert a[0..|a|] == a;
    DigitPrefixOfDigits(a, []);
    assert a + [] == a;
    WholeFromDigits(a, 0);
  }

  /** Digits, a point and digits parse, in both hosts, to the decimal they spell,
      and JavaScript also honours a leading minus sign. */
  lemma ParseDecimal(a: string, b: string)
    requires AllDigits(a) && AllDigits(b) && a != []
    ensures var s := a + "." + b;
      PointChars(s) && ParseFloat(s) == Some(DecimalValue(a, b))
      && ParseDouble(s) == Some(DecimalValue(a, b))
      && ParseFloat("-" + s) == Some(-DecimalValue(a, b))
  {
    var s := a + "." + b;
    PointCharsConcat(a, b);
    ParseFloatDecimal(a, b);
    ParseDoubleDecimal(a, b);
    ParseFloatMinus(s, DecimalValue(a, b));
  }

  /** Digits and decimal points only. */
  predicate PointChars(s: string) {
    forall k :: 0 <= k < |s| ==> IsDigitChar(s[k]) || s[k] == '.'
  }

  lemma PointCharsConcat(a: string, b: string)
    requires AllDigits(a) && AllDigits(b)
    ensures PointChars(a + "." + b) && (a != [] ==> (a + "." + b)[0] != '-')
  {
    var ap := a + ".";
    var s := ap + b;
    forall k | 0 <= k < |s| ensures IsDigitChar(s[k]) || s[k] == '.' {
      if k < |a| {
        assert s[k] == a[k];
      } else if k >= |ap| {
        var j := k - |ap|;
        assert s[k] == b[j];
      }
    }
  }

  /** Where the parts of `a` `.` `b` sit. */
  lemma DecimalShape(a: string, b: string)
    requires AllDigits(a) && AllDigits(b)
    ensures var s := a + "." + b;
      DigitPrefix(s) == |a| && |a| < |s| && s[..|a|] == a && s[|a|] == '.' && s[|a| + 1..] == b
  {
    var s := a + "." + b;
    assert s == a + ("." + b);
    DigitPrefixOfDigits(a, "." + b);
  }

  lemma ParseFloatDecimal(a: string, b: string)
    requires AllDigits(a) && AllDigits(b) && a != []
    ensures PointChars(a + "." + b)
    ensures ParseFloat(a + "." + b) == Some(DecimalValue(a, b))
  {
    var s := a + "." + b;
    PointCharsConcat(a, b);
    DecimalShape(a, b);
    DigitPrefixOfDigits(b, []);
    assert b + [] == b && b[..|b|] == b;
    assert s[0..|a|] == a && s[|a| + 1..|s|] == b;
    DigitsEndAt(s, 0, |a|);
    DigitsEndAt(s, |a| + 1, |s|);
    IntValueDigits(s, 0, |a|);
    FracValueDigits(s, |a| + 1, |s|);
  }

  lemma ParseDoubleDecimal(a: string, b: string)
    requires AllDigits(a) && AllDigits(b) && a != []
    ensures ParseDouble(a + "." + b) == Some(DecimalValue(a, b))
  {
    var s := a + "." + b;
    DecimalShape(a, b);
    WholeFromPrefix(s, a, 0);
    assert s[|a| + 1..] == b;
    FractionFromDigits(s, |a| + 1);
  }

  /** Reading the digits `a` that begin `s` accumulates their value. */
  lemma {:induction false} WholeFromPrefix(s: string, a: string, i: nat)
    requires AllDigits(a) && |a| < |s| && s[..|a|] == a && i <= |a|
    ensures AllDigits(a[..i])
    ensures WholeFrom(s, i, DigitsValue(a[..i])) == WholeFrom(s, |a|, DigitsValue(a))
    decreases |a| - i
  {
    assert AllDigits(a[..i]) by {
      forall k | 0 <= k < i ensures IsDigitChar(a[..i][k]) {
        assert a[..i][k] == a[k];
      }
    }
    if i == |a| {
      assert a[..i] == a;
    } else {
      assert s[i] == a[i];
      WholeFromPrefix(s, a, i + 1);
      assert a[..i + 1][..i] == a[..i];
    }
  }

  /** A leading minus sign negates what `parseFloat` reads after it. */
  lemma ParseFloatMinus(s: string, v: real)
    requires (s == [] || s[0] != '-') && ParseFloat(s) == Some(v)
    ensures ParseFloat("-" + s) == Some(-v)
  {
    var m := "-" + s;
    assert m[0] == '-';
    UnsignedShift(s, m);
  }

  /** Scanning `s` from 0 and `s` behind one more character from 1 read the same. */
  lemma UnsignedShift(s: string, m: string)
    requires |m| == |s| + 1 && forall k :: 1 <= k <= |s| ==> m[k] == s[k - 1]
    ensures ParseUnsigned(m, 1) == ParseUnsigned(s, 0)
  {
    var n := DigitsEnd(s, 0);
    DigitsEndAt(m, 1, n + 1);
    IntValueShift(s, m, n);
    if n < |s| && s[n] == '.' {
      var f := DigitsEnd(s, n + 1);
      DigitsEndAt(m, n + 2, f + 1);
      FracValueShift(s, m, n + 1, f);
    } else {
      FracValueShift(s, m, n + 1, n);
    }
  }

  lemma {:induction false} IntValueShift(s: string, m: string, n: nat)
    requires |m| == |s| + 1 && forall k :: 1 <= k <= |s| ==> m[k] == s[k - 1]
    requires n <= |s| && forall k :: 0 <= k < n ==> IsDigitChar(s[k])
    ensures IntValue(m, 1, n + 1) == IntValue(s, 0, n)
  {
    if n > 0 {
      IntValueShift(s, m, n - 1);
    }
  }

  lemma {:induction false} FracValueShift(s: string, m: string, j: nat, f: nat)
    requires |m| == |s| + 1 && forall k :: 1 <= k <= |s| ==> m[k] == s[k - 1]
    requires f <= |s| && forall k :: j <= k < f ==> IsDigitChar(s[k])
    ensures FracValue(m, j + 1, f + 1) == FracValue(s, j, f)
    decreases f - j
  {
    if j < f {
      FracValueShift(s, m, j + 1, f);
    }
  }
}
