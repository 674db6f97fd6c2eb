/** The string operations the pages rely on: `trim`, ASCII `toLowerCase`,
    `includes`, integer `toString`, `padStart`, and the two parsers `parseInt`
    and `parseFloat` in the decimal subset the forms use. */
module Text {

  // ---------------------------------------------------------------------------
  // Whitespace and trim
  // ---------------------------------------------------------------------------

  /** The ASCII white-space characters that `String.prototype.trim` removes. */
  predicate IsSpace(c: char)
  {
    c == ' ' || c == '\t' || c == '\n' || c == '\r' || c as int == 11 || c as int == 12
  }

  function TrimStart(s: string): (r: string)
    ensures |r| <= |s|
    ensures r == [] || !IsSpace(r[0])
  {
    if |s| > 0 && IsSpace(s[0]) then TrimStart(s[1..]) else s
  }

  /** `TrimStart` is a suffix. (Kept out of the function's contract, which
      every use of the parsers would otherwise carry.) */
  lemma {:induction false} TrimStartIsSuffix(s: string)
    ensures TrimStart(s) == s[|s| - |TrimStart(s)|..]
    decreases |s|
  {
    if |s| > 0 && IsSpace(s[0]) {
      TrimStartIsSuffix(s[1..]);
    }
  }

  /** What `TrimStart` drops is white space. */
  lemma {:induction false} LeadingSpaces(s: string)
    ensures forall i :: 0 <= i < |s| - |TrimStart(s)| ==> IsSpace(s[i])
    decreases |s|
  {
    if |s| > 0 && IsSpace(s[0]) {
      LeadingSpaces(s[1..]);
      forall i | 1 <= i < |s| - |TrimStart(s)| ensures IsSpace(s[i]) {
        assert s[i] == s[1..][i - 1];
      }
    }
  }

  function TrimEnd(s: string): (r: string)
    ensures |r| <= |s| && r == s[..|r|]
    ensures r == [] || !IsSpace(r[|r| - 1])
    ensures forall i :: |r| <= i < |s| ==> IsSpace(s[i])
  {
    if |s| > 0 && IsSpace(s[|s| - 1]) then TrimEnd(s[..|s| - 1]) else s
  }

  /** `s.trim()`: the longest infix of `s` that neither starts nor ends with white space. */
  function Trim(s: string): (r: string)
    ensures r == [] || (!IsSpace(r[0]) && !IsSpace(r[|r| - 1]))
  {
    TrimEnd(TrimStart(s))
  }

  /** Nothing but white space: what `!s.trim()` tests, as `BlankIffTrimEmpty` shows. */
  predicate IsBlank(s: string)
  {
    forall i :: 0 <= i < |s| ==> IsSpace(s[i])
  }

  /** `!s.trim()` holds, JavaScript treating the empty string as false, exactly
      when the string is blank. */
  lemma BlankIffTrimEmpty(s: string)
    ensures IsBlank(s) <==> Trim(s) == []
  {
    var t := TrimStart(s);
    if Trim(s) == [] {
      // What `TrimStart` leaves does not start with white space, and what
      // `TrimEnd` removes is white space, so nothing is left to remove.
      assert TrimEnd(t) == [];
      assert t == [];
      LeadingSpaces(s);
    } else {
      var r := Trim(s);
      TrimStartIsSuffix(s);
      assert r[0] == t[0];
      assert t[0] == s[|s| - |t|];
    }
  }

  // ---------------------------------------------------------------------------
  // Case and substring search
  // ---------------------------------------------------------------------------

  function LowerChar(c: char): char
  {
    if 'A' <= c <= 'Z' then (c as int + 32) as char else c
  }

  function UpperChar(c: char): char
  {
    if 'a' <= c <= 'z' then (c as int - 32) as char else c
  }

  /** `s.toLowerCase()` on ASCII letters. */
  function ToLower(s: string): (r: string)
    ensures |r| == |s|
    ensures forall i :: 0 <= i < |s| ==> r[i] == LowerChar(s[i])
  {
    seq(|s|, i requires 0 <= i < |s| => LowerChar(s[i]))
  }

  /** `s.includes(t)`. */
  predicate Contains(s: string, t: string)
    decreases |s|
  {
    |t| <= |s| && (s[..|t|] == t || (|s| > 0 && Contains(s[1..], t)))
  }

  /** `t` occurs in `s` starting at position `i`. */
  predicate OccursAt(s: string, t: string, i: int)
  {
    0 <= i <= |s| - |t| && s[i..i + |t|] == t
  }

  /** `includes` holds exactly when `t` occurs at some position of `s`. */
  lemma {:induction false} ContainsIffOccurs(s: string, t: string)
    ensures Contains(s, t) <==> exists i :: OccursAt(s, t, i)
    decreases |s|
  {
    if |t| > |s| {
      assert forall i :: !OccursAt(s, t, i);
    } else if s[..|t|] == t {
      assert OccursAt(s, t, 0);
    } else {
      ContainsIffOccurs(s[1..], t);
      if Contains(s[1..], t) {
        var j :| OccursAt(s[1..], t, j);
        assert s[j + 1..j + 1 + |t|] == s[1..][j..j + |t|];
        assert OccursAt(s, t, j + 1);
      } else {
        forall i | OccursAt(s, t, i) ensures false {
          if i > 0 {
            assert s[1..][i - 1..i - 1 + |t|] == s[i..i + |t|];
            assert OccursAt(s[1..], t, i - 1);
          }
        }
      }
    }
  }

  // ---------------------------------------------------------------------------
  // Decimal digits
  // ---------------------------------------------------------------------------

  predicate IsDigit(c: char)
  {
    '0' <= c <= '9'
  }

  predicate AllDigits(s: string)
  {
    forall i :: 0 <= i < |s| ==> IsDigit(s[i])
  }

  function DigitChar(d: nat): (c: char)
    requires d < 10
    ensures IsDigit(c) && c as int - '0' as int == d
  {
    ('0' as int + d) as char
  }

  /** The number a string of decimal digits denotes. */
  function DigitsValue(s: string): nat
    requires AllDigits(s)
  {
    if s == [] then 0 else DigitsValue(s[..|s| - 1]) * 10 + (s[|s| - 1] as int - '0' as int)
  }

  /** `n.toString()` for a non-negative integer: decimal digits, no leading zero. */
  function NatToString(n: nat): (r: string)
    ensures |r| >= 1 && AllDigits(r)
    ensures r[0] == '0' ==> n == 0
    decreases n
  {
    if n < 10 then [DigitChar(n)] else NatToString(n / 10) + [DigitChar(n % 10)]
  }

  /** `n.toString()` for any integer. */
  function IntToString(n: int): (r: string)
    ensures |r| >= 1
  {
    if n < 0 then "-" + NatToString(-n) else NatToString(n)
  }

  lemma {:induction false} NatToStringValue(n: nat)
    ensures DigitsValue(NatToString(n)) == n
    decreases n
  {
    if n >= 10 {
      NatToStringValue(n / 10);
      var s := NatToString(n);
      assert s[..|s| - 1] == NatToString(n / 10);
    }
  }

  /** Leading zeros do not change the value of a digit string. */
  lemma {:induction false} LeadingZerosValue(k: nat, s: string)
    requires AllDigits(s)
    ensures AllDigits(Repeat('0', k) + s) && DigitsValue(Repeat('0', k) + s) == DigitsValue(s)
    decreases k + |s|
  {
    var z := Repeat('0', k) + s;
    assert AllDigits(z) by {
      forall i | 0 <= i < |z| ensures IsDigit(z[i]) {
        if i >= k { assert z[i] == s[i - k]; }
      }
    }
    if s == [] {
      if k > 0 {
        assert z == Repeat('0', k - 1) + ['0'];
        assert z[..|z| - 1] == Repeat('0', k - 1) + [];
        LeadingZerosValue(k - 1, []);
      }
    } else {
      LeadingZerosValue(k, s[..|s| - 1]);
      assert z[..|z| - 1] == Repeat('0', k) + s[..|s| - 1];
    }
  }

  /** `n` copies of `c`. */
  function Repeat(c: char, n: nat): (r: string)
    ensures |r| == n && forall i :: 0 <= i < n ==> r[i] == c
  {
    if n == 0 then [] else [c] + Repeat(c, n - 1)
  }

  /** `s.padStart(n, c)` with a one-character pad: `c` is repeated in front of `s`
      until the length reaches `n`; a string already that long is unchanged. */
  function PadStart(s: string, n: nat, c: char): (r: string)
    ensures |r| == if |s| >= n then |s| else n
    ensures r[|r| - |s|..] == s
    ensures forall i :: 0 <= i < |r| - |s| ==> r[i] == c
  {
    if |s| >= n then s else Repeat(c, n - |s|) + s
  }

  /** `s.charAt(0).toUpperCase() + s.slice(1)`. */
  function Capitalize(s: string): (r: string)
    ensures |r| == |s|
    ensures |s| > 0 ==> r[0] == UpperChar(s[0]) && r[1..] == s[1..]
  {
    if s == [] then [] else [UpperChar(s[0])] + s[1..]
  }

  // ---------------------------------------------------------------------------
  // parseInt and parseFloat
  // ---------------------------------------------------------------------------

  /** A JavaScript number as the parsers produce it: `NaN`, or a finite value. */
  datatype NumberValue = NaN | Number(value: real)

  /** The longest prefix of `s` made of decimal digits. */
  function DigitPrefix(s: string): (r: string)
    ensures |r| <= |s| && AllDigits(r)
    ensures |r| < |s| ==> !IsDigit(s[|r|])
  {
    if |s| > 0 && IsDigit(s[0]) then [s[0]] + DigitPrefix(s[1..]) else []
  }

  /** The part of a string after an optional leading sign. */
  function Unsigned(t: string): string
  {
    if |t| > 0 && (t[0] == '-' || t[0] == '+') then t[1..] else t
  }

  /** `v` negated when `t` starts with a minus sign. */
  function Signed(t: string, v: real): real
  {
    if |t| > 0 && t[0] == '-' then -v else v
  }

  /** `parseInt(s)` in base 10: leading white space, an optional sign, then the
      longest run of digits; no digit at all gives `NaN`. */
  function ParseInt(s: string): NumberValue
  {
    var t := TrimStart(s);
    var ds := DigitPrefix(Unsigned(t));
    if ds == [] then NaN else Number(Signed(t, DigitsValue(ds) as real))
  }

  /** `parseFloat(s)` for decimal notation: leading white space, an optional sign,
      digits, and an optional fraction after a point; no digit gives `NaN`. */
  function ParseFloat(s: string): NumberValue
  {
    var t := TrimStart(s);
    match UnsignedDecimal(Unsigned(t))
    case NaN => NaN
    case Number(v) => Number(Signed(t, v))
  }

  /** The value of the longest prefix of `u` of the form digits, point, digits,
      where either run may be empty but not both. */
  function UnsignedDecimal(u: string): NumberValue
  {
    var ip := DigitPrefix(u);
    DecimalOf(ip, FractionDigits(u[|ip|..]))
  }

  /** The digits after a leading decimal point, if there is one. */
  function FractionDigits(rest: string): (fp: string)
    ensures AllDigits(fp)
  {
    if |rest| > 0 && rest[0] == '.' then DigitPrefix(rest[1..]) else []
  }

  /** The number with integer digits `ip` and fraction digits `fp`; `NaN` when
      there are neither. */
  function DecimalOf(ip: string, fp: string): NumberValue
    requires AllDigits(ip) && AllDigits(fp)
  {
    if ip == [] && fp == [] then NaN
    else Number(DigitsValue(ip) as real + FractionValue(fp))
  }

  /** The value of the digits after a decimal point: `0.d1d2...` is
      `(d1 + 0.d2...) / 10`. */
  function FractionValue(f: string): (v: real)
    requires AllDigits(f)
    ensures 0.0 <= v <= 1.0
  {
    if f == [] then 0.0 else ((f[0] as int - '0' as int) as real + FractionValue(f[1..])) / 10.0
  }

  /** `parseInt` reads back what integer `toString` writes. */
  lemma ParseIntOfIntToString(n: int)
    ensures ParseInt(IntToString(n)) == Number(n as real)
  {
    if n < 0 {
      var d := NatToString(-n);
      assert IntToString(n) == ['-'] + d;
      assert DigitsValue(d) == -n by { NatToStringValue(-n); }
      ParseIntOfNegativeDigits(d);
    } else {
      NatToStringValue(n);
      ParseIntOfDigits(NatToString(n));
    }
  }

  lemma ParseIntOfDigits(d: string)
    requires |d| > 0 && AllDigits(d)
    ensures ParseInt(d) == Number(DigitsValue(d) as real)
  {
    DigitPrefixOfDigits(d);
    NoSpaceStart(d);
    assert Unsigned(d) == d;
  }

  lemma ParseIntOfNegativeDigits(d: string)
    requires |d| > 0 && AllDigits(d)
    ensures ParseInt(['-'] + d) == Number(-(DigitsValue(d) as real))
  {
    DigitPrefixOfDigits(d);
    var s := ['-'] + d;
    NoSpaceStart(s);
    assert Unsigned(s) == d;
    assert DigitPrefix(Unsigned(TrimStart(s))) == d;
    assert Signed(TrimStart(s), DigitsValue(d) as real) == -(DigitsValue(d) as real);
  }

  lemma NoSpaceStart(s: string)
    requires |s| > 0 && (IsDigit(s[0]) || s[0] == '-' || s[0] == '+')
    ensures TrimStart(s) == s
  {
  }

  lemma {:induction false} DigitPrefixOfDigits(s: string)
    requires AllDigits(s)
    ensures DigitPrefix(s) == s
  {
    if |s| > 0 {
      DigitPrefixOfDigits(s[1..]);
    }
  }

  /** `x.toString()` for a non-negative number that is a whole count of cents:
      the integer part, then a point and one or two digits when the cents are not
      a multiple of a dollar (JavaScript drops trailing zeros). */
  function CentsToString(cents: nat): (r: string)
    ensures |r| >= 1 && IsDigit(r[0])
  {
    NatToString(cents / 100) + FractionText(cents % 100 / 10, cents % 10)
  }

  /** The part after the dollars of a price whose cents have the digits
      `tenth` and `hundredth`: nothing for whole dollars, else a point and the
      digits without a trailing zero. */
  function FractionText(tenth: nat, hundredth: nat): string
    requires tenth < 10 && hundredth < 10
  {
    if tenth == 0 && hundredth == 0 then [] else "." + CentsDigits(tenth, hundredth)
  }

  /** The digits after the point: one when the hundredth is 0, else two. */
  function CentsDigits(tenth: nat, hundredth: nat): (f: string)
    requires tenth < 10 && hundredth < 10
    ensures AllDigits(f)
    ensures FractionValue(f) == (10 * tenth + hundredth) as real / 100.0
  {
    if hundredth == 0 then
      OneDigitFraction(tenth);
      [DigitChar(tenth)]
    else
      TwoDigitFraction(tenth, hundredth);
      [DigitChar(tenth), DigitChar(hundredth)]
  }

  /** A run of digits followed by the end or by a non-digit is the digit prefix. */
  lemma {:induction false} DigitPrefixStops(d: string, rest: string)
    requires AllDigits(d) && (rest == [] || !IsDigit(rest[0]))
    ensures DigitPrefix(d + rest) == d
    decreases |d|
  {
    if d != [] {
      DigitPrefixStops(d[1..], rest);
      assert (d + rest)[1..] == d[1..] + rest;
    }
  }

  /** `parseFloat` of a run of digits. */
  lemma ParseFloatOfWhole(d: string)
    requires |d| >= 1 && AllDigits(d)
    ensures ParseFloat(d) == Number(DigitsValue(d) as real)
  {
    assert TrimStart(d) == d by { NoSpaceStart(d); }
    assert Unsigned(d) == d;
    assert UnsignedDecimal(d) == Number(DigitsValue(d) as real) by {
      DigitPrefixOfDigits(d);
      assert FractionDigits(d[|d|..]) == [];
    }
    assert Signed(d, DigitsValue(d) as real) == DigitsValue(d) as real;
  }

  /** `parseFloat` of digits, a point and more digits. */
  lemma ParseFloatOfDecimal(d: string, f: string)
    requires |d| >= 1 && AllDigits(d) && AllDigits(f)
    ensures ParseFloat(d + ("." + f)) == Number(DigitsValue(d) as real + FractionValue(f))
  {
    var s := d + ("." + f);
    assert s == d + "." + f;
    assert TrimStart(s) == s by {
      assert s[0] == d[0];
      NoSpaceStart(s);
    }
    assert Unsigned(s) == s;
    UnsignedDecimalOf(d, f);
  }

  lemma UnsignedDecimalOf(d: string, f: string)
    requires |d| >= 1 && AllDigits(d) && AllDigits(f)
    ensures UnsignedDecimal(d + "." + f) == Number(DigitsValue(d) as real + FractionValue(f))
  {
    var u := d + "." + f;
    DigitsBeforePoint(d, f);
    UnsignedDecimalSplit(u, d, "." + f);
    DigitsAfterPoint(f);
    assert UnsignedDecimal(u) == DecimalOf(d, f);
  }

  lemma UnsignedDecimalSplit(u: string, ip: string, rest: string)
    requires DigitPrefix(u) == ip && |ip| <= |u| && u[|ip|..] == rest
    ensures UnsignedDecimal(u) == DecimalOf(ip, FractionDigits(rest))
  {
  }

  lemma DigitsBeforePoint(d: string, f: string)
    requires AllDigits(d)
    ensures DigitPrefix(d + "." + f) == d && (d + "." + f)[|d|..] == "." + f
  {
    assert d + "." + f == d + ("." + f);
    DigitPrefixStops(d, "." + f);
  }

  lemma DigitsAfterPoint(f: string)
    requires AllDigits(f)
    ensures FractionDigits("." + f) == f
  {
    assert ("." + f)[1..] == f;
    DigitPrefixOfDigits(f);
  }

  /** `parseFloat` reads back the price a whole count of cents prints as. */
  lemma ParseFloatOfCents(cents: nat)
    ensures ParseFloat(CentsToString(cents)) == Number(cents as real / 100.0)
  {
    var dollars, tenth, hundredth := cents / 100, cents % 100 / 10, cents % 10;
    CentsDigitsSum(cents);
    AsDollars(cents, dollars, 10 * tenth + hundredth);
    NatToStringValue(dollars);
    ParseFloatOfPrice(NatToString(dollars), tenth, hundredth);
  }

  lemma CentsDigitsSum(cents: nat)
    ensures cents == 100 * (cents / 100) + 10 * (cents % 100 / 10) + cents % 10
  {
    var r := cents % 100;
    assert r == 10 * (r / 10) + r % 10;
    assert r % 10 == cents % 10;
  }

  lemma AsDollars(cents: nat, dollars: nat, rest: nat)
    requires cents == 100 * dollars + rest
    ensures cents as real / 100.0 == dollars as real + rest as real / 100.0
  {
  }

  /** `parseFloat` of dollar digits followed by the text of the cents. */
  lemma ParseFloatOfPrice(d: string, tenth: nat, hundredth: nat)
    requires |d| >= 1 && AllDigits(d) && tenth < 10 && hundredth < 10
    ensures ParseFloat(d + FractionText(tenth, hundredth)) ==
      Number(DigitsValue(d) as real + (10 * tenth + hundredth) as real / 100.0)
  {
    if tenth == 0 && hundredth == 0 {
      assert d + FractionText(tenth, hundredth) == d;
      ParseFloatOfWhole(d);
      assert DigitsValue(d) as real + (10 * tenth + hundredth) as real / 100.0 == DigitsValue(d) as real;
    } else {
      ParseFloatOfFraction(d, tenth, hundredth);
    }
  }

  lemma ParseFloatOfFraction(d: string, tenth: nat, hundredth: nat)
    requires |d| >= 1 && AllDigits(d) && tenth < 10 && hundredth < 10 && (tenth != 0 || hundredth != 0)
    ensures ParseFloat(d + FractionText(tenth, hundredth)) ==
      Number(DigitsValue(d) as real + (10 * tenth + hundredth) as real / 100.0)
  {
    var f := CentsDigits(tenth, hundredth);
    assert FractionText(tenth, hundredth) == "." + f;
    ParseFloatOfDecimal(d, f);
    assert DigitsValue(d) as real + FractionValue(f) ==
      DigitsValue(d) as real + (10 * tenth + hundredth) as real / 100.0;
  }

  lemma OneDigitFraction(a: nat)
    requires a < 10
    ensures FractionValue([DigitChar(a)]) == a as real / 10.0
  {
    assert [DigitChar(a)][1..] == [];
  }

  lemma TwoDigitFraction(a: nat, b: nat)
    requires a < 10 && b < 10
    ensures FractionValue([DigitChar(a), DigitChar(b)]) == (10 * a + b) as real / 100.0
  {
    assert [DigitChar(a), DigitChar(b)][1..] == [DigitChar(b)];
    OneDigitFraction(b);
  }
}
