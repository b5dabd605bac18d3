/**
 * The few pieces of JavaScript's built-in behaviour the modelled code relies
 * on: truthiness of an optional string, ASCII lower-casing, `includes`,
 * `parseInt(s, 10)` and the decimal rendering of a natural number in a
 * template literal. A `char` stands for one UTF-16 code unit of text in the
 * Basic Multilingual Plane; surrogate pairs are not represented.
 */
module Js {
  import opened Types

  /** `if (u)` on a `string | null | undefined`: absent and "" are falsy. */
  predicate Truthy(u: Option<string>)
  {
    u.Some? && u.value != ""
  }

  // ---------------------------------------------------------------- case

  /** `toLowerCase` restricted to ASCII letters; other characters are kept. */
  function LowerChar(c: char): (r: char)
    ensures 'A' <= c <= 'Z' ==> r as int == c as int + 32
    ensures !('A' <= c <= 'Z') ==> r == c
    ensures !('A' <= r <= 'Z')
  {
    if 'A' <= c <= 'Z' then (c as int + 32) as char else c
  }

  function Lower(s: string): (r: string)
    ensures |r| == |s|
    ensures forall i :: 0 <= i < |s| ==> r[i] == LowerChar(s[i])
  {
    if s == [] then [] else [LowerChar(s[0])] + Lower(s[1..])
  }

  /** Lower-casing twice is lower-casing once. */
  lemma LowerIdempotent(s: string)
    ensures Lower(Lower(s)) == Lower(s)
  {
  }

  // ------------------------------------------------------------- includes

  /** `s.includes(t)`, written as the scan JavaScript performs. */
  function Includes(s: string, t: string): (b: bool)
    decreases |s|
  {
    if |t| > |s| then false
    else if s[..|t|] == t then true
    else |s| > 0 && Includes(s[1..], t)
  }

  /** `t` occurs in `s` starting at position `k`. */
  predicate OccursAt(s: string, t: string, k: int)
  {
    0 <= k && k + |t| <= |s| && s[k..k + |t|] == t
  }

  /** `s.includes(t)` holds exactly when `t` occurs at some position of `s`. */
  lemma {:induction false} IncludesIff(s: string, t: string)
    ensures Includes(s, t) <==> exists k :: OccursAt(s, t, k)
    decreases |s|
  {
    if |t| > |s| {
    } else if s[..|t|] == t {
      assert OccursAt(s, t, 0);
    } else {
      IncludesIff(s[1..], t);
      if Includes(s, t) {
        var k :| OccursAt(s[1..], t, k);
        assert s[k + 1..k + 1 + |t|] == s[1..][k..k + |t|];
        assert OccursAt(s, t, k + 1);
      } else {
        forall k | 0 < k && k + |t| <= |s|
          ensures !OccursAt(s, t, k)
        {
          var u := s[1..];
          assert k - 1 + |t| <= |u|;
          assert forall i :: k <= i < k + |t| ==> s[i] == u[i - 1];
          assert s[k..k + |t|] == u[k - 1..k - 1 + |t|];
          assert !OccursAt(u, t, k - 1);
        }
      }
    }
  }

  /** Every string includes the empty string. */
  lemma IncludesEmpty(s: string)
    ensures Includes(s, "")
  {
    IncludesIff(s, "");
    assert OccursAt(s, "", 0);
  }

  // ------------------------------------------------------------- parseInt

  /** The characters `parseInt` skips before the number (StrWhiteSpaceChar in ECMA-262). */
  predicate IsJsSpace(c: char)
  {
    c == '\t' || c == '\n' || c == '\U{000B}' || c == '\U{000C}' || c == '\r' || c == ' '
    || c == '\U{00A0}' || c == '\U{1680}' || ('\U{2000}' <= c <= '\U{200A}')
    || c == '\U{2028}' || c == '\U{2029}' || c == '\U{202F}' || c == '\U{205F}'
    || c == '\U{3000}' || c == '\U{FEFF}'
  }

  predicate IsDigit(c: char)
  {
    '0' <= c <= '9'
  }

  predicate AllDigits(s: string)
  {
    forall i :: 0 <= i < |s| ==> IsDigit(s[i])
  }

  function DigitValue(c: char): (d: nat)
    requires IsDigit(c)
    ensures d < 10
  {
    c as int - '0' as int
  }

  function DigitChar(d: nat): (c: char)
    requires d < 10
    ensures IsDigit(c) && DigitValue(c) == d
  {
    ('0' as int + d) as char
  }

  /** Leading white space removed. */
  function TrimStart(s: string): (r: string)
    ensures |r| <= |s| && r == s[|s| - |r|..]
    ensures r == [] || !IsJsSpace(r[0])
    ensures forall i :: 0 <= i < |s| - |r| ==> IsJsSpace(s[i])
  {
    if s != [] && IsJsSpace(s[0]) then TrimStart(s[1..]) else s
  }

  /** The longest prefix of decimal digits. */
  function DigitPrefix(s: string): (r: string)
    ensures |r| <= |s| && r == s[..|r|] && AllDigits(r)
    ensures |r| < |s| ==> !IsDigit(s[|r|])
  {
    if s != [] && IsDigit(s[0]) then [s[0]] + DigitPrefix(s[1..]) else []
  }

  /** The value of a string of decimal digits, most significant first. */
  function DigitsValue(d: string): (v: nat)
    requires AllDigits(d)
  {
    if d == [] then 0 else 10 * DigitsValue(d[..|d| - 1]) + DigitValue(d[|d| - 1])
  }

  /** The result of `parseInt(s, 10)`: a number or NaN. */
  datatype Parsed = NaN | Num(n: int)

  /**
   * `parseInt(s, 10)`: skip leading white space, accept one optional sign,
   * take the longest run of digits; NaN when there is none. "-0" yields
   * JavaScript's -0, which every use here treats as 0, so it is Num(0).
   */
  function ParseInt(s: string): (r: Parsed)
    ensures r.NaN? <==> DigitPrefix(UnsignedPart(TrimStart(s))) == []
  {
    var t := TrimStart(s);
    var d := DigitPrefix(UnsignedPart(t));
    if d == [] then NaN
    else if |t| > 0 && t[0] == '-' then Num(0 - DigitsValue(d))
    else Num(DigitsValue(d))
  }

  /** Leading white space is skipped up to the first other character. */
  lemma {:induction false} TrimStartOfSpaces(w: string, x: string)
    requires forall i :: 0 <= i < |w| ==> IsJsSpace(w[i])
    requires x == [] || !IsJsSpace(x[0])
    ensures TrimStart(w + x) == x
    decreases |w|
  {
    if w != [] {
      assert (w + x)[1..] == w[1..] + x;
      TrimStartOfSpaces(w[1..], x);
    }
  }

  /** The digit run ends where the first non-digit begins. */
  lemma {:induction false} DigitPrefixOfParts(d: string, rest: string)
    requires AllDigits(d)
    requires rest == [] || !IsDigit(rest[0])
    ensures DigitPrefix(d + rest) == d
    decreases |d|
  {
    if d != [] {
      assert (d + rest)[1..] == d[1..] + rest;
      DigitPrefixOfParts(d[1..], rest);
    } else {
      assert d + rest == rest;
    }
  }

  /** After an optional sign comes a digit: nothing to trim, and the sign is dropped. */
  lemma SignThenDigit(sign: string, y: string)
    requires sign == "" || sign == "+" || sign == "-"
    requires y != [] && IsDigit(y[0])
    ensures TrimStart(sign + y) == sign + y
    ensures UnsignedPart(sign + y) == y
    ensures (sign + y)[0] == '-' <==> sign == "-"
  {
    var x := sign + y;
    assert x[0] == if sign == "" then y[0] else sign[0];
    assert !IsJsSpace(x[0]) by {
      DigitIsNotSpace(y[0]);
    }
    NothingToTrim(x);
    if sign != "" {
      assert x[1..] == y;
    }
  }

  /** Text that does not start with white space is its own trimmed form. */
  lemma NothingToTrim(x: string)
    requires x != [] && !IsJsSpace(x[0])
    ensures TrimStart(x) == x
  {
  }

  /** `parseInt` of text with nothing to trim whose unsigned digit run is `d`. */
  lemma ParseIntOfTrimmed(x: string, d: string)
    requires TrimStart(x) == x && d != [] && DigitPrefix(UnsignedPart(x)) == d
    ensures ParseInt(x) == Num(if x[0] == '-' then -(DigitsValue(d) as int) else DigitsValue(d))
  {
  }

  /** `parseInt` of a sign, a non-empty digit run and a rest that does not continue it. */
  lemma ParseIntUnpadded(sign: string, d: string, rest: string)
    requires sign == "" || sign == "+" || sign == "-"
    requires d != [] && AllDigits(d)
    requires rest == [] || !IsDigit(rest[0])
    ensures ParseInt(sign + d + rest) == Num(if sign == "-" then -(DigitsValue(d) as int) else DigitsValue(d))
  {
    var y := d + rest;
    assert sign + d + rest == sign + y;
    assert y[0] == d[0];
    DigitPrefixOfParts(d, rest);
    SignThenDigit(sign, y);
    ParseIntOfTrimmed(sign + y, d);
  }

  /**
   * `parseInt` on any text of the form white space, an optional sign, a
   * non-empty digit run and a remainder that does not continue the run:
   * the value of the digits, negated after "-".
   */
  lemma ParseIntOfParts(w: string, sign: string, d: string, rest: string)
    requires forall i :: 0 <= i < |w| ==> IsJsSpace(w[i])
    requires sign == "" || sign == "+" || sign == "-"
    requires d != [] && AllDigits(d)
    requires rest == [] || !IsDigit(rest[0])
    ensures ParseInt(w + sign + d + rest) == Num(if sign == "-" then -(DigitsValue(d) as int) else DigitsValue(d))
  {
    var x := sign + d + rest;
    assert w + sign + d + rest == w + x;
    DigitIsNotSpace(d[0]);
    assert x[0] == if sign == "" then d[0] else sign[0];
    assert TrimStart(w + x) == TrimStart(x) by {
      TrimStartOfSpaces(w, x);
      assert TrimStart(x) == x by {
        DigitIsNotSpace(d[0]);
      }
    }
    ParseIntUnpadded(sign, d, rest);
    ParseIntSeesTrimmed(w + x, x);
  }

  /** `parseInt` looks only at the text after the leading white space. */
  lemma ParseIntSeesTrimmed(s: string, s': string)
    requires TrimStart(s) == TrimStart(s')
    ensures ParseInt(s) == ParseInt(s')
  {
  }

  /** Leading white space and trailing text are ignored: " 12abc" reads as 12. */
  lemma ParseIntTrailingText()
    ensures ParseInt(" 12abc") == Num(12)
  {
    assert " " + "" + "12" + "abc" == " 12abc";
    ParseIntOfParts(" ", "", "12", "abc");
  }

  /** A plus sign is accepted: "+3" reads as 3. */
  lemma ParseIntPlusSign()
    ensures ParseInt("+3") == Num(3)
  {
    assert "+" + "3" + "" == "+3";
    ParseIntUnpadded("+", "3", "");
  }

  /** "-0" reads as 0. */
  lemma ParseIntMinusZero()
    ensures ParseInt("-0") == Num(0)
  {
    assert "-" + "0" + "" == "-0";
    ParseIntUnpadded("-", "0", "");
  }

  /** What follows an optional leading sign. */
  function UnsignedPart(t: string): (u: string)
  {
    if |t| > 0 && (t[0] == '-' || t[0] == '+') then t[1..] else t
  }

  // ------------------------------------------------------- number to text

  /** `${n}` for a natural number below 10^21: its plain decimal digits. */
  function NatToString(n: nat): (s: string)
    ensures |s| > 0 && AllDigits(s)
    decreases n
  {
    if n < 10 then [DigitChar(n)] else NatToString(n / 10) + [DigitChar(n % 10)]
  }

  /** `${n}` for an integer: the digits, after a minus sign when negative. */
  function IntToString(n: int): (s: string)
    ensures |s| > 0 && (IsDigit(s[0]) || s[0] == '-')
  {
    if n < 0 then "-" + NatToString(-n) else NatToString(n)
  }

  /** The decimal strings `${n}` produces: digits, no leading zero except "0" itself. */
  predicate Canonical(s: string)
  {
    |s| > 0 && AllDigits(s) && (s[0] == '0' ==> |s| == 1)
  }

  lemma {:induction false} DigitsOfNat(n: nat)
    ensures DigitsValue(NatToString(n)) == n
    ensures NatToString(n)[0] == '0' ==> n == 0
    decreases n
  {
    var s := NatToString(n);
    if n >= 10 {
      DigitsOfNat(n / 10);
      assert s[..|s| - 1] == NatToString(n / 10);
    }
  }

  /** `${n}` always yields a canonical decimal string. */
  lemma NatToStringCanonical(n: nat)
    ensures Canonical(NatToString(n))
  {
    DigitsOfNat(n);
    if n < 10 {
    } else {
      assert NatToString(n)[0] == NatToString(n / 10)[0];
      DigitsOfNat(n / 10);
    }
  }

  /** An all-digit string is its own digit prefix, after trimming and sign removal. */
  lemma DigitStringParses(d: string)
    requires |d| > 0 && AllDigits(d)
    ensures ParseInt(d) == Num(DigitsValue(d))
  {
    DigitIsNotSpace(d[0]);
    assert UnsignedPart(d) == d;
    AllDigitsPrefix(d);
  }

  lemma DigitIsNotSpace(c: char)
    requires IsDigit(c)
    ensures !IsJsSpace(c)
  {
  }

  lemma {:induction false} AllDigitsPrefix(d: string)
    requires AllDigits(d)
    ensures DigitPrefix(d) == d
  {
    if d != [] {
      AllDigitsPrefix(d[1..]);
    }
  }

  /** Round trip: `parseInt(`${n}`, 10) === n` for every integer. */
  lemma ParseIntOfIntToString(n: int)
    ensures ParseInt(IntToString(n)) == Num(n)
  {
    if n >= 0 {
      DigitsOfNat(n);
      DigitStringParses(NatToString(n));
    } else {
      var s := IntToString(n);
      var d := NatToString(-n);
      assert !IsJsSpace(s[0]);
      assert UnsignedPart(s) == d;
      AllDigitsPrefix(d);
      DigitsOfNat(-n);
    }
  }

  /** `${n}` is injective: different numbers give different file-name parts. */
  lemma IntToStringInjective(m: int, n: int)
    requires IntToString(m) == IntToString(n)
    ensures m == n
  {
    ParseIntOfIntToString(m);
    ParseIntOfIntToString(n);
  }

  lemma {:induction false} CanonicalDigitsRoundTrip(s: string)
    requires Canonical(s)
    ensures NatToString(DigitsValue(s)) == s
    decreases |s|
  {
    if |s| == 1 {
    } else {
      var p := s[..|s| - 1];
      assert p[0] == s[0];
      assert Canonical(p);
      CanonicalDigitsRoundTrip(p);
      DigitsOfNat(DigitsValue(p));
      var v := DigitsValue(s);
      assert p[0] != '0';
      assert v / 10 == DigitsValue(p) && v % 10 == DigitValue(s[|s| - 1]);
      assert s == p + [s[|s| - 1]];
    }
  }

  /**
   * `${parseInt(s, 10)}` gives back `s` exactly when `s` is a canonical
   * decimal string; any other input ("01", "1x", " 1", "+1") renders differently.
   */
  lemma CanonicalIff(s: string)
    ensures (ParseInt(s).Num? && ParseInt(s).n >= 0 && NatToString(ParseInt(s).n) == s)
            <==> Canonical(s)
  {
    if Canonical(s) {
      DigitStringParses(s);
      CanonicalDigitsRoundTrip(s);
    }
    if ParseInt(s).Num? && ParseInt(s).n >= 0 && NatToString(ParseInt(s).n) == s {
      NatToStringCanonical(ParseInt(s).n);
    }
  }
}
