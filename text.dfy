/** Decimal rendering and parsing, splitting and joining: the string helpers the JavaScript runtime provides. */
module Text {

  predicate IsDigit(c: char) { '0' <= c <= '9' }

  predicate AllDigits(s: string) { forall i :: 0 <= i < |s| ==> IsDigit(s[i]) }

  function DigitValue(c: char): (d: nat)
    requires IsDigit(c)
    ensures d < 10
  {
    c as int - '0' as int
  }

  function DigitChar(d: nat): (c: char)
    requires d < 10
    ensures IsDigit(c) && DigitValue(c) == d
  {
    (d + '0' as int) as char
  }

  /** Number.prototype.toString() on a non-negative integer. */
  function NatToString(n: nat): (s: string)
    ensures 1 <= |s| && AllDigits(s)
    ensures n < 10 ==> |s| == 1
    ensures 10 <= n < 100 ==> |s| == 2
  {
    if n < 10 then [DigitChar(n)] else NatToString(n / 10) + [DigitChar(n % 10)]
  }

  /** The value of a string of decimal digits. */
  function DigitsValue(ds: string): nat
    requires AllDigits(ds)
  {
    if ds == [] then 0 else DigitsValue(ds[..|ds| - 1]) * 10 + DigitValue(ds[|ds| - 1])
  }

  /** The longest prefix of s made of decimal digits: what parseInt reads. */
  function LeadingDigits(s: string): (p: string)
    ensures p <= s && AllDigits(p)
    ensures |p| < |s| ==> !IsDigit(s[|p|])
  {
    if s == [] || !IsDigit(s[0]) then [] else [s[0]] + LeadingDigits(s[1..])
  }

  /** A statistics field parseInt can read without producing NaN: absent ("") or starting with a digit. */
  predicate CountText(s: string) { s == "" || IsDigit(s[0]) }

  /** parseInt(field || 0) on a count field; the absent or empty field reads as 0. */
  function ParseCount(s: string): nat
    requires CountText(s)
  {
    if s == "" then 0 else DigitsValue(LeadingDigits(s))
  }

  lemma {:induction false} DigitsValueOfNatToString(n: nat)
    ensures DigitsValue(NatToString(n)) == n
  {
    if n >= 10 {
      var s := NatToString(n / 10) + [DigitChar(n % 10)];
      assert s[..|s| - 1] == NatToString(n / 10);
      DigitsValueOfNatToString(n / 10);
    }
  }

  lemma {:induction false} LeadingDigitsOfDigits(s: string)
    requires AllDigits(s)
    ensures LeadingDigits(s) == s
  {
    if s != [] {
      LeadingDigitsOfDigits(s[1..]);
    }
  }

  /** A count written only in digits is read as its decimal value. */
  lemma ParseCountOfDigits(s: string)
    requires CountText(s)
    ensures AllDigits(s) ==> ParseCount(s) == DigitsValue(s)
  {
    if AllDigits(s) && s != "" {
      LeadingDigitsOfDigits(s);
    }
  }

  /** Reading back a rendered count gives the count: parseInt(n.toString()) == n. */
  lemma ParseCountOfNatToString(n: nat)
    ensures CountText(NatToString(n)) && ParseCount(NatToString(n)) == n
  {
    LeadingDigitsOfDigits(NatToString(n));
    DigitsValueOfNatToString(n);
  }

  /** String.prototype.padStart(2, '0'). */
  function Pad2(s: string): (r: string)
    ensures |s| >= 2 ==> r == s
    ensures |s| < 2 ==> |r| == 2 && r[2 - |s|..] == s && forall i :: 0 <= i < 2 - |s| ==> r[i] == '0'
    decreases 2 - |s|
  {
    if |s| >= 2 then s else Pad2(['0'] + s)
  }

  /** Zero-padding a digit string keeps it a digit string with the same value. */
  lemma Pad2KeepsValue(s: string)
    requires AllDigits(s)
    ensures AllDigits(Pad2(s)) && DigitsValue(Pad2(s)) == DigitsValue(s)
  {
    var r := Pad2(s);
    if |s| == 1 {
      assert r[..1] == "0";
      assert r[1] == s[0];
      assert s[..0] == [];
    } else if |s| == 0 {
      assert r[..1] == "0" && r[..1][..0] == [];
    }
  }

  /** Array.prototype.join(sep) with a one-character separator. */
  function Join(parts: seq<string>, sep: char): string
  {
    if |parts| == 0 then "" else if |parts| == 1 then parts[0] else parts[0] + [sep] + Join(parts[1..], sep)
  }

  /** String.prototype.split(sep) with a one-character separator; "" splits into [""]. */
  function Split(s: string, sep: char): (parts: seq<string>)
    ensures |parts| >= 1
    ensures forall i :: 0 <= i < |parts| ==> sep !in parts[i]
  {
    if s == [] then [""]
    else if s[0] == sep then [""] + Split(s[1..], sep)
    else var rest := Split(s[1..], sep); [[s[0]] + rest[0]] + rest[1..]
  }

  lemma {:induction false} SplitOfPlainWord(p: string, sep: char)
    requires sep !in p
    ensures Split(p, sep) == [p]
  {
    if p != [] {
      SplitOfPlainWord(p[1..], sep);
      assert [p[0]] + p[1..] == p;
    }
  }

  lemma {:induction false} SplitAtFirstSeparator(p: string, sep: char, rest: string)
    requires sep !in p
    ensures Split(p + [sep] + rest, sep) == [p] + Split(rest, sep)
  {
    if p != [] {
      assert (p + [sep] + rest)[1..] == p[1..] + [sep] + rest;
      SplitAtFirstSeparator(p[1..], sep, rest);
      assert [p[0]] + p[1..] == p;
    } else {
      assert ([] + [sep] + rest)[1..] == rest;
    }
  }

  /** Splitting a joined non-empty list of separator-free words gives the words back. */
  lemma {:induction false} SplitJoin(parts: seq<string>, sep: char)
    requires |parts| >= 1
    requires forall i :: 0 <= i < |parts| ==> sep !in parts[i]
    ensures Split(Join(parts, sep), sep) == parts
  {
    if |parts| == 1 {
      SplitOfPlainWord(parts[0], sep);
    } else {
      SplitJoin(parts[1..], sep);
      SplitAtFirstSeparator(parts[0], sep, Join(parts[1..], sep));
      assert [parts[0]] + parts[1..] == parts;
    }
  }

  /** String.prototype.includes(sub). */
  predicate Contains(s: string, sub: string)
  {
    sub <= s || (s != [] && Contains(s[1..], sub))
  }

  /** String.prototype.replace(c, d) with single characters: only the first occurrence is replaced. */
  function ReplaceFirst(s: string, c: char, d: char): (r: string)
    ensures |r| == |s|
    ensures c !in s ==> r == s
  {
    if s == [] then [] else if s[0] == c then [d] + s[1..] else [s[0]] + ReplaceFirst(s[1..], c, d)
  }

  lemma {:induction false} ReplaceFirstAfterPlain(p: string, c: char, d: char, rest: string)
    requires c !in p
    ensures ReplaceFirst(p + [c] + rest, c, d) == p + [d] + rest
  {
    if p != [] {
      assert (p + [c] + rest)[1..] == p[1..] + [c] + rest;
      ReplaceFirstAfterPlain(p[1..], c, d, rest);
    } else {
      assert ([] + [c] + rest)[1..] == rest;
    }
  }
}

/** The parts of JavaScript's Math used by the analytics: rounding, flooring and truncation, on exact numbers. */
module JsMath {

  /** Math.round(a / b) for a non-negative quotient: the nearest integer, halves rounding up. */
  function RoundDiv(a: nat, b: nat): (r: nat)
    requires b > 0
    ensures 2 * r * b - b <= 2 * a < 2 * r * b + b
  {
    var r := (2 * a + b) / (2 * b);
    assert r * (2 * b) <= 2 * a + b < r * (2 * b) + 2 * b;
    r
  }

  /** Math.round(x): floor(x + 1/2). */
  function Round(x: real): (r: int)
    ensures x - 0.5 < r as real <= x + 0.5
  {
    (x + 0.5).Floor
  }

  /** Math.floor(x). */
  function Floor(x: real): (r: int)
    ensures r as real <= x < r as real + 1.0
  {
    x.Floor
  }

  /** Conversion of a time value to an integer millisecond count (toward zero), as new Date(x) does. */
  function Trunc(x: real): (r: int)
    ensures 0.0 <= x ==> 0 <= r && r as real <= x < r as real + 1.0
    ensures x < 0.0 ==> r <= 0 && x <= r as real < x + 1.0
  {
    if x >= 0.0 then x.Floor else -((-x).Floor)
  }

  function MinReal(a: real, b: real): real { if a <= b then a else b }

  function MaxReal(a: real, b: real): real { if a >= b then a else b }
}
