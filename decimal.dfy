/** Decimal text of integers as C#'s `int.ToString()` writes it (a leading
    '-' for negative values, no leading zeros), together with the parser
    that reads it back. */
module Decimal {

  datatype Option<+T> = None | Some(value: T)

  predicate IsDigit(c: char) {
    '0' <= c <= '9'
  }

  function DigitChar(d: nat): (c: char)
    requires d < 10
    ensures IsDigit(c) && DigitValue(c) == d
  {
    (('0' as int) + d) as char
  }

  function DigitValue(c: char): nat
    requires IsDigit(c)
  {
    (c as int) - ('0' as int)
  }

  /** A non-empty run of digits without a leading zero, except "0" itself. */
  predicate CanonicalNat(s: string) {
    && |s| > 0
    && (forall i :: 0 <= i < |s| ==> IsDigit(s[i]))
    && (s[0] == '0' ==> s == "0")
  }

  /** Canonical digits, after a '-' for a negative number; there is no "-0". */
  predicate CanonicalInt(s: string) {
    if |s| > 0 && s[0] == '-' then CanonicalNat(s[1..]) && s[1..] != "0"
    else CanonicalNat(s)
  }

  /** The digits of `n`, most significant first. */
  function NatToString(n: nat): (s: string)
    decreases n
    ensures CanonicalNat(s)
    ensures s == "0" <==> n == 0
  {
    if n < 10 then [DigitChar(n)] else NatToString(n / 10) + [DigitChar(n % 10)]
  }

  /** `n.ToString()` for a C# integer. */
  function IntToString(n: int): (s: string)
    ensures CanonicalInt(s)
    ensures s[0] == '-' <==> n < 0
    ensures '/' !in s
  {
    if n < 0 then "-" + NatToString(-n) else NatToString(n)
  }

  /** Reads a non-empty string of digits; None for anything else. */
  function ParseNat(s: string): Option<nat>
    decreases |s|
  {
    if |s| == 0 || !IsDigit(s[|s| - 1]) then None
    else if |s| == 1 then Some(DigitValue(s[0]))
    else
      match ParseNat(s[..|s| - 1])
      case None => None
      case Some(m) => Some(10 * m + DigitValue(s[|s| - 1]))
  }

  /** Reads an optionally '-'-signed string of digits. */
  function ParseInt(s: string): Option<int> {
    if |s| > 0 && s[0] == '-' then
      match ParseNat(s[1..])
      case None => None
      case Some(m) => Some(0 - m as int)
    else
      match ParseNat(s)
      case None => None
      case Some(m) => Some(m)
  }

  /** The position of the first `c` in `s`, if any. */
  function IndexOf(s: string, c: char): (r: Option<nat>)
    ensures r.None? <==> c !in s
    ensures r.Some? ==> r.value < |s| && s[r.value] == c && c !in s[..r.value]
  {
    if |s| == 0 then None
    else if s[0] == c then Some(0)
    else
      match IndexOf(s[1..], c)
      case None => None
      case Some(i) => assert s[..i + 1] == [s[0]] + s[1..][..i]; Some(i + 1)
  }

  /** Reads a "numerator/denominator" text split at its first '/'. */
  function ParseFraction(s: string): Option<(int, int)> {
    match IndexOf(s, '/')
    case None => None
    case Some(i) =>
      match (ParseInt(s[..i]), ParseInt(s[i + 1..]))
      case (Some(a), Some(b)) => Some((a, b))
      case _ => None
  }

  lemma {:induction false} ParseNatToString(n: nat)
    ensures ParseNat(NatToString(n)) == Some(n)
  {
    if n >= 10 {
      var prefix := NatToString(n / 10);
      var s := prefix + [DigitChar(n % 10)];
      assert s[..|s| - 1] == prefix;
      ParseNatToString(n / 10);
    }
  }

  /** Parsing undoes printing, for every integer. */
  lemma ParseIntToString(n: int)
    ensures ParseInt(IntToString(n)) == Some(n)
  {
    if n < 0 {
      var s := "-" + NatToString(-n);
      assert s[1..] == NatToString(-n);
      ParseNatToString(-n);
    } else {
      ParseNatToString(n);
    }
  }

  /** A canonical digit string is the printed form of the number it parses
      to: no other spelling of that number is canonical. */
  lemma {:induction false} CanonicalNatUnique(s: string, m: nat)
    requires CanonicalNat(s) && ParseNat(s) == Some(m)
    ensures s == NatToString(m)
    decreases |s|
  {
    if |s| > 1 {
      var p := s[..|s| - 1];
      assert p[0] == s[0] != '0';
      assert ParseNat(p).Some?;
      var m' := ParseNat(p).value;
      CanonicalNatUnique(p, m');
      assert m' != 0;
      assert s == p + [s[|s| - 1]];
    }
  }

  /** A canonical signed text is the printed form of the integer it parses
      to. */
  lemma CanonicalIntUnique(s: string, n: int)
    requires CanonicalInt(s) && ParseInt(s) == Some(n)
    ensures s == IntToString(n)
  {
    if |s| > 0 && s[0] == '-' {
      var m := ParseNat(s[1..]).value;
      CanonicalNatUnique(s[1..], m);
      assert s == "-" + s[1..];
    } else {
      CanonicalNatUnique(s, n);
    }
  }

  /** Canonical signed numbers on both sides of the first '/'. */
  predicate CanonicalFraction(s: string) {
    match IndexOf(s, '/')
    case None => false
    case Some(i) => CanonicalInt(s[..i]) && CanonicalInt(s[i + 1..])
  }

  /** A canonical fraction text is the one printed for the numbers it reads
      as. */
  lemma FractionTextUnique(s: string, a: int, b: int)
    requires CanonicalFraction(s) && ParseFraction(s) == Some((a, b))
    ensures s == IntToString(a) + "/" + IntToString(b)
  {
    var i := IndexOf(s, '/').value;
    CanonicalIntUnique(s[..i], a);
    CanonicalIntUnique(s[i + 1..], b);
    assert s == s[..i] + "/" + s[i + 1..];
  }

  /** The text "a/b" built from two printed integers is canonical and reads
      back as (a, b). */
  lemma ParseFractionOf(a: int, b: int)
    ensures CanonicalFraction(IntToString(a) + "/" + IntToString(b))
    ensures ParseFraction(IntToString(a) + "/" + IntToString(b)) == Some((a, b))
  {
    var x, y := IntToString(a), IntToString(b);
    var s := x + "/" + y;
    assert s[..|x|] == x && s[|x|] == '/';
    assert '/' !in s[..|x|];
    var r := IndexOf(s, '/');
    assert r == Some(|x|);
    assert s[|x| + 1..] == y;
    ParseIntToString(a);
    ParseIntToString(b);
  }
}
