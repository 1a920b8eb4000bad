/**
 * Scalar handling: the choice of XML tag for a scalar (type_to_tag) and the
 * text written between a scalar's tags.
 */
module TypeTag {
  import opened JsonValue

  /** Message of the TypeError raised for an unsupported value, the text of
      `f"Unsupported JSON type: {type(value)}"`. */
  function UnsupportedMessage(v: Json): string
  {
    "Unsupported JSON type: <class '" + ClassName(v) + "'>"
  }

  /** The XML tag for a scalar. The kinds are tried in the order string, boolean,
      number, null, so a boolean is never taken for a number; any other value
      (including a dict or a list) raises TypeError. */
  function TypeToTag(v: Json): (r: Result<string>)
    ensures r.Success? <==> v.Str? || v.Bool? || v.Num? || v.Null?
    ensures v.Str? ==> r == Success("string")
    ensures v.Bool? ==> r == Success("boolean")
    ensures v.Num? ==> r == Success("number")
    ensures v.Null? ==> r == Success("null")
    ensures r.Failure? ==> r.error == TypeError(UnsupportedMessage(v))
  {
    if v.Str? then Success("string")
    else if v.Bool? then Success("boolean")
    else if v.Num? then Success("number")
    else if v.Null? then Success("null")
    else Failure(TypeError(UnsupportedMessage(v)))
  }

  /** Two scalars get the same tag exactly when they are of the same kind. */
  predicate SameKind(a: Json, b: Json)
  {
    (a.Str? && b.Str?) || (a.Bool? && b.Bool?) || (a.Num? && b.Num?) || (a.Null? && b.Null?)
  }

  lemma TagDeterminesKind(a: Json, b: Json)
    requires TypeToTag(a).Success? && TypeToTag(b).Success?
    ensures TypeToTag(a) == TypeToTag(b) <==> SameKind(a, b)
  {
  }

  // ---------------------------------------------------------------------------
  // Decimal text of an integer, as Python's str(int) writes it.

  predicate IsDigit(c: char)
  {
    '0' <= c <= '9'
  }

  predicate AllDigits(s: string)
  {
    forall i :: 0 <= i < |s| ==> IsDigit(s[i])
  }

  function DigitChar(d: nat): (c: char)
    requires d < 10
    ensures IsDigit(c) && c as int - '0' as int == d
  {
    ('0' as int + d) as char
  }

  /** Decimal digits as str(int) writes them: at least one digit, and no
      leading zero except in "0" itself. */
  predicate Canonical(d: string)
  {
    |d| >= 1 && AllDigits(d) && (d[0] == '0' ==> d == "0")
  }

  /** Decimal digits of n, most significant first, with no leading zero. */
  function NatToDecimal(n: nat): (s: string)
    ensures Canonical(s)
    ensures s[0] == '0' ==> n == 0
    decreases n
  {
    if n < 10 then [DigitChar(n)] else NatToDecimal(n / 10) + [DigitChar(n % 10)]
  }

  /** The number a string of decimal digits denotes (the inverse of NatToDecimal). */
  function DigitsValue(s: string): nat
    requires AllDigits(s)
    decreases |s|
  {
    if s == [] then 0
    else DigitsValue(s[..|s| - 1]) * 10 + (s[|s| - 1] as int - '0' as int)
  }

  lemma {:induction false} DecimalRoundTrip(n: nat)
    ensures DigitsValue(NatToDecimal(n)) == n
    decreases n
  {
    if n >= 10 {
      DecimalRoundTrip(n / 10);
      var s := NatToDecimal(n);
      assert s[..|s| - 1] == NatToDecimal(n / 10);
    }
  }

  /** The number an optionally signed decimal string denotes. */
  function ParseInt(s: string): int
  {
    if |s| > 0 && s[0] == '-' && AllDigits(s[1..]) then 0 - DigitsValue(s[1..]) as int
    else if AllDigits(s) then DigitsValue(s)
    else 0
  }

  /** The canonical digits denoting a number are the ones NatToDecimal
      writes: decimal text without leading zeros is unique. */
  lemma {:induction false} DecimalUnique(d: string)
    requires Canonical(d)
    ensures NatToDecimal(DigitsValue(d)) == d
    decreases |d|
  {
    if |d| > 1 {
      var front := d[..|d| - 1];
      assert front[0] == d[0];
      LeadingDigitPositive(front);
      DecimalUnique(front);
      var n := DigitsValue(d);
      assert n / 10 == DigitsValue(front) && n % 10 == d[|d| - 1] as int - '0' as int;
      assert d == front + [d[|d| - 1]];
    }
  }

  /** Digits that do not start with '0' denote a positive number. */
  lemma {:induction false} LeadingDigitPositive(d: string)
    requires |d| >= 1 && AllDigits(d) && d[0] != '0'
    ensures DigitsValue(d) >= 1
    decreases |d|
  {
    if |d| > 1 {
      var front := d[..|d| - 1];
      assert front[0] == d[0];
      LeadingDigitPositive(front);
    }
  }

  /** str(i) for a Python int: a minus sign for negatives, then the digits. */
  function IntToDecimal(i: int): (s: string)
    ensures |s| >= 1
    ensures s[0] == '-' <==> i < 0
    ensures Canonical(if i < 0 then s[1..] else s)
    ensures ParseInt(s) == i
  {
    if i < 0 then
      DecimalRoundTrip(-i);
      var digits := NatToDecimal(-i);
      assert ("-" + digits)[1..] == digits;
      "-" + digits
    else
      DecimalRoundTrip(i);
      NatToDecimal(i)
  }

  /** Any optionally signed canonical decimal text denoting i is str(i). */
  lemma IntDecimalUnique(s: string, i: int)
    requires |s| >= 1 && (s[0] == '-' <==> i < 0)
    requires Canonical(if i < 0 then s[1..] else s) && ParseInt(s) == i
    ensures s == IntToDecimal(i)
  {
    if i < 0 {
      var d := s[1..];
      assert DigitsValue(d) == -i;
      DecimalUnique(d);
      assert s == "-" + d;
    } else {
      assert DigitsValue(s) == i;
      DecimalUnique(s);
    }
  }

  // ---------------------------------------------------------------------------
  // Text between a scalar's tags.

  function LowerChar(c: char): char
  {
    if 'A' <= c <= 'Z' then (c as int - 'A' as int + 'a' as int) as char else c
  }

  predicate IsUpper(c: char)
  {
    'A' <= c <= 'Z'
  }

  /** str.lower() on ASCII text: every capital letter becomes its small
      letter, everything else stays, and no capital letter is left. */
  function Lower(s: string): (r: string)
    ensures |r| == |s|
    ensures forall i :: 0 <= i < |s| && IsUpper(s[i]) ==> r[i] as int == s[i] as int + 32
    ensures forall i :: 0 <= i < |s| && !IsUpper(s[i]) ==> r[i] == s[i]
    ensures forall i :: 0 <= i < |r| ==> !IsUpper(r[i])
  {
    seq(|s|, i requires 0 <= i < |s| => LowerChar(s[i]))
  }

  /** Lower-casing twice is lower-casing once. */
  lemma LowerIdempotent(s: string)
    ensures Lower(Lower(s)) == Lower(s)
  {
    var once := Lower(s);
    assert forall i :: 0 <= i < |once| ==> Lower(once)[i] == once[i];
  }

  /** str(v) for the scalars that reach the leaf branch. */
  function PyStr(v: Json): string
    requires v.Str? || v.Num? || v.Bool?
  {
    match v
    case Str(s) => s
    case Num(n) => IntToDecimal(n)
    case Bool(b) => if b then "True" else "False"
  }

  /** The element text of a leaf: str(v).lower() for a boolean, the value itself
      otherwise (no escaping, no quoting). */
  function LeafText(v: Json): (t: string)
    requires v.Str? || v.Num? || v.Bool?
    ensures v.Bool? ==> t == if v.b then "true" else "false"
    ensures v.Str? ==> t == v.s
    ensures v.Num? ==>
      (|t| >= 1 && (t[0] == '-' <==> v.n < 0)
       && Canonical(if v.n < 0 then t[1..] else t) && ParseInt(t) == v.n)
  {
    if v.Bool? then
      assert Lower("True") == "true";
      assert Lower("False") == "false";
      Lower(PyStr(v))
    else PyStr(v)
  }
}
