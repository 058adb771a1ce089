/** Decimal text of integers: Python's str() of a non-negative int (used for the
    process id in registry keys) and Python 2's int() of a string in base 10
    (used for the port of a "host:port" address). */
module Decimal {
  import opened Errors

  predicate IsDigit(c: char) { '0' <= c <= '9' }

  predicate AllDigits(s: string) { forall i :: 0 <= i < |s| ==> IsDigit(s[i]) }

  /** Python 2's string.whitespace: space, tab, newline, vertical tab, form feed, carriage return. */
  predicate IsSpace(c: char) { c == ' ' || '\t' <= c <= '\r' }

  function DigitChar(d: nat): (c: char)
    requires d < 10
    ensures IsDigit(c) && c as int - '0' as int == d
  {
    ('0' as int + d) as char
  }

  /** str(n): the shortest decimal numeral of n. */
  function NatToString(n: nat): (s: string)
    ensures s != [] && AllDigits(s)
    ensures s[0] == '0' ==> n == 0
    decreases n
  {
    if n < 10 then [DigitChar(n)] else NatToString(n / 10) + [DigitChar(n % 10)]
  }

  /** The number a run of decimal digits denotes (the empty run is 0; leading zeros allowed). */
  function DigitsValue(s: string): nat
    requires AllDigits(s)
  {
    if s == [] then 0 else DigitsValue(s[..|s| - 1]) * 10 + (s[|s| - 1] as int - '0' as int)
  }

  function TrimLeft(s: string): (t: string)
    ensures t == [] || !IsSpace(t[0])
    ensures |t| <= |s|
  {
    if s != [] && IsSpace(s[0]) then TrimLeft(s[1..]) else s
  }

  function TrimRight(s: string): (t: string)
    ensures t == [] || !IsSpace(t[|t| - 1])
    ensures |t| <= |s|
  {
    if s != [] && IsSpace(s[|s| - 1]) then TrimRight(s[..|s| - 1]) else s
  }

  /** s.strip() */
  function Strip(s: string): string { TrimRight(TrimLeft(s)) }

  /** The last character survives left-trimming, unless everything is trimmed. */
  lemma {:induction false} TrimLeftLast(s: string)
    ensures TrimLeft(s) != [] ==> TrimLeft(s)[|TrimLeft(s)| - 1] == s[|s| - 1]
    decreases |s|
  {
    if s != [] && IsSpace(s[0]) {
      TrimLeftLast(s[1..]);
    }
  }

  /** What int() makes of the text after a sign: whitespace is skipped, then
      at least one digit and nothing else must follow. */
  function SignedValue(negative: bool, rest: string): (r: Option<int>)
    ensures r.Some? ==> rest != [] && IsDigit(rest[|rest| - 1])
    ensures r.Some? && r.value < 0 ==> negative
  {
    var digits := TrimLeft(rest);
    TrimLeftLast(rest);
    if digits != [] && AllDigits(digits) then
      var magnitude: int := DigitsValue(digits);
      Some(if negative then -magnitude else magnitude)
    else None
  }

  /** int(s) in base 10: surrounding whitespace is dropped, then one optional
      sign, whitespace after the sign is skipped as well, and at least one
      digit follows; anything else raises ValueError (None here). */
  function ParseInt(s: string): (r: Option<int>)
    ensures r.Some? ==> Strip(s) != [] && IsDigit(Strip(s)[|Strip(s)| - 1])
    ensures r.Some? && r.value < 0 ==> Strip(s)[0] == '-'
  {
    var t := Strip(s);
    if t == [] then None
    else if t[0] == '+' || t[0] == '-' then SignedValue(t[0] == '-', t[1..])
    else if AllDigits(t) then Some(DigitsValue(t))
    else None
  }

  lemma {:induction false} DigitsValueOfString(n: nat)
    ensures DigitsValue(NatToString(n)) == n
    decreases n
  {
    if n >= 10 {
      var s := NatToString(n);
      assert s[..|s| - 1] == NatToString(n / 10);
      DigitsValueOfString(n / 10);
    }
  }

  /** int(str(n)) == n */
  lemma ParseIntOfString(n: nat)
    ensures ParseInt(NatToString(n)) == Some(n)
  {
    var s := NatToString(n);
    assert TrimLeft(s) == s;
    assert TrimRight(s) == s;
    DigitsValueOfString(n);
  }

  /** Leading whitespace is dropped up to the first other character. */
  lemma {:induction false} TrimLeftSpaces(pad: string, s: string)
    requires forall i :: 0 <= i < |pad| ==> IsSpace(pad[i])
    requires s == [] || !IsSpace(s[0])
    ensures TrimLeft(pad + s) == s
    decreases |pad|
  {
    if pad == [] {
      assert pad + s == s;
    } else {
      assert (pad + s)[1..] == pad[1..] + s;
      TrimLeftSpaces(pad[1..], s);
    }
  }

  /** Trailing whitespace is dropped back to the last other character. */
  lemma {:induction false} TrimRightSpaces(s: string, pad: string)
    requires forall i :: 0 <= i < |pad| ==> IsSpace(pad[i])
    requires s == [] || !IsSpace(s[|s| - 1])
    ensures TrimRight(s + pad) == s
    decreases |pad|
  {
    if pad == [] {
      assert s + pad == s;
    } else {
      var shorter := pad[..|pad| - 1];
      assert (s + pad)[..|s + pad| - 1] == s + shorter;
      TrimRightSpaces(s, shorter);
    }
  }

  /** s.strip() of a text between two runs of whitespace is that text,
      when it neither starts nor ends with whitespace itself. */
  lemma StripPadded(before: string, s: string, after: string)
    requires forall i :: 0 <= i < |before| ==> IsSpace(before[i])
    requires forall i :: 0 <= i < |after| ==> IsSpace(after[i])
    requires s != [] && !IsSpace(s[0]) && !IsSpace(s[|s| - 1])
    ensures Strip(before + s + after) == s
  {
    assert before + s + after == before + (s + after);
    TrimLeftSpaces(before, s + after);
    TrimRightSpaces(s, after);
  }

  /** int() looks only at the stripped text. */
  lemma ParseIntSameStrip(x: string, y: string)
    requires Strip(x) == Strip(y)
    ensures ParseInt(x) == ParseInt(y)
  {
  }

  /** int() ignores whitespace around the numeral: int(" 9160\n") == 9160. */
  lemma ParseIntPadded(n: nat, before: string, after: string)
    requires forall i :: 0 <= i < |before| ==> IsSpace(before[i])
    requires forall i :: 0 <= i < |after| ==> IsSpace(after[i])
    ensures ParseInt(before + NatToString(n) + after) == Some(n)
  {
    var digits := NatToString(n);
    StripPadded(before, digits, after);
    StripPadded([], digits, []);
    assert [] + digits + [] == digits;
    ParseIntSameStrip(before + digits + after, digits);
    ParseIntOfString(n);
  }

  /** int() reads one leading sign: int("-" + str(n)) == -n and int("+" + str(n)) == n. */
  lemma ParseIntSigned(n: nat)
    ensures ParseInt("-" + NatToString(n)) == Some(-(n as int))
    ensures ParseInt("+" + NatToString(n)) == Some(n)
  {
    var digits := NatToString(n);
    DigitsValueOfString(n);
    assert TrimRight(digits) == digits;
    assert ("-" + digits)[1..] == digits;
    assert ("+" + digits)[1..] == digits;
    assert TrimLeft("-" + digits) == "-" + digits;
    assert TrimRight("-" + digits) == "-" + digits;
    assert TrimLeft("+" + digits) == "+" + digits;
    assert TrimRight("+" + digits) == "+" + digits;
  }

  /** After a sign, a text that does not end in whitespace is read by SignedValue. */
  lemma ParseIntOfSigned(sign: char, rest: string)
    requires sign == '+' || sign == '-'
    requires rest != [] && !IsSpace(rest[|rest| - 1])
    ensures ParseInt([sign] + rest) == SignedValue(sign == '-', rest)
  {
  }

  /** Whitespace before the digits of a signed numeral is skipped. */
  lemma SignedPadded(negative: bool, pad: string, digits: string)
    requires forall i :: 0 <= i < |pad| ==> IsSpace(pad[i])
    requires digits != [] && AllDigits(digits)
    ensures SignedValue(negative, pad + digits) ==
      Some(if negative then -(DigitsValue(digits) as int) else DigitsValue(digits))
  {
    TrimLeftSpaces(pad, digits);
  }

  /** A sign, whitespace, then digits: the whitespace is skipped. */
  lemma ParseSignedPadded(sign: char, pad: string, digits: string)
    requires sign == '+' || sign == '-'
    requires forall i :: 0 <= i < |pad| ==> IsSpace(pad[i])
    requires digits != [] && AllDigits(digits)
    ensures ParseInt([sign] + pad + digits) ==
      Some(if sign == '-' then -(DigitsValue(digits) as int) else DigitsValue(digits))
  {
    assert [sign] + pad + digits == [sign] + (pad + digits);
    assert (pad + digits)[|pad + digits| - 1] == digits[|digits| - 1];
    ParseIntOfSigned(sign, pad + digits);
    SignedPadded(sign == '-', pad, digits);
  }

  /** int() skips whitespace between the sign and the digits: int("- 5") == -5. */
  lemma ParseIntSpaceAfterSign(n: nat, pad: string)
    requires forall i :: 0 <= i < |pad| ==> IsSpace(pad[i])
    ensures ParseInt("-" + pad + NatToString(n)) == Some(-(n as int))
    ensures ParseInt("+" + pad + NatToString(n)) == Some(n)
  {
    ParseSignedPadded('-', pad, NatToString(n));
    ParseSignedPadded('+', pad, NatToString(n));
    DigitsValueOfString(n);
  }

  /** Distinct numbers have distinct decimal texts. */
  lemma NatToStringDistinct(a: nat, b: nat)
    requires a != b
    ensures NatToString(a) != NatToString(b)
  {
    DigitsValueOfString(a);
    DigitsValueOfString(b);
  }
}
