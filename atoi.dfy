/** The C library's `atoi`, which the parser uses for its numeric flags
    (`--maxdatalen`, `--keepalive`, `--will-qos`, `--message-expiry`).

    `atoi` skips leading white space, reads an optional sign and then the
    longest run of decimal digits; anything after that run is ignored, and a
    string with no digits gives 0.  Integers here are unbounded: the
    undefined behaviour of a value outside the range of `int` is not modelled. */
module Numbers {

  predicate IsSpace(c: char) {
    c == ' ' || c == '\t' || c == '\n' || c == '\U{B}' || c == '\U{C}' || c == '\r'
  }

  predicate IsDigit(c: char) {
    '0' <= c <= '9'
  }

  function DigitValue(c: char): (d: nat)
    requires IsDigit(c)
    ensures d < 10
  {
    (c as int) - ('0' as int)
  }

  function DigitChar(d: nat): (c: char)
    requires d < 10
    ensures IsDigit(c) && DigitValue(c) == d
  {
    ('0' as int + d) as char
  }

  /** `s` with its leading white space removed. */
  function SkipSpace(s: string): (t: string)
    ensures |t| <= |s| && t == s[|s| - |t|..]
    ensures t == [] || !IsSpace(t[0])
  {
    if s != [] && IsSpace(s[0]) then SkipSpace(s[1..]) else s
  }

  /** The longest prefix of `s` made of decimal digits. */
  function DigitPrefix(s: string): (p: string)
    ensures p <= s
    ensures forall i :: 0 <= i < |p| ==> IsDigit(p[i])
    ensures p == s || !IsDigit(s[|p|])
  {
    if s != [] && IsDigit(s[0]) then [s[0]] + DigitPrefix(s[1..]) else []
  }

  /** The value of a string of decimal digits, most significant first. */
  function DigitsValue(s: string): (n: nat)
    requires forall i :: 0 <= i < |s| ==> IsDigit(s[i])
  {
    if s == [] then 0 else DigitsValue(s[..|s| - 1]) * 10 + DigitValue(s[|s| - 1])
  }

  function Atoi(s: string): int {
    var t := SkipSpace(s);
    if t != [] && t[0] == '-' then -(DigitsValue(DigitPrefix(t[1..])) as int)
    else if t != [] && t[0] == '+' then DigitsValue(DigitPrefix(t[1..]))
    else DigitsValue(DigitPrefix(t))
  }

  /** The shortest decimal spelling of `n`, as a user types it on the command line. */
  function Decimal(n: nat): (s: string)
    ensures s != [] && forall i :: 0 <= i < |s| ==> IsDigit(s[i])
  {
    if n < 10 then [DigitChar(n)] else Decimal(n / 10) + [DigitChar(n % 10)]
  }

  lemma {:induction false} DigitPrefixOfDigits(s: string)
    requires forall i :: 0 <= i < |s| ==> IsDigit(s[i])
    ensures DigitPrefix(s) == s
  {
    if s != [] {
      DigitPrefixOfDigits(s[1..]);
    }
  }

  lemma {:induction false} DigitsValueDecimal(n: nat)
    ensures DigitsValue(Decimal(n)) == n
  {
    if n >= 10 {
      var s := Decimal(n);
      assert s[..|s| - 1] == Decimal(n / 10);
      DigitsValueDecimal(n / 10);
    }
  }

  /** `atoi` reads back every non-negative number written in decimal. */
  lemma AtoiDecimal(n: nat)
    ensures Atoi(Decimal(n)) == n
  {
    var s := Decimal(n);
    assert SkipSpace(s) == s;
    DigitPrefixOfDigits(s);
    DigitsValueDecimal(n);
  }

  /** A string made of white space only. */
  predicate AllSpace(ws: string) {
    forall i :: 0 <= i < |ws| ==> IsSpace(ws[i])
  }

  /** `atoi` ignores any run of leading white space and whatever follows
      the digits, and a sign after the white space applies to the digit run. */
  lemma AtoiSignedDigits(ws: string, n: nat, suffix: string)
    requires AllSpace(ws)
    requires suffix == [] || !IsDigit(suffix[0])
    ensures Atoi(ws + (['-'] + (Decimal(n) + suffix))) == -(n as int)
    ensures Atoi(ws + (['+'] + (Decimal(n) + suffix))) == n
    ensures Atoi(ws + (Decimal(n) + suffix)) == n
  {
    var rest := Decimal(n) + suffix;
    AtoiDigitRun(n, suffix);
    AtoiSpaceMinus(ws, rest);
    AtoiSpacePlus(ws, rest);
    AtoiSpaceDigits(ws, rest);
  }

  /** After white space and a minus sign, `atoi` negates the digit run. */
  lemma AtoiSpaceMinus(ws: string, rest: string)
    requires AllSpace(ws)
    ensures Atoi(ws + (['-'] + rest)) == -(DigitsValue(DigitPrefix(rest)) as int)
  {
    AtoiSkipsSpace(ws, ['-'] + rest);
    AtoiMinus(rest);
  }

  /** After white space and a plus sign, `atoi` reads the digit run. */
  lemma AtoiSpacePlus(ws: string, rest: string)
    requires AllSpace(ws)
    ensures Atoi(ws + (['+'] + rest)) == DigitsValue(DigitPrefix(rest))
  {
    AtoiSkipsSpace(ws, ['+'] + rest);
    AtoiPlus(rest);
  }

  /** After white space and no sign, `atoi` reads the digit run. */
  lemma AtoiSpaceDigits(ws: string, rest: string)
    requires AllSpace(ws) && rest != [] && IsDigit(rest[0])
    ensures Atoi(ws + rest) == DigitsValue(DigitPrefix(rest))
  {
    AtoiSkipsSpace(ws, rest);
    SkipSpaceStops(rest);
  }

  /** Leading white space does not change what `atoi` reads. */
  lemma AtoiSkipsSpace(ws: string, s: string)
    requires AllSpace(ws)
    ensures Atoi(ws + s) == Atoi(s)
  {
    SkipSpaceAppend(ws, s);
  }

  lemma {:induction false} SkipSpaceAppend(ws: string, s: string)
    requires AllSpace(ws)
    ensures SkipSpace(ws + s) == SkipSpace(s)
  {
    if ws == [] {
      assert ws + s == s;
    } else {
      assert (ws + s)[0] == ws[0];
      assert (ws + s)[1..] == ws[1..] + s;
      SkipSpaceAppend(ws[1..], s);
    }
  }

  /** After a minus sign, `atoi` negates the digit run that follows. */
  lemma AtoiMinus(rest: string)
    ensures Atoi(['-'] + rest) == -(DigitsValue(DigitPrefix(rest)) as int)
  {
    SkipSpaceStops(['-'] + rest);
    assert (['-'] + rest)[1..] == rest;
  }

  /** After a plus sign, `atoi` reads the digit run that follows. */
  lemma AtoiPlus(rest: string)
    ensures Atoi(['+'] + rest) == DigitsValue(DigitPrefix(rest))
  {
    SkipSpaceStops(['+'] + rest);
    assert (['+'] + rest)[1..] == rest;
  }

  lemma AtoiDigitRun(n: nat, suffix: string)
    requires suffix == [] || !IsDigit(suffix[0])
    ensures DigitsValue(DigitPrefix(Decimal(n) + suffix)) == n
  {
    DigitsValueDecimal(n);
    DigitPrefixAppend(Decimal(n), suffix);
  }

  lemma SkipSpaceStops(s: string)
    requires s != [] && !IsSpace(s[0])
    ensures SkipSpace(s) == s
  {
  }

  lemma {:induction false} DigitPrefixAppend(s: string, suffix: string)
    requires forall i :: 0 <= i < |s| ==> IsDigit(s[i])
    requires suffix == [] || !IsDigit(suffix[0])
    ensures DigitPrefix(s + suffix) == s
  {
    if s != [] {
      assert (s + suffix)[1..] == s[1..] + suffix;
      DigitPrefixAppend(s[1..], suffix);
    }
  }
}
