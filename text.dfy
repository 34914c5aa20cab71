/** Character and number-text helpers used by the three argument parsers: ASCII upper-casing,
    reading a C string one character at a time, decimal digits, and the C library's `atoi`
    (section 7.22.1.2 of ISO/IEC 9899:2011, which defines it through `strtol`, section 7.22.1.4). */
module Text {

  datatype Option<T> = None | Some(value: T)

  /** Upper-casing of `toupper` in the "C" locale, and of `Char.ToUpper` on ASCII letters. */
  function ToUpper(c: char): (u: char)
    ensures 'a' <= c <= 'z' ==> 'A' <= u <= 'Z' && u as int == c as int - 32
    ensures !('a' <= c <= 'z') ==> u == c
  {
    if 'a' <= c <= 'z' then (c as int - 32) as char else c
  }

  /** `s[i]` of a NUL-terminated C string: the terminator, NUL, at and past the end. */
  function At(s: string, i: nat): char
  {
    if i < |s| then s[i] else 0 as char
  }

  predicate IsDigit(c: char)
  {
    '0' <= c <= '9'
  }

  /** `isspace` in the "C" locale; the same six characters are the white space that
      .NET's integer parsing skips. */
  predicate IsSpace(c: char)
  {
    c == ' ' || c == '\t' || c == '\n' || c == '\r' || c == 0x0B as char || c == 0x0C as char
  }

  predicate AllDigits(s: string)
  {
    forall i :: 0 <= i < |s| ==> IsDigit(s[i])
  }

  predicate AllSpaces(s: string)
  {
    forall i :: 0 <= i < |s| ==> IsSpace(s[i])
  }

  /** The number a string of decimal digits spells, most significant digit first. */
  function DigitsValue(ds: string): nat
    requires AllDigits(ds)
  {
    if ds == [] then 0
    else DigitsValue(ds[..|ds| - 1]) * 10 + (ds[|ds| - 1] as int - '0' as int)
  }

  /** Length of the run of digits at the start of `s`. */
  function DigitRun(s: string): (n: nat)
    ensures n <= |s| && AllDigits(s[..n])
    ensures n < |s| ==> !IsDigit(s[n])
  {
    if s != [] && IsDigit(s[0]) then 1 + DigitRun(s[1..]) else 0
  }

  /** Length of the run of white space at the start of `s`. */
  function SpaceRun(s: string): (n: nat)
    ensures n <= |s| && AllSpaces(s[..n])
    ensures n < |s| ==> !IsSpace(s[n])
  {
    if s != [] && IsSpace(s[0]) then 1 + SpaceRun(s[1..]) else 0
  }

  /** `s` without its leading white space. */
  function SkipSpaces(s: string): (t: string)
    ensures |t| <= |s| && t == s[|s| - |t|..]
    ensures t == [] || !IsSpace(t[0])
    ensures AllSpaces(s[..|s| - |t|])
  {
    s[SpaceRun(s)..]
  }

  /** `s` without its trailing white space. */
  function TrimEnd(s: string): (t: string)
    ensures |t| <= |s| && t == s[..|t|]
    ensures t == [] || !IsSpace(t[|t| - 1])
    ensures forall i :: |t| <= i < |s| ==> IsSpace(s[i])
  {
    if s != [] && IsSpace(s[|s| - 1]) then TrimEnd(s[..|s| - 1]) else s
  }

  lemma SkipSpacesNone(s: string)
    requires s == [] || !IsSpace(s[0])
    ensures SkipSpaces(s) == s
  {
  }

  lemma TrimEndNone(s: string)
    requires s == [] || !IsSpace(s[|s| - 1])
    ensures TrimEnd(s) == s
  {
  }

  /** `atoi`: leading white space skipped, an optional sign, then the value of the longest run
      of digits; 0 when there are no digits. */
  function Atoi(s: string): (n: int)
    ensures n < 0 ==> SkipSpaces(s) != [] && SkipSpaces(s)[0] == '-'
    ensures n != 0 ==> exists i :: 0 <= i < |s| && IsDigit(s[i])
  {
    SignedAtoi(SkipSpaces(s))
  }

  /** `atoi` on the text after the leading white space. */
  function SignedAtoi(t: string): int
  {
    if t != [] && (t[0] == '-' || t[0] == '+') then
      var n: int := DigitsValue(t[1..][..DigitRun(t[1..])]);
      if t[0] == '-' then -n else n
    else
      DigitsValue(t[..DigitRun(t)])
  }

  /** The decimal spelling of `n`, without leading zeros. */
  function Decimal(n: nat): (s: string)
    ensures |s| >= 1 && AllDigits(s)
    ensures |s| > 1 ==> s[0] != '0'
  {
    if n < 10 then [('0' as int + n) as char]
    else Decimal(n / 10) + [('0' as int + n % 10) as char]
  }

  /** Reading a decimal spelling back gives the number. */
  lemma {:induction false} DecimalRoundTrip(n: nat)
    ensures DigitsValue(Decimal(n)) == n
  {
    if n >= 10 {
      DecimalRoundTrip(n / 10);
      var s := Decimal(n);
      assert s[..|s| - 1] == Decimal(n / 10);
    }
  }

  /** The digit run stops exactly at the end of a digit string followed by a non-digit. */
  lemma {:induction false} DigitRunOf(ds: string, rest: string)
    requires AllDigits(ds)
    requires rest == [] || !IsDigit(rest[0])
    ensures DigitRun(ds + rest) == |ds|
  {
    if ds != [] {
      assert (ds + rest)[1..] == ds[1..] + rest;
      DigitRunOf(ds[1..], rest);
    } else {
      assert ds + rest == rest;
    }
  }

  /** `atoi` of a decimal number followed by anything that is not a digit is that number. */
  lemma AtoiOfDecimal(n: nat, rest: string)
    requires rest == [] || !IsDigit(rest[0])
    ensures Atoi(Decimal(n) + rest) == n
  {
    var s := Decimal(n);
    DecimalRoundTrip(n);
    DigitRunOf(s, rest);
    assert (s + rest)[..|s|] == s;
    SkipSpacesNone(s + rest);
    assert Atoi(s + rest) == SignedAtoi(s + rest);
  }

  /** The same with a minus sign in front: the number, negated. */
  lemma AtoiOfNegativeDecimal(n: nat, rest: string)
    requires rest == [] || !IsDigit(rest[0])
    ensures Atoi("-" + Decimal(n) + rest) == -(n as int)
  {
    var s := Decimal(n);
    DecimalRoundTrip(n);
    DigitRunOf(s, rest);
    assert (s + rest)[..|s|] == s;
    var m := "-" + s + rest;
    assert m[0] == '-';
    SkipSpacesNone(m);
    assert Atoi(m) == SignedAtoi(m);
    assert m[1..] == s + rest;
  }

  /** `atoi` of a text that has no digit after its white space and optional sign is 0. */
  lemma AtoiNoDigits(s: string)
    requires var t := SkipSpaces(s);
      t == [] || (!IsDigit(t[0]) && t[0] != '-' && t[0] != '+') ||
      ((t[0] == '-' || t[0] == '+') && (|t| == 1 || !IsDigit(t[1])))
    ensures Atoi(s) == 0
  {
  }

  /** The first position of `c` in `s`, or -1: `String.IndexOf(char)`, and `strchr` as an index. */
  function IndexOf(s: string, c: char): (k: int)
    ensures -1 <= k < |s|
    ensures k == -1 <==> c !in s
    ensures k >= 0 ==> s[k] == c && c !in s[..k]
  {
    if s == [] then -1
    else if s[0] == c then 0
    else
      var k := IndexOf(s[1..], c);
      assert k >= 0 ==> s[1..][..k] == s[1..k + 1];
      if k == -1 then -1 else k + 1
  }

  /** The first occurrence is found however the text goes on. */
  lemma {:induction false} IndexOfFirst(prefix: string, c: char, rest: string)
    requires c !in prefix
    ensures IndexOf(prefix + [c] + rest, c) == |prefix|
  {
    if prefix != [] {
      assert (prefix + [c] + rest)[1..] == prefix[1..] + [c] + rest;
      IndexOfFirst(prefix[1..], c, rest);
    }
  }
}
