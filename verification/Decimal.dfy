/** Integers as text: what `%d` and `to_string` print, and what `strtol`,
    `atoi` and `stoi` read back. */
module DecimalText {
  import opened ChatTypes

  const INT_MIN := -0x8000_0000
  const INT_MAX := 0x7fff_ffff

  predicate IsDigit(c: char) { '0' <= c <= '9' }

  predicate IsSpace(c: char) {
    c == ' ' || c == '\t' || c == '\n' || c == '\U{000B}' || c == '\U{000C}' || c == '\r'
  }

  function DigitOf(d: nat): char
    requires d < 10
  {
    ('0' as int + d) as char
  }

  function ValueOf(c: char): nat
    requires IsDigit(c)
  {
    c as int - '0' as int
  }

  function PrintNat(n: nat): string {
    if n < 10 then [DigitOf(n)] else PrintNat(n / 10) + [DigitOf(n % 10)]
  }

  function PrintInt(n: int): string {
    if n < 0 then "-" + PrintNat(-n) else PrintNat(n)
  }

  function SkipSpaces(s: string): string {
    if s != [] && IsSpace(s[0]) then SkipSpaces(s[1..]) else s
  }

  /** How many leading characters are digits. */
  function DigitCount(s: string): (n: nat)
    ensures n <= |s| && forall k | 0 <= k < n :: IsDigit(s[k])
    ensures n < |s| ==> !IsDigit(s[n])
  {
    if s != [] && IsDigit(s[0]) then 1 + DigitCount(s[1..]) else 0
  }

  function DigitsValue(s: string): nat
    requires forall c | c in s :: IsDigit(c)
  {
    if s == [] then 0
    else DigitsValue(s[..|s| - 1]) * 10 + ValueOf(s[|s| - 1])
  }

  /** Leading white space, an optional sign, then digits; the rest is ignored. */
  function Strtol(s: string): Option<int> {
    var t := SkipSpaces(s);
    var signed := t != [] && (t[0] == '-' || t[0] == '+');
    var body := if signed then t[1..] else t;
    var n := DigitCount(body);
    var value: int := DigitsValue(body[..n]);
    if n == 0 then None
    else if signed && t[0] == '-' then Some(-value)
    else Some(value)
  }

  function Atoi(s: string): int {
    match Strtol(s)
    case None => 0
    case Some(v) => v
  }

  /** `None` where `stoi` throws: no digits, or outside 32 bits. */
  function Stoi(s: string): Option<int> {
    match Strtol(s)
    case None => None
    case Some(v) => if INT_MIN <= v <= INT_MAX then Some(v) else None
  }

  lemma {:induction false} PrintedNat(n: nat)
    ensures PrintNat(n) != [] && forall c | c in PrintNat(n) :: IsDigit(c)
    ensures DigitsValue(PrintNat(n)) == n
  {
    if n >= 10 {
      PrintedNat(n / 10);
      assert PrintNat(n)[..|PrintNat(n)| - 1] == PrintNat(n / 10);
    }
  }

  lemma {:induction false} DigitsThenRest(digits: string, rest: string)
    requires forall c | c in digits :: IsDigit(c)
    requires rest != [] ==> !IsDigit(rest[0])
    ensures DigitCount(digits + rest) == |digits|
  {
    if digits == [] {
      assert digits + rest == rest;
    } else {
      assert (digits + rest)[1..] == digits[1..] + rest;
      DigitsThenRest(digits[1..], rest);
    }
  }

  lemma UnsignedReadsBack(digits: string, rest: string)
    requires digits != [] && forall c | c in digits :: IsDigit(c)
    requires rest != [] ==> !IsDigit(rest[0])
    ensures var value: int := DigitsValue(digits); Strtol(digits + rest) == Some(value)
  {
    var s := digits + rest;
    DigitsThenRest(digits, rest);
    assert s[0] == digits[0] && IsDigit(digits[0]);
    assert SkipSpaces(s) == s && s[..|digits|] == digits;
  }

  lemma NegativeReadsBack(digits: string, rest: string)
    requires digits != [] && forall c | c in digits :: IsDigit(c)
    requires rest != [] ==> !IsDigit(rest[0])
    ensures var value: int := DigitsValue(digits); Strtol(['-'] + (digits + rest)) == Some(-value)
  {
    var s, t := digits + rest, ['-'] + (digits + rest);
    DigitsThenRest(digits, rest);
    assert s[..|digits|] == digits;
    MinusThenDigits(t, s, digits);
  }

  lemma MinusThenDigits(t: string, s: string, digits: string)
    requires t == ['-'] + s && digits != [] && (forall c | c in digits :: IsDigit(c))
    requires DigitCount(s) == |digits| && s[..|digits|] == digits
    ensures var value: int := DigitsValue(digits); Strtol(t) == Some(-value)
  {
    assert t[0] == '-' && t[1..] == s;
    assert SkipSpaces(t) == t;
  }

  lemma PrintedNegative(n: int, rest: string)
    requires n < 0
    ensures PrintInt(n) + rest == ['-'] + (PrintNat(-n) + rest)
  {
  }

  lemma NegativeIntReadsBack(n: int, rest: string)
    requires n < 0 && (rest != [] ==> !IsDigit(rest[0]))
    ensures Strtol(['-'] + (PrintNat(-n) + rest)) == Some(n)
  {
    PrintedNat(-n);
    NegativeReadsBack(PrintNat(-n), rest);
  }

  lemma UnsignedIntReadsBack(n: nat, rest: string)
    requires rest != [] ==> !IsDigit(rest[0])
    ensures Strtol(PrintNat(n) + rest) == Some(n)
  {
    PrintedNat(n);
    UnsignedReadsBack(PrintNat(n), rest);
  }

  /** Reading back a printed integer gives it again, whatever non-digit text follows. */
  lemma PrintedIntReadsBack(n: int, rest: string)
    requires rest != [] ==> !IsDigit(rest[0])
    ensures Strtol(PrintInt(n) + rest) == Some(n)
  {
    if n < 0 {
      PrintedNegative(n, rest);
      NegativeIntReadsBack(n, rest);
    } else {
      assert PrintInt(n) == PrintNat(n);
      UnsignedIntReadsBack(n, rest);
    }
  }

  /** The channel `publish` prints with `%d` is the integer `atoi` reads in
      the notify loop, and `stoi` accepts it exactly when it fits 32 bits. */
  lemma PrintedChannelReadsBack(n: int)
    ensures Atoi(PrintInt(n)) == n
    ensures Stoi(PrintInt(n)) == if INT_MIN <= n <= INT_MAX then Some(n) else None
  {
    PrintedIntReadsBack(n, []);
    assert PrintInt(n) + [] == PrintInt(n);
  }

  lemma PrintedIntHasNoColon(n: int)
    ensures ':' !in PrintInt(n) && PrintInt(n) != []
  {
    PrintedNat(if n < 0 then -n else n);
  }
}
