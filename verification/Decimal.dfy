/** `Integer#to_s` and `String#to_i`: how an activity id travels through Thrift and back. */
module Decimal {
  import opened Base

  predicate IsDigit(c: char) { '0' <= c <= '9' }

  function DigitOf(d: nat): char
    requires d < 10
  {
    '0' + d as char
  }

  function Digits(n: nat): (s: string)
    ensures |s| > 0 && forall i :: 0 <= i < |s| ==> IsDigit(s[i])
  {
    if n < 10 then [DigitOf(n)] else Digits(n / 10) + [DigitOf(n % 10)]
  }

  /** `Integer#to_s`. */
  function Print(n: int): string {
    if n < 0 then "-" + Digits(-n) else Digits(n)
  }

  /** The value of a non-empty run of digits. */
  function DigitsValue(s: string): nat {
    if s == [] || !IsDigit(s[|s| - 1]) then 0
    else 10 * DigitsValue(s[..|s| - 1]) + (s[|s| - 1] - '0') as int
  }

  /** The longest prefix made of digits, where a single underscore may separate two of them. */
  function LeadingDigits(s: string): string {
    if s == [] || !IsDigit(s[0]) then []
    else if |s| > 2 && s[1] == '_' && IsDigit(s[2]) then [s[0]] + LeadingDigits(s[2..])
    else [s[0]] + LeadingDigits(s[1..])
  }

  function SkipBlanks(s: string): string {
    if s != [] && (s[0] == ' ' || '\t' <= s[0] <= '\r') then SkipBlanks(s[1..]) else s
  }

  /** `String#to_i`: leading blanks, one sign, digits; zero when there are none. */
  function Parse(s: string): int {
    var t := SkipBlanks(s);
    if t != [] && t[0] == '-' then 0 - DigitsValue(LeadingDigits(t[1..]))
    else if t != [] && t[0] == '+' then DigitsValue(LeadingDigits(t[1..]))
    else DigitsValue(LeadingDigits(t))
  }

  lemma {:induction false} LeadingOfDigits(s: string)
    requires forall i :: 0 <= i < |s| ==> IsDigit(s[i])
    ensures LeadingDigits(s) == s
  {
    if s != [] {
      LeadingOfDigits(s[1..]);
    }
  }

  lemma {:induction false} DigitsRoundTrip(n: nat)
    ensures DigitsValue(Digits(n)) == n
  {
    if n >= 10 {
      DigitsRoundTrip(n / 10);
      var s := Digits(n);
      assert s[..|s| - 1] == Digits(n / 10);
    } else {
      assert Digits(n)[..0] == [];
    }
  }

  /** An integer id survives being sent as a string and read back with `to_i`. */
  lemma ParsePrint(n: int)
    ensures Parse(Print(n)) == n
  {
    var m: nat := if n < 0 then -n else n;
    var s := Digits(m);
    LeadingOfDigits(s);
    DigitsRoundTrip(m);
    assert IsDigit(s[0]);
    if n < 0 {
      assert ("-" + s)[1..] == s;
    }
  }

  /** The identifier as the string a Thrift message carries. */
  function ToWire(id: Ident): string {
    match id
    case IntId(n) => Print(n)
    case StrId(s) => s
  }

  /** What a replay reads back: always a number, because `to_i` is applied to the recorded string. */
  function FromWire(s: string): Ident {
    IntId(Parse(s))
  }

  /** The replayed id equals the original exactly when the original was a number. */
  lemma WireRoundTrip(id: Ident)
    ensures FromWire(ToWire(id)) == id <==> id.IntId?
  {
    if id.IntId? {
      ParsePrint(id.number);
    }
  }
}
