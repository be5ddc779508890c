// Decimal text: std::to_string / operator<< on one side, std::stoull and
// std::stoi on the other.
module Decimal {
  import opened Bytes

  function DigitChar(d: nat): char
    requires d < 10
  {
    ('0' as int + d) as char
  }

  predicate IsDigit(c: char) {
    '0' <= c <= '9'
  }

  function DigitValue(c: char): (d: nat)
    requires IsDigit(c)
    ensures d < 10
  {
    c as int - '0' as int
  }

  function Print(n: nat): (s: string)
    ensures s != []
  {
    if n < 10 then [DigitChar(n)] else Print(n / 10) + [DigitChar(n % 10)]
  }

  predicate AllDigits(s: string) {
    forall i :: 0 <= i < |s| ==> IsDigit(s[i])
  }

  function Value(s: string): nat
    requires AllDigits(s)
  {
    if s == [] then 0 else Value(s[..|s| - 1]) * 10 + DigitValue(s[|s| - 1])
  }

  lemma {:induction false} PrintedValue(n: nat)
    ensures AllDigits(Print(n)) && Value(Print(n)) == n
  {
    if n < 10 {
      assert Print(n)[..0] == [];
    } else {
      PrintedValue(n / 10);
      assert Print(n)[..|Print(n)| - 1] == Print(n / 10);
    }
  }

  predicate IsSpace(c: char) {
    c == ' ' || 9 <= c as int <= 13
  }

  function SkipSpaces(s: string): string {
    if s != [] && IsSpace(s[0]) then SkipSpaces(s[1..]) else s
  }

  function LeadingDigits(s: string): (d: string)
    ensures AllDigits(d)
  {
    if s != [] && IsDigit(s[0]) then [s[0]] + LeadingDigits(s[1..]) else []
  }

  datatype Magnitude = Magnitude(negative: bool, digits: string)

  // The part of the text that strtoull and strtol convert.
  function Scan(s: string): (m: Magnitude)
    ensures AllDigits(m.digits)
  {
    var t := SkipSpaces(s);
    if t != [] && (t[0] == '-' || t[0] == '+') then Magnitude(t[0] == '-', LeadingDigits(t[1..]))
    else Magnitude(false, LeadingDigits(t))
  }

  // None stands for the exceptions invalid_argument and out_of_range.
  function Stoull(s: string): Option<u64> {
    var m := Scan(s);
    if m.digits == [] || Value(m.digits) >= TWO64 then None
    else if m.negative then Some((TWO64 - Value(m.digits)) % TWO64)
    else Some(Value(m.digits))
  }

  function Stoi(s: string): Option<int> {
    var m := Scan(s);
    if m.digits == [] then None
    else
      var v: int := if m.negative then 0 - Value(m.digits) else Value(m.digits);
      if -0x8000_0000 <= v < 0x8000_0000 then Some(v) else None
  }

  lemma {:induction false} DigitsScanWhole(s: string)
    requires AllDigits(s)
    ensures LeadingDigits(s) == s
  {
    if s != [] {
      DigitsScanWhole(s[1..]);
      assert s == [s[0]] + s[1..];
    }
  }

  // Reading back what was printed gives the number, for every number of the width.
  lemma StoullPrint(n: u64)
    ensures Stoull(Print(n)) == Some(n)
  {
    PrintedValue(n);
    DigitsScanWhole(Print(n));
  }

  lemma StoiPrint(n: nat)
    requires n < 0x8000_0000
    ensures Stoi(Print(n)) == Some(n)
  {
    PrintedValue(n);
    DigitsScanWhole(Print(n));
  }
}
