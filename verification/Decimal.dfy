/** Decimal printing and parsing of signed 64-bit integers (strconv.Itoa and strconv.ParseInt). */
module Decimal {
  import opened Protocol

  function Digit(d: nat): char
    requires d < 10
  {
    '0' + d as char
  }

  predicate IsDigit(c: char) { '0' <= c <= '9' }

  function Digits(n: nat): (s: string)
    ensures s != [] && forall i :: 0 <= i < |s| ==> IsDigit(s[i])
  {
    if n < 10 then [Digit(n)] else Digits(n / 10) + [Digit(n % 10)]
  }

  function Itoa(n: int): string {
    if n < 0 then "-" + Digits(-n) else Digits(n)
  }

  predicate AllDigits(s: string) { forall i :: 0 <= i < |s| ==> IsDigit(s[i]) }

  function Value(s: string): nat
    requires AllDigits(s)
  {
    if s == [] then 0 else Value(s[..|s| - 1]) * 10 + (s[|s| - 1] as int - '0' as int)
  }

  /** An optional sign, at least one digit, and a value in the int64 range. */
  function ParseInt(s: string): Option<int> {
    var negative := s != [] && s[0] == '-';
    var body := if s != [] && (s[0] == '-' || s[0] == '+') then s[1..] else s;
    if body == [] || !AllDigits(body) then None
    else
      var n: int := if negative then -(Value(body) as int) else Value(body);
      if -INT64 <= n < INT64 then Some(n) else None
  }

  lemma {:induction false} ValueOfDigits(n: nat)
    ensures Value(Digits(n)) == n
  {
    if n >= 10 {
      ValueOfDigits(n / 10);
      assert Digits(n)[..|Digits(n)| - 1] == Digits(n / 10);
    }
  }

  /** Parsing what was printed gives the number back. */
  lemma ParseOfItoa(n: int)
    requires -INT64 <= n < INT64
    ensures ParseInt(Itoa(n)) == Some(n)
  {
    hide Digits;
    hide Value;
    var d := Digits(if n < 0 then -n else n);
    ValueOfDigits(if n < 0 then -n else n);
    assert IsDigit(d[0]);
    if n < 0 {
      assert Itoa(n)[0] == '-' && Itoa(n)[1..] == d;
    }
  }

  /** Hence printing is injective on 64-bit integers. */
  lemma ItoaInjective(a: int, b: int)
    requires -INT64 <= a < INT64 && -INT64 <= b < INT64
    requires Itoa(a) == Itoa(b)
    ensures a == b
  {
    ParseOfItoa(a);
    ParseOfItoa(b);
  }

  /** A sign is optional, and a plus sign means nothing. */
  lemma SignsRead(d: string)
    requires d != [] && AllDigits(d)
    ensures ParseInt(d) == (if Value(d) < INT64 then Some(Value(d) as int) else None)
    ensures ParseInt("+" + d) == ParseInt(d)
    ensures ParseInt("-" + d) == if Value(d) <= INT64 then Some(-(Value(d) as int)) else None
  {
    hide Value;
    assert IsDigit(d[0]);
    assert ("+" + d)[1..] == d && ("-" + d)[1..] == d;
  }
}
