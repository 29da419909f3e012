/** strconv.FormatInt and strconv.ParseInt in base ten. */
module Decimal {
  import opened Options

  const MIN_INT64: int := -0x8000_0000_0000_0000
  const MAX_INT64: int := 0x7fff_ffff_ffff_ffff

  predicate IsDigit(c: char) { '0' <= c <= '9' }

  predicate AllDigits(s: string) { forall i :: 0 <= i < |s| ==> IsDigit(s[i]) }

  function DigitOf(n: nat): char
    requires n < 10
  {
    '0' + n as char
  }

  function ValueOf(c: char): nat
    requires IsDigit(c)
  {
    (c - '0') as nat
  }

  function Digits(n: nat): (s: string)
    ensures s != "" && AllDigits(s) && (s[0] == '0' ==> n == 0 && s == "0")
  {
    if n < 10 then [DigitOf(n)] else Digits(n / 10) + [DigitOf(n % 10)]
  }

  function FromDigits(s: string): (n: int)
    requires AllDigits(s)
    ensures n >= 0
  {
    if s == "" then 0 else 10 * FromDigits(s[..|s| - 1]) + ValueOf(s[|s| - 1])
  }

  lemma {:induction false} FromDigitsOfDigits(n: nat)
    ensures FromDigits(Digits(n)) == n
  {
    if n < 10 {
      assert Digits(n)[..0] == "";
    } else {
      FromDigitsOfDigits(n / 10);
      assert Digits(n)[..|Digits(n)| - 1] == Digits(n / 10);
    }
  }

  lemma {:induction false} NonzeroDigits(s: string)
    requires AllDigits(s) && s != "" && s[0] != '0'
    ensures FromDigits(s) > 0
    decreases |s|
  {
    if |s| > 1 { NonzeroDigits(s[..|s| - 1]); } else { assert s[..0] == ""; }
  }

  lemma AppendDigit(n: nat, c: char)
    requires n > 0 && IsDigit(c)
    ensures Digits(10 * n + ValueOf(c)) == Digits(n) + [c]
  {
    assert (10 * n + ValueOf(c)) / 10 == n && (10 * n + ValueOf(c)) % 10 == ValueOf(c);
  }

  lemma {:induction false} DigitsOfFromDigits(s: string)
    requires AllDigits(s) && s != "" && (s[0] == '0' ==> s == "0")
    ensures Digits(FromDigits(s)) == s
    decreases |s|
  {
    var front, last := s[..|s| - 1], s[|s| - 1];
    assert s == front + [last];
    if |s| > 1 {
      DigitsOfFromDigits(front);
      NonzeroDigits(front);
      AppendDigit(FromDigits(front), last);
    } else {
      assert front == "" && FromDigits(front) == 0;
    }
  }

  function IntText(n: int): string {
    if n < 0 then "-" + Digits(-n) else Digits(n)
  }

  function ParseInt64(s: string): Option<int> {
    var negative := s != "" && s[0] == '-';
    var body := if s != "" && (s[0] == '-' || s[0] == '+') then s[1..] else s;
    if body == "" || !AllDigits(body) then None else
    var n := if negative then -FromDigits(body) else FromDigits(body);
    if MIN_INT64 <= n <= MAX_INT64 then Some(n) else None
  }

  lemma DigitsHaveNoSign(digits: string)
    requires AllDigits(digits)
    ensures ParseInt64(digits) == if digits != "" && FromDigits(digits) <= MAX_INT64 then Some(FromDigits(digits)) else None
  {
    if digits != "" { assert IsDigit(digits[0]); }
  }

  lemma NegativeDigits(digits: string)
    requires AllDigits(digits) && digits != "" && -FromDigits(digits) >= MIN_INT64
    ensures ParseInt64("-" + digits) == Some(-FromDigits(digits))
  {
    assert ("-" + digits)[1..] == digits;
  }

  lemma ParseIntOfIntText(n: int)
    requires MIN_INT64 <= n <= MAX_INT64
    ensures ParseInt64(IntText(n)) == Some(n)
  {
    if n < 0 {
      FromDigitsOfDigits(-n);
      NegativeDigits(Digits(-n));
    } else {
      FromDigitsOfDigits(n);
      DigitsHaveNoSign(Digits(n));
    }
  }
}
