/** Decimal numerals, as the program prints them. */
module Decimal {
  predicate IsDigit(c: char) {
    '0' <= c <= '9'
  }

  predicate AllDigits(s: string) {
    forall i :: 0 <= i < |s| ==> IsDigit(s[i])
  }

  function Digit(n: nat): char
    requires n < 10
  {
    '0' + n as char
  }

  /** %d */
  function Digits(n: nat): (s: string)
    ensures s != [] && AllDigits(s)
  {
    if n < 10 then [Digit(n)] else Digits(n / 10) + [Digit(n % 10)]
  }

  /** The number a numeral stands for. */
  function Value(s: string): nat
    requires AllDigits(s)
  {
    if s == [] then 0 else 10 * Value(s[..|s| - 1]) + (s[|s| - 1] as nat - '0' as nat)
  }

  lemma {:induction false} ValueOfDigits(n: nat)
    ensures Value(Digits(n)) == n
  {
    if n >= 10 {
      ValueOfDigits(n / 10);
      assert Digits(n)[..|Digits(n)| - 1] == Digits(n / 10);
    } else {
      assert Digits(n)[..0] == [];
    }
  }

  lemma DigitsInjective(a: nat, b: nat)
    requires Digits(a) == Digits(b)
    ensures a == b
  {
    ValueOfDigits(a);
    ValueOfDigits(b);
  }

  function Zeros(n: nat): (s: string)
    ensures |s| == n && AllDigits(s)
  {
    seq(n, i => '0')
  }

  /** %0wd */
  function Padded(n: nat, width: nat): (s: string)
    ensures |s| >= width && AllDigits(s)
  {
    var s := Digits(n);
    if |s| >= width then s else Zeros(width - |s|) + s
  }

  lemma {:induction false} LeadingZeros(zeros: nat, s: string)
    requires AllDigits(s)
    ensures Value(Zeros(zeros) + s) == Value(s)
  {
    var all := Zeros(zeros) + s;
    if s != [] {
      var front := s[..|s| - 1];
      LeadingZeros(zeros, front);
      assert all[..|all| - 1] == Zeros(zeros) + front;
    } else {
      assert all == Zeros(zeros);
      if zeros > 0 {
        LeadingZeros(zeros - 1, s);
        assert all[..zeros - 1] == Zeros(zeros - 1) + s;
      }
    }
  }

  lemma ValueOfPadded(n: nat, width: nat)
    ensures Value(Padded(n, width)) == n
  {
    ValueOfDigits(n);
    if |Digits(n)| < width {
      LeadingZeros(width - |Digits(n)|, Digits(n));
    }
  }

  /** A number below 10^w has at most w digits, so its padded numeral is exactly w long. */
  lemma PaddedLength(n: nat)
    ensures n < 100 ==> |Padded(n, 2)| == 2
    ensures n < 1000 ==> |Padded(n, 3)| == 3
  {
    if 10 <= n < 1000 {
      assert Digits(n) == Digits(n / 10) + [Digit(n % 10)];
      if n >= 100 {
        assert Digits(n / 10) == Digits(n / 10 / 10) + [Digit(n / 10 % 10)];
      }
    }
  }
}
