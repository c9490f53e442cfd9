/** Decimal numerals: padded to a width, or as short as they can be. */
module Decimals {

  function Pow10(n: nat): nat {
    if n == 0 then 1 else 10 * Pow10(n - 1)
  }

  function Digit(d: nat): char
    requires d < 10
  {
    '0' + (d as char)
  }

  /** The last `len` decimal digits of n, with leading zeros. */
  function Padded(n: nat, len: nat): string {
    if len == 0 then "" else Padded(n / 10, len - 1) + [Digit(n % 10)]
  }

  /** The number a string of digits denotes. */
  function ValueOf(s: string): int {
    if s == "" then 0 else 10 * ValueOf(s[..|s| - 1]) + (s[|s| - 1] as int - '0' as int)
  }

  /** Padded(n, len) is the len-digit decimal of n modulo ten to the len. */
  lemma {:induction false} PaddedIsDecimal(n: nat, len: nat)
    ensures |Padded(n, len)| == len
    ensures forall i :: 0 <= i < len ==> '0' <= Padded(n, len)[i] <= '9'
    ensures Pow10(len) > 0 && ValueOf(Padded(n, len)) == n % Pow10(len)
  {
    if len > 0 {
      PaddedIsDecimal(n / 10, len - 1);
      var s := Padded(n, len);
      assert s[..len - 1] == Padded(n / 10, len - 1);
      ModTimesTen(n, Pow10(len - 1));
    }
  }

  lemma ModTimesTen(n: nat, m: nat)
    requires m > 0
    ensures n % (10 * m) == 10 * (n / 10 % m) + n % 10
  {
    var q, r := n / 10 / m, n / 10 % m;
    assert n / 10 == q * m + r;
    assert n == (10 * m) * q + (10 * r + n % 10) by {
      assert 10 * (q * m) == (10 * m) * q;
    }
    assert 0 <= 10 * r + n % 10 < 10 * m;
    QuotientIsUnique(n, 10 * m, q, 10 * r + n % 10);
  }

  lemma MultipleIsAtLeast(d: int, k: int)
    requires d > 0 && k >= 1
    ensures d * k >= d
    decreases k
  {
    if k > 1 {
      MultipleIsAtLeast(d, k - 1);
      assert d * k == d * (k - 1) + d;
    }
  }

  lemma SameRemainder(d: int, q: int, r: int, q': int, r': int)
    requires d * q + r == d * q' + r'
    requires 0 <= r < d && 0 <= r' < d
    ensures r == r'
  {
    assert d * (q - q') == d * q - d * q' && d * (q' - q) == d * q' - d * q;
    if q > q' {
      MultipleIsAtLeast(d, q - q');
    }
    if q < q' {
      MultipleIsAtLeast(d, q' - q);
    }
  }

  lemma QuotientIsUnique(n: int, d: int, q: int, r: int)
    requires d > 0 && n == d * q + r && 0 <= r < d
    ensures n % d == r
  {
    assert n == d * (n / d) + n % d && 0 <= n % d < d;
    SameRemainder(d, q, r, n / d, n % d);
  }

  /** The numeral without leading zeros, as std::to_string writes it. */
  function Digits(n: nat): string {
    if n < 10 then [Digit(n)] else Digits(n / 10) + [Digit(n % 10)]
  }

  lemma {:induction false} DigitsDenote(n: nat)
    ensures ValueOf(Digits(n)) == n
  {
    var s := Digits(n);
    if n < 10 {
      assert s[..0] == "";
    } else {
      DigitsDenote(n / 10);
      assert s[..|s| - 1] == Digits(n / 10);
    }
  }

  /** It has no leading zero, except that zero is written as one. */
  lemma {:induction false} DigitsAreShort(n: nat)
    ensures Digits(n) != "" && (Digits(n)[0] == '0' ==> n == 0)
    ensures n == 0 ==> Digits(n) == "0"
    ensures forall c <- Digits(n) :: '0' <= c <= '9'
  {
    if n >= 10 {
      DigitsAreShort(n / 10);
    }
  }

  /** The ten digits, and what a digit more means. */
  lemma DigitsAreTheTen(d: nat, s: string, c: char)
    ensures d < 10 ==> Digits(d) == ["0123456789"[d]] && ValueOf(["0123456789"[d]]) == d
    ensures ValueOf(s + [c]) == 10 * ValueOf(s) + ValueOf([c])
  {
    assert (s + [c])[..|s|] == s;
    assert [c][..0] == "";
    if d < 10 {
      assert ["0123456789"[d]][..0] == "";
    }
  }
}
