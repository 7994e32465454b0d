/** Numbers as digits: zero padded to a width, or in plain decimal with a sign. */
module Digits {
  import opened Wrappers

  predicate IsDigit(c: char) { '0' <= c <= '9' }

  function Digit(n: int): (c: char)
    requires 0 <= n < 10
    ensures IsDigit(c) && DigitValue(c) == n
  {
    '0' + n as char
  }

  function DigitValue(c: char): (n: int)
    requires IsDigit(c)
    ensures 0 <= n < 10
  {
    c as int - '0' as int
  }

  function Pow10(w: nat): (p: int)
    ensures p >= 1
  {
    if w == 0 then 1 else 10 * Pow10(w - 1)
  }

  /** `n` in exactly `w` digits, zero padded. */
  function Padded(n: int, w: nat): (s: string)
    requires 0 <= n < Pow10(w)
    ensures |s| == w && AllDigits(s)
  {
    if w == 0 then "" else Padded(n / 10, w - 1) + [Digit(n % 10)]
  }

  predicate AllDigits(s: string) {
    forall i :: 0 <= i < |s| ==> IsDigit(s[i])
  }

  function Number(s: string): (n: int)
    requires AllDigits(s)
    ensures 0 <= n < Pow10(|s|)
  {
    if s == "" then 0 else 10 * Number(s[..|s| - 1]) + DigitValue(s[|s| - 1])
  }

  lemma {:induction false} NumberOfPadded(n: int, w: nat)
    requires 0 <= n < Pow10(w)
    ensures Number(Padded(n, w)) == n
  {
    if w > 0 {
      NumberOfPadded(n / 10, w - 1);
      assert Padded(n, w)[..w - 1] == Padded(n / 10, w - 1);
    }
  }

  lemma {:induction false} PaddedOfNumber(s: string)
    requires AllDigits(s)
    ensures Padded(Number(s), |s|) == s
  {
    if s != "" {
      PaddedOfNumber(s[..|s| - 1]);
      assert s == s[..|s| - 1] + [s[|s| - 1]];
    }
  }

  // ----- plain decimal -----

  /** `n` in decimal, without leading zeros. */
  function Decimal(n: nat): (s: string)
    ensures s != "" && AllDigits(s)
  {
    if n < 10 then [Digit(n)] else Decimal(n / 10) + [Digit(n % 10)]
  }

  lemma {:induction false} NumberOfDecimal(n: nat)
    ensures Number(Decimal(n)) == n
    decreases n
  {
    var s := Decimal(n);
    if n >= 10 {
      NumberOfDecimal(n / 10);
      assert s[..|s| - 1] == Decimal(n / 10);
    } else {
      assert s[..0] == "";
    }
  }

  /** Digits without a leading zero are the decimal spelling of their number. */
  lemma {:induction false} DecimalOfNumber(s: string)
    requires s != "" && AllDigits(s) && (|s| > 1 ==> s[0] != '0')
    ensures Decimal(Number(s)) == s
    ensures |s| > 1 ==> Number(s) >= 10
    decreases |s|
  {
    var front, last := s[..|s| - 1], DigitValue(s[|s| - 1]);
    assert s == front + [s[|s| - 1]] && Number(s) == 10 * Number(front) + last;
    assert Digit(last) == s[|s| - 1];
    if |s| > 1 {
      DecimalOfNumber(front);
      assert Number(front) >= 1;
      assert Number(s) / 10 == Number(front) && Number(s) % 10 == last;
    } else {
      assert front == "";
    }
  }

  /** `i64::to_string`. */
  function Signed(n: int): string {
    if n < 0 then "-" + Decimal(-n) else Decimal(n)
  }

  /** No plus sign, no leading zero, and a minus sign exactly before negative numbers: the only spelling. */
  lemma {:induction false} DecimalHasNoLeadingZero(n: nat)
    ensures n >= 10 ==> Decimal(n)[0] != '0'
    decreases n
  {
    if n >= 10 {
      DecimalHasNoLeadingZero(n / 10);
      assert Decimal(n)[0] == Decimal(n / 10)[0];
      if n / 10 < 10 {
        assert Decimal(n / 10)[0] == Digit(n / 10);
        assert DigitValue(Digit(n / 10)) == n / 10 != 0;
      }
    }
  }

  lemma SignedIsCanonical(n: int)
    ensures n < 0 <==> Signed(n)[0] == '-'
    ensures var digits := if n < 0 then Signed(n)[1..] else Signed(n);
            AllDigits(digits) && digits != "" && (|digits| > 1 ==> digits[0] != '0')
  {
    DecimalHasNoLeadingZero(if n < 0 then -n else n);
    if n < 0 {
      assert Signed(n)[1..] == Decimal(-n);
    } else {
      assert IsDigit(Decimal(n)[0]);
    }
  }

  /** `str::parse`: an optional sign and at least one digit. */
  function ParseSigned(s: string): Option<int> {
    var signed := s != "" && (s[0] == '-' || s[0] == '+');
    var body := if signed then s[1..] else s;
    if body == "" || !AllDigits(body) then None
    else Some(if signed && s[0] == '-' then -Number(body) else Number(body))
  }

  /** What the formatter never writes: a plus sign is read, a sign by itself is not a number. */
  lemma OtherSpellings(n: nat)
    ensures ParseSigned("+" + Decimal(n)) == Some(n)
    ensures ParseSigned("") == ParseSigned("+") == ParseSigned("-") == None
  {
    NumberOfDecimal(n);
    assert ("+" + Decimal(n))[1..] == Decimal(n);
  }

  lemma SignedRoundTrip(n: int)
    ensures ParseSigned(Signed(n)) == Some(n)
  {
    NumberOfDecimal(if n < 0 then -n else n);
    if n < 0 {
      assert Signed(n)[1..] == Decimal(-n);
    } else {
      assert IsDigit(Decimal(n)[0]);
    }
  }
}
