/** Money amounts. The billing provider sends amounts in minor units (cents);
    the plan registry stores them as PHP's `number_format($amount, 2, '.', '')`
    prints them: a fixed two-decimal string, `.` as separator, no thousands
    separator. */
module Money {
  import opened Optional

  predicate IsDigit(c: char) {
    '0' <= c <= '9'
  }

  predicate AllDigits(s: string) {
    forall k :: 0 <= k < |s| ==> IsDigit(s[k])
  }

  function DigitChar(d: nat): char
    requires d < 10
  {
    ('0' as int + d) as char
  }

  function DigitValue(c: char): nat
    requires IsDigit(c)
  {
    c as int - '0' as int
  }

  /** The decimal digits of `n`, without leading zeros ("0" for zero). */
  function NatToDecimal(n: nat): (r: string)
    ensures |r| > 0 && AllDigits(r)
  {
    if n < 10 then [DigitChar(n)] else NatToDecimal(n / 10) + [DigitChar(n % 10)]
  }

  /** The number a string of decimal digits denotes. */
  function DecimalToNat(s: string): nat
    requires AllDigits(s)
  {
    if s == [] then 0 else DecimalToNat(s[..|s| - 1]) * 10 + DigitValue(s[|s| - 1])
  }

  lemma {:induction false} DecimalRoundTrip(n: nat)
    ensures DecimalToNat(NatToDecimal(n)) == n
  {
    if n >= 10 {
      var s := NatToDecimal(n);
      assert s[..|s| - 1] == NatToDecimal(n / 10);
      DecimalRoundTrip(n / 10);
    }
  }

  /** `number_format($cents / 100, 2, '.', '')`: an optional minus sign, the
      whole units, a point and exactly two digits of cents. */
  function FormatAmount(cents: int): (r: string)
    ensures |r| >= 4 && r[|r| - 3] == '.' && AllDigits(r[|r| - 2..])
    ensures r[0] == '-' <==> cents < 0
  {
    var m: nat := if cents < 0 then -cents else cents;
    (if cents < 0 then "-" else "") + Unsigned(m)
  }

  /** The printed form of a non-negative amount of cents. */
  function Unsigned(m: nat): string {
    var c := m % 100;
    NatToDecimal(m / 100) + "." + [DigitChar(c / 10), DigitChar(c % 10)]
  }

  /** Reads back a string of the shape FormatAmount prints, as cents. */
  function ParseAmount(s: string): Option<int> {
    if |s| > 0 && s[0] == '-' then
      match ParseUnsigned(s[1..])
      case Some(v) => Some(-(v as int))
      case None => None
    else ParseUnsigned(s)
  }

  function ParseUnsigned(s: string): Option<nat> {
    if |s| >= 4 && s[|s| - 3] == '.' && AllDigits(s[..|s| - 3]) && AllDigits(s[|s| - 2..])
    then Some(DecimalToNat(s[..|s| - 3]) * 100 + DecimalToNat(s[|s| - 2..]))
    else None
  }

  lemma TwoDigits(hi: nat, lo: nat)
    requires hi < 10 && lo < 10
    ensures AllDigits([DigitChar(hi), DigitChar(lo)])
    ensures DecimalToNat([DigitChar(hi), DigitChar(lo)]) == hi * 10 + lo
  {
    var s := [DigitChar(hi), DigitChar(lo)];
    assert s[..|s| - 1] == [DigitChar(hi)];
    assert [DigitChar(hi)][..0] == [];
    assert DecimalToNat([DigitChar(hi)]) == hi;
  }

  lemma {:induction false} UnsignedRoundTrip(m: nat)
    ensures ParseUnsigned(Unsigned(m)) == Some(m)
  {
    var c := m % 100;
    var whole := NatToDecimal(m / 100);
    var cs := [DigitChar(c / 10), DigitChar(c % 10)];
    var s := whole + "." + cs;
    assert s == Unsigned(m);
    assert s[..|s| - 3] == whole;
    assert s[|s| - 2..] == cs;
    DecimalRoundTrip(m / 100);
    TwoDigits(c / 10, c % 10);
  }

  /** The printed amount reads back as the cents it was printed from, so two
      different amounts never print alike. */
  lemma FormatAmountRoundTrip(cents: int)
    ensures ParseAmount(FormatAmount(cents)) == Some(cents)
  {
    var m: nat := if cents < 0 then -cents else cents;
    var body := Unsigned(m);
    UnsignedRoundTrip(m);
    if cents < 0 {
      assert FormatAmount(cents) == "-" + body;
      assert ("-" + body)[1..] == body;
    } else {
      assert FormatAmount(cents) == body;
      assert body[0] != '-';
    }
  }

  lemma FormatAmountInjective(a: int, b: int)
    requires FormatAmount(a) == FormatAmount(b)
    ensures a == b
  {
    FormatAmountRoundTrip(a);
    FormatAmountRoundTrip(b);
  }

  /** 1999 cents are stored as the string "19.99". */
  lemma FormatAmountExample()
    ensures FormatAmount(1999) == "19.99"
  {
    assert NatToDecimal(19) == "19";
  }
}
