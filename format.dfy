/**
 * The two `snprintf` behaviours the library relies on: copying a string
 * into a fixed buffer (which truncates) and printing an `int` with `%d`.
 * `ParseDecimal` is the reading a receiver applies to a `%d` text; it is
 * the partner of `IntToDecimal`.
 */
module Format {
  import opened Types

  /** What `snprintf(buf, n + 1, "%s", s)` leaves in `buf`: at most `n` characters of `s`. */
  function Truncate(s: string, n: nat): (r: string)
    ensures |r| <= n && r <= s
    ensures |s| <= n ==> r == s
    ensures |s| > n ==> |r| == n
  {
    if |s| <= n then s else s[..n]
  }

  function DigitChar(d: nat): (c: char)
    requires d < 10
    ensures '0' <= c <= '9' && (c as int) - ('0' as int) == d
  {
    ('0' as int + d) as char
  }

  /** The decimal digits of `n`, most significant first, without leading zeros. */
  function NatToDecimal(n: nat): (s: string)
    ensures |s| >= 1
    ensures forall i :: 0 <= i < |s| ==> '0' <= s[i] <= '9'
    ensures |s| > 1 ==> s[0] != '0'
    decreases n
  {
    if n < 10 then [DigitChar(n)] else NatToDecimal(n / 10) + [DigitChar(n % 10)]
  }

  /** `%d`. */
  function IntToDecimal(v: int): (s: string)
    ensures |s| >= 1
    ensures v < 0 <==> s[0] == '-'
  {
    if v < 0 then "-" + NatToDecimal(-v) else NatToDecimal(v)
  }

  predicate AllDigits(s: string) {
    forall i :: 0 <= i < |s| ==> '0' <= s[i] <= '9'
  }

  function DigitsValue(s: string): (n: nat)
    requires AllDigits(s)
    decreases |s|
  {
    if s == [] then 0
    else DigitsValue(s[..|s| - 1]) * 10 + ((s[|s| - 1] as int) - ('0' as int))
  }

  /** Reads an optional `-` followed by one or more decimal digits; anything else is rejected. */
  function ParseDecimal(s: string): (r: Option<int>)
    ensures r.Some? ==> |s| >= 1 && (r.value < 0 ==> s[0] == '-')
  {
    if |s| >= 2 && s[0] == '-' && AllDigits(s[1..]) then Some(0 - DigitsValue(s[1..]) as int)
    else if |s| >= 1 && AllDigits(s) then Some(DigitsValue(s) as int)
    else None
  }

  lemma {:induction false} DigitsOfNat(n: nat)
    ensures AllDigits(NatToDecimal(n)) && DigitsValue(NatToDecimal(n)) == n
    decreases n
  {
    var s := NatToDecimal(n);
    if n >= 10 {
      DigitsOfNat(n / 10);
      assert s[..|s| - 1] == NatToDecimal(n / 10);
    }
  }

  /** `%d` followed by a decimal read gives the number back. */
  lemma {:induction false} DecimalRoundTrip(v: int)
    ensures ParseDecimal(IntToDecimal(v)) == Some(v)
  {
    if v < 0 {
      var d := NatToDecimal(-v);
      DigitsOfNat(-v);
      var s := "-" + d;
      assert s[1..] == d;
      assert |s| >= 2 && s[0] == '-' && AllDigits(s[1..]);
      assert ParseDecimal(s) == Some(0 - DigitsValue(d) as int);
    } else {
      var s := NatToDecimal(v);
      DigitsOfNat(v);
      assert s[0] != '-';
      assert ParseDecimal(s) == Some(DigitsValue(s) as int);
    }
  }

  lemma {:induction false} NatToDecimalLength(n: nat, k: nat)
    requires n < Pow10(k)
    ensures |NatToDecimal(n)| <= if k == 0 then 1 else k
    decreases k
  {
    if n >= 10 {
      assert k >= 2;
      NatToDecimalLength(n / 10, k - 1);
    }
  }

  function Pow10(k: nat): (p: nat)
    ensures p >= 1
  {
    if k == 0 then 1 else 10 * Pow10(k - 1)
  }

  /** Any C `int` prints in at most 11 characters, so a 100-byte buffer never truncates it. */
  lemma Int32DecimalFits(v: int32)
    ensures |IntToDecimal(v as int)| <= 11
    ensures Truncate(IntToDecimal(v as int), 99) == IntToDecimal(v as int)
  {
    assert Pow10(10) == 10_000_000_000;
    if v < 0 {
      NatToDecimalLength(-(v as int), 10);
    } else {
      NatToDecimalLength(v as int, 10);
    }
  }
}
