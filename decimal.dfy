/** Decimal text of unsigned integers: Rust's `{}` for a `u64` and
    `<u64 as FromStr>::from_str`, as the host-side client uses them to name
    item object paths. */
module Decimal {
  import opened Wrappers
  import opened Ints

  function DigitChar(d: nat): (c: char)
    requires d < 10
    ensures '0' <= c <= '9'
  {
    ('0' as int + d) as char
  }

  predicate AllDigits(s: string) {
    forall i | 0 <= i < |s| :: '0' <= s[i] <= '9'
  }

  /** `{}` of a number: its digits, most significant first, with no leading
      zero. */
  function Dec(n: nat): (s: string)
    ensures |s| > 0 && AllDigits(s)
    ensures n == 0 <==> s == "0"
    ensures n > 0 ==> '1' <= s[0] <= '9'
    decreases n
  {
    if n < 10 then [DigitChar(n)] else Dec(n / 10) + [DigitChar(n % 10)]
  }

  function Pow10(k: nat): (r: nat)
    ensures r >= 1
  {
    if k == 0 then 1 else 10 * Pow10(k - 1)
  }

  /** A number below 10^k prints in at most k digits. */
  lemma {:induction false} DecLength(n: nat, k: nat)
    requires 0 < k && n < Pow10(k)
    ensures |Dec(n)| <= k
    decreases k
  {
    if n >= 10 {
      DecLength(n / 10, k - 1);
    }
  }

  /** A u32 prints in at most 10 digits and a u64 in at most 20. */
  lemma FixedWidthLengths(a: u32, b: u64)
    ensures |Dec(a as nat)| <= 10 && |Dec(b as nat)| <= 20
  {
    assert Pow10(10) == 10000000000;
    assert Pow10(20) == 100000000000000000000;
    DecLength(a as nat, 10);
    DecLength(b as nat, 20);
  }

  /** The number a string of digits denotes. */
  function DecimalValue(s: string): nat
    requires AllDigits(s)
    decreases |s|
  {
    if s == [] then 0
    else DecimalValue(s[..|s| - 1]) * 10 + (s[|s| - 1] as int - '0' as int)
  }

  /** Reading back the printed number gives the number. */
  lemma {:induction false} ValueOfDec(n: nat)
    ensures DecimalValue(Dec(n)) == n
    decreases n
  {
    if n >= 10 {
      var s := Dec(n);
      assert s[..|s| - 1] == Dec(n / 10);
      ValueOfDec(n / 10);
    }
  }

  lemma {:induction false} ValuePositive(s: string)
    requires AllDigits(s) && |s| > 0 && s[0] != '0'
    ensures DecimalValue(s) >= 1
    decreases |s|
  {
    if |s| > 1 {
      ValuePositive(s[..|s| - 1]);
    }
  }

  /** Printing the value of a digit string without a leading zero gives the
      string back. */
  lemma {:induction false} DecOfValue(s: string)
    requires AllDigits(s) && |s| > 0 && s[0] != '0'
    ensures Dec(DecimalValue(s)) == s
    decreases |s|
  {
    if |s| > 1 {
      var t := s[..|s| - 1];
      ValuePositive(t);
      DecOfValue(t);
      assert s == t + [s[|s| - 1]];
    }
  }

  /** `u64::from_str` on text that holds no sign: the digits' value when
      every character is a digit and the value fits in 64 bits. */
  function ParseU64(s: string): (r: Option<u64>)
    ensures r.Some? <==> |s| > 0 && AllDigits(s) && DecimalValue(s) < U64_LIMIT
    ensures r.Some? ==> r.value as int == DecimalValue(s)
  {
    if |s| > 0 && AllDigits(s) && DecimalValue(s) < U64_LIMIT then Some(DecimalValue(s) as u64) else None
  }
}
