/**
 * Decimal text of integers: the `%d` verb of fmt (and strconv.Itoa) on one side,
 * strconv.Atoi on the other, for the 64-bit `int` of the platforms the job runs on.
 */
module Decimal {
  import opened Wrappers

  const Int64Min: int := -0x8000_0000_0000_0000
  const Int64Max: int := 0x7FFF_FFFF_FFFF_FFFF

  predicate IsDigit(c: char) { '0' <= c <= '9' }

  predicate AllDigits(s: string) { forall i :: 0 <= i < |s| ==> IsDigit(s[i]) }

  function DigitValue(c: char): (d: nat)
    requires IsDigit(c)
    ensures d < 10
  {
    (c as int) - ('0' as int)
  }

  function DigitChar(d: nat): (c: char)
    requires d < 10
    ensures IsDigit(c) && DigitValue(c) == d
  {
    (('0' as int) + d) as char
  }

  /** The digits of `n`, most significant first, with no leading zero. */
  function NatDigits(n: nat): (s: string)
    ensures 1 <= |s| && AllDigits(s)
    ensures |s| > 1 ==> s[0] != '0'
    decreases n
  {
    if n < 10 then [DigitChar(n)] else NatDigits(n / 10) + [DigitChar(n % 10)]
  }

  /** What `%d` prints for `n`: a minus sign for negative values, then the digits. */
  function Itoa(n: int): (s: string)
    ensures 1 <= |s|
    ensures n >= 0 <==> s[0] != '-'
  {
    if n < 0 then "-" + NatDigits(-n) else NatDigits(n)
  }

  /** The value of a run of digits read left to right. */
  function DigitsValue(s: string): nat
    requires AllDigits(s)
    decreases |s|
  {
    if s == [] then 0 else DigitsValue(s[..|s| - 1]) * 10 + DigitValue(s[|s| - 1])
  }

  /** The syntax strconv.Atoi accepts: an optional sign, then one or more digits. */
  function ParseSigned(s: string): (r: Option<int>)
    ensures r.Some? ==> 1 <= |s|
  {
    var negative := |s| > 0 && s[0] == '-';
    var body := if |s| > 0 && (s[0] == '-' || s[0] == '+') then s[1..] else s;
    if body == [] || !AllDigits(body) then None
    else
      var magnitude: int := DigitsValue(body);
      Some(if negative then -magnitude else magnitude)
  }

  /** strconv.Atoi: the parsed value when the text is well formed and fits 64 bits. */
  function Atoi(s: string): (r: Option<int>)
    ensures r.Some? ==> Int64Min <= r.value <= Int64Max
    ensures r.Some? ==> ParseSigned(s) == r
    ensures ParseSigned(s).Some? && Int64Min <= ParseSigned(s).value <= Int64Max ==> r == ParseSigned(s)
  {
    match ParseSigned(s)
    case None => None
    case Some(v) => if Int64Min <= v <= Int64Max then Some(v) else None
  }

  lemma {:induction false} NatDigitsValue(n: nat)
    ensures DigitsValue(NatDigits(n)) == n
    decreases n
  {
    if n >= 10 {
      var s := NatDigits(n);
      assert s[..|s| - 1] == NatDigits(n / 10);
      NatDigitsValue(n / 10);
    }
  }

  /** Reading back what `%d` printed yields the number again, for every integer. */
  lemma ParseItoa(n: int)
    ensures ParseSigned(Itoa(n)) == Some(n)
  {
    if n < 0 {
      NatDigitsValue(-n);
      assert Itoa(n)[1..] == NatDigits(-n);
    } else {
      NatDigitsValue(n);
    }
  }

  /** Atoi inverts Itoa on the 64-bit range. */
  lemma AtoiItoa(n: int)
    requires Int64Min <= n <= Int64Max
    ensures Atoi(Itoa(n)) == Some(n)
  {
    ParseItoa(n);
  }

  /** Distinct numbers print differently. */
  lemma ItoaInjective(a: int, b: int)
    requires Itoa(a) == Itoa(b)
    ensures a == b
  {
    ParseItoa(a);
    ParseItoa(b);
  }
}
