/**
 * Go's `strconv.Atoi` on a 64-bit platform: an optional '+' or '-', then one or
 * more ASCII decimal digits, with the value inside the range of `int`.
 * Anything else (the empty string, spaces, underscores, overflow) is an error.
 */
module Strconv {
  import opened Wrappers

  const MinInt: int := -0x8000_0000_0000_0000
  const MaxInt: int := 0x7FFF_FFFF_FFFF_FFFF

  predicate IsDigit(c: char) {
    '0' <= c <= '9'
  }

  predicate AllDigits(s: string) {
    forall i :: 0 <= i < |s| ==> IsDigit(s[i])
  }

  /** The value of a non-empty run of decimal digits, most significant first. */
  function DigitsValue(s: string): nat
    requires AllDigits(s)
    decreases |s|
  {
    if s == [] then 0
    else DigitsValue(s[..|s| - 1]) * 10 + (s[|s| - 1] as int - '0' as int)
  }

  /** The result of `strconv.Atoi(s)`, None standing for a non-nil error. */
  function Atoi(s: string): (r: Option<int>)
    ensures r.Some? ==> MinInt <= r.value <= MaxInt
    ensures r.Some? ==> |s| > 0
  {
    var negative := |s| > 0 && s[0] == '-';
    var digits := if |s| > 0 && (s[0] == '+' || s[0] == '-') then s[1..] else s;
    if |digits| == 0 || !AllDigits(digits) then None
    else
      var n: int := if negative then -(DigitsValue(digits) as int) else DigitsValue(digits);
      if MinInt <= n <= MaxInt then Some(n) else None
  }

  /** The shortest decimal rendering of a natural number (Go's `strconv.Itoa` on n >= 0). */
  function Decimal(n: nat): (s: string)
    ensures |s| > 0 && AllDigits(s)
  {
    if n < 10 then [('0' as int + n) as char]
    else Decimal(n / 10) + [('0' as int + n % 10) as char]
  }

  lemma {:induction false} DigitsValueOfDecimal(n: nat)
    ensures DigitsValue(Decimal(n)) == n
  {
    if n >= 10 {
      var s := Decimal(n);
      assert s[..|s| - 1] == Decimal(n / 10);
      DigitsValueOfDecimal(n / 10);
    }
  }

  /** Atoi reads back every in-range number written in decimal, with or without a sign. */
  lemma AtoiDecimal(n: nat)
    ensures n <= MaxInt ==> Atoi(Decimal(n)) == Some(n)
    ensures n <= MaxInt ==> Atoi("+" + Decimal(n)) == Some(n)
    ensures n <= -MinInt ==> Atoi("-" + Decimal(n)) == Some(-(n as int))
  {
    DigitsValueOfDecimal(n);
    assert ("+" + Decimal(n))[1..] == Decimal(n);
    assert ("-" + Decimal(n))[1..] == Decimal(n);
  }

  /** The inputs Atoi rejects: nothing after the sign, a non-digit, or a value out of range. */
  lemma AtoiRejects(s: string)
    ensures Atoi("") == None && Atoi("+") == None && Atoi("-") == None
    ensures (exists i :: 0 <= i < |s| && !IsDigit(s[i]) && s[i] != '+' && s[i] != '-') ==> Atoi(s) == None
    ensures Atoi(Decimal(MaxInt + 1)) == None
  {
    if exists i :: 0 <= i < |s| && !IsDigit(s[i]) && s[i] != '+' && s[i] != '-' {
      var i :| 0 <= i < |s| && !IsDigit(s[i]) && s[i] != '+' && s[i] != '-';
      if |s| > 0 && (s[0] == '+' || s[0] == '-') {
        assert !IsDigit(s[1..][i - 1]);
      }
    }
    DigitsValueOfDecimal(MaxInt + 1);
  }
}
