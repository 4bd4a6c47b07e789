/**
 * Decimal integer parsing as Go's `strconv.Atoi` performs it for a 64-bit
 * `int`, and the formatting that inverts it.
 */
module Strconv {
  import opened GoInt
  import opened Options

  predicate IsDigit(c: char) {
    '0' <= c <= '9'
  }

  predicate IsSign(c: char) {
    c == '+' || c == '-'
  }

  predicate AllDigits(s: string) {
    forall k :: 0 <= k < |s| ==> IsDigit(s[k])
  }

  function DigitValue(c: char): (d: nat)
    requires IsDigit(c)
    ensures d < 10
  {
    (c as int) - ('0' as int)
  }

  function DigitChar(d: nat): (c: char)
    requires d < 10
    ensures IsDigit(c) && DigitValue(c) == d
  {
    (('0' as int) + d) as char
  }

  /** The value of a string of decimal digits, most significant digit first. */
  function DigitsValue(s: string): nat
    requires AllDigits(s)
  {
    if s == [] then 0 else 10 * DigitsValue(s[..|s| - 1]) + DigitValue(s[|s| - 1])
  }

  /**
   * `strconv.Atoi`: an optional leading `+` or `-`, then one or more ASCII
   * digits (leading zeros allowed, no spaces, no underscores), whose value
   * must fit a 64-bit `int`. Anything else is an error, here `None`.
   */
  function Atoi(s: string): (r: Option<int>)
    ensures r.Some? ==> InRange(r.value)
    ensures |s| == 0 || (|s| == 1 && IsSign(s[0])) ==> r.None?
    ensures (exists k :: 0 <= k < |s| && !IsDigit(s[k]) && !(k == 0 && IsSign(s[k]))) ==> r.None?
  {
    if |s| == 0 then None
    else
      var body := if IsSign(s[0]) then s[1..] else s;
      if |body| == 0 || !AllDigits(body) then None
      else
        var magnitude: int := DigitsValue(body);
        var v := if s[0] == '-' then -magnitude else magnitude;
        if InRange(v) then Some(v) else None
  }

  /** Decimal digits of `n` without leading zeros. */
  function FormatNat(n: nat): (s: string)
    ensures |s| > 0 && AllDigits(s)
    ensures |s| > 1 ==> s[0] != '0'
  {
    if n < 10 then [DigitChar(n)] else FormatNat(n / 10) + [DigitChar(n % 10)]
  }

  /** `strconv.Itoa`: the canonical decimal spelling of `n`, with `-` for negatives. */
  function Itoa(n: int): (s: string)
    ensures |s| > 0
    ensures n < 0 <==> s[0] == '-'
  {
    if n < 0 then "-" + FormatNat(-n) else FormatNat(n)
  }

  lemma {:induction false} DigitsValueOfFormatNat(n: nat)
    ensures DigitsValue(FormatNat(n)) == n
  {
    if n >= 10 {
      var s := FormatNat(n);
      assert s[..|s| - 1] == FormatNat(n / 10);
      DigitsValueOfFormatNat(n / 10);
    }
  }

  /**
   * Atoi inverts Itoa on every 64-bit value and rejects the spelling of every
   * integer outside that range.
   */
  lemma AtoiItoa(n: int)
    ensures Atoi(Itoa(n)) == if InRange(n) then Some(n) else None
  {
    var s := Itoa(n);
    if n < 0 {
      var digits := FormatNat(-n);
      assert s == "-" + digits && s[1..] == digits;
      DigitsValueOfFormatNat(-n);
      var magnitude: int := DigitsValue(digits);
      assert Atoi(s) == if InRange(-magnitude) then Some(-magnitude) else None;
    } else {
      DigitsValueOfFormatNat(n);
      assert !IsSign(s[0]);
      assert Atoi(s) == if InRange(DigitsValue(s)) then Some(DigitsValue(s)) else None;
    }
  }

  /**
   * Leading zeros, after an optional sign, do not change the parsed value:
   * every accepted spelling of `n` or `-n` with any number of leading zeros
   * parses to that value whenever it fits a 64-bit `int`.
   */
  lemma {:induction false} AtoiLeadingZeros(sign: string, zeros: nat, n: nat)
    requires sign == "" || sign == "+" || sign == "-"
    ensures var v: int := if sign == "-" then 0 - n else n;
            Atoi(sign + Zeros(zeros) + FormatNat(n)) == if InRange(v) then Some(v) else None
  {
    var digits := Zeros(zeros) + FormatNat(n);
    var s := sign + Zeros(zeros) + FormatNat(n);
    DigitsValueZerosPrefix(zeros, FormatNat(n));
    DigitsValueOfFormatNat(n);
    if sign == "" {
      assert s == digits && !IsSign(s[0]);
    } else {
      assert s[0] == sign[0] && s[1..] == digits;
    }
  }

  function Zeros(k: nat): (s: string)
    ensures |s| == k && AllDigits(s)
  {
    if k == 0 then [] else ['0'] + Zeros(k - 1)
  }

  lemma {:induction false} DigitsValueZerosPrefix(k: nat, s: string)
    requires AllDigits(s)
    ensures AllDigits(Zeros(k) + s) && DigitsValue(Zeros(k) + s) == DigitsValue(s)
    decreases |s|
  {
    var t := Zeros(k) + s;
    assert AllDigits(t);
    if s == [] {
      assert t == Zeros(k);
      ZerosValue(k);
    } else {
      var init := s[..|s| - 1];
      assert t[..|t| - 1] == Zeros(k) + init;
      DigitsValueZerosPrefix(k, init);
    }
  }

  lemma {:induction false} ZerosValue(k: nat)
    ensures DigitsValue(Zeros(k)) == 0
  {
    if k > 0 {
      var z := Zeros(k);
      assert z[..k - 1] == Zeros(k - 1) by {
        ZerosAllZero(k);
        ZerosAllZero(k - 1);
      }
      ZerosValue(k - 1);
      ZerosAllZero(k);
    }
  }

  lemma {:induction false} ZerosAllZero(k: nat)
    ensures forall i :: 0 <= i < k ==> Zeros(k)[i] == '0'
  {
    if k > 0 {
      ZerosAllZero(k - 1);
    }
  }
}
