/** The optional value used across the model. */
module Wrappers {
  datatype Option<+T> = None | Some(value: T)
}

/**
  Decimal integer parsing as Go's `strconv.Atoi` does it on a 64-bit
  platform: an optional `+` or `-` sign followed by one or more ASCII digits,
  read left to right (`n = n*10 + d`), accepted only when the value fits a
  64-bit signed integer. `Decimal` is the canonical rendering
  (`strconv.Itoa`) used to state what Atoi accepts.
*/
module StrConv {
  import opened Wrappers

  const MinInt64: int := -0x8000_0000_0000_0000
  const MaxInt64: int := 0x7FFF_FFFF_FFFF_FFFF

  predicate IsDigit(c: char) { '0' <= c <= '9' }

  predicate AllDigits(s: string) { forall i :: 0 <= i < |s| ==> IsDigit(s[i]) }

  predicate AllZeros(s: string) { forall i :: 0 <= i < |s| ==> s[i] == '0' }

  function DigitValue(c: char): nat
    requires IsDigit(c)
  {
    (c as int) - ('0' as int)
  }

  function DigitChar(d: nat): (c: char)
    requires d < 10
    ensures IsDigit(c) && DigitValue(c) == d
  {
    (('0' as int) + d) as char
  }

  /** The value of a digit string, accumulated from the left. */
  function DigitsValue(ds: string): nat
    requires AllDigits(ds)
  {
    if ds == [] then 0 else DigitsValue(ds[..|ds| - 1]) * 10 + DigitValue(ds[|ds| - 1])
  }

  /** A run of k zero characters. */
  function Zeros(k: nat): (z: string)
    ensures |z| == k && AllZeros(z) && AllDigits(z)
  {
    seq(k, _ => '0')
  }

  /** The digits of a numeral, past its sign if it has one. */
  function Unsigned(s: string): string {
    if |s| > 0 && (s[0] == '+' || s[0] == '-') then s[1..] else s
  }

  /** strconv.Atoi: None stands for both its syntax error and its range error. */
  function Atoi(s: string): (r: Option<int>)
    ensures r.Some? ==> MinInt64 <= r.value <= MaxInt64
    ensures r.Some? ==> |s| > 0 && (IsDigit(s[0]) || s[0] == '+' || s[0] == '-')
  {
    if s == [] then None
    else
      var digits := Unsigned(s);
      if digits == [] || !AllDigits(digits) then None
      else
        var v: int := if s[0] == '-' then -(DigitsValue(digits) as int) else DigitsValue(digits);
        if MinInt64 <= v <= MaxInt64 then Some(v) else None
  }

  /** The canonical decimal rendering of n: no sign and no leading zero. */
  function Decimal(n: nat): (s: string)
    ensures |s| > 0 && AllDigits(s)
    ensures s[0] == '0' <==> n == 0
    ensures n < 10 <==> |s| == 1
  {
    if n < 10 then [DigitChar(n)] else Decimal(n / 10) + [DigitChar(n % 10)]
  }

  lemma {:induction false} ZerosValue(zs: string)
    requires AllZeros(zs)
    ensures AllDigits(zs) && DigitsValue(zs) == 0
  {
    if zs != [] {
      ZerosValue(zs[..|zs| - 1]);
    }
  }

  /** A digit string whose value is zero consists of zeros only. */
  lemma {:induction false} ValueZeroOnlyZeros(ds: string)
    requires AllDigits(ds) && DigitsValue(ds) == 0
    ensures AllZeros(ds)
  {
    if ds != [] {
      var init := ds[..|ds| - 1];
      ValueZeroOnlyZeros(init);
      forall i | 0 <= i < |ds| ensures ds[i] == '0' {
        if i < |ds| - 1 { assert ds[i] == init[i]; }
      }
    }
  }

  /** Appending one digit multiplies by ten and adds it. */
  lemma DigitsValueSnoc(ds: string, c: char)
    requires AllDigits(ds) && IsDigit(c)
    ensures AllDigits(ds + [c]) && DigitsValue(ds + [c]) == DigitsValue(ds) * 10 + DigitValue(c)
  {
  }

  /** Leading zeros do not change the value of a digit string. */
  lemma {:induction false} LeadingZerosValue(zs: string, ds: string)
    requires AllZeros(zs) && AllDigits(ds)
    ensures AllDigits(zs + ds) && DigitsValue(zs + ds) == DigitsValue(ds)
  {
    if ds == [] {
      assert zs + ds == zs;
      ZerosValue(zs);
    } else {
      var init := ds[..|ds| - 1];
      LeadingZerosValue(zs, init);
      assert zs + ds == (zs + init) + [ds[|ds| - 1]];
      DigitsValueSnoc(zs + init, ds[|ds| - 1]);
      assert ds == init + [ds[|ds| - 1]];
      DigitsValueSnoc(init, ds[|ds| - 1]);
    }
  }

  /** Reading back the canonical rendering gives the number. */
  lemma {:induction false} DecimalValue(n: nat)
    ensures DigitsValue(Decimal(n)) == n
  {
    if n >= 10 {
      DecimalValue(n / 10);
      DigitsValueSnoc(Decimal(n / 10), DigitChar(n % 10));
    }
  }

  /** Atoi inverts the canonical rendering over the whole 64-bit range. */
  lemma AtoiDecimal(n: int)
    requires MinInt64 <= n <= MaxInt64
    ensures n >= 0 ==> Atoi(Decimal(n)) == Some(n)
    ensures n < 0 ==> Atoi("-" + Decimal(-n)) == Some(n)
  {
    if n >= 0 {
      DecimalValue(n);
    } else {
      DecimalValue(-n);
      assert ("-" + Decimal(-n))[1..] == Decimal(-n);
    }
  }

  /** An unsigned digit string reads as its value. */
  lemma AtoiUnsigned(ds: string)
    requires ds != [] && AllDigits(ds) && DigitsValue(ds) <= MaxInt64
    ensures Atoi(ds) == Some(DigitsValue(ds))
  {
  }

  /** A `+` sign in front of a digit string does not change what Atoi reads. */
  lemma AtoiPlus(ds: string)
    requires ds != [] && AllDigits(ds)
    ensures Atoi("+" + ds) == Atoi(ds)
  {
  }

  /**
    Atoi accepts many spellings of one value: a `+` sign and any number of
    leading zeros are read as the same number as the bare digits.
  */
  lemma PaddedSpellings(k: nat, ds: string)
    requires ds != [] && AllDigits(ds) && DigitsValue(ds) <= MaxInt64
    ensures Atoi(Zeros(k) + ds) == Some(DigitsValue(ds))
    ensures Atoi("+" + (Zeros(k) + ds)) == Some(DigitsValue(ds))
  {
    var padded := Zeros(k) + ds;
    LeadingZerosValue(Zeros(k), ds);
    AtoiUnsigned(padded);
    AtoiPlus(padded);
  }
}
