/**
  Validation of the `{day}` path segment shared by the two day-scoped
  handlers: strconv.Atoi, then the range check 1..7. The segment itself,
  not the parsed number, is what the handlers use as the day key.
*/
module Days {
  import opened Wrappers
  import opened StrConv
  import opened Api

  datatype DayCheck = ValidDay(day: int) | InvalidDay(reason: BadRequestReason)

  /** A format error when Atoi fails, a range error outside 1..7, the day otherwise. */
  function ParseDay(dayStr: string): (r: DayCheck)
    ensures r.ValidDay? <==> Atoi(dayStr).Some? && 1 <= Atoi(dayStr).value <= 7
    ensures r.ValidDay? ==> r.day == Atoi(dayStr).value
    ensures r == InvalidDay(MalformedDay) <==> Atoi(dayStr).None?
    ensures r == InvalidDay(DayOutOfRange) <==> Atoi(dayStr).Some? && !(1 <= Atoi(dayStr).value <= 7)
  {
    match Atoi(dayStr)
    case None => InvalidDay(MalformedDay)
    case Some(n) => if n < 1 || n > 7 then InvalidDay(DayOutOfRange) else ValidDay(n)
  }

  /**
    The segments that pass validation, described without Atoi: an optional
    `+`, any number of zeros, and one digit from 1 to 7.
  */
  predicate IsDaySpelling(s: string) {
    var body := if |s| > 0 && s[0] == '+' then s[1..] else s;
    |body| > 0 && '1' <= body[|body| - 1] <= '7' && AllZeros(body[..|body| - 1])
  }

  /** A day segment is accepted exactly when it is spelled as IsDaySpelling says, and names its last digit. */
  lemma ParseDayAccepts(s: string)
    ensures ParseDay(s).ValidDay? <==> IsDaySpelling(s)
    ensures ParseDay(s).ValidDay? ==> ParseDay(s).day == DigitValue(s[|s| - 1])
  {
    if IsDaySpelling(s) {
      var body := if s[0] == '+' then s[1..] else s;
      var init, last := body[..|body| - 1], body[|body| - 1];
      assert body == init + [last];
      LeadingZerosValue(init, [last]);
      assert DigitsValue([last]) == DigitValue(last) by {
        assert [last][..0] == [];
      }
      AtoiUnsigned(body);
      if s[0] == '+' {
        assert s == "+" + body;
        AtoiPlus(body);
      } else {
        assert s == body;
      }
    }
    if ParseDay(s).ValidDay? {
      var n := ParseDay(s).day;
      var ds := Unsigned(s);
      assert s[0] != '-';
      assert AllDigits(ds) && ds != [] && DigitsValue(ds) == n;
      var init := ds[..|ds| - 1];
      assert DigitsValue(init) == 0;
      ValueZeroOnlyZeros(init);
      assert IsDaySpelling(s);
    }
  }

  /**
    Each day has many accepted spellings: the canonical digit, the digit
    after any number of zeros, and either of those after a `+`. All parse to
    the same day, yet as strings (and so as day keys) they are distinct.
  */
  lemma DaySpellings(d: int, k: nat)
    requires 1 <= d <= 7
    ensures ParseDay(Decimal(d)) == ValidDay(d)
    ensures ParseDay(Zeros(k) + Decimal(d)) == ValidDay(d)
    ensures ParseDay("+" + (Zeros(k) + Decimal(d))) == ValidDay(d)
    ensures k > 0 ==> Zeros(k) + Decimal(d) != Decimal(d)
    ensures "+" + (Zeros(k) + Decimal(d)) != Decimal(d)
  {
    DecimalValue(d);
    PaddedSpellings(0, Decimal(d));
    assert Zeros(0) + Decimal(d) == Decimal(d);
    PaddedSpellings(k, Decimal(d));
    assert ("+" + (Zeros(k) + Decimal(d)))[0] == '+';
  }
}
