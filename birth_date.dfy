/**
 * Age and date-of-birth texts built by `readAgeAndDOB` from the
 * date-of-birth components the health store returns and the current year.
 * The current year is a parameter: reading the calendar is not part of
 * this model.
 */
module BirthDate {
  import opened Wrappers
  import opened Decimal

  /** The `year`, `month` and `day` fields of a `DateComponents`, each of which may be absent. */
  datatype DateComponents = DateComponents(year: Option<int>, month: Option<int>, day: Option<int>)

  /** The components that `readAgeAndDOB` force-unwraps; when one is absent the program traps. */
  predicate HasYearMonthDay(c: DateComponents) {
    c.year.Some? && c.month.Some? && c.day.Some?
  }

  /** `String(thisYear - birthdayComponents.year!)`. */
  function AgeText(thisYear: int, birth: DateComponents): (s: string)
    requires birth.year.Some?
    ensures |s| >= 1 && (s[0] == '-' || IsDigit(s[0]))
  {
    IntToDecimal(thisYear - birth.year.value)
  }

  /** `"\(day!)-\(month!)-\(year!)"`. */
  function DobText(birth: DateComponents): (s: string)
    requires HasYearMonthDay(birth)
    ensures |s| >= 5 && (s[0] == '-' || IsDigit(s[0]))
  {
    IntToDecimal(birth.day.value) + "-" + IntToDecimal(birth.month.value) + "-" + IntToDecimal(birth.year.value)
  }

  /** The index of the first '-' in `s`, or `|s|` when there is none. */
  function FirstDash(s: string): (k: nat)
    ensures k <= |s|
    ensures k < |s| ==> s[k] == '-'
    ensures forall i :: 0 <= i < k ==> s[i] != '-'
  {
    if s == [] then 0 else if s[0] == '-' then 0 else 1 + FirstDash(s[1..])
  }

  /** The end of a number at the start of `s`: skips one leading '-', then runs to the next '-' or the end. */
  function NumberEnd(s: string): (k: nat)
    ensures k <= |s|
  {
    if |s| >= 1 && s[0] == '-' then 1 + FirstDash(s[1..]) else FirstDash(s)
  }

  /**
   * Reads a date-of-birth text back into (day, month, year): three possibly
   * negative integers, separated by '-'.
   */
  function ParseDob(s: string): Option<(int, int, int)> {
    var i := NumberEnd(s);
    if i == |s| then None
    else
      var rest := s[i + 1..];
      var j := NumberEnd(rest);
      if j == |rest| then None
      else
        match (ParseInt(s[..i]), ParseInt(rest[..j]), ParseInt(rest[j + 1..]))
        case (Some(day), Some(month), Some(year)) => Some((day, month, year))
        case _ => None
  }

  lemma {:induction false} FirstDashAfterDigits(a: string, b: string)
    requires AllDigits(a)
    ensures FirstDash(a + "-" + b) == |a|
  {
    if a != [] {
      assert (a + "-" + b)[1..] == a[1..] + "-" + b;
      FirstDashAfterDigits(a[1..], b);
    }
  }

  /** A rendered integer followed by '-' splits off exactly: the number before, the rest after. */
  lemma SplitAfterInt(i: int, b: string)
    ensures var s := IntToDecimal(i) + "-" + b;
      NumberEnd(s) < |s| && s[..NumberEnd(s)] == IntToDecimal(i) && s[NumberEnd(s) + 1..] == b
  {
    var t := IntToDecimal(i);
    var s := t + "-" + b;
    if i < 0 {
      assert s[1..] == t[1..] + "-" + b;
      FirstDashAfterDigits(t[1..], b);
    } else {
      FirstDashAfterDigits(t, b);
    }
    assert NumberEnd(s) == |t|;
    assert s[..|t|] == t;
    assert s[|t| + 1..] == b;
  }

  /** The age text reads back as the difference of the two years. */
  lemma AgeTextReadsBack(thisYear: int, birth: DateComponents)
    requires birth.year.Some?
    ensures ParseInt(AgeText(thisYear, birth)) == Some(thisYear - birth.year.value)
  {
    IntToDecimalReadsBack(thisYear - birth.year.value);
  }

  /** Only the year components enter the age: birth month and day never change it. */
  lemma AgeIgnoresMonthAndDay(thisYear: int, a: DateComponents, b: DateComponents)
    requires a.year.Some? && a.year == b.year
    ensures AgeText(thisYear, a) == AgeText(thisYear, b)
  {
  }

  /** The age is not clamped: a birth year after the current one gives a negative age. */
  lemma AgeNotClamped(thisYear: int, birth: DateComponents)
    requires birth.year.Some? && birth.year.value > thisYear
    ensures AgeText(thisYear, birth)[0] == '-'
  {
  }

  /**
   * The date-of-birth text is the day, a dash, the month, a dash and the
   * year, and reads back as exactly those three integers.
   */
  lemma DobTextReadsBack(birth: DateComponents)
    requires HasYearMonthDay(birth)
    ensures ParseDob(DobText(birth)) == Some((birth.day.value, birth.month.value, birth.year.value))
  {
    var d, m, y := birth.day.value, birth.month.value, birth.year.value;
    var rest := IntToDecimal(m) + "-" + IntToDecimal(y);
    assert DobText(birth) == IntToDecimal(d) + "-" + rest;
    SplitAfterInt(d, rest);
    SplitAfterInt(m, IntToDecimal(y));
    IntToDecimalReadsBack(d);
    IntToDecimalReadsBack(m);
    IntToDecimalReadsBack(y);
  }

  /** Different dates of birth are shown as different texts. */
  lemma DobTextInjective(a: DateComponents, b: DateComponents)
    requires HasYearMonthDay(a) && HasYearMonthDay(b)
    ensures DobText(a) == DobText(b) ==> a == b
  {
    DobTextReadsBack(a);
    DobTextReadsBack(b);
  }
}
