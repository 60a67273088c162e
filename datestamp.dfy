/**
 * The `strftime('%d%m%Y')` date field of the edition's ETag input: day and month as
 * two zero-padded decimal digits, the year zero-padded to at least four digits and
 * preceded by '-' when negative. A decoder reads the three numbers back, which shows
 * that the stamp determines the calendar date.
 */
module DateStamp {

  predicate IsDigit(c: char) { '0' <= c <= '9' }

  function DigitChar(d: nat): (c: char)
    requires d < 10
    ensures IsDigit(c)
  {
    ('0' as int + d) as char
  }

  function DigitValue(c: char): (d: nat)
    requires IsDigit(c)
    ensures d < 10
  {
    c as int - '0' as int
  }

  predicate AllDigits(s: string) {
    forall i :: 0 <= i < |s| ==> IsDigit(s[i])
  }

  /** The decimal numeral of `n` without leading zeros ("0" for zero). */
  function Numeral(n: nat): (s: string)
    ensures |s| >= 1
    ensures AllDigits(s)
    ensures n < 10 ==> |s| == 1
    ensures 10 <= n < 100 ==> |s| == 2
  {
    if n < 10 then [DigitChar(n)] else Numeral(n / 10) + [DigitChar(n % 10)]
  }

  /** A number below 10000 has at most four digits. */
  lemma {:induction false} NumeralOfSmall(n: nat)
    requires n < 10000
    ensures |Numeral(n)| <= 4
  {
    if n >= 10 {
      NumeralOfSmall(n / 10);
    }
  }

  function Zeros(k: nat): (s: string)
    ensures |s| == k
    ensures AllDigits(s)
  {
    if k == 0 then [] else Zeros(k - 1) + ['0']
  }

  /** `n` in decimal, left-padded with '0' to at least `width` characters. */
  function Padded(n: nat, width: nat): (s: string)
    ensures |s| >= width && |s| >= 1
    ensures AllDigits(s)
    ensures n < 100 && width == 2 ==> |s| == 2
    ensures n < 10000 && width == 4 ==> |s| == 4
  {
    var digits := Numeral(n);
    var s := if |digits| >= width then digits else Zeros(width - |digits|) + digits;
    if n < 10000 then NumeralOfSmall(n); s else s
  }

  /** The number a string of decimal digits denotes, most significant digit first. */
  function Value(s: string): nat
    requires AllDigits(s)
  {
    if s == [] then 0 else Value(s[..|s| - 1]) * 10 + DigitValue(s[|s| - 1])
  }

  lemma {:induction false} ValueOfNumeral(n: nat)
    ensures Value(Numeral(n)) == n
  {
    if n >= 10 {
      var s := Numeral(n);
      assert s[..|s| - 1] == Numeral(n / 10);
      ValueOfNumeral(n / 10);
    }
  }

  lemma {:induction false} ValueOfZeros(k: nat)
    ensures Value(Zeros(k)) == 0
  {
    if k > 0 {
      assert Zeros(k)[..k - 1] == Zeros(k - 1);
      ValueOfZeros(k - 1);
    }
  }

  /** Leading zeros do not change the value of a numeral. */
  lemma {:induction false} LeadingZeros(k: nat, s: string)
    requires AllDigits(s)
    ensures Value(Zeros(k) + s) == Value(s)
    decreases |s|
  {
    if s == [] {
      assert Zeros(k) + s == Zeros(k);
      ValueOfZeros(k);
    } else {
      var t := Zeros(k) + s;
      assert t[..|t| - 1] == Zeros(k) + s[..|s| - 1];
      LeadingZeros(k, s[..|s| - 1]);
    }
  }

  /** Zero padding reads back as the padded number. */
  lemma ValueOfPadded(n: nat, width: nat)
    ensures Value(Padded(n, width)) == n
  {
    ValueOfNumeral(n);
    var digits := Numeral(n);
    if |digits| < width {
      LeadingZeros(width - |digits|, digits);
      assert Padded(n, width) == Zeros(width - |digits|) + digits;
    } else {
      assert Padded(n, width) == digits;
    }
  }

  /**
   * Ruby's `%Y`: the year padded to at least four digits, with a leading '-' when
   * negative; `DecodeYear` reads it back.
   */
  function YearField(year: int): (s: string)
    ensures |s| >= 4
    ensures 0 <= year <= 9999 ==> |s| == 4
    ensures year >= 0 <==> IsDigit(s[0])
    ensures year >= 0 ==> AllDigits(s)
    ensures year < 0 ==> s[0] == '-' && AllDigits(s[1..]) && |s| >= 5
    ensures DecodeYear(s) == year
  {
    if year < 0 then
      var digits := Padded(-year, 4);
      var s := "-" + digits;
      assert s[1..] == digits;
      ValueOfPadded(-year, 4);
      s
    else
      ValueOfPadded(year, 4);
      Padded(year, 4)
  }

  /**
   * `strftime('%d%m%Y')`: day, month and year with no separators. For a two-digit day
   * and month, `DecodeStamp` gives back the day, month and year it was made from.
   */
  function Stamp(day: nat, month: nat, year: int): (s: string)
    ensures |s| >= 8
    ensures year >= 0 ==> AllDigits(s)
    ensures day < 100 && month < 100 && 0 <= year <= 9999 ==> |s| == 8
    ensures day < 100 && month < 100 ==> DecodeStamp(s) == Date(day, month, year)
  {
    var dd, mm, yyyy := Padded(day, 2), Padded(month, 2), YearField(year);
    var s := dd + mm + yyyy;
    if day < 100 && month < 100 then
      assert s[..2] == dd && s[2..4] == mm && s[4..] == yyyy;
      ValueOfPadded(day, 2);
      ValueOfPadded(month, 2);
      s
    else
      s
  }

  /** A calendar date as read back from a stamp. */
  datatype Date = Date(day: nat, month: nat, year: int)

  function DecodeYear(s: string): (y: int)
    requires |s| >= 1
  {
    if s[0] == '-' && AllDigits(s[1..]) then -(Value(s[1..]) as int)
    else if AllDigits(s) then Value(s) as int
    else 0
  }

  /** The date a stamp denotes: two day digits, two month digits, then the year. */
  function DecodeStamp(s: string): (d: Date)
    requires |s| >= 5
  {
    var dd, mm := s[..2], s[2..4];
    Date(if AllDigits(dd) then Value(dd) else 0,
         if AllDigits(mm) then Value(mm) else 0,
         DecodeYear(s[4..]))
  }

  /** Two dates with two-digit day and month have equal stamps exactly when they are equal. */
  lemma StampInjective(d1: nat, m1: nat, y1: int, d2: nat, m2: nat, y2: int)
    requires d1 < 100 && m1 < 100 && d2 < 100 && m2 < 100
    ensures Stamp(d1, m1, y1) == Stamp(d2, m2, y2) <==> d1 == d2 && m1 == m2 && y1 == y2
  {
  }
}
