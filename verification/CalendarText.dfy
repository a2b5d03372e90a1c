/**
 * Dates as the program keeps them: texts of the form YYYY-MM-DD, compared as texts. For years of
 * four digits the text determines the date, and the order of texts is the order of dates.
 */
module CalendarText {
  import opened Common
  import opened BillingCycle

  // ---------------------------------------------------------------- texts

  function Digit(n: int): char
    requires 0 <= n <= 9
  {
    '0' + n as char
  }

  function DigitValue(c: char): Option<int> {
    if '0' <= c <= '9' then Some(c as int - '0' as int) else None
  }

  function TwoDigits(n: int): string
    requires 0 <= n <= 99
  {
    [Digit(n / 10), Digit(n % 10)]
  }

  predicate HasFourDigitYear(d: Date) {
    1000 <= d.year <= 9999
  }

  function Format(d: Date): (s: string)
    requires IsReal(d) && HasFourDigitYear(d)
    ensures |s| == 10
  {
    TwoDigits(d.year / 100) + TwoDigits(d.year % 100) + "-" + TwoDigits(d.month) + "-" + TwoDigits(d.day)
  }

  function ParseTwo(s: string): Option<int>
    requires |s| == 2
  {
    if DigitValue(s[0]).None? || DigitValue(s[1]).None? then None
    else Some(10 * DigitValue(s[0]).value + DigitValue(s[1]).value)
  }

  /** Four digits, two digits and two digits, naming a day that exists. */
  function Parse(s: string): (r: Option<Date>)
    ensures r.Some? ==> IsReal(r.value)
  {
    if |s| != 10 || s[4] != '-' || s[7] != '-' then None
    else
      var (century, rest, month, day) := (ParseTwo(s[0..2]), ParseTwo(s[2..4]), ParseTwo(s[5..7]), ParseTwo(s[8..10]));
      if century.None? || rest.None? || month.None? || day.None? then None
      else
        var d := Date(100 * century.value + rest.value, month.value, day.value);
        if IsReal(d) then Some(d) else None
  }

  /** The order the program compares texts by. */
  predicate TextBefore(a: string, b: string) {
    if b == [] then false
    else if a == [] then true
    else if a[0] != b[0] then a[0] < b[0]
    else TextBefore(a[1..], b[1..])
  }

  // ---------------------------------------------------------------- round trips

  lemma ParseTwoOfTwoDigits(n: int)
    requires 0 <= n <= 99
    ensures ParseTwo(TwoDigits(n)) == Some(n)
  {
    assert n == 10 * (n / 10) + n % 10;
  }

  lemma TwoDigitsOfParseTwo(s: string)
    requires |s| == 2 && ParseTwo(s).Some?
    ensures 0 <= ParseTwo(s).value <= 99 && TwoDigits(ParseTwo(s).value) == s
  {
    var x, y := DigitValue(s[0]).value, DigitValue(s[1]).value;
    assert (10 * x + y) / 10 == x && (10 * x + y) % 10 == y;
    assert s == [s[0], s[1]];
  }

  lemma Fields(d: Date)
    requires IsReal(d) && HasFourDigitYear(d)
    ensures var s := Format(d);
      && s[0..2] == TwoDigits(d.year / 100) && s[2..4] == TwoDigits(d.year % 100) && s[4] == '-'
      && s[5..7] == TwoDigits(d.month) && s[7] == '-' && s[8..10] == TwoDigits(d.day)
  {
  }

  /** Parsing what was formatted gives the date back. */
  lemma ParseOfFormat(d: Date)
    requires IsReal(d) && HasFourDigitYear(d)
    ensures Parse(Format(d)) == Some(d)
  {
    Fields(d);
    ParseTwoOfTwoDigits(d.year / 100);
    ParseTwoOfTwoDigits(d.year % 100);
    ParseTwoOfTwoDigits(d.month);
    ParseTwoOfTwoDigits(d.day);
  }

  /** And formatting what was parsed gives the text back. */
  lemma FormatOfParse(s: string)
    requires Parse(s).Some? && HasFourDigitYear(Parse(s).value)
    ensures Format(Parse(s).value) == s
  {
    var d := Parse(s).value;
    TwoDigitsOfParseTwo(s[0..2]);
    TwoDigitsOfParseTwo(s[2..4]);
    TwoDigitsOfParseTwo(s[5..7]);
    TwoDigitsOfParseTwo(s[8..10]);
    var c, y := ParseTwo(s[0..2]).value, ParseTwo(s[2..4]).value;
    assert (100 * c + y) / 100 == c && (100 * c + y) % 100 == y;
    assert s == s[0..2] + s[2..4] + "-" + s[5..7] + "-" + s[8..10];
  }

  // ---------------------------------------------------------------- the order

  /** Texts are compared part by part. */
  lemma {:induction false} TextBeforeByParts(a: string, x: string, b: string, y: string)
    requires |a| == |b|
    ensures TextBefore(a + x, b + y) <==> TextBefore(a, b) || (a == b && TextBefore(x, y))
  {
    if a == [] {
      assert a + x == x && b + y == y;
    } else {
      assert (a + x)[1..] == a[1..] + x && (b + y)[1..] == b[1..] + y;
      TextBeforeByParts(a[1..], x, b[1..], y);
      assert a == [a[0]] + a[1..] && b == [b[0]] + b[1..];
    }
  }

  lemma TwoDigitsInOrder(m: int, n: int)
    requires 0 <= m <= 99 && 0 <= n <= 99
    ensures TextBefore(TwoDigits(m), TwoDigits(n)) <==> m < n
    ensures TwoDigits(m) == TwoDigits(n) <==> m == n
  {
    ParseTwoOfTwoDigits(m);
    ParseTwoOfTwoDigits(n);
    var s, t := TwoDigits(m), TwoDigits(n);
    assert s[1..] == [Digit(m % 10)] && t[1..] == [Digit(n % 10)];
    assert TextBefore(s[1..], t[1..]) <==> m % 10 < n % 10;
    assert s[0] < t[0] <==> m / 10 < n / 10;
    assert m == 10 * (m / 10) + m % 10 && n == 10 * (n / 10) + n % 10;
  }

  lemma YearInOrder(m: int, n: int)
    requires 1000 <= m <= 9999 && 1000 <= n <= 9999
    ensures var (s, t) := (TwoDigits(m / 100) + TwoDigits(m % 100), TwoDigits(n / 100) + TwoDigits(n % 100));
      (TextBefore(s, t) <==> m < n) && (s == t <==> m == n)
  {
    TwoDigitsInOrder(m / 100, n / 100);
    TwoDigitsInOrder(m % 100, n % 100);
    TextBeforeByParts(TwoDigits(m / 100), TwoDigits(m % 100), TwoDigits(n / 100), TwoDigits(n % 100));
    var s, t := TwoDigits(m / 100) + TwoDigits(m % 100), TwoDigits(n / 100) + TwoDigits(n % 100);
    if s == t {
      assert s[..2] == TwoDigits(m / 100) && t[..2] == TwoDigits(n / 100);
      assert s[2..] == TwoDigits(m % 100) && t[2..] == TwoDigits(n % 100);
    }
  }

  /** The order of the texts is the order of the dates. */
  lemma TextOrderIsDateOrder(a: Date, b: Date)
    requires IsReal(a) && IsReal(b) && HasFourDigitYear(a) && HasFourDigitYear(b)
    ensures TextBefore(Format(a), Format(b)) <==> Before(a, b)
    ensures Format(a) == Format(b) <==> a == b
  {
    var ya, yb := TwoDigits(a.year / 100) + TwoDigits(a.year % 100), TwoDigits(b.year / 100) + TwoDigits(b.year % 100);
    var ma, mb := TwoDigits(a.month), TwoDigits(b.month);
    var da, db := TwoDigits(a.day), TwoDigits(b.day);
    assert Format(a) == ya + ("-" + (ma + ("-" + da))) && Format(b) == yb + ("-" + (mb + ("-" + db)));
    TextBeforeByParts(ya, "-" + (ma + ("-" + da)), yb, "-" + (mb + ("-" + db)));
    TextBeforeByParts("-", ma + ("-" + da), "-", mb + ("-" + db));
    TextBeforeByParts(ma, "-" + da, mb, "-" + db);
    TextBeforeByParts("-", da, "-", db);
    YearInOrder(a.year, b.year);
    TwoDigitsInOrder(a.month, b.month);
    TwoDigitsInOrder(a.day, b.day);
    ParseOfFormat(a);
    ParseOfFormat(b);
  }
}
