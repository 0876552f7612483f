/**
 * `datetime.strptime(s, "%Y-%m-%d")` as the endpoint uses it to check the
 * submitted dates, following CPython's `_strptime`: the format becomes a
 * regular expression whose directives are alternatives tried in order
 * (`%Y` four digits; `%m` `1[0-2]|0[1-9]|[1-9]`; `%d`
 * `3[01]|[12]\d|0[1-9]|[1-9]| [1-9]`), matched at the start of the text;
 * text left after the match is refused, and so is a date the calendar does
 * not have.
 */
module DateParsing {
  import opened Common
  import Text

  datatype Date = Date(year: nat, month: nat, day: nat)

  /** Why `strptime` raised `ValueError`. */
  datatype DateError =
    | NoMatch          // "time data ... does not match format ..."
    | UnconvertedData  // "unconverted data remains: ..."
    | OutOfRange       // "day is out of range for month", "year 0 is out of range"

  predicate IsDigit(c: char) {
    '0' <= c <= '9'
  }

  function DigitValue(c: char): nat
    requires IsDigit(c)
  {
    c as int - '0' as int
  }

  function DigitChar(n: nat): (c: char)
    requires n < 10
    ensures IsDigit(c) && DigitValue(c) == n
  {
    ('0' as int + n) as char
  }

  /** One way an alternative of a directive matches at some position: the number read and where the match ends. */
  datatype Piece = Piece(value: nat, end: nat)

  /** `%m` at position `i`: the matching alternatives, in the order the regular expression tries them. */
  function MonthPieces(s: string, i: nat): (ps: seq<Piece>)
    ensures forall k :: 0 <= k < |ps| ==> i < ps[k].end <= |s| && 1 <= ps[k].value <= 12
  {
    (if i + 1 < |s| && s[i] == '1' && '0' <= s[i + 1] <= '2' then [Piece(10 + DigitValue(s[i + 1]), i + 2)] else [])
    + (if i + 1 < |s| && s[i] == '0' && '1' <= s[i + 1] <= '9' then [Piece(DigitValue(s[i + 1]), i + 2)] else [])
    + (if i < |s| && '1' <= s[i] <= '9' then [Piece(DigitValue(s[i]), i + 1)] else [])
  }

  /** `%d` at position `i`: the matching alternatives, in the order the regular expression tries them. */
  function DayPieces(s: string, i: nat): (ps: seq<Piece>)
    ensures forall k :: 0 <= k < |ps| ==> i < ps[k].end <= |s| && 1 <= ps[k].value <= 31
  {
    (if i + 1 < |s| && s[i] == '3' && '0' <= s[i + 1] <= '1' then [Piece(30 + DigitValue(s[i + 1]), i + 2)] else [])
    + (if i + 1 < |s| && '1' <= s[i] <= '2' && IsDigit(s[i + 1]) then [Piece(10 * DigitValue(s[i]) + DigitValue(s[i + 1]), i + 2)] else [])
    + (if i + 1 < |s| && s[i] == '0' && '1' <= s[i + 1] <= '9' then [Piece(DigitValue(s[i + 1]), i + 2)] else [])
    + (if i < |s| && '1' <= s[i] <= '9' then [Piece(DigitValue(s[i]), i + 1)] else [])
    + (if i + 1 < |s| && s[i] == ' ' && '1' <= s[i + 1] <= '9' then [Piece(DigitValue(s[i + 1]), i + 2)] else [])
  }

  /**
   * `-%d` after each `%m` alternative in turn: the first month alternative
   * after which a dash and a day match, with the first day alternative that
   * matches there.  Nothing follows `%d` in the pattern, so the first day
   * alternative is final.
   */
  function MonthThenDay(s: string, months: seq<Piece>): (r: Option<(Piece, Piece)>)
    ensures r.Some? ==> r.value.0 in months && r.value.0.end < |s| && s[r.value.0.end] == '-'
    ensures r.Some? ==> DayPieces(s, r.value.0.end + 1) != [] && r.value.1 == DayPieces(s, r.value.0.end + 1)[0]
    decreases |months|
  {
    if months == [] then None
    else
      var m := months[0];
      if m.end < |s| && s[m.end] == '-' && DayPieces(s, m.end + 1) != [] then Some((m, DayPieces(s, m.end + 1)[0]))
      else MonthThenDay(s, months[1..])
  }

  function FourDigits(s: string): nat
    requires |s| >= 4 && IsDigit(s[0]) && IsDigit(s[1]) && IsDigit(s[2]) && IsDigit(s[3])
  {
    1000 * DigitValue(s[0]) + 100 * DigitValue(s[1]) + 10 * DigitValue(s[2]) + DigitValue(s[3])
  }

  predicate LeapYear(y: nat) {
    y % 4 == 0 && (y % 100 != 0 || y % 400 == 0)
  }

  function DaysInMonth(y: nat, m: nat): nat
    requires 1 <= m <= 12
  {
    if m == 2 then (if LeapYear(y) then 29 else 28)
    else if m == 4 || m == 6 || m == 9 || m == 11 then 30
    else 31
  }

  /** A date the calendar of `datetime.date` has. */
  predicate ValidDate(d: Date) {
    1 <= d.year <= 9999 && 1 <= d.month <= 12 && 1 <= d.day <= DaysInMonth(d.year, d.month)
  }

  /** `datetime.strptime(s, "%Y-%m-%d")`, reduced to the date it reads or the reason it raises. */
  function Strptime(s: string): (r: Result<Date, DateError>)
    ensures r.Ok? ==> ValidDate(r.value)
  {
    if !(|s| >= 5 && IsDigit(s[0]) && IsDigit(s[1]) && IsDigit(s[2]) && IsDigit(s[3]) && s[4] == '-') then Err(NoMatch)
    else
      match MonthThenDay(s, MonthPieces(s, 5))
      case None => Err(NoMatch)
      case Some((m, d)) =>
        if d.end != |s| then Err(UnconvertedData)
        else
          var date := Date(FourDigits(s), m.value, d.value);
          if ValidDate(date) then Ok(date) else Err(OutOfRange)
  }

  /** `n` as two digits, zero-padded. */
  function Pad2(n: nat): (s: string)
    requires n < 100
    ensures |s| == 2 && IsDigit(s[0]) && IsDigit(s[1]) && 10 * DigitValue(s[0]) + DigitValue(s[1]) == n
  {
    [DigitChar(n / 10), DigitChar(n % 10)]
  }

  /** `n` as four digits, zero-padded. */
  function Pad4(n: nat): (s: string)
    requires n < 10000
    ensures |s| == 4
  {
    Pad2(n / 100) + Pad2(n % 100)
  }

  /** `d.strftime("%Y-%m-%d")`: zero-padded to four, two and two digits. */
  function Format(d: Date): (s: string)
    requires ValidDate(d)
    ensures |s| == 10
  {
    Pad4(d.year) + "-" + Pad2(d.month) + "-" + Pad2(d.day)
  }

  /** Calendar order. */
  predicate Before(a: Date, b: Date) {
    a.year < b.year || (a.year == b.year && (a.month < b.month || (a.month == b.month && a.day < b.day)))
  }

  lemma Pad2Order(n: nat, m: nat)
    requires n < 100 && m < 100
    ensures Text.Less(Pad2(n), Pad2(m)) <==> n < m
    ensures Pad2(n) == Pad2(m) <==> n == m
  {
    var a, b := Pad2(n), Pad2(m);
    assert a[1..][0] == a[1] && b[1..][0] == b[1];
    assert !Text.Less(a[1..][1..], b[1..][1..]) by {
      assert a[1..][1..] == [] && b[1..][1..] == [];
    }
    assert Text.Less(a[1..], b[1..]) <==> a[1] < b[1];
    assert Text.Less(a, b) <==> a[0] < b[0] || (a[0] == b[0] && a[1] < b[1]);
    assert a == b <==> a[0] == b[0] && a[1] == b[1];
  }

  lemma Pad4Order(n: nat, m: nat)
    requires n < 10000 && m < 10000
    ensures Text.Less(Pad4(n), Pad4(m)) <==> n < m
    ensures Pad4(n) == Pad4(m) <==> n == m
  {
    Pad2Order(n / 100, m / 100);
    Pad2Order(n % 100, m % 100);
    Text.LessAppend(Pad2(n / 100), Pad2(n % 100), Pad2(m / 100), Pad2(m % 100));
    if Pad4(n) == Pad4(m) {
      assert Pad2(n / 100) == Pad4(n)[..2] && Pad2(m / 100) == Pad4(m)[..2];
      assert Pad2(n % 100) == Pad4(n)[2..] && Pad2(m % 100) == Pad4(m)[2..];
    }
  }

  /**
   * For dates written out in full, comparing the texts as strings is
   * comparing the dates: the endpoint's `start_date > end_date` is the
   * calendar order when both are zero-padded.
   */
  lemma FormatOrder(a: Date, b: Date)
    requires ValidDate(a) && ValidDate(b)
    ensures Text.Less(Format(a), Format(b)) <==> Before(a, b)
  {
    Pad4Order(a.year, b.year);
    Pad2Order(a.month, b.month);
    Pad2Order(a.day, b.day);
    var ya, yb := Pad4(a.year) + "-", Pad4(b.year) + "-";
    var ma, mb := Pad2(a.month) + "-", Pad2(b.month) + "-";
    Text.LessAppend(Pad4(a.year), "-", Pad4(b.year), "-");
    Text.LessIrreflexive("-");
    Text.LessAppend(Pad2(a.month), "-", Pad2(b.month), "-");
    Text.LessAppend(ma, Pad2(a.day), mb, Pad2(b.day));
    Text.LessAppend(ya, ma + Pad2(a.day), yb, mb + Pad2(b.day));
    assert Format(a) == ya + (ma + Pad2(a.day)) && Format(b) == yb + (mb + Pad2(b.day));
    if ya == yb {
      assert Pad4(a.year) == ya[..4] && Pad4(b.year) == yb[..4];
    }
    if ma == mb {
      assert Pad2(a.month) == ma[..2] && Pad2(b.month) == mb[..2];
    }
  }

  /** A date written out in full reads back as itself. */
  lemma FormatRoundTrip(d: Date)
    requires ValidDate(d)
    ensures Strptime(Format(d)) == Ok(d)
  {
    var s := Format(d);
    var y, m, dd := Pad4(d.year), Pad2(d.month), Pad2(d.day);
    assert s[..4] == y && s[4] == '-' && s[5..7] == m && s[7] == '-' && s[8..] == dd;
    assert FourDigits(s) == d.year by {
      assert y == Pad2(d.year / 100) + Pad2(d.year % 100);
      assert s[0] == y[0] && s[1] == y[1] && s[2] == y[2] && s[3] == y[3];
    }
    var months := MonthPieces(s, 5);
    assert months != [] && months[0] == Piece(d.month, 7);
    var days := DayPieces(s, 8);
    assert days != [] && days[0] == Piece(d.day, 10);
  }

  lemma ReadsUnpaddedMonth()
    ensures Strptime("2024-9-01") == Ok(Date(2024, 9, 1))
  {
    assert MonthPieces("2024-9-01", 5) == [Piece(9, 6)];
    assert DayPieces("2024-9-01", 7)[0] == Piece(1, 9);
  }

  lemma ReadsPaddedMonth()
    ensures Strptime("2024-10-01") == Ok(Date(2024, 10, 1))
  {
    assert MonthPieces("2024-10-01", 5)[0] == Piece(10, 7);
    assert DayPieces("2024-10-01", 8)[0] == Piece(1, 10);
  }

  /** As strings, the padded October date sorts before the unpadded September one. */
  lemma TenSortsBeforeNine()
    ensures Text.Less("2024-10-01", "2024-9-01")
  {
    var a, b := "2024-10-01", "2024-9-01";
    assert a[..5] == b[..5];
    assert a[5..][0] < b[5..][0];
    Text.LessAppend(a[..5], a[5..], b[..5], b[5..]);
    assert a[..5] + a[5..] == a && b[..5] + b[5..] == b;
  }

  /**
   * Without the padding the string order and the calendar order part:
   * `strptime` reads both texts below, the first is the earlier date, and
   * yet it is the greater string, so the endpoint refuses the range.
   */
  lemma UnpaddedMonthMisordered()
    ensures Strptime("2024-9-01") == Ok(Date(2024, 9, 1))
    ensures Strptime("2024-10-01") == Ok(Date(2024, 10, 1))
    ensures Before(Date(2024, 9, 1), Date(2024, 10, 1))
    ensures Text.Less("2024-10-01", "2024-9-01")
  {
    ReadsUnpaddedMonth();
    ReadsPaddedMonth();
    TenSortsBeforeNine();
  }
}
