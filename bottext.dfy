/**
 * What the bot needs to turn record fields into message text: Python's
 * truthiness and `str()` for the scalar fields it prints, text assembled
 * with `+=`, the day-number calendar and the two date spellings it uses.
 */
module BotText {
  import opened Values
  import opened Coerce

  /** A printed record field: Python None, a text, or an integer. */
  datatype Scalar = Nothing | Text(s: string) | Number(n: int)

  /** `bool(x)`: None, the empty text and zero are false. */
  predicate Truthy(x: Scalar) {
    match x
    case Nothing => false
    case Text(s) => s != []
    case Number(n) => n != 0
  }

  /** `str(x)`, as an f-string or `format` prints the field. */
  function Show(x: Scalar): string {
    match x
    case Nothing => "None"
    case Text(s) => s
    case Number(n) => ShowInt(n)
  }

  /** The parts written one after another. */
  function Concat(parts: seq<string>): string {
    if parts == [] then [] else Concat(parts[..|parts| - 1]) + parts[|parts| - 1]
  }

  lemma {:induction false} ConcatAppend(a: seq<string>, b: seq<string>)
    ensures Concat(a + b) == Concat(a) + Concat(b)
    decreases |b|
  {
    if b == [] {
      assert a + b == a;
    } else {
      assert (a + b)[..|a + b| - 1] == a + b[..|b| - 1];
      ConcatAppend(a, b[..|b| - 1]);
    }
  }

  /** One more part at the end adds exactly that part. */
  lemma ConcatSnoc(parts: seq<string>, last: string)
    ensures Concat(parts + [last]) == Concat(parts) + last
  {
    assert (parts + [last])[..|parts|] == parts;
  }

  /** `text += part` for each part in order. */
  method AppendAll(init: string, parts: seq<string>) returns (text: string)
    ensures text == init + Concat(parts)
  {
    text := init;
    var i := 0;
    while i < |parts|
      invariant 0 <= i <= |parts|
      invariant text == init + Concat(parts[..i])
    {
      assert parts[..i + 1][..i] == parts[..i];
      text := text + parts[i];
      i := i + 1;
    }
    assert parts[..|parts|] == parts;
  }

  /**
   * A calendar day as its proleptic Gregorian ordinal (1 January of year 1
   * is day 1, a Monday); `date.weekday()` counts Monday as 0.
   */
  function Weekday(day: int): (w: int)
    ensures 0 <= w < 7
  {
    (day + 6) % 7
  }

  lemma WeekdayNext(day: int)
    ensures Weekday(day + 1) == (Weekday(day) + 1) % 7
  {
  }

  /** A calendar date as `datetime` holds it. */
  datatype Ymd = Ymd(year: int, month: int, day: int)

  predicate IsNonZeroDigit(c: char) {
    '1' <= c <= '9'
  }

  /** The text `%m` matches in `strptime` at `d[p..q]`: `1[0-2]|0[1-9]|[1-9]`. */
  predicate MonthAt(d: string, p: nat, q: nat)
    requires p <= q <= |d|
  {
    || (q == p + 1 && IsNonZeroDigit(d[p]))
    || (q == p + 2 && ((d[p] == '1' && '0' <= d[p + 1] <= '2') || (d[p] == '0' && IsNonZeroDigit(d[p + 1]))))
  }

  /** The text `%d` matches in `strptime` at `d[p..q]`: `3[0-1]|[1-2]\d|0[1-9]|[1-9]| [1-9]`. */
  predicate DayAt(d: string, p: nat, q: nat)
    requires p <= q <= |d|
  {
    || (q == p + 1 && IsNonZeroDigit(d[p]))
    || (q == p + 2 && (|| (d[p] == '3' && '0' <= d[p + 1] <= '1')
                       || ('1' <= d[p] <= '2' && IsDigit(d[p + 1]))
                       || ((d[p] == '0' || d[p] == ' ') && IsNonZeroDigit(d[p + 1]))))
  }

  /** A field character's digit value; the space that pads a day counts as zero. */
  function CharValue(c: char): (v: nat)
    ensures v < 10
  {
    if IsDigit(c) then DigitValue(c) else 0
  }

  /** The number a one- or two-character field `d[p..q]` denotes. */
  function FieldValue(d: string, p: nat, q: nat): nat
    requires p < q <= |d| && q <= p + 2
  {
    if q == p + 1 then CharValue(d[p]) else 10 * CharValue(d[p]) + CharValue(d[p + 1])
  }

  /**
   * The fields `strptime(d, '%Y-%m-%d')` finds: four digits, `-`, the month
   * field, `-` and the day field, with nothing left over. The month is one
   * or two characters long, and the dash after it says which.
   */
  function MatchIso(d: string): Option<Ymd> {
    if |d| < 8 || !(IsDigit(d[0]) && IsDigit(d[1]) && IsDigit(d[2]) && IsDigit(d[3])) || d[4] != '-' then None
    else
      var q := if d[6] == '-' then 6 else 7;
      if d[q] == '-' && MonthAt(d, 5, q) && DayAt(d, q + 1, |d|) then
        Some(Ymd(1000 * CharValue(d[0]) + 100 * CharValue(d[1]) + 10 * CharValue(d[2]) + CharValue(d[3]),
                 FieldValue(d, 5, q), FieldValue(d, q + 1, |d|)))
      else None
  }

  predicate IsLeap(y: int) {
    y % 4 == 0 && (y % 100 != 0 || y % 400 == 0)
  }

  function DaysInMonth(y: int, m: int): int {
    if m == 2 then (if IsLeap(y) then 29 else 28)
    else if m == 4 || m == 6 || m == 9 || m == 11 then 30
    else 31
  }

  /** What the `datetime` constructor accepts: year 1 onwards and a day of the month. */
  predicate ValidDate(t: Ymd) {
    1 <= t.year && 1 <= t.month <= 12 && 1 <= t.day <= DaysInMonth(t.year, t.month)
  }

  /** The last two decimal digits of `n`, zero-padded, as `%d` and `%m` print a day and a month. */
  function Pad2(n: nat): (r: string)
    ensures |r| == 2 && IsDigit(r[0]) && IsDigit(r[1])
  {
    [DigitChar(n / 10 % 10), DigitChar(n % 10)]
  }

  /** The last four decimal digits of `n`, zero-padded, as `%Y` prints a year. */
  function Pad4(n: nat): (r: string)
    ensures |r| == 4
  {
    Pad2(n / 100) + Pad2(n % 100)
  }

  /** The number two digit characters denote. */
  function TwoDigitValue(a: char, b: char): nat {
    10 * CharValue(a) + CharValue(b)
  }

  /** A `DD.MM.YYYY` text, the spelling `strftime('%d.%m.%Y')` produces. */
  predicate IsDotDate(t: string) {
    && |t| == 10 && t[2] == '.' && t[5] == '.'
    && IsDigit(t[0]) && IsDigit(t[1]) && IsDigit(t[3]) && IsDigit(t[4])
    && IsDigit(t[6]) && IsDigit(t[7]) && IsDigit(t[8]) && IsDigit(t[9])
  }

  /** `datetime.strptime(d, '%Y-%m-%d').strftime('%d.%m.%Y')`. */
  function Reformat(d: string): Result<string> {
    match MatchIso(d)
    case Some(t) =>
      if ValidDate(t) then Ok(Pad2(t.day) + "." + Pad2(t.month) + "." + Pad4(t.year))
      else Err(BadDate(d))
    case None => Err(BadDate(d))
  }

  /** `strptime(t, '%d.%m.%Y')` of the spelling `Reformat` produces. */
  function ReadDotDate(t: string): Ymd
    requires IsDotDate(t)
  {
    Ymd(100 * TwoDigitValue(t[6], t[7]) + TwoDigitValue(t[8], t[9]), TwoDigitValue(t[3], t[4]), TwoDigitValue(t[0], t[1]))
  }

  /**
   * Reformatting succeeds exactly when the text matches the three fields
   * and they name a real day, and gives a `DD.MM.YYYY` text; anything else
   * is a ValueError naming the text.
   */
  lemma ReformatShape(d: string)
    ensures Reformat(d).Ok? <==> MatchIso(d).Some? && ValidDate(MatchIso(d).value)
    ensures Reformat(d).Ok? ==> IsDotDate(Reformat(d).value)
    ensures Reformat(d).Err? ==> Reformat(d).error == BadDate(d)
  {
  }

  lemma DigitCharValue(x: char)
    requires IsDigit(x)
    ensures DigitChar(CharValue(x)) == x
  {
  }

  /** Two printed digits read back as the number below 100 they came from. */
  lemma Pad2Value(n: nat)
    requires n < 100
    ensures TwoDigitValue(Pad2(n)[0], Pad2(n)[1]) == n
  {
  }

  /** Four printed digits read back as the number below 10000 they came from. */
  lemma Pad4Value(n: nat)
    requires n < 10000
    ensures var r := Pad4(n); 100 * TwoDigitValue(r[0], r[1]) + TwoDigitValue(r[2], r[3]) == n
  {
    Pad2Value(n / 100);
    Pad2Value(n % 100);
  }

  /** The dotted date the bot stores reads back as the day the portal sent. */
  lemma UnformatReformat(d: string)
    requires Reformat(d).Ok?
    ensures IsDotDate(Reformat(d).value) && ReadDotDate(Reformat(d).value) == MatchIso(d).value
  {
    var t := MatchIso(d).value;
    var r := Reformat(d).value;
    Pad2Value(t.day);
    Pad2Value(t.month);
    Pad4Value(t.year);
    assert r[..2] == Pad2(t.day) && r[3..5] == Pad2(t.month) && r[6..] == Pad4(t.year);
  }

  /** A `YYYY-MM-DD` text, the zero-padded spelling the portal sends. */
  predicate IsIsoDate(d: string) {
    && |d| == 10 && d[4] == '-' && d[7] == '-'
    && IsDigit(d[0]) && IsDigit(d[1]) && IsDigit(d[2]) && IsDigit(d[3])
    && IsDigit(d[5]) && IsDigit(d[6]) && IsDigit(d[8]) && IsDigit(d[9])
  }

  lemma DivModTwoDigits(x: nat, y: nat)
    requires x < 10 && y < 10
    ensures (10 * x + y) / 10 % 10 == x && (10 * x + y) % 10 == y
  {
  }

  lemma DivModHundred(h: nat, l: nat)
    requires l < 100
    ensures (100 * h + l) / 100 == h && (100 * h + l) % 100 == l
  {
  }

  /** Two digits printed with `Pad2` are the digits themselves. */
  lemma Pad2Digits(a: char, b: char)
    requires IsDigit(a) && IsDigit(b)
    ensures Pad2(TwoDigitValue(a, b)) == [a, b]
  {
    DivModTwoDigits(CharValue(a), CharValue(b));
    DigitCharValue(a);
    DigitCharValue(b);
  }

  /** The four year digits printed with `Pad4` are the digits themselves. */
  lemma Pad4Digits(d: string)
    requires |d| >= 4 && IsDigit(d[0]) && IsDigit(d[1]) && IsDigit(d[2]) && IsDigit(d[3])
    ensures Pad4(100 * TwoDigitValue(d[0], d[1]) + TwoDigitValue(d[2], d[3])) == d[..4]
  {
    DivModHundred(TwoDigitValue(d[0], d[1]), TwoDigitValue(d[2], d[3]));
    Pad2Digits(d[0], d[1]);
    Pad2Digits(d[2], d[3]);
  }

  /** A zero-padded date of a real day is only rearranged: day, month and year keep their digits. */
  lemma ReformatRearranges(d: string)
    requires IsIsoDate(d) && Reformat(d).Ok?
    ensures Reformat(d).value == d[8..] + "." + d[5..7] + "." + d[..4]
  {
    var t := MatchIso(d).value;
    assert t.year == 100 * TwoDigitValue(d[0], d[1]) + TwoDigitValue(d[2], d[3]);
    assert t.month == TwoDigitValue(d[5], d[6]) && t.day == TwoDigitValue(d[8], d[9]);
    Pad2Digits(d[5], d[6]);
    Pad2Digits(d[8], d[9]);
    Pad4Digits(d);
    assert d[8..] == [d[8], d[9]] && d[5..7] == [d[5], d[6]];
  }

  lemma MatchUnpadded()
    ensures MatchIso("2024-1-5") == Some(Ymd(2024, 1, 5))
  {
    var d := "2024-1-5";
    assert d[0] == '2' && d[1] == '0' && d[2] == '2' && d[3] == '4' && d[4] == '-';
    assert d[5] == '1' && d[6] == '-' && d[7] == '5' && |d| == 8;
  }

  /** An unpadded month and day are read, and printed padded. */
  lemma ReformatUnpadded()
    ensures Reformat("2024-1-5") == Ok("05.01.2024")
  {
    MatchUnpadded();
    assert Pad2(5) == "05" && Pad2(1) == "01" && Pad2(20) == "20" && Pad2(24) == "24";
    assert Pad4(2024) == "2024";
    assert "05" + "." + "01" + "." + "2024" == "05.01.2024";
  }

  /** A month past December is refused. */
  lemma ReformatRefusesMonth13()
    ensures Reformat("2024-13-05") == Err(BadDate("2024-13-05"))
  {
    var d := "2024-13-05";
    assert d[6] == '3' && d[7] == '-' && d[5] == '1';
    assert MatchIso(d) == None;
  }

  /** 29 February exists in leap years only. */
  lemma ReformatRefusesFeb29()
    ensures Reformat("2023-02-29") == Err(BadDate("2023-02-29"))
  {
    var d := "2023-02-29";
    assert d[0] == '2' && d[1] == '0' && d[2] == '2' && d[3] == '3' && d[4] == '-';
    assert d[5] == '0' && d[6] == '2' && d[7] == '-' && d[8] == '2' && d[9] == '9' && |d| == 10;
    assert MatchIso(d) == Some(Ymd(2023, 2, 29));
  }
}
