/**
 * TelegramBot/src/commands.py once the portal has answered: the day a week
 * command opens on, the record `/start` creates, and the texts of the
 * summary marks, total marks, birthdays and events replies.
 */
module Commands {
  import opened Values
  import opened Coerce
  import opened Strings
  import opened BotText
  import opened CommandsUtils
  import opened HandlersUtils
  import opened General
  import opened Templates

  // ---------------------------------------------------------------------
  // Opening a week
  // ---------------------------------------------------------------------

  /** The day a week command opens on: `date + delta`, moved from a Saturday or Sunday to the next Monday. */
  function TargetDay(date: int, delta: int): int {
    var d := date + delta;
    if Weekday(d) == 5 || Weekday(d) == 6 then d + (7 - Weekday(d)) else d
  }

  /**
   * The shifted day is a school day no earlier than `date + delta`: a
   * weekday stays, a weekend day becomes the Monday right after it, and
   * every day skipped on the way is a weekend day.
   */
  lemma TargetDayIsSchoolDay(date: int, delta: int)
    ensures var d := TargetDay(date, delta);
            && 0 <= Weekday(d) <= 4
            && date + delta <= d <= date + delta + 2
            && (Weekday(date + delta) <= 4 ==> d == date + delta)
            && (Weekday(date + delta) >= 5 ==> Weekday(d) == 0)
            && forall x :: date + delta <= x < d ==> Weekday(x) >= 5
  {
    var s := date + delta;
    var w := Weekday(s);
    if w >= 5 {
      var q := (s + 6) / 7;
      assert s + 6 == 7 * q + w;
      var d := s + (7 - w);
      assert d + 6 == 7 * (q + 1);
      forall x | s <= x < d
        ensures Weekday(x) >= 5
      {
        assert x + 6 == 7 * q + w + (x - s);
      }
    }
  }

  /**
   * `date += delta`, then `date += timedelta(7 - date.weekday())` when the
   * result is a weekend day; the `current_weekday` stored beside the week is
   * the shifted day's weekday.
   */
  method ShiftToSchoolDay(date: int, delta: int) returns (day: int, currentWeekday: int)
    ensures day == TargetDay(date, delta)
    ensures currentWeekday == Weekday(day) && 0 <= currentWeekday <= 4
  {
    day := date;
    day := day + delta;
    if Weekday(day) == 5 || Weekday(day) == 6 {
      day := day + (7 - Weekday(day));
    }
    currentWeekday := Weekday(day);
    TargetDayIsSchoolDay(date, delta);
  }

  /**
   * `get_diary`, `get_homework` and `get_schedule_day`: the week holding the
   * shifted day is fetched (`fetch` stands for the client call made with the
   * stored session id), processed with the shifted day as the one to show
   * (`isoOf` is `str(date)`), and kept with the shifted day's weekday.
   */
  function WeekCommand(view: View, date: int, delta: int, fetch: int -> Result<seq<Day>>,
                       isoOf: int -> string, baseUrl: string, clean: Day -> Day): Result<(int, Week)>
  {
    var day := TargetDay(date, delta);
    var days :- fetch(day);
    var week :- WeekOf(view, days, isoOf(day), baseUrl, clean);
    Ok((Weekday(day), week))
  }

  /** A stored week always opens on a school day, the weekday of the shifted date. */
  lemma WeekOpensOnSchoolDay(view: View, date: int, delta: int, fetch: int -> Result<seq<Day>>,
                             isoOf: int -> string, baseUrl: string, clean: Day -> Day)
    requires WeekCommand(view, date, delta, fetch, isoOf, baseUrl, clean).Ok?
    ensures var (current, _) := WeekCommand(view, date, delta, fetch, isoOf, baseUrl, clean).value;
            current == Weekday(TargetDay(date, delta)) && 0 <= current <= 4
  {
    TargetDayIsSchoolDay(date, delta);
  }

  /**
   * One week command on the user's `*_week` entry: on success the entry
   * holds the processed week and its weekday, and the reply is the text of
   * the shifted day; any error leaves the entry as it was.
   */
  method OpenWeek(w: StoredWeek, view: View, date: int, delta: int, fetch: int -> Result<seq<Day>>,
                  isoOf: int -> string, baseUrl: string, clean: Day -> Day) returns (reply: Result<string>)
    modifies w
    ensures var r := WeekCommand(view, date, delta, fetch, isoOf, baseUrl, clean);
            && (r.Ok? ==> reply == Ok(r.value.1.text) && w.currentWeekday == r.value.0 && w.rows == r.value.1.rows)
            && (r.Err? ==> reply == Err(r.error) && w.currentWeekday == old(w.currentWeekday) && w.rows == old(w.rows))
  {
    var day, current := ShiftToSchoolDay(date, delta);
    var days := fetch(day);
    if days.Err? {
      return Err(days.error);
    }
    var week := ProcessWeek(view, days.value, isoOf(day), baseUrl, clean);
    if week.Err? {
      return Err(week.error);
    }
    w.currentWeekday := current;
    w.rows := week.value.rows;
    reply := Ok(week.value.text);
  }

  // ---------------------------------------------------------------------
  // /start
  // ---------------------------------------------------------------------

  /** `/start`: the store gains the template record for a user it does not know yet. */
  function Started(contents: map<string, map<string, Value>>, user: string): map<string, map<string, Value>> {
    if user in contents then contents else contents[user := UserDict()]
  }

  /**
   * Afterwards the user is known; every record that was there is untouched,
   * and a new user's record has every template key set to None.
   */
  lemma StartKeepsKnownUsers(contents: map<string, map<string, Value>>, user: string)
    ensures var after := Started(contents, user);
            && after.Keys == contents.Keys + {user}
            && (forall u :: u in contents ==> after[u] == contents[u])
            && (user !in contents ==> forall k :: k in after[user] <==> k in UserDictKeys)
            && (user !in contents ==> forall k :: k in after[user] ==> after[user][k] == Null)
  {
  }

  /** Sending `/start` twice is the same as sending it once. */
  lemma StartIdempotent(contents: map<string, map<string, Value>>, user: string)
    ensures Started(Started(contents, user), user) == Started(contents, user)
  {
  }

  // ---------------------------------------------------------------------
  // Summary marks
  // ---------------------------------------------------------------------

  /** The fields of a summary-marks discipline the reply prints; the average arrives already printed. */
  datatype SummaryDiscipline = SummaryDiscipline(discipline: Scalar, averageMark: string, marks: seq<int>)

  /** `[str(m.mark) for m in discipline.marks]`. */
  function ShownMarks(marks: seq<int>): (ws: seq<string>)
    ensures |ws| == |marks|
    ensures forall i :: 0 <= i < |marks| ==> ws[i] == ShowInt(marks[i])
  {
    seq(|marks|, i requires 0 <= i < |marks| => ShowInt(marks[i]))
  }

  /** One discipline's block: its name in bold, its average, and its marks on the next line. */
  function SummaryBlock(d: SummaryDiscipline): string {
    "\n*" + Show(d.discipline) + "*: " + d.averageMark + "\n" + Join(" ", ShownMarks(d.marks))
  }

  function SummaryBlocks(ds: seq<SummaryDiscipline>): seq<string> {
    seq(|ds|, i requires 0 <= i < |ds| => SummaryBlock(ds[i]))
  }

  /** `get_summary_marks`: `send_text += block` for each discipline in turn. */
  method SummaryMarksText(ds: seq<SummaryDiscipline>) returns (text: string)
    ensures text == Concat(SummaryBlocks(ds))
  {
    text := AppendAll("", SummaryBlocks(ds));
  }

  /** One more discipline appends exactly its block: the reply lists the disciplines in order. */
  lemma SummaryAppend(ds: seq<SummaryDiscipline>, d: SummaryDiscipline)
    ensures Concat(SummaryBlocks(ds + [d])) == Concat(SummaryBlocks(ds)) + SummaryBlock(d)
  {
    assert SummaryBlocks(ds + [d]) == SummaryBlocks(ds) + [SummaryBlock(d)];
    ConcatSnoc(SummaryBlocks(ds), SummaryBlock(d));
  }

  /**
   * The marks line lists the marks in order: a single mark is printed alone,
   * and each further mark adds a space and its value at the end.
   */
  lemma MarksLineInOrder(marks: seq<int>, m: int)
    ensures Join(" ", ShownMarks([m])) == ShowInt(m)
    ensures marks != [] ==>
              Join(" ", ShownMarks(marks + [m])) == Join(" ", ShownMarks(marks)) + " " + ShowInt(m)
  {
    if marks != [] {
      assert ShownMarks(marks + [m]) == ShownMarks(marks) + [ShowInt(m)];
      JoinSnoc(" ", ShownMarks(marks), ShowInt(m));
    }
  }

  // ---------------------------------------------------------------------
  // Total marks
  // ---------------------------------------------------------------------

  /** One entry of `period_marks` as the command reads it: `mark['subperiod_code']` and `mark['mark']`. */
  datatype PeriodMark = PeriodMark(subperiodCode: Scalar, mark: Scalar)

  datatype TotalDiscipline = TotalDiscipline(discipline: Scalar, periodMarks: seq<PeriodMark>)

  /** The codes paired in order with the first four subperiods. */
  const SubperiodCodes: seq<string> := ["1_1", "1_2", "1_3", "1_4"]

  /** The line that ends a page at the first discipline without a mark for the subperiod. */
  const NoMarks: string := "Оценок нет\n"

  /** The index of the first period mark with the code, or `|ms|` when there is none. */
  function FirstWithCode(ms: seq<PeriodMark>, code: string): (k: nat)
    ensures k <= |ms|
    ensures k < |ms| ==> ms[k].subperiodCode == Text(code)
  {
    if ms == [] || ms[0].subperiodCode == Text(code) then 0 else 1 + FirstWithCode(ms[1..], code)
  }

  /** No period mark before the one found has the code. */
  lemma {:induction false} FirstWithCodeIsFirst(ms: seq<PeriodMark>, code: string, j: nat)
    requires j < |ms| && ms[j].subperiodCode == Text(code)
    ensures FirstWithCode(ms, code) <= j
  {
    if j > 0 && ms[0].subperiodCode != Text(code) {
      FirstWithCodeIsFirst(ms[1..], code, j - 1);
    }
  }

  predicate HasMark(d: TotalDiscipline, code: string) {
    FirstWithCode(d.periodMarks, code) < |d.periodMarks|
  }

  /** The index of the first discipline with no mark for the code, or `|ds|` when all have one. */
  function FirstUnmarked(ds: seq<TotalDiscipline>, code: string): (k: nat)
    ensures k <= |ds|
    ensures k < |ds| ==> !HasMark(ds[k], code)
  {
    if ds == [] || !HasMark(ds[0], code) then 0 else 1 + FirstUnmarked(ds[1..], code)
  }

  /** Every discipline before the first unmarked one has a mark. */
  lemma {:induction false} MarkedBeforeGap(ds: seq<TotalDiscipline>, code: string, j: nat)
    requires j < FirstUnmarked(ds, code)
    ensures HasMark(ds[j], code)
  {
    if j > 0 {
      MarkedBeforeGap(ds[1..], code, j - 1);
    }
  }

  /** An unmarked discipline is at or after the first unmarked one. */
  lemma {:induction false} GapIsFirst(ds: seq<TotalDiscipline>, code: string, j: nat)
    requires j < |ds| && !HasMark(ds[j], code)
    ensures FirstUnmarked(ds, code) <= j
  {
    if j > 0 && HasMark(ds[0], code) {
      GapIsFirst(ds[1..], code, j - 1);
    }
  }

  /** `f"{discipline}: {mark['mark']}\n"` for the first period mark with the code. */
  function MarkLine(d: TotalDiscipline, code: string): string
    requires HasMark(d, code)
  {
    Show(d.discipline) + ": " + Show(d.periodMarks[FirstWithCode(d.periodMarks, code)].mark) + "\n"
  }

  /** The lines of the first `j` disciplines, all of which have a mark. */
  function MarkLines(ds: seq<TotalDiscipline>, code: string, j: nat): (lines: seq<string>)
    requires j <= FirstUnmarked(ds, code)
    ensures |lines| == j
  {
    if j == 0 then []
    else
      MarkedBeforeGap(ds, code, j - 1);
      MarkLines(ds, code, j - 1) + [MarkLine(ds[j - 1], code)]
  }

  lemma {:induction false} MarkLinesAt(ds: seq<TotalDiscipline>, code: string, j: nat, i: nat)
    requires i < j <= FirstUnmarked(ds, code) && HasMark(ds[i], code)
    ensures MarkLines(ds, code, j)[i] == MarkLine(ds[i], code)
  {
    if i < j - 1 {
      MarkLinesAt(ds, code, j - 1, i);
    }
  }

  /** A page's lines: one per discipline up to the first without a mark, which ends the page with `NoMarks`. */
  function PageLines(ds: seq<TotalDiscipline>, code: string): seq<string> {
    var k := FirstUnmarked(ds, code);
    MarkLines(ds, code, k) + (if k < |ds| then [NoMarks] else [])
  }

  function Page(name: string, code: string, ds: seq<TotalDiscipline>): string {
    "\n*" + name + "*\n" + Concat(PageLines(ds, code))
  }

  /** The pages of `get_total_marks`: `zip` stops at four and at the last subperiod. */
  function Pages(subperiods: seq<string>, ds: seq<TotalDiscipline>): seq<string> {
    PagesUpTo(subperiods, ds, if |subperiods| < 4 then |subperiods| else 4)
  }

  /** The pages of the first `n` subperiods. */
  function PagesUpTo(subperiods: seq<string>, ds: seq<TotalDiscipline>, n: nat): (pages: seq<string>)
    requires n <= 4 && n <= |subperiods|
    ensures |pages| == n
  {
    if n == 0 then [] else PagesUpTo(subperiods, ds, n - 1) + [Page(subperiods[n - 1], SubperiodCodes[n - 1], ds)]
  }

  lemma {:induction false} PagesUpToAt(subperiods: seq<string>, ds: seq<TotalDiscipline>, n: nat, i: nat)
    requires i < n <= 4 && n <= |subperiods|
    ensures PagesUpTo(subperiods, ds, n)[i] == Page(subperiods[i], SubperiodCodes[i], ds)
  {
    if i < n - 1 {
      PagesUpToAt(subperiods, ds, n - 1, i);
    }
  }

  /** The inner loop: the first period mark with the code, found with `break`. */
  method FindMark(ms: seq<PeriodMark>, code: string) returns (k: nat)
    ensures k == FirstWithCode(ms, code)
  {
    k := 0;
    while k < |ms|
      invariant k <= FirstWithCode(ms, code)
    {
      if ms[k].subperiodCode == Text(code) {
        FirstWithCodeIsFirst(ms, code, k);
        break;
      }
      k := k + 1;
    }
  }

  /** The loop over the disciplines for one subperiod; the `for … else` ends the page early. */
  method PageText(name: string, code: string, ds: seq<TotalDiscipline>) returns (text: string)
    ensures text == Page(name, code, ds)
  {
    text := "\n*" + name + "*\n";
    var j := 0;
    while j < |ds|
      invariant j <= FirstUnmarked(ds, code)
      invariant text == PageUpTo(name, code, ds, j)
    {
      var k := FindMark(ds[j].periodMarks, code);
      if k == |ds[j].periodMarks| {
        PageEndsAt(name, code, ds, j);
        text := text + NoMarks;
        return;
      }
      PageUpToStep(name, code, ds, j);
      text := text + MarkLine(ds[j], code);
      j := j + 1;
    }
    PageWithoutGap(name, code, ds);
  }

  /** The page text once the first `j` disciplines, all marked, have been written. */
  function PageUpTo(name: string, code: string, ds: seq<TotalDiscipline>, j: nat): string
    requires j <= FirstUnmarked(ds, code)
  {
    "\n*" + name + "*\n" + Concat(MarkLines(ds, code, j))
  }

  lemma PageUpToStep(name: string, code: string, ds: seq<TotalDiscipline>, j: nat)
    requires j < |ds| && j <= FirstUnmarked(ds, code) && HasMark(ds[j], code)
    ensures j + 1 <= FirstUnmarked(ds, code)
    ensures PageUpTo(name, code, ds, j + 1) == PageUpTo(name, code, ds, j) + MarkLine(ds[j], code)
  {
    ConcatSnoc(MarkLines(ds, code, j), MarkLine(ds[j], code));
  }

  lemma PageEndsAt(name: string, code: string, ds: seq<TotalDiscipline>, j: nat)
    requires j <= FirstUnmarked(ds, code) && j < |ds| && !HasMark(ds[j], code)
    ensures Page(name, code, ds) == PageUpTo(name, code, ds, j) + NoMarks
  {
    GapIsFirst(ds, code, j);
    ConcatSnoc(MarkLines(ds, code, j), NoMarks);
  }

  lemma PageWithoutGap(name: string, code: string, ds: seq<TotalDiscipline>)
    requires FirstUnmarked(ds, code) == |ds|
    ensures Page(name, code, ds) == PageUpTo(name, code, ds, |ds|)
  {
    assert PageLines(ds, code) == MarkLines(ds, code, |ds|) + [];
    assert MarkLines(ds, code, |ds|) + [] == MarkLines(ds, code, |ds|);
  }

  /** `get_total_marks`: one page per subperiod, at most four, page `i` under key `i`. */
  method TotalMarksPages(subperiods: seq<string>, ds: seq<TotalDiscipline>) returns (pages: seq<string>)
    ensures pages == Pages(subperiods, ds)
  {
    pages := [];
    var i := 0;
    while i < 4 && i < |subperiods|
      invariant 0 <= i <= 4 && i <= |subperiods|
      invariant pages == PagesUpTo(subperiods, ds, i)
    {
      var text := PageText(subperiods[i], SubperiodCodes[i], ds);
      pages := pages + [text];
      i := i + 1;
    }
  }

  /** The subperiod codes `1_1` … `1_4` of the filter `mark['subperiod_code'] == f"1_{i + 1}"`. */
  lemma SubperiodCodeOf(i: nat)
    requires i < 4
    ensures SubperiodCodes[i] == "1_" + [DigitChar(i + 1)]
  {
    if i == 0 {
    } else if i == 1 {
    } else if i == 2 {
    } else {
    }
  }

  /** There are as many pages as subperiods, but never more than four, and page `i` uses code `1_(i+1)`. */
  lemma PagesPairSubperiodsWithCodes(subperiods: seq<string>, ds: seq<TotalDiscipline>, i: nat)
    requires i < 4 && i < |subperiods|
    ensures |Pages(subperiods, ds)| == (if |subperiods| < 4 then |subperiods| else 4)
    ensures Pages(subperiods, ds)[i] == Page(subperiods[i], "1_" + [DigitChar(i + 1)], ds)
  {
    var n := if |subperiods| < 4 then |subperiods| else 4;
    PagesUpToAt(subperiods, ds, n, i);
    SubperiodCodeOf(i);
  }

  /** A discipline's line names it, so it is never the `NoMarks` line. */
  lemma MarkLineIsNotNoMarks(d: TotalDiscipline, code: string)
    requires HasMark(d, code)
    ensures MarkLine(d, code) != NoMarks
  {
    var name := Show(d.discipline);
    var line := MarkLine(d, code);
    assert line[|name|] == ':';
    assert forall i :: 0 <= i < |NoMarks| ==> NoMarks[i] != ':';
  }

  /** A page says `Оценок нет` exactly when some discipline has no mark for the subperiod. */
  lemma NoMarksIffUnmarked(ds: seq<TotalDiscipline>, code: string)
    ensures NoMarks in PageLines(ds, code) <==> exists j :: 0 <= j < |ds| && !HasMark(ds[j], code)
  {
    var k := FirstUnmarked(ds, code);
    var lines := PageLines(ds, code);
    if k == |ds| {
      forall i | 0 <= i < |ds|
        ensures HasMark(ds[i], code) && lines[i] != NoMarks
      {
        MarkedBeforeGap(ds, code, i);
        MarkLinesAt(ds, code, k, i);
        MarkLineIsNotNoMarks(ds[i], code);
      }
    } else {
      assert lines[k] == NoMarks;
    }
  }

  /**
   * The page follows the disciplines in order, each line from the first
   * period mark with the code; the `NoMarks` line is the last one, so the
   * disciplines after the first unmarked one are skipped.
   */
  lemma PageLinesInOrder(ds: seq<TotalDiscipline>, code: string, j: nat)
    requires j < |PageLines(ds, code)|
    ensures |PageLines(ds, code)| <= |ds|
    ensures PageLines(ds, code)[j] != NoMarks ==>
              HasMark(ds[j], code) && PageLines(ds, code)[j] == MarkLine(ds[j], code)
    ensures PageLines(ds, code)[j] == NoMarks ==>
              j == |PageLines(ds, code)| - 1 && !HasMark(ds[j], code)
  {
    var k := FirstUnmarked(ds, code);
    if j < k {
      MarkedBeforeGap(ds, code, j);
      MarkLinesAt(ds, code, k, j);
      MarkLineIsNotNoMarks(ds[j], code);
    }
  }

  /** `user['total_marks']` after the JSON store: page `i` under the text key `str(i)`. */
  function StoredPages(pages: seq<string>): map<string, Value> {
    if pages == [] then map[]
    else StoredPages(pages[..|pages| - 1])[ShowInt(|pages| - 1) := Str(pages[|pages| - 1])]
  }

  /** Every page is found under its own key. */
  lemma {:induction false} StoredPagesAt(pages: seq<string>, i: int)
    requires 0 <= i < |pages|
    ensures ShowInt(i) in StoredPages(pages) && StoredPages(pages)[ShowInt(i)] == Str(pages[i])
  {
    var n := |pages| - 1;
    if i < n {
      StoredPagesAt(pages[..n], i);
      ParseIntOfShowInt(i);
      ParseIntOfShowInt(n);
      assert ShowInt(i) != ShowInt(n);
    }
  }

  /** No key but those of the pages is stored. */
  lemma {:induction false} StoredPagesMissing(pages: seq<string>, i: int)
    requires !(0 <= i < |pages|)
    ensures ShowInt(i) !in StoredPages(pages)
  {
    if pages != [] {
      var n := |pages| - 1;
      StoredPagesMissing(pages[..n], i);
      ParseIntOfShowInt(i);
      ParseIntOfShowInt(n);
      assert ShowInt(i) != ShowInt(n);
    }
  }

  /**
   * `get_total_marks` on the user record: with the fetched subperiod names
   * and disciplines, the pages replace `total_marks`; a failed fetch leaves
   * the record as it was.
   */
  method GetTotalMarks(user: UserRecord, fetched: Result<(seq<string>, seq<TotalDiscipline>)>)
    returns (r: Result<()>)
    modifies user
    ensures fetched.Err? ==> r == Err(fetched.error) && user.fields == old(user.fields)
    ensures fetched.Ok? ==>
              && r == Ok(())
              && user.fields == old(user.fields)["total_marks" := Obj(StoredPages(Pages(fetched.value.0, fetched.value.1)))]
  {
    if fetched.Err? {
      return Err(fetched.error);
    }
    var pages := TotalMarksPages(fetched.value.0, fetched.value.1);
    user.fields := user.fields["total_marks" := Obj(StoredPages(pages))];
    r := Ok(());
  }

  // ---------------------------------------------------------------------
  // Birthdays and events
  // ---------------------------------------------------------------------

  datatype Birthday = Birthday(date: Scalar, shortName: string)

  datatype Event = Event(dateStr: string, theme: string)

  const BirthdaysHeader: string := "Дни Рождения:\n"
  const NoBirthdays: string := "Дни Рождения отсутствуют."
  const EventsHeader: string := "Текущие мероприятия:\n"
  const NoEvents: string := "Мероприятия отсутствуют."

  function BirthdayEntry(b: Birthday): string {
    "*" + Show(b.date) + "*\n" + EscapeIllegalChars(b.shortName) + "\n\n"
  }

  function BirthdayEntries(bs: seq<Birthday>): seq<string> {
    seq(|bs|, i requires 0 <= i < |bs| => BirthdayEntry(bs[i]))
  }

  function EventEntry(e: Event): string {
    "*" + EscapeIllegalChars(e.dateStr) + "*\n" + EscapeIllegalChars(e.theme) + "\n\n"
  }

  function EventEntries(es: seq<Event>): seq<string> {
    seq(|es|, i requires 0 <= i < |es| => EventEntry(es[i]))
  }

  /** `get_birthdays`: the header chosen by whether there are any, then `+=` one entry per birthday. */
  method BirthdaysText(bs: seq<Birthday>) returns (text: string)
    ensures text == (if bs != [] then BirthdaysHeader else NoBirthdays) + Concat(BirthdayEntries(bs))
  {
    text := if bs != [] then BirthdaysHeader else NoBirthdays;
    text := AppendAll(text, BirthdayEntries(bs));
  }

  /** `get_events`: the same shape with the events' headers and entries. */
  method EventsText(es: seq<Event>) returns (text: string)
    ensures text == (if es != [] then EventsHeader else NoEvents) + Concat(EventEntries(es))
  {
    text := if es != [] then EventsHeader else NoEvents;
    text := AppendAll(text, EventEntries(es));
  }

  /** The reply starts with the list header exactly when there is a birthday, and is the bare notice otherwise. */
  lemma BirthdaysHeaderIffAny(bs: seq<Birthday>)
    ensures var text := (if bs != [] then BirthdaysHeader else NoBirthdays) + Concat(BirthdayEntries(bs));
            && (IsPrefix(BirthdaysHeader, text) <==> bs != [])
            && (bs == [] ==> text == NoBirthdays)
  {
    if bs == [] {
      assert BirthdayEntries(bs) == [];
      assert NoBirthdays[12] != BirthdaysHeader[12];
    }
  }

  /** The reply starts with the list header exactly when there is an event, and is the bare notice otherwise. */
  lemma EventsHeaderIffAny(es: seq<Event>)
    ensures var text := (if es != [] then EventsHeader else NoEvents) + Concat(EventEntries(es));
            && (IsPrefix(EventsHeader, text) <==> es != [])
            && (es == [] ==> text == NoEvents)
  {
    if es == [] {
      assert EventEntries(es) == [];
      assert NoEvents[0] != EventsHeader[0];
    }
  }

  /** Each name is printed escaped, and the escaped text still reads back as the name. */
  lemma BirthdayNameReadsBack(b: Birthday)
    ensures var entry := BirthdayEntry(b);
            var shown := entry[|"*" + Show(b.date) + "*\n"|..|entry| - 2];
            Unescape(shown) == b.shortName
  {
    var entry := BirthdayEntry(b);
    var head := "*" + Show(b.date) + "*\n";
    assert entry[|head|..|entry| - 2] == EscapeIllegalChars(b.shortName);
    UnescapeEscape(b.shortName);
  }
}
