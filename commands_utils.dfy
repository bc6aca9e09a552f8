/**
 * TelegramBot/src/utils/commands_utils.py: how a fetched week of diary,
 * homework or schedule days becomes the per-day lesson tables the bot
 * stores (`result_dict[i]`) and the message it sends for the requested day.
 */
module CommandsUtils {
  import opened Values
  import opened Strings
  import opened BotText
  import Coerce

  /** An attached link, with the `name` and `url` entries the bot reads. */
  datatype Material = Material(name: string, url: string)

  /** The fields of a decoded lesson that the three week views read. */
  datatype Lesson =
    | DiaryLesson(date: string, discipline: Scalar, theme: Scalar, mark: Scalar, markType: Scalar,
                  comment: Scalar, remarks: Scalar, attendance: Scalar)
    | HomeworkLesson(date: string, discipline: Scalar, homework: Scalar, timeToComplete: Scalar,
                     materials: seq<Material>)
    | ScheduleLesson(date: string, discipline: Scalar, teacher: Scalar, office: Scalar,
                     timeBegin: Option<string>, timeEnd: Option<string>)

  /** A decoded day: its `date` and its lessons (`homeworks` for a homework day). */
  datatype Day = Day(date: string, lessons: seq<Lesson>)

  /** Which of the three `proccess_*` functions is running. */
  datatype View = DiaryView | HomeworkView | ScheduleView

  /** One entry appended to `result_dict[i]`: the keys the lesson template is later filled from. */
  datatype Row =
    | DiaryRow(date: string, discipline: string, theme: string, markInfo: string,
               comment: string, remarks: string, attendance: string)
    | HomeworkRow(date: string, discipline: string, homework: string, timeToComplete: string,
                  materials: string)
    | ScheduleRow(date: string, discipline: string, teacher: string, start: string, end: string,
                  office: string)

  /** The stored tables by day index, and the text to send. */
  datatype Week = Week(rows: map<int, seq<Row>>, text: string)

  /** `f'\n{label}{x}' if x else ''`. */
  function Labeled(caption: string, x: Scalar): string {
    if Truthy(x) then "\n" + caption + Show(x) else ""
  }

  /** `'\n[name](base_url[:-1] + url)'`: a Markdown link on the portal's host. */
  function MaterialLink(m: Material, baseUrl: string): string {
    "\n[" + m.name + "](" + DropLast(baseUrl, 1) + m.url + ")"
  }

  /** The links after a fixed label, one per line, or nothing when there are none. */
  function MaterialsText(ms: seq<Material>, baseUrl: string): (t: string)
    ensures ms == [] <==> t == []
  {
    if ms == [] then ""
    else "\nПрикреплённые сслыки: " + Join("\n", seq(|ms|, i requires 0 <= i < |ms| => MaterialLink(ms[i], baseUrl)))
  }

  /** `time[:-3]` for a time that is present, `''` for None. */
  function TimeText(t: Option<string>): (r: string)
    ensures t.None? ==> r == []
    ensures t.Some? && |t.value| >= 3 ==> r == t.value[..|t.value| - 3]
  {
    if t.Some? then DropLast(t.value, 3) else ""
  }

  /** The entry a lesson becomes, dated with the day's `DD.MM.YYYY` text. */
  function RowOf(l: Lesson, fTime: string, baseUrl: string): (r: Row)
    ensures r.date == fTime
  {
    match l
    case DiaryLesson(_, discipline, theme, mark, markType, comment, remarks, attendance) =>
      DiaryRow(fTime, Show(discipline), Labeled("", theme),
               if Truthy(mark) then "\n" + Show(mark) + " - " + Show(markType) else "",
               Labeled("Комментарий: ", comment), Labeled("Замечание: ", remarks), Labeled("", attendance))
    case HomeworkLesson(_, discipline, homework, ttc, materials) =>
      HomeworkRow(fTime, Show(discipline), if Truthy(homework) then Show(homework) else "Нет",
                  if Truthy(ttc) then "(" + Show(ttc) + " мин)" else "", MaterialsText(materials, baseUrl))
    case ScheduleLesson(_, discipline, teacher, office, timeBegin, timeEnd) =>
      ScheduleRow(fTime, Show(discipline), Show(teacher), TimeText(timeBegin), TimeText(timeEnd), Show(office))
  }

  /**
   * DIARY_LESSON_TEMPLATE, HOMEWORK_LESSON_TEMPLATE and SCHEDULE_DAY_TEMPLATE
   * filled from an entry's keys (the date is not part of the template).
   */
  function Template(r: Row): string {
    match r
    case DiaryRow(_, discipline, theme, markInfo, comment, remarks, attendance) =>
      "\n*" + discipline + "*" + theme + markInfo + comment + remarks + attendance + "\n"
    case HomeworkRow(_, discipline, homework, ttc, materials) =>
      "\n*" + discipline + "*\n" + homework + " " + ttc + materials + "\n"
    case ScheduleRow(_, discipline, teacher, start, end, office) =>
      "\n*" + discipline + "*\n" + teacher + "\n" + office + "\n" + start + "-" + end + "\n"
  }

  /** The entries of one day, one per lesson and in lesson order. */
  function RowsOf(day: Day, fTime: string, baseUrl: string): (rows: seq<Row>)
  {
    seq(|day.lessons|, j requires 0 <= j < |day.lessons| => RowOf(day.lessons[j], fTime, baseUrl))
  }

  function Filled(rows: seq<Row>): seq<string> {
    seq(|rows|, j requires 0 <= j < |rows| => Template(rows[j]))
  }

  /** `form_*_send_text`: the bold date, then the filled template of each lesson. */
  function FormText(day: Day, fTime: string, baseUrl: string): string {
    "*" + fTime + "*" + Concat(Filled(RowsOf(day, fTime, baseUrl)))
  }

  method FormSendText(day: Day, fTime: string, baseUrl: string) returns (text: string)
    ensures text == FormText(day, fTime, baseUrl)
  {
    text := AppendAll("*" + fTime + "*", Filled(RowsOf(day, fTime, baseUrl)));
  }

  /**
   * The day's `DD.MM.YYYY` text: the diary reads the day's own date, while
   * homework and schedule read the first lesson's, which a day without
   * lessons does not have.
   */
  function FTime(view: View, day: Day): Result<string>
  {
    if view.DiaryView? then Reformat(day.date)
    else if day.lessons == [] then Err(IndexError)
    else Reformat(day.lessons[0].date)
  }

  /** How a view dates its days, as the week loop uses it. */
  function DateRule(view: View): Day -> Result<string> {
    day => FTime(view, day)
  }

  /** `days[:-2]`: the week without its last two days. */
  function Processed(days: seq<Day>): (ds: seq<Day>)
    ensures |days| >= 2 ==> ds == days[..|days| - 2]
    ensures |days| < 2 ==> ds == []
  {
    if |days| >= 2 then days[..|days| - 2] else []
  }

  /**
   * One processed day: it is dated, its entries are stored under its index,
   * and it becomes the message when its date is the requested one.
   */
  function DayStep(date: Day -> Result<string>, day: Day, i: int, today: string, baseUrl: string, w: Week): Result<Week> {
    var fTime :- date(day);
    Ok(Week(w.rows[i := RowsOf(day, fTime, baseUrl)],
            if day.date == today then FormText(day, fTime, baseUrl) else w.text))
  }

  /** The first `k` processed days, each cleaned before it is used. */
  function WeekUpTo(date: Day -> Result<string>, ds: seq<Day>, today: string, baseUrl: string, clean: Day -> Day, k: nat): Result<Week>
    requires k <= |ds|
  {
    if k == 0 then Ok(Week(map[], ""))
    else
      var prev :- WeekUpTo(date, ds, today, baseUrl, clean, k - 1);
      DayStep(date, clean(ds[k - 1]), k - 1, today, baseUrl, prev)
  }

  /** A `proccess_*` call on the whole week. */
  function WeekOf(view: View, days: seq<Day>, today: string, baseUrl: string, clean: Day -> Day): Result<Week> {
    WeekUpTo(DateRule(view), Processed(days), today, baseUrl, clean, |Processed(days)|)
  }

  /** Once a day fails to be dated, the rest of the week does not matter. */
  lemma {:induction false} WeekErrorSticks(date: Day -> Result<string>, ds: seq<Day>, today: string, baseUrl: string, clean: Day -> Day, k: nat, m: nat)
    requires k <= m <= |ds|
    requires WeekUpTo(date, ds, today, baseUrl, clean, k).Err?
    ensures WeekUpTo(date, ds, today, baseUrl, clean, m) == WeekUpTo(date, ds, today, baseUrl, clean, k)
    decreases m
  {
    if m > k {
      WeekErrorSticks(date, ds, today, baseUrl, clean, k, m - 1);
      var prev := WeekUpTo(date, ds, today, baseUrl, clean, m - 1);
      assert prev.Err?;
      assert WeekUpTo(date, ds, today, baseUrl, clean, m) == Err(prev.error);
    }
  }

  /**
   * The generic loop of the three `proccess_*` functions: clean, date,
   * maybe render, then append one entry per lesson.
   */
  method ProcessWeek(view: View, days: seq<Day>, today: string, baseUrl: string, clean: Day -> Day)
    returns (r: Result<Week>)
    ensures r == WeekOf(view, days, today, baseUrl, clean)
  {
    r := ProcessDays(DateRule(view), Processed(days), today, baseUrl, clean);
  }

  /** The day loop over the processed days; it stops at the first day that cannot be dated. */
  method ProcessDays(date: Day -> Result<string>, ds: seq<Day>, today: string, baseUrl: string, clean: Day -> Day)
    returns (r: Result<Week>)
    ensures r == WeekUpTo(date, ds, today, baseUrl, clean, |ds|)
  {
    r := Ok(Week(map[], ""));
    var i := 0;
    while i < |ds| && r.Ok?
      invariant 0 <= i <= |ds|
      invariant r == WeekUpTo(date, ds, today, baseUrl, clean, i)
    {
      var w := r.value;
      assert WeekUpTo(date, ds, today, baseUrl, clean, i) == Ok(w);
      r := ProcessDay(date, ds, today, baseUrl, clean, i, w);
      i := i + 1;
    }
    if r.Err? {
      WeekErrorSticks(date, ds, today, baseUrl, clean, i, |ds|);
    } else {
      assert i == |ds|;
    }
  }

  /** The body of the day loop, for the processed day at index `i`. */
  method ProcessDay(date: Day -> Result<string>, ds: seq<Day>, today: string, baseUrl: string, clean: Day -> Day, i: nat, w: Week)
    returns (r: Result<Week>)
    requires i < |ds|
    requires WeekUpTo(date, ds, today, baseUrl, clean, i) == Ok(w)
    ensures r == WeekUpTo(date, ds, today, baseUrl, clean, i + 1)
  {
    var day := clean(ds[i]);
    var fTime := date(day);
    if fTime.Err? {
      return Err(fTime.error);
    }
    var text := w.text;
    if day.date == today {
      text := FormSendText(day, fTime.value, baseUrl);
    }
    var lessonRows := AppendRows(day, fTime.value, baseUrl);
    r := Ok(Week(w.rows[i := lessonRows], text));
  }

  /** The inner loop: `result_dict[i].append({...})` for each lesson. */
  method AppendRows(day: Day, fTime: string, baseUrl: string) returns (rows: seq<Row>)
    ensures rows == RowsOf(day, fTime, baseUrl)
  {
    rows := [];
    var j := 0;
    while j < |day.lessons|
      invariant 0 <= j <= |day.lessons|
      invariant rows == RowsOf(day, fTime, baseUrl)[..j]
    {
      rows := rows + [RowOf(day.lessons[j], fTime, baseUrl)];
      j := j + 1;
    }
  }

  /** `proccess_diary`; the portal's base address plays no part in it. */
  method ProccessDiary(days: seq<Day>, today: string, clean: Day -> Day) returns (r: Result<Week>)
    ensures r == WeekOf(DiaryView, days, today, "", clean)
  {
    r := ProcessWeek(DiaryView, days, today, "", clean);
  }

  method ProccessHomework(days: seq<Day>, baseUrl: string, today: string, clean: Day -> Day) returns (r: Result<Week>)
    ensures r == WeekOf(HomeworkView, days, today, baseUrl, clean)
  {
    r := ProcessWeek(HomeworkView, days, today, baseUrl, clean);
  }

  method ProccessSchedule(days: seq<Day>, today: string, clean: Day -> Day) returns (r: Result<Week>)
    ensures r == WeekOf(ScheduleView, days, today, "", clean)
  {
    r := ProcessWeek(ScheduleView, days, today, "", clean);
  }

  /** The table stored for processed day `i`: its entries, dated with the day's dotted date. */
  predicate StoresDay(w: Week, date: Day -> Result<string>, ds: seq<Day>, baseUrl: string, clean: Day -> Day, i: int)
    requires 0 <= i < |ds|
  {
    && date(clean(ds[i])).Ok?
    && i in w.rows
    && w.rows[i] == RowsOf(clean(ds[i]), date(clean(ds[i])).value, baseUrl)
  }

  /**
   * A week that is dated throughout stores only tables for processed days,
   * under indices 0 to k-1.
   */
  lemma {:induction false} WeekKeys(date: Day -> Result<string>, ds: seq<Day>, today: string, baseUrl: string, clean: Day -> Day, k: nat)
    requires k <= |ds|
    requires WeekUpTo(date, ds, today, baseUrl, clean, k).Ok?
    ensures forall i :: i in WeekUpTo(date, ds, today, baseUrl, clean, k).value.rows ==> 0 <= i < k
  {
    if k > 0 {
      WeekKeys(date, ds, today, baseUrl, clean, k - 1);
    }
  }

  /**
   * In a week that is dated throughout, the table of processed day `i`
   * holds one entry per lesson, in order, all carrying that day's dotted
   * date; later days do not overwrite it.
   */
  lemma {:induction false} WeekStores(date: Day -> Result<string>, ds: seq<Day>, today: string, baseUrl: string, clean: Day -> Day, k: nat, i: nat)
    requires i < k <= |ds|
    requires WeekUpTo(date, ds, today, baseUrl, clean, k).Ok?
    ensures StoresDay(WeekUpTo(date, ds, today, baseUrl, clean, k).value, date, ds, baseUrl, clean, i)
  {
    var prev := WeekUpTo(date, ds, today, baseUrl, clean, k - 1);
    assert prev.Ok?;
    var day := clean(ds[k - 1]);
    var step := DayStep(date, day, k - 1, today, baseUrl, prev.value);
    assert WeekUpTo(date, ds, today, baseUrl, clean, k) == step;
    var fTime := date(day);
    assert fTime.Ok?;
    var rows := step.value.rows;
    assert rows == prev.value.rows[k - 1 := RowsOf(day, fTime.value, baseUrl)];
    if i < k - 1 {
      WeekStores(date, ds, today, baseUrl, clean, k - 1, i);
      assert rows[i] == prev.value.rows[i];
    }
  }

  /** The week fails exactly when one of its processed days cannot be dated. */
  lemma {:induction false} WeekFails(date: Day -> Result<string>, ds: seq<Day>, today: string, baseUrl: string, clean: Day -> Day, k: nat)
    requires k <= |ds|
    ensures WeekUpTo(date, ds, today, baseUrl, clean, k).Err? <==>
            exists i :: 0 <= i < k && date(clean(ds[i])).Err?
  {
    if k > 0 {
      WeekFails(date, ds, today, baseUrl, clean, k - 1);
      var prev := WeekUpTo(date, ds, today, baseUrl, clean, k - 1);
      var day := clean(ds[k - 1]);
      if prev.Err? {
        assert WeekUpTo(date, ds, today, baseUrl, clean, k).Err?;
        var i :| 0 <= i < k - 1 && date(clean(ds[i])).Err?;
        assert 0 <= i < k && date(clean(ds[i])).Err?;
      } else if date(day).Err? {
        assert WeekUpTo(date, ds, today, baseUrl, clean, k) == DayStep(date, day, k - 1, today, baseUrl, prev.value);
        assert 0 <= k - 1 < k && date(clean(ds[k - 1])).Err?;
      } else {
        assert WeekUpTo(date, ds, today, baseUrl, clean, k) == DayStep(date, day, k - 1, today, baseUrl, prev.value);
        assert WeekUpTo(date, ds, today, baseUrl, clean, k).Ok?;
        forall i | 0 <= i < k
          ensures date(clean(ds[i])).Ok?
        {
          if i == k - 1 {
            assert clean(ds[i]) == day;
          }
        }
      }
    }
  }

  /** The last of the first `k` processed days that has the requested date. */
  predicate LastWithDate(ds: seq<Day>, today: string, clean: Day -> Day, k: nat, i: int)
    requires k <= |ds|
  {
    && 0 <= i < k
    && clean(ds[i]).date == today
    && forall j :: i < j < k ==> clean(ds[j]).date != today
  }

  /**
   * The message stays empty when no processed day has the requested date;
   * otherwise it is the rendering of the last day that has it.
   */
  lemma {:induction false} WeekText(date: Day -> Result<string>, ds: seq<Day>, today: string, baseUrl: string, clean: Day -> Day, k: nat)
    requires k <= |ds|
    requires WeekUpTo(date, ds, today, baseUrl, clean, k).Ok?
    ensures var w := WeekUpTo(date, ds, today, baseUrl, clean, k).value;
            && ((forall i :: 0 <= i < k ==> clean(ds[i]).date != today) ==> w.text == "")
            && forall i :: LastWithDate(ds, today, clean, k, i) ==>
                 date(clean(ds[i])).Ok? &&
                 w.text == FormText(clean(ds[i]), date(clean(ds[i])).value, baseUrl)
  {
    if k > 0 {
      WeekText(date, ds, today, baseUrl, clean, k - 1);
      var prev := WeekUpTo(date, ds, today, baseUrl, clean, k - 1);
      assert prev.Ok?;
      var day := clean(ds[k - 1]);
      assert WeekUpTo(date, ds, today, baseUrl, clean, k) == DayStep(date, day, k - 1, today, baseUrl, prev.value);
      assert date(day).Ok?;
      forall i | LastWithDate(ds, today, clean, k, i)
        ensures date(clean(ds[i])).Ok?
        ensures WeekUpTo(date, ds, today, baseUrl, clean, k).value.text ==
                FormText(clean(ds[i]), date(clean(ds[i])).value, baseUrl)
      {
        if i < k - 1 {
          assert day.date != today;
          assert LastWithDate(ds, today, clean, k - 1, i);
        }
      }
    }
  }

  /**
   * The homework and schedule views cannot date a processed day without
   * lessons, so such a day fails the whole week even though the schedule
   * decoder supplies an empty lesson list for it.
   */
  lemma DaysWithoutLessonsFail(view: View, days: seq<Day>, today: string, baseUrl: string, clean: Day -> Day, i: nat)
    requires !view.DiaryView?
    requires i < |Processed(days)| && clean(Processed(days)[i]).lessons == []
    ensures WeekOf(view, days, today, baseUrl, clean).Err?
  {
    WeekFails(DateRule(view), Processed(days), today, baseUrl, clean, |Processed(days)|);
  }

  /** An `hh:mm:ss` clock text, as the portal sends lesson times. */
  predicate IsClockTime(s: string) {
    && |s| == 8 && s[2] == ':' && s[5] == ':'
    && Coerce.IsDigit(s[0]) && Coerce.IsDigit(s[1]) && Coerce.IsDigit(s[3]) && Coerce.IsDigit(s[4]) && Coerce.IsDigit(s[6]) && Coerce.IsDigit(s[7])
  }

  /** The schedule shows every lesson time as `hh:mm`, without its seconds. */
  lemma TimeDropsSeconds(s: string)
    requires IsClockTime(s)
    ensures var r := TimeText(Some(s)); |r| == 5 && r[2] == ':' && r == s[..5]
  {
  }
}
