/**
 * TelegramBot/src/utils/handlers_utils.py: stepping through a stored week
 * one school day at a time, picking the subject a pupil typed, and the
 * greeting sent once a session id has been accepted.
 */
module HandlersUtils {
  import opened Values
  import opened Coerce
  import opened Strings
  import opened BotText
  import opened CommandsUtils
  import opened General

  // ---------------------------------------------------------------------
  // Day navigation in a stored week
  // ---------------------------------------------------------------------

  /**
   * Where a step from the stored index leads: to another day of the same
   * week, or to a reload of the neighbouring week (from the date of the
   * stored day `from`, shifted by `delta` days) and then to `landing`.
   */
  datatype Move = Stay(index: int) | Reload(from: int, delta: int, landing: int)

  /** The index the bot shows after the move. */
  function Landing(m: Move): int {
    if m.Stay? then m.index else m.landing
  }

  /**
   * `next_index = current_weekday + step`: past Friday the bot reloads from
   * Friday plus three days and shows Monday; before Monday it reloads from
   * Monday minus three days and shows Friday.
   */
  function Navigate(current: int, step: int): (m: Move)
    ensures 0 <= current + step <= 4 <==> m == Stay(current + step)
    ensures current + step > 4 <==> m == Reload(4, 3, 0)
    ensures current + step < 0 <==> m == Reload(0, -3, 4)
  {
    var next := current + step;
    if next > 4 then Reload(4, 3, 0)
    else if next < 0 then Reload(0, -3, 4)
    else Stay(next)
  }

  /** Whatever the stored index and the step, the bot lands on a school day 0..4. */
  lemma LandingIsSchoolDay(current: int, step: int)
    ensures 0 <= Landing(Navigate(current, step)) <= 4
  {
  }

  /**
   * The next and previous buttons walk Monday to Friday and wrap into the
   * neighbouring week at both ends.
   */
  lemma ButtonsWalkTheWeek(current: int)
    requires 0 <= current <= 4
    ensures current < 4 ==> Navigate(current, 1) == Stay(current + 1)
    ensures current == 4 ==> Navigate(current, 1) == Reload(4, 3, 0)
    ensures current > 0 ==> Navigate(current, -1) == Stay(current - 1)
    ensures current == 0 ==> Navigate(current, -1) == Reload(0, -3, 4)
  {
  }

  /**
   * The `*_week` entry of a user record: the index of the day on show and
   * the stored tables, one per processed day.
   */
  class StoredWeek {
    var currentWeekday: int
    var rows: map<int, seq<Row>>

    constructor (currentWeekday: int, rows: map<int, seq<Row>>)
      ensures this.currentWeekday == currentWeekday && this.rows == rows
    {
      this.currentWeekday := currentWeekday;
      this.rows := rows;
    }
  }

  /** `data[str(i)][0]['date']`: the dotted date of a stored day's first entry. */
  function FirstDate(rows: map<int, seq<Row>>, i: int): (r: Result<string>)
    ensures i !in rows ==> r == Err(KeyError(ShowInt(i)))
    ensures i in rows && rows[i] == [] ==> r == Err(IndexError)
    ensures i in rows && rows[i] != [] ==> r == Ok(rows[i][0].date)
  {
    if i !in rows then Err(KeyError(ShowInt(i)))
    else if rows[i] == [] then Err(IndexError)
    else Ok(rows[i][0].date)
  }

  /** The edited message: the stored day's date in bold, then each stored entry through its template. */
  function ShownText(rows: map<int, seq<Row>>, i: int): Result<string> {
    var date :- FirstDate(rows, i);
    Ok("*" + date + "*" + Concat(Filled(rows[i])))
  }

  /** The message text built with `send_text += TEMPLATE.format(**lesson)`. */
  method RenderDay(rows: map<int, seq<Row>>, i: int) returns (r: Result<string>)
    ensures r == ShownText(rows, i)
  {
    var date := FirstDate(rows, i);
    if date.Err? {
      return Err(date.error);
    }
    var text := AppendAll("*" + date.value + "*", Filled(rows[i]));
    r := Ok(text);
  }

  /**
   * A stored day shows the text the week command sent for it: the entries
   * stored for a day with lessons render to that day's message.
   */
  lemma StoredDayShowsAsSent(day: Day, fTime: string, baseUrl: string, i: int, rows: map<int, seq<Row>>)
    requires day.lessons != []
    requires i in rows && rows[i] == RowsOf(day, fTime, baseUrl)
    ensures ShownText(rows, i) == Ok(FormText(day, fTime, baseUrl))
  {
    assert rows[i][0] == RowOf(day.lessons[0], fTime, baseUrl);
  }

  /**
   * The same for a whole processed week: every processed day with lessons
   * shows, when navigated to, exactly the text `proccess_*` would have sent
   * for it.
   */
  lemma NavigationShowsProcessedDay(date: Day -> Result<string>, ds: seq<Day>, today: string, baseUrl: string, clean: Day -> Day, i: nat)
    requires i < |ds| && clean(ds[i]).lessons != []
    requires WeekUpTo(date, ds, today, baseUrl, clean, |ds|).Ok?
    ensures date(clean(ds[i])).Ok?
    ensures var w := WeekUpTo(date, ds, today, baseUrl, clean, |ds|).value;
            ShownText(w.rows, i) == Ok(FormText(clean(ds[i]), date(clean(ds[i])).value, baseUrl))
  {
    WeekStores(date, ds, today, baseUrl, clean, |ds|, i);
    var w := WeekUpTo(date, ds, today, baseUrl, clean, |ds|).value;
    StoredDayShowsAsSent(clean(ds[i]), date(clean(ds[i])).value, baseUrl, i, w.rows);
  }

  /** The stored week after a step, and the message shown (or the exception raised). */
  datatype StepOutcome = StepOutcome(currentWeekday: int, rows: map<int, seq<Row>>, shown: Result<string>)

  /**
   * `process_diary` / `process_homework` / `process_schedule` for a step of
   * +1 or -1.  `reload(date, delta)` stands for the week command run from
   * the stored dotted date shifted by `delta` days (its fetch, its
   * processing and its write of the new week).  A failure to find the
   * stored date or to reload leaves the stored week as it was; otherwise
   * the index is stored before the message is rendered, so a failed render
   * still moves the index.
   */
  function Stepped(current: int, rows: map<int, seq<Row>>, step: int,
                   reload: (string, int) -> Result<map<int, seq<Row>>>): StepOutcome
  {
    match Navigate(current, step)
    case Stay(next) => StepOutcome(next, rows, ShownText(rows, next))
    case Reload(from, delta, landing) =>
      var date := FirstDate(rows, from);
      if date.Err? then StepOutcome(current, rows, Err(date.error))
      else
        var loaded := reload(date.value, delta);
        if loaded.Err? then StepOutcome(current, rows, Err(loaded.error))
        else StepOutcome(landing, loaded.value, ShownText(loaded.value, landing))
  }

  /** One press of a next/previous button on the stored week. */
  method StepDay(w: StoredWeek, step: int, reload: (string, int) -> Result<map<int, seq<Row>>>)
    returns (shown: Result<string>)
    modifies w
    ensures StepOutcome(w.currentWeekday, w.rows, shown) == Stepped(old(w.currentWeekday), old(w.rows), step, reload)
  {
    var next := w.currentWeekday + step;
    if next > 4 {
      var date := FirstDate(w.rows, 4);
      if date.Err? {
        return Err(date.error);
      }
      var loaded := reload(date.value, 3);
      if loaded.Err? {
        return Err(loaded.error);
      }
      w.rows := loaded.value;
      next := 0;
    } else if next < 0 {
      var date := FirstDate(w.rows, 0);
      if date.Err? {
        return Err(date.error);
      }
      var loaded := reload(date.value, -3);
      if loaded.Err? {
        return Err(loaded.error);
      }
      w.rows := loaded.value;
      next := 4;
    }
    w.currentWeekday := next;
    shown := RenderDay(w.rows, next);
  }

  /**
   * The stored index stays on a school day: it is either left as it was
   * (the step failed before anything was stored) or is the landing index.
   */
  lemma SteppedKeepsSchoolDay(current: int, rows: map<int, seq<Row>>, step: int,
                              reload: (string, int) -> Result<map<int, seq<Row>>>)
    requires 0 <= current <= 4
    ensures 0 <= Stepped(current, rows, step, reload).currentWeekday <= 4
  {
  }

  /**
   * Inside the week nothing is fetched: the tables stay and the index moves
   * by the step.  Outside it the tables are replaced only by a reload.
   */
  lemma SteppedInsideWeek(current: int, rows: map<int, seq<Row>>, step: int,
                          reload: (string, int) -> Result<map<int, seq<Row>>>)
    ensures var o := Stepped(current, rows, step, reload);
            && (0 <= current + step <= 4 ==> o.rows == rows && o.currentWeekday == current + step)
            && (o.rows != rows ==> exists date, delta :: reload(date, delta) == Ok(o.rows))
  {
    var o := Stepped(current, rows, step, reload);
    if o.rows != rows {
      var m := Navigate(current, step);
      var date := FirstDate(rows, m.from);
      assert reload(date.value, m.delta) == Ok(o.rows);
    }
  }

  // ---------------------------------------------------------------------
  // Subject lookup
  // ---------------------------------------------------------------------

  /** An unlocked discipline: its subject id and its name. */
  datatype Discipline = Discipline(id: int, name: string)

  /** The lookup's answer: the subject id and message header to request data with, or the refusal sent back. */
  datatype Lookup = Request(subjectId: int, header: string) | Reject(message: string)

  /** `text.lower() in discipline.name.lower()`. */
  predicate Matches(text: string, d: Discipline) {
    Contains(Lower(d.name), Lower(text))
  }

  /** The index of the first discipline the text matches, or |ds| when there is none. */
  function FirstMatch(text: string, ds: seq<Discipline>): (k: nat)
    ensures k <= |ds|
    ensures forall j :: 0 <= j < k ==> !Matches(text, ds[j])
    ensures k < |ds| ==> Matches(text, ds[k])
  {
    if ds == [] then 0
    else if Matches(text, ds[0]) then 0
    else 1 + FirstMatch(text, ds[1..])
  }

  /**
   * The subject choice of `process_attendancedata` and `process_progressdata`:
   * "все" in any case means all subjects (id 0); otherwise the first
   * discipline whose name contains the text, ignoring case; otherwise a
   * refusal naming the text, and no data is requested.
   */
  function SubjectOf(text: string, ds: seq<Discipline>): (r: Lookup)
    ensures Lower(text) == "все" ==> r == Request(0, "*Общие данные*\n")
    ensures Lower(text) != "все" && r.Request? ==>
              exists k :: 0 <= k < |ds| && Matches(text, ds[k]) && r == Request(ds[k].id, "*" + ds[k].name + "*\n")
                          && forall j :: 0 <= j < k ==> !Matches(text, ds[j])
    ensures r.Reject? <==> Lower(text) != "все" && forall j :: 0 <= j < |ds| ==> !Matches(text, ds[j])
  {
    if Lower(text) == "все" then Request(0, "*Общие данные*\n")
    else
      var k := FirstMatch(text, ds);
      if k == |ds| then Reject("❌ Недоступный предмет \"" + text + "\"")
      else Request(ds[k].id, "*" + ds[k].name + "*\n")
  }

  /** The `for`-`else` loop over the disciplines, with its `break`. */
  method FindSubject(text: string, ds: seq<Discipline>) returns (r: Lookup)
    ensures r == SubjectOf(text, ds)
  {
    var query := Lower(text);
    if query == "все" {
      return Request(0, "*Общие данные*\n");
    }
    var i := 0;
    while i < |ds|
      invariant 0 <= i <= |ds|
      invariant i <= FirstMatch(text, ds)
    {
      if Contains(Lower(ds[i].name), query) {
        return Request(ds[i].id, "*" + ds[i].name + "*\n");
      }
      i := i + 1;
    }
    r := Reject("❌ Недоступный предмет \"" + text + "\"");
  }

  /** Only the lowered text matters: typing a subject in capitals picks the same subject. */
  lemma SubjectIgnoresCase(text: string, ds: seq<Discipline>)
    requires SubjectOf(text, ds).Request?
    ensures SubjectOf(Lower(text), ds) == SubjectOf(text, ds)
  {
    LowerIdempotent(text);
    SameMatches(Lower(text), text, ds);
  }

  lemma {:induction false} SameMatches(a: string, b: string, ds: seq<Discipline>)
    requires Lower(a) == Lower(b)
    ensures FirstMatch(a, ds) == FirstMatch(b, ds)
  {
    if ds != [] {
      SameMatches(a, b, ds[1..]);
    }
  }

  /** An empty message is contained in every name, so it picks the first discipline. */
  lemma EmptyTextPicksFirst(ds: seq<Discipline>)
    requires ds != []
    ensures SubjectOf("", ds) == Request(ds[0].id, "*" + ds[0].name + "*\n")
  {
    assert Lower("") == "";
    assert IsPrefix("", Lower(ds[0].name));
  }

  // ---------------------------------------------------------------------
  // Session id
  // ---------------------------------------------------------------------

  /** `f'Привет, {fullname.split()[1]}!'`: the second word of the full name, or IndexError. */
  function Greeting(fullname: string): Result<string> {
    var ws := Words(fullname);
    if |ws| < 2 then Err(IndexError) else Ok("Привет, " + ws[1] + "!")
  }

  /** For a "Surname Name …" full name the greeting uses the first name. */
  lemma GreetingUsesFirstName(surname: string, name: string, rest: string)
    requires IsWord(surname) && IsWord(name)
    ensures Greeting(surname + " " + name + " " + rest) == Ok("Привет, " + name + "!")
  {
    SecondWord(surname, name, rest);
  }

  lemma SecondWord(surname: string, name: string, rest: string)
    requires IsWord(surname) && IsWord(name)
    ensures var ws := Words(surname + " " + name + " " + rest); |ws| >= 2 && ws[1] == name
  {
    var tail := name + " " + rest;
    assert surname + " " + name + " " + rest == surname + " " + tail;
    WordsOfJoined(surname, tail);
    WordsOfJoined(name, rest);
  }

  /** A full name of a single word has no second word: the greeting raises IndexError. */
  lemma GreetingNeedsTwoWords(name: string)
    requires IsWord(name)
    ensures Greeting(name) == Err(IndexError)
  {
    WordsOfWord(name);
  }

  /**
   * `process_sessionid`: both records are fetched with the typed session id
   * (`pupil` yields the pupil's full name, `account` the account's pupil id);
   * the greeting is sent; only then are the session id and pupil id stored.
   * Any failure leaves the record as it was.
   */
  function SessionIdOutcome(fields: map<string, Value>, sessionid: string,
                            pupil: Result<string>, account: Result<Value>): (Result<string>, map<string, Value>)
  {
    if pupil.Err? then (Err(pupil.error), fields)
    else if account.Err? then (Err(account.error), fields)
    else
      var greeting := Greeting(pupil.value);
      if greeting.Err? then (greeting, fields)
      else (greeting, fields["sessionid" := Str(sessionid)]["pupilid" := account.value])
  }

  method ProcessSessionId(user: UserRecord, sessionid: string, pupil: Result<string>, account: Result<Value>)
    returns (reply: Result<string>)
    modifies user
    ensures (reply, user.fields) == SessionIdOutcome(old(user.fields), sessionid, pupil, account)
  {
    if pupil.Err? {
      return Err(pupil.error);
    }
    if account.Err? {
      return Err(account.error);
    }
    reply := Greeting(pupil.value);
    if reply.Err? {
      return;
    }
    user.fields := user.fields["sessionid" := Str(sessionid)];
    user.fields := user.fields["pupilid" := account.value];
  }

  /** The session id is stored exactly when the greeting went out, and then both ids are. */
  lemma SessionIdStoredOnGreeting(fields: map<string, Value>, sessionid: string,
                                  pupil: Result<string>, account: Result<Value>)
    ensures var (reply, after) := SessionIdOutcome(fields, sessionid, pupil, account);
            && (reply.Ok? ==> after["sessionid"] == Str(sessionid) && after["pupilid"] == account.value
                              && after.Keys == fields.Keys + {"sessionid", "pupilid"})
            && (reply.Err? ==> after == fields)
            && (reply.Ok? <==> pupil.Ok? && account.Ok? && |Words(pupil.value)| >= 2)
  {
  }
}
