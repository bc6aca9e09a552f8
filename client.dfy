/**
 * BARS/_client_async.py: what each `get_*` method of `BClientAsync` makes of
 * the portal's answer once the HTTP exchange is over. The body is either a
 * JSON document or something `response.json()` refuses; a fault document
 * is turned into an exception, and everything else is decoded into records.
 */
module Client {
  import opened Values
  import opened Base
  import opened Strings
  import Diary
  import Schedule
  import Marks
  import Account
  import School
  import Homework
  import Misc

  /** What `response.json()` makes of a body: a JSON document, or a decode error. */
  datatype Body = NotJson | Json(value: Value)

  /** The fault code the portal sends for an expired or unknown session. */
  const UnauthorizedCode: string := "Server.UserNotAuthenticated"

  /** The portal's address without the trailing slash, which the report path supplies. */
  const ReportHost: string := "https://xn--80atdl2c.xn--33-6kcadhwnl3cfdx.xn--p1ai"

  /** `result.json()`: a body that is not JSON is reported as InternalError. */
  function Parse(body: Body): Result<Value> {
    if body.NotJson? then Err(InternalError) else Ok(body.value)
  }

  /**
   * The `match` on the fault code of a fault document: the session code is
   * Unauthorized; any other code is a service fault that quotes the code and
   * `faultstring`, and reading a missing `faultstring` is a KeyError.
   */
  function FaultOf(m: map<string, Value>): (e: Error)
    requires "faultcode" in m
    ensures e == Unauthorized <==> m["faultcode"] == Str(UnauthorizedCode)
    ensures e.ServiceFault? <==> m["faultcode"] != Str(UnauthorizedCode) && "faultstring" in m
    ensures e.ServiceFault? ==> e.code == m["faultcode"] && e.text == m["faultstring"]
    ensures e.KeyError? <==> m["faultcode"] != Str(UnauthorizedCode) && "faultstring" !in m
    ensures e.KeyError? ==> e.key == "faultstring"
  {
    if m["faultcode"] == Str(UnauthorizedCode) then Unauthorized
    else if "faultstring" in m then ServiceFault(m["faultcode"], m["faultstring"])
    else KeyError("faultstring")
  }

  /** `isinstance(result, dict) and 'faultcode' in result`: only a dict can be a fault. */
  function GuardedFault(v: Value): Option<Error> {
    if v.Obj? && "faultcode" in v.entries then Some(FaultOf(v.entries)) else None
  }

  /**
   * `'faultcode' in result` with no type test first: a dict is searched for
   * the key, a list for an equal element and a text for the substring, and
   * reading `result['faultcode']` from a list or a text that matched fails.
   * Membership in any other kind of value is a TypeError.
   */
  function UnguardedFault(v: Value): Option<Error> {
    match v
    case Obj(m) => if "faultcode" in m then Some(FaultOf(m)) else None
    case Arr(items) => if Str("faultcode") in items then Some(UnexpectedShape(v)) else None
    case Str(s) => if Contains(s, "faultcode") then Some(UnexpectedShape(v)) else None
    case _ => Some(UnexpectedShape(v))
  }

  /** On a dict both tests agree; the guarded one never fires on anything else. */
  lemma GuardedAgreesOnDicts(v: Value)
    ensures v.Obj? ==> UnguardedFault(v) == GuardedFault(v)
    ensures !v.Obj? ==> GuardedFault(v).None?
    ensures (v.Null? || v.Bool? || v.Int? || v.Float?) ==> UnguardedFault(v) == Some(UnexpectedShape(v))
  {
  }

  /**
   * `for x in v` over a value that should be a list of records: a list gives
   * its items, an empty text or dict runs no iteration, and any other value
   * does not yield records.
   */
  function Elements(v: Value): (r: Result<seq<Value>>)
    ensures v.Arr? ==> r == Ok(v.items)
    ensures EmptyIterable(v) ==> r == Ok([])
    ensures !v.Arr? && !EmptyIterable(v) ==> r == Err(NotAList(v))
  {
    if v.Arr? then Ok(v.items)
    else if EmptyIterable(v) then Ok([])
    else Err(NotAList(v))
  }

  /**
   * The records a decoding loop returns: every element decoded in order, or
   * the error of the first element that fails (the loop stops there).
   */
  function Collected(f: Value -> ItemStep, items: seq<Value>): (r: Result<seq<Value>>)
    ensures r.Ok? <==> FirstFailure(f, items) == |items|
    ensures r.Ok? ==> |r.value| == |items|
    ensures r.Ok? ==> forall i :: 0 <= i < |items| ==> r.value[i] == f(items[i]).result.value
    ensures r.Err? ==> r.error == f(items[FirstFailure(f, items)]).result.error
  {
    var m := MapEach(f, items);
    if m.error.Some? then Err(m.error.value) else Ok(m.items)
  }

  /** `return_data.append(X.de_json(x))` for each element, into a fresh list. */
  method Collect(f: Value -> ItemStep, items: seq<Value>) returns (r: Result<seq<Value>>)
    ensures r == Collected(f, items)
  {
    var acc: seq<Value> := [];
    var i := 0;
    while i < |items|
      invariant 0 <= i <= |items| && |acc| == i
      invariant i <= FirstFailure(f, items)
      invariant forall j :: 0 <= j < i ==> acc[j] == f(items[j]).result.value
    {
      var s := f(items[i]);
      if s.result.Err? {
        return Err(s.result.error);
      }
      acc := acc + [s.result.value];
      i := i + 1;
    }
    assert acc == MapEach(f, items).items;
    return Ok(acc);
  }

  /** `result[i] = X.de_json(x)` for each element, overwriting the decoded list in place. */
  method CollectInPlace(f: Value -> ItemStep, items: seq<Value>) returns (r: Result<seq<Value>>)
    ensures r == Collected(f, items)
  {
    var a := new Value[|items|](j requires 0 <= j < |items| => items[j]);
    var i := 0;
    while i < a.Length
      invariant 0 <= i <= a.Length == |items|
      invariant i <= FirstFailure(f, items)
      invariant forall j :: 0 <= j < i ==> a[j] == f(items[j]).result.value
      invariant a[i..] == items[i..]
    {
      assert a[i] == items[i];
      var s := f(a[i]);
      if s.result.Err? {
        return Err(s.result.error);
      }
      a[i] := s.result.value;
      i := i + 1;
    }
    assert a[..] == MapEach(f, items).items;
    return Ok(a[..]);
  }

  /**
   * `get_diary` and `get_week_schedule`: a fault dict is raised, any other
   * answer must be a dict whose `days` are decoded one by one.
   */
  function DaysEndpoint(body: Body, day: Value -> ItemStep): Result<seq<Value>> {
    var v :- Parse(body);
    if GuardedFault(v).Some? then Err(GuardedFault(v).value)
    else if !v.Obj? then Err(UnexpectedShape(v))
    else if "days" !in v.entries then Err(KeyError("days"))
    else
      var items :- Elements(v.entries["days"]);
      Collected(day, items)
  }

  method GetDiary(body: Body) returns (r: Result<seq<Value>>)
    ensures r == DaysEndpoint(body, Diary.DiaryDayItem)
  {
    r := GetDays(body, Diary.DiaryDayItem);
  }

  method GetWeekSchedule(body: Body) returns (r: Result<seq<Value>>)
    ensures r == DaysEndpoint(body, Schedule.ScheduleDayItem)
  {
    r := GetDays(body, Schedule.ScheduleDayItem);
  }

  method GetDays(body: Body, day: Value -> ItemStep) returns (r: Result<seq<Value>>)
    ensures r == DaysEndpoint(body, day)
  {
    if body.NotJson? {
      return Err(InternalError);
    }
    var v := body.value;
    var fault := GuardedFault(v);
    if fault.Some? {
      return Err(fault.value);
    }
    if !v.Obj? {
      return Err(UnexpectedShape(v));
    }
    if "days" !in v.entries {
      return Err(KeyError("days"));
    }
    var items := Elements(v.entries["days"]);
    if items.Err? {
      return Err(items.error);
    }
    r := Collect(day, items.value);
  }

  /** A week decodes to exactly the listed days, each decoded on its own and in order. */
  lemma DaysInOrder(body: Body, day: Value -> ItemStep)
    requires DaysEndpoint(body, day).Ok?
    ensures body.Json? && body.value.Obj? && "faultcode" !in body.value.entries
    ensures "days" in body.value.entries
    ensures var days := body.value.entries["days"];
            var r := DaysEndpoint(body, day).value;
            && (days.Arr? ==> |r| == |days.items| && forall i :: 0 <= i < |r| ==> r[i] == day(days.items[i]).result.value)
            && (!days.Arr? ==> EmptyIterable(days) && r == [])
  {
  }

  /** `get_month_schedule`: the whole answer is iterated and each element is a month. */
  function MonthsEndpoint(body: Body): Result<seq<Value>> {
    var v :- Parse(body);
    if GuardedFault(v).Some? then Err(GuardedFault(v).value)
    else
      var items :- Elements(v);
      Collected(Schedule.ScheduleMonthItem, items)
  }

  method GetMonthSchedule(body: Body) returns (r: Result<seq<Value>>)
    ensures r == MonthsEndpoint(body)
  {
    if body.NotJson? {
      return Err(InternalError);
    }
    var v := body.value;
    var fault := GuardedFault(v);
    if fault.Some? {
      return Err(fault.value);
    }
    var items := Elements(v);
    if items.Err? {
      return Err(items.error);
    }
    r := Collect(Schedule.ScheduleMonthItem, items.value);
  }

  /**
   * `get_schedule_report_link`: a text answer is a quoted path, which is
   * appended to the portal's address with every '"' removed; any other
   * answer that is not a fault is a ValueError.
   */
  function ReportLink(body: Body): Result<string> {
    var v :- Parse(body);
    if GuardedFault(v).Some? then Err(GuardedFault(v).value)
    else if v.Str? then Ok(ReportHost + RemoveChar(v.s, '"'))
    else Err(UnexpectedShape(v))
  }

  /** The link is the portal's address followed by the path, with no quote left in the path. */
  lemma ReportLinkShape(body: Body)
    ensures ReportLink(body).Ok? <==> body.Json? && body.value.Str?
    ensures ReportLink(body).Ok? ==>
              var link := ReportLink(body).value;
              && IsPrefix(ReportHost, link)
              && |link| == |ReportHost| + |body.value.s| - Count(body.value.s, '"')
              && forall i :: |ReportHost| <= i < |link| ==> link[i] != '"'
  {
    if ReportLink(body).Ok? {
      var link := ReportLink(body).value;
      var path := RemoveChar(body.value.s, '"');
      assert link == ReportHost + path;
      assert link[..|ReportHost|] == ReportHost;
      forall i | |ReportHost| <= i < |link|
        ensures link[i] != '"'
      {
        assert link[i] == path[i - |ReportHost|];
      }
    }
  }

  /** The portal quotes the path; a quote-free path comes back unchanged after the address. */
  lemma ReportLinkOfQuotedPath(path: string)
    requires forall i :: 0 <= i < |path| ==> path[i] != '"'
    ensures ReportLink(Json(Str("\"" + path + "\""))) == Ok(ReportHost + path)
  {
    var s := "\"" + path + "\"";
    RemoveAbsentChar(path, '"');
    assert s[1..] == path + "\"";
    assert RemoveChar(s, '"') == RemoveChar(path + "\"", '"');
    RemoveTrailingQuote(path);
  }

  lemma {:induction false} RemoveTrailingQuote(path: string)
    ensures RemoveChar(path + "\"", '"') == RemoveChar(path, '"')
  {
    if path == [] {
      assert path + "\"" == "\"";
    } else {
      assert (path + "\"")[1..] == path[1..] + "\"";
      RemoveTrailingQuote(path[1..]);
    }
  }

  /** The endpoints that return one record, decoded without a type test on the answer. */
  datatype Endpoint =
    | GetSummaryMarks | GetTotalMarks | GetAccountInfo | GetPupilInfo
    | GetAttendaceData | GetProgressData | GetSchoolInfo | GetClassInfo

  /** The decoder each single-record endpoint hands the answer to. */
  function Decoder(e: Endpoint): map<string, Value> -> Step {
    match e
    case GetSummaryMarks => Marks.SummaryMarksStep
    case GetTotalMarks => Marks.TotalMarksStep
    case GetAccountInfo => Account.AccountInfoStep
    case GetPupilInfo => Account.PupilInfoStep
    case GetAttendaceData => Marks.AttendaceDataStep
    case GetProgressData => Marks.ProgressDataStep
    case GetSchoolInfo => School.SchoolInfoStep
    case GetClassInfo => School.ClassInfoStep
  }

  /** A single-record endpoint: the unguarded fault test, then the record's `de_json`. */
  function RecordEndpoint(body: Body, e: Endpoint): Result<Value> {
    var v :- Parse(body);
    match UnguardedFault(v)
    case Some(err) => Err(err)
    case None => AsItem(Decoder(e), v).result
  }

  /**
   * A dict answer without a fault code is decoded by the endpoint's record
   * type; an answer that is not a dict never yields a record.
   */
  lemma RecordEndpointDecodes(body: Body, e: Endpoint)
    ensures body.Json? && body.value.Obj? && "faultcode" !in body.value.entries ==>
              RecordEndpoint(body, e) == Decoder(e)(body.value.entries).result
    ensures body.Json? && !body.value.Obj? ==> RecordEndpoint(body, e).Err?
  {
  }

  /** `get_homework`: a list answer is decoded in place; any other answer that is not a fault is a TypeError. */
  function HomeworkEndpoint(body: Body): Result<seq<Value>> {
    var v :- Parse(body);
    if GuardedFault(v).Some? then Err(GuardedFault(v).value)
    else if v.Arr? then Collected(Homework.HomeworkDayItem, v.items)
    else Err(UnexpectedShape(v))
  }

  method GetHomework(body: Body) returns (r: Result<seq<Value>>)
    ensures r == HomeworkEndpoint(body)
  {
    if body.NotJson? {
      return Err(InternalError);
    }
    var v := body.value;
    var fault := GuardedFault(v);
    if fault.Some? {
      return Err(fault.value);
    }
    if !v.Arr? {
      return Err(UnexpectedShape(v));
    }
    r := CollectInPlace(Homework.HomeworkDayItem, v.items);
  }

  /**
   * `get_birthdays` and `get_events`: a list answer is decoded in place, and
   * any other answer that is not a fault means there is nothing to show.
   */
  function WidgetEndpoint(body: Body, f: Value -> ItemStep): Result<seq<Value>> {
    var v :- Parse(body);
    if GuardedFault(v).Some? then Err(GuardedFault(v).value)
    else if v.Arr? then Collected(f, v.items)
    else Ok([])
  }

  /** `get_birthdays`; the birthday record's decoder is a parameter. */
  method GetBirthdays(body: Body, birthday: Value -> ItemStep) returns (r: Result<seq<Value>>)
    ensures r == WidgetEndpoint(body, birthday)
  {
    r := GetWidget(body, birthday);
  }

  method GetEvents(body: Body) returns (r: Result<seq<Value>>)
    ensures r == WidgetEndpoint(body, Misc.EventItem)
  {
    r := GetWidget(body, Misc.EventItem);
  }

  method GetWidget(body: Body, f: Value -> ItemStep) returns (r: Result<seq<Value>>)
    ensures r == WidgetEndpoint(body, f)
  {
    if body.NotJson? {
      return Err(InternalError);
    }
    var v := body.value;
    var fault := GuardedFault(v);
    if fault.Some? {
      return Err(fault.value);
    }
    if !v.Arr? {
      return Ok([]);
    }
    r := CollectInPlace(f, v.items);
  }

  /**
   * For the same answer that is neither a list nor a fault, the homework
   * endpoint fails while the two widget endpoints return an empty list.
   */
  lemma HomeworkStricterThanWidgets(v: Value, f: Value -> ItemStep)
    requires !v.Arr? && GuardedFault(v).None?
    ensures HomeworkEndpoint(Json(v)) == Err(UnexpectedShape(v))
    ensures WidgetEndpoint(Json(v), f) == Ok([])
  {
  }

  /**
   * Every endpoint checks for a fault before anything else: a fault dict
   * is Unauthorized exactly for the session code, whatever the endpoint.
   */
  lemma FaultsComeFirst(m: map<string, Value>, day: Value -> ItemStep, e: Endpoint)
    requires "faultcode" in m
    ensures var err := Err(FaultOf(m));
            && DaysEndpoint(Json(Obj(m)), day) == err
            && MonthsEndpoint(Json(Obj(m))) == err
            && RecordEndpoint(Json(Obj(m)), e) == Err(FaultOf(m))
            && HomeworkEndpoint(Json(Obj(m))) == err
            && WidgetEndpoint(Json(Obj(m)), day) == err
            && ReportLink(Json(Obj(m))) == Err(FaultOf(m))
    ensures FaultOf(m) == Unauthorized <==> m["faultcode"] == Str(UnauthorizedCode)
  {
  }

  /** A body that is not JSON is an InternalError at every endpoint. */
  lemma NotJsonEverywhere(day: Value -> ItemStep, e: Endpoint)
    ensures DaysEndpoint(NotJson, day) == Err(InternalError)
    ensures MonthsEndpoint(NotJson) == Err(InternalError)
    ensures RecordEndpoint(NotJson, e) == Err(InternalError)
    ensures HomeworkEndpoint(NotJson) == Err(InternalError)
    ensures WidgetEndpoint(NotJson, day) == Err(InternalError)
    ensures ReportLink(NotJson) == Err(InternalError)
  {
  }
}
