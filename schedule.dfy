/**
 * BARS/_schedule.py: a scheduled lesson, a day of the week schedule (whose
 * `lessons` key the portal leaves out on days without lessons) and a week
 * of the month schedule.
 */
module Schedule {
  import opened Values
  import opened Base

  const ScheduleLessonRequired: set<string> := {"date", "discipline", "index", "is_control_work"}
  const ScheduleLessonOptional: set<string> :=
    {"id", "has_auth_sferum", "office", "study_time_name", "study_time_shift", "teacher", "time_begin", "time_end"}

  /** Four required fields; the other eight default to None. */
  const ScheduleLessonSchema: Schema :=
    map f | f in ScheduleLessonRequired + ScheduleLessonOptional ::
      if f in ScheduleLessonRequired then None else Some(Null)

  /** `date` and `lessons` are required; the two flags default to False. */
  const ScheduleDaySchema: Schema :=
    map["date" := None, "lessons" := None, "is_weekend" := Some(Bool(false)), "is_vacation" := Some(Bool(false))]

  const ScheduleMonthFields: set<string> := {"days", "index"}

  /** `ScheduleLesson.de_json`: the generic step alone. */
  function ScheduleLessonStep(data: map<string, Value>): (s: Step)
    ensures s.after == data
    ensures s.result == Decode("ScheduleLesson", ScheduleLessonSchema, data)
  {
    Plain("ScheduleLesson", ScheduleLessonSchema, data)
  }

  /** Only the four required fields decide success; an absent optional field reads as None. */
  lemma ScheduleLessonDefaults(data: map<string, Value>)
    ensures ScheduleLessonStep(data).result.Ok? <==> ScheduleLessonRequired <= data.Keys
    ensures ScheduleLessonStep(data).result.Err? ==>
              ScheduleLessonStep(data).result.error == MissingFields("ScheduleLesson", ScheduleLessonRequired - data.Keys)
    ensures ScheduleLessonStep(data).result.Ok? ==>
              forall f :: f in ScheduleLessonOptional && f !in data ==>
                ScheduleLessonStep(data).result.value.attrs[f] == Null
  {
    assert Required(ScheduleLessonSchema) == ScheduleLessonRequired;
  }

  function ScheduleLessonItem(v: Value): ItemStep {
    AsItem(ScheduleLessonStep, v)
  }

  /**
   * `ScheduleDay.de_json`: the lessons are decoded in place inside a
   * `try`, and a KeyError there (only the missing `lessons` key can raise
   * one) stores an empty list instead.
   */
  function ScheduleDayStep(data: map<string, Value>): (s: Step)
    ensures "lessons" !in data ==>
              && s.after == data["lessons" := Arr([])]
              && s.result == Decode("ScheduleDay", ScheduleDaySchema, s.after)
    ensures "lessons" in data ==>
              var lessons := MapAt(ScheduleLessonItem, data, "lessons");
              && s.after == lessons.after
              && (lessons.error.Some? ==> s.result == Err(lessons.error.value))
              && (lessons.error.None? ==> s.result == Decode("ScheduleDay", ScheduleDaySchema, s.after))
  {
    var lessons := MapAt(ScheduleLessonItem, data, "lessons");
    if lessons.error.Some? && lessons.error.value.KeyError? then
      var after := lessons.after["lessons" := Arr([])];
      Step(Decode("ScheduleDay", ScheduleDaySchema, after), after)
    else if lessons.error.Some? then Abort(lessons)
    else Step(Decode("ScheduleDay", ScheduleDaySchema, lessons.after), lessons.after)
  }

  /** A decoded lesson element never fails with a KeyError. */
  lemma ScheduleLessonNoKeyError(v: Value)
    ensures ScheduleLessonItem(v).result.Err? ==> !ScheduleLessonItem(v).result.error.KeyError?
  {
  }

  /**
   * The `except KeyError` catches exactly the missing `lessons` key: a lesson
   * that fails still fails the whole day.
   */
  lemma ScheduleDayOnlyMissingLessonsCaught(data: map<string, Value>)
    ensures var lessons := MapAt(ScheduleLessonItem, data, "lessons");
            lessons.error.Some? && lessons.error.value.KeyError? <==> "lessons" !in data
  {
    if "lessons" in data && data["lessons"].Arr? {
      var items := data["lessons"].items;
      var k := FirstFailure(ScheduleLessonItem, items);
      if k < |items| {
        ScheduleLessonNoKeyError(items[k]);
      }
    }
  }

  /** A day without `lessons` decodes to an empty lesson list rather than failing. */
  lemma ScheduleDayMissingLessons(data: map<string, Value>)
    requires "lessons" !in data
    ensures ScheduleDayStep(data).result.Ok? <==> "date" in data
    ensures ScheduleDayStep(data).result.Ok? ==> ScheduleDayStep(data).result.value.attrs["lessons"] == Arr([])
  {
    assert Required(ScheduleDaySchema) == {"date", "lessons"};
  }

  /** `is_weekend` and `is_vacation` read as False when the wire leaves them out. */
  lemma ScheduleDayFlagsDefault(data: map<string, Value>)
    requires ScheduleDayStep(data).result.Ok?
    ensures "is_weekend" !in data ==> ScheduleDayStep(data).result.value.attrs["is_weekend"] == Bool(false)
    ensures "is_vacation" !in data ==> ScheduleDayStep(data).result.value.attrs["is_vacation"] == Bool(false)
  {
    var s := ScheduleDayStep(data);
    assert "is_weekend" !in data ==> "is_weekend" !in s.after;
    assert "is_vacation" !in data ==> "is_vacation" !in s.after;
  }

  method ScheduleDayDeJson(d: WireDict) returns (r: Result<Value>)
    modifies d
    ensures Step(r, d.entries) == ScheduleDayStep(old(d.entries))
  {
    var err := MapInPlace(d, "lessons", ScheduleLessonItem);
    if err.Some? {
      if err.value.KeyError? {
        d.entries := d.entries["lessons" := Arr([])];
      } else {
        return Err(err.value);
      }
    }
    var unknown;
    r, unknown := Finish("ScheduleDay", ScheduleDaySchema, d.entries);
  }

  function ScheduleDayItem(v: Value): ItemStep {
    AsItem(ScheduleDayStep, v)
  }

  /** `ScheduleMonth.de_json`: each day of the week is decoded in place, in order. */
  function ScheduleMonthStep(data: map<string, Value>): (s: Step)
    ensures var days := MapAt(ScheduleDayItem, data, "days");
            && s.after == days.after
            && (days.error.Some? ==> s.result == Err(days.error.value))
            && (days.error.None? ==> s.result == Strict("ScheduleMonth", ScheduleMonthFields, s.after))
  {
    var days := MapAt(ScheduleDayItem, data, "days");
    if days.error.Some? then Abort(days)
    else
      DecodeAllRequired("ScheduleMonth", ScheduleMonthFields, days.after);
      Step(Decode("ScheduleMonth", AllRequired(ScheduleMonthFields), days.after), days.after)
  }

  /** A week without `days` fails on the loop, and one without `index` on construction. */
  lemma ScheduleMonthNeedsDaysAndIndex(data: map<string, Value>)
    ensures "days" !in data ==> ScheduleMonthStep(data).result == Err(KeyError("days"))
    ensures "index" !in data ==> ScheduleMonthStep(data).result.Err?
  {
    var days := MapAt(ScheduleDayItem, data, "days");
    if "index" !in data && days.error.None? {
      assert "index" !in days.after;
    }
  }

  method ScheduleMonthDeJson(d: WireDict) returns (r: Result<Value>)
    modifies d
    ensures Step(r, d.entries) == ScheduleMonthStep(old(d.entries))
  {
    var err := MapInPlace(d, "days", ScheduleDayItem);
    if err.Some? {
      return Err(err.value);
    }
    var unknown;
    r, unknown := Finish("ScheduleMonth", AllRequired(ScheduleMonthFields), d.entries);
  }

  function ScheduleMonthItem(v: Value): ItemStep {
    AsItem(ScheduleMonthStep, v)
  }
}
