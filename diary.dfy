/**
 * BARS/_diary.py: a lesson of the diary and a day of the diary week.
 */
module Diary {
  import opened Values
  import opened Base

  /** All 22 declared fields, `homework` among them, and none has a default. */
  const DiaryLessonFields: set<string> := {
    "id", "date", "attendance", "comment", "discipline", "homework", "homework_time_to_complete",
    "ind_homework_exists", "index", "is_control_work", "mark", "mark_type", "materials", "office",
    "remarks", "schedulelessontype", "study_time_name", "study_time_shift", "teacher", "theme",
    "time_begin", "time_end"
  }

  const DiaryDaySchema: Schema :=
    map["date" := None, "lessons" := None, "is_weekend" := Some(Bool(false)), "is_vacation" := Some(Bool(false))]

  /**
   * `DiaryLesson.de_json`: every declared field is required, values pass
   * through unconverted and undeclared keys are dropped.
   */
  function DiaryLessonStep(data: map<string, Value>): (s: Step)
    ensures s.after == data
    ensures s.result == Strict("DiaryLesson", DiaryLessonFields, data)
  {
    DecodeAllRequired("DiaryLesson", DiaryLessonFields, data);
    Plain("DiaryLesson", AllRequired(DiaryLessonFields), data)
  }

  /** A lesson without `homework` is refused, although the field's documentation leaves it out. */
  lemma DiaryLessonNeedsHomework(data: map<string, Value>)
    requires "homework" !in data
    ensures DiaryLessonStep(data).result.Err?
    ensures "homework" in DiaryLessonStep(data).result.error.fields
  {
    assert "homework" in DiaryLessonFields;
  }

  function DiaryLessonItem(v: Value): ItemStep {
    AsItem(DiaryLessonStep, v)
  }

  /** `DiaryDay.de_json`: lessons decoded in place, an absent `lessons` key read as no lessons. */
  function DiaryDayStep(data: map<string, Value>): (s: Step)
    ensures "lessons" !in data ==>
              && s.after == data["lessons" := Arr([])]
              && s.result == Decode("DiaryDay", DiaryDaySchema, s.after)
    ensures "lessons" in data ==>
              var lessons := MapAt(DiaryLessonItem, data, "lessons");
              && s.after == lessons.after
              && (lessons.error.Some? ==> s.result == Err(lessons.error.value))
              && (lessons.error.None? ==> s.result == Decode("DiaryDay", DiaryDaySchema, s.after))
  {
    var lessons := MapAt(DiaryLessonItem, data, "lessons");
    if lessons.error.Some? && lessons.error.value.KeyError? then
      var after := lessons.after["lessons" := Arr([])];
      Step(Decode("DiaryDay", DiaryDaySchema, after), after)
    else if lessons.error.Some? then Abort(lessons)
    else Step(Decode("DiaryDay", DiaryDaySchema, lessons.after), lessons.after)
  }

  /** A day without `lessons` decodes to an empty list; its flags default to False. */
  lemma DiaryDayMissingLessons(data: map<string, Value>)
    requires "lessons" !in data
    ensures DiaryDayStep(data).result.Ok? <==> "date" in data
    ensures DiaryDayStep(data).result.Ok? ==> DiaryDayStep(data).result.value.attrs["lessons"] == Arr([])
    ensures DiaryDayStep(data).result.Ok? && "is_weekend" !in data ==>
              DiaryDayStep(data).result.value.attrs["is_weekend"] == Bool(false)
    ensures DiaryDayStep(data).result.Ok? && "is_vacation" !in data ==>
              DiaryDayStep(data).result.value.attrs["is_vacation"] == Bool(false)
  {
    assert Required(DiaryDaySchema) == {"date", "lessons"};
  }

  /**
   * With all lessons accepted, the day holds them in wire order, each one
   * exactly the declared keys of its wire dict: undeclared keys are dropped
   * at the lesson level as at the day level.
   */
  lemma DiaryDayLessonsInOrder(data: map<string, Value>)
    requires "lessons" in data && data["lessons"].Arr?
    requires DiaryDayStep(data).result.Ok?
    ensures var wire := data["lessons"].items;
            var out := DiaryDayStep(data).result.value.attrs["lessons"];
            && out.Arr? && |out.items| == |wire|
            && forall i :: 0 <= i < |wire| ==>
                 wire[i].Obj? && out.items[i] == Rec("DiaryLesson", Kept(DiaryLessonFields, wire[i].entries))
    ensures DiaryDayStep(data).result.value.attrs.Keys == DiaryDaySchema.Keys
  {
    var wire := data["lessons"].items;
    var m := MapEach(DiaryLessonItem, wire);
    forall i | 0 <= i < |wire|
      ensures wire[i].Obj? && m.items[i] == Rec("DiaryLesson", Kept(DiaryLessonFields, wire[i].entries))
    {
      assert DiaryLessonItem(wire[i]).result.Ok?;
    }
  }

  method DiaryDayDeJson(d: WireDict) returns (r: Result<Value>)
    modifies d
    ensures Step(r, d.entries) == DiaryDayStep(old(d.entries))
  {
    var err := MapInPlace(d, "lessons", DiaryLessonItem);
    if err.Some? {
      if err.value.KeyError? {
        d.entries := d.entries["lessons" := Arr([])];
      } else {
        return Err(err.value);
      }
    }
    var unknown;
    r, unknown := Finish("DiaryDay", DiaryDaySchema, d.entries);
  }

  function DiaryDayItem(v: Value): ItemStep {
    AsItem(DiaryDayStep, v)
  }
}
