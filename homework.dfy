/**
 * BARS/_homework.py: a lesson of the homework list, whose four camelCase
 * wire keys are copied to snake_case fields, and a day of homework.
 */
module Homework {
  import opened Values
  import opened Base

  /** The wire keys that `data.update` reads, in the order the dict display evaluates them. */
  const Camel: seq<string> := ["individualHomeworks", "nextHomework", "nextIndividualHomeworks", "nextMaterials"]
  /** The fields they are copied to, position by position. */
  const Snake: seq<string> := ["individual_homeworks", "next_homework", "next_individual_homeworks", "next_materials"]

  const HomeworkLessonFields: set<string> := {
    "date", "discipline", "homework", "homework_time_to_complete", "individual_homeworks", "materials",
    "next_homework", "next_individual_homeworks", "next_materials", "next_homework_time_to_complete",
    "schedulelessontype", "teacher", "theme"
  }

  const HomeworkDayFields: set<string> := {"date", "homeworks", "name"}

  /** The caller's dict after the `update`: the four copies added, nothing removed. */
  function WithSnakeCopies(data: map<string, Value>): (r: map<string, Value>)
    requires forall i :: 0 <= i < 4 ==> Camel[i] in data
    ensures r.Keys == data.Keys + {Snake[0], Snake[1], Snake[2], Snake[3]}
    ensures forall i :: 0 <= i < 4 ==> r[Snake[i]] == data[Camel[i]]
    ensures forall k :: k in data && k !in Snake ==> r[k] == data[k]
  {
    data + map[Snake[0] := data[Camel[0]], Snake[1] := data[Camel[1]],
               Snake[2] := data[Camel[2]], Snake[3] := data[Camel[3]]]
  }

  /**
   * `HomeworkLesson.de_json`.  The first camelCase key that is missing
   * raises KeyError before the dict changes; otherwise the copies are added
   * to the caller's dict and the generic step follows.
   */
  function HomeworkLessonStep(data: map<string, Value>): (s: Step)
    ensures forall i :: 0 <= i < 4 && Camel[i] !in data && (forall j :: 0 <= j < i ==> Camel[j] in data) ==>
              s == Step(Err(KeyError(Camel[i])), data)
    ensures (forall i :: 0 <= i < 4 ==> Camel[i] in data) ==>
              && s.after.Keys == data.Keys + {Snake[0], Snake[1], Snake[2], Snake[3]}
              && (forall i :: 0 <= i < 4 ==> s.after[Snake[i]] == data[Camel[i]])
              && (forall k :: k in data && k !in Snake ==> s.after[k] == data[k])
              && s.result == Strict("HomeworkLesson", HomeworkLessonFields, s.after)
  {
    if Camel[0] !in data then Step(Err(KeyError(Camel[0])), data)
    else if Camel[1] !in data then Step(Err(KeyError(Camel[1])), data)
    else if Camel[2] !in data then Step(Err(KeyError(Camel[2])), data)
    else if Camel[3] !in data then Step(Err(KeyError(Camel[3])), data)
    else
      var after := WithSnakeCopies(data);
      DecodeAllRequired("HomeworkLesson", HomeworkLessonFields, after);
      Step(Decode("HomeworkLesson", AllRequired(HomeworkLessonFields), after), after)
  }

  /**
   * The camelCase originals stay in the caller's dict and are undeclared,
   * so the generic step reports all four as unknown for every lesson.
   */
  lemma HomeworkLessonAlwaysWarns(data: map<string, Value>)
    requires forall i :: 0 <= i < 4 ==> Camel[i] in data
    ensures forall i :: 0 <= i < 4 ==>
              Camel[i] in Unknown(HomeworkLessonFields, HomeworkLessonStep(data).after)
  {
    var after := WithSnakeCopies(data);
    assert HomeworkLessonStep(data).after == after;
    forall i | 0 <= i < 4
      ensures Camel[i] in Unknown(HomeworkLessonFields, after)
    {
      CamelUndeclared(i);
      assert Camel[i] in after;
    }
  }

  lemma CamelUndeclared(i: int)
    requires 0 <= i < 4
    ensures Camel[i] !in HomeworkLessonFields
  {
    if i == 0 {
      assert Camel[0] !in HomeworkLessonFields;
    } else if i == 1 {
      assert Camel[1] !in HomeworkLessonFields;
    } else if i == 2 {
      assert Camel[2] !in HomeworkLessonFields;
    } else {
      assert Camel[3] !in HomeworkLessonFields;
    }
  }

  /**
   * `next_homework_time_to_complete` has no camelCase copy: a lesson that
   * lacks that snake_case key is refused, whatever other keys it carries.
   */
  lemma HomeworkLessonNextTimeNotRenamed(data: map<string, Value>)
    requires "next_homework_time_to_complete" !in data
    ensures HomeworkLessonStep(data).result.Err?
  {
    if forall i :: 0 <= i < 4 ==> Camel[i] in data {
      var after := WithSnakeCopies(data);
      assert "next_homework_time_to_complete" !in after;
      assert !(HomeworkLessonFields <= after.Keys) by {
        assert "next_homework_time_to_complete" in HomeworkLessonFields;
      }
      assert HomeworkLessonStep(data).result == Strict("HomeworkLesson", HomeworkLessonFields, after);
    }
  }

  method HomeworkLessonDeJson(d: WireDict) returns (r: Result<Value>)
    modifies d
    ensures Step(r, d.entries) == HomeworkLessonStep(old(d.entries))
  {
    var i := 0;
    while i < 4
      invariant 0 <= i <= 4
      invariant forall j :: 0 <= j < i ==> Camel[j] in d.entries
      invariant d.entries == old(d.entries)
    {
      if Camel[i] !in d.entries {
        return Err(KeyError(Camel[i]));
      }
      i := i + 1;
    }
    d.entries := WithSnakeCopies(d.entries);
    var unknown;
    r, unknown := Finish("HomeworkLesson", AllRequired(HomeworkLessonFields), d.entries);
  }

  function HomeworkLessonItem(v: Value): ItemStep {
    AsItem(HomeworkLessonStep, v)
  }

  /** `HomeworkDay.de_json`: the homework lessons are decoded in place, in order. */
  function HomeworkDayStep(data: map<string, Value>): (s: Step)
    ensures var lessons := MapAt(HomeworkLessonItem, data, "homeworks");
            && s.after == lessons.after
            && (lessons.error.Some? ==> s.result == Err(lessons.error.value))
            && (lessons.error.None? ==> s.result == Strict("HomeworkDay", HomeworkDayFields, s.after))
  {
    var lessons := MapAt(HomeworkLessonItem, data, "homeworks");
    if lessons.error.Some? then Abort(lessons)
    else
      DecodeAllRequired("HomeworkDay", HomeworkDayFields, lessons.after);
      Step(Decode("HomeworkDay", AllRequired(HomeworkDayFields), lessons.after), lessons.after)
  }

  /** Unlike a diary day, a homework day without `homeworks` is a KeyError; all three fields are required. */
  lemma HomeworkDayNeedsHomeworks(data: map<string, Value>)
    ensures "homeworks" !in data ==> HomeworkDayStep(data) == Step(Err(KeyError("homeworks")), data)
    ensures HomeworkDayStep(data).result.Ok? ==> HomeworkDayFields <= data.Keys
  {
    var lessons := MapAt(HomeworkLessonItem, data, "homeworks");
    assert lessons.after.Keys == data.Keys;
  }

  method HomeworkDayDeJson(d: WireDict) returns (r: Result<Value>)
    modifies d
    ensures Step(r, d.entries) == HomeworkDayStep(old(d.entries))
  {
    var err := MapInPlace(d, "homeworks", HomeworkLessonItem);
    if err.Some? {
      return Err(err.value);
    }
    var unknown;
    r, unknown := Finish("HomeworkDay", AllRequired(HomeworkDayFields), d.entries);
  }

  function HomeworkDayItem(v: Value): ItemStep {
    AsItem(HomeworkDayStep, v)
  }
}
