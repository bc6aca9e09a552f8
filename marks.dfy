/**
 * BARS/_marks.py: marks, the summary and total marks tables, attendance
 * and progress charts.  Each `XStep` says what `X.de_json(data)` returns
 * and what it leaves in the caller's dict; each `XDeJson` method performs
 * the same statements on a `WireDict`.
 */
module Marks {
  import opened Values
  import opened Coerce
  import opened Base

  const MarkFields: set<string> := {"date", "description", "mark"}
  const SummaryMarksDisciplineFields: set<string> := {"average_mark", "discipline", "marks"}
  const SubperiodFields: set<string> := {"code", "name"}
  const SummaryMarksFields: set<string> := {"dates", "disciplines", "subperiod"}
  const TotalMarksDisciplineFields: set<string> := {"discipline", "period_marks"}
  const TotalMarksFields: set<string> := {"disciplines", "subperiods"}
  const AttendaceDataFields: set<string> := {"absent", "absent_bad", "absent_good", "ill", "present", "total"}
  const SeriesItemFields: set<string> := {"color", "data", "name", "point_width"}
  const ProgressDataFields: set<string> := {"categories", "dates", "series", "subject"}

  // ---------------------------------------------------------------- Mark

  /** `Mark.de_json`: `mark` goes through `int()` in the caller's dict first. */
  function MarkStep(data: map<string, Value>): (s: Step)
    ensures "mark" !in data ==> s == Step(Err(KeyError("mark")), data)
    ensures "mark" in data && PyInt(data["mark"]).Err? ==> s == Step(Err(BadInt(data["mark"])), data)
    ensures "mark" in data && PyInt(data["mark"]).Ok? ==>
              && s.after == data["mark" := Int(PyInt(data["mark"]).value)]
              && s.result == Strict("Mark", MarkFields, s.after)
  {
    if "mark" !in data then Step(Err(KeyError("mark")), data)
    else
      match PyInt(data["mark"])
      case Err(e) => Step(Err(e), data)
      case Ok(n) =>
        var after := data["mark" := Int(n)];
        DecodeAllRequired("Mark", MarkFields, after);
        Step(Decode("Mark", AllRequired(MarkFields), after), after)
  }

  /** A decoded mark always holds an integer, the one `int()` made of the wire value. */
  lemma MarkIsInt(data: map<string, Value>)
    ensures MarkStep(data).result.Ok? <==> MarkFields <= data.Keys && PyInt(data["mark"]).Ok?
    ensures MarkStep(data).result.Ok? ==>
              MarkStep(data).result.value == Rec("Mark", map["date" := data["date"], "description" := data["description"],
                                                          "mark" := Int(PyInt(data["mark"]).value)])
  {
    var s := MarkStep(data);
    if "mark" in data && PyInt(data["mark"]).Ok? {
      assert s.after.Keys == data.Keys;
      if s.result.Ok? {
        assert Kept(MarkFields, s.after) == map["date" := data["date"], "description" := data["description"],
                                                "mark" := Int(PyInt(data["mark"]).value)];
      }
    }
  }

  method MarkDeJson(d: WireDict) returns (r: Result<Value>)
    modifies d
    ensures Step(r, d.entries) == MarkStep(old(d.entries))
  {
    if "mark" !in d.entries {
      return Err(KeyError("mark"));
    }
    var n := PyInt(d.entries["mark"]);
    if n.Err? {
      return Err(n.error);
    }
    d.entries := d.entries["mark" := Int(n.value)];
    var unknown;
    r, unknown := Finish("Mark", AllRequired(MarkFields), d.entries);
  }

  function MarkItem(v: Value): ItemStep {
    AsItem(MarkStep, v)
  }

  // ------------------------------------------------- SummaryMarksDiscipline

  /** `SummaryMarksDiscipline.de_json`: `float()` on `average_mark`, then each mark in place. */
  function SummaryMarksDisciplineStep(data: map<string, Value>): (s: Step)
    ensures "average_mark" !in data ==> s == Step(Err(KeyError("average_mark")), data)
    ensures "average_mark" in data && PyFloat(data["average_mark"]).Err? ==>
              s == Step(Err(BadFloat(data["average_mark"])), data)
    ensures "average_mark" in data && PyFloat(data["average_mark"]).Ok? ==>
              var coerced := data["average_mark" := Float(PyFloat(data["average_mark"]).value)];
              var marks := MapAt(MarkItem, coerced, "marks");
              && s.after == marks.after
              && (marks.error.Some? ==> s.result == Err(marks.error.value))
              && (marks.error.None? ==> s.result == Strict("SummaryMarksDiscipline", SummaryMarksDisciplineFields, s.after))
  {
    if "average_mark" !in data then Step(Err(KeyError("average_mark")), data)
    else
      match PyFloat(data["average_mark"])
      case Err(e) => Step(Err(e), data)
      case Ok(x) =>
        var marks := MapAt(MarkItem, data["average_mark" := Float(x)], "marks");
        if marks.error.Some? then Abort(marks)
        else
          DecodeAllRequired("SummaryMarksDiscipline", SummaryMarksDisciplineFields, marks.after);
          Step(Decode("SummaryMarksDiscipline", AllRequired(SummaryMarksDisciplineFields), marks.after), marks.after)
  }

  method SummaryMarksDisciplineDeJson(d: WireDict) returns (r: Result<Value>)
    modifies d
    ensures Step(r, d.entries) == SummaryMarksDisciplineStep(old(d.entries))
  {
    if "average_mark" !in d.entries {
      return Err(KeyError("average_mark"));
    }
    var x := PyFloat(d.entries["average_mark"]);
    if x.Err? {
      return Err(x.error);
    }
    d.entries := d.entries["average_mark" := Float(x.value)];
    var err := MapInPlace(d, "marks", MarkItem);
    if err.Some? {
      return Err(err.value);
    }
    var unknown;
    r, unknown := Finish("SummaryMarksDiscipline", AllRequired(SummaryMarksDisciplineFields), d.entries);
  }

  function SummaryMarksDisciplineItem(v: Value): ItemStep {
    AsItem(SummaryMarksDisciplineStep, v)
  }

  /**
   * A decoded discipline holds its marks list with the same length and order
   * as on the wire, each slot the decoded `Mark` of the wire element there.
   */
  lemma SummaryMarksDisciplineMarksInOrder(data: map<string, Value>)
    requires SummaryMarksDisciplineStep(data).result.Ok?
    ensures "marks" in data && data["marks"].Arr? ==>
              var out := SummaryMarksDisciplineStep(data).result.value.attrs["marks"];
              && out.Arr? && |out.items| == |data["marks"].items|
              && forall i :: 0 <= i < |out.items| ==> MarkItem(data["marks"].items[i]).result == Ok(out.items[i])
  {
    var s := SummaryMarksDisciplineStep(data);
    var coerced := data["average_mark" := Float(PyFloat(data["average_mark"]).value)];
    assert coerced["marks"] == data["marks"];
  }

  // ------------------------------------------------------------- Subperiod

  /** `Subperiod.de_json`: the generic step alone; the caller's dict is untouched. */
  function SubperiodStep(data: map<string, Value>): (s: Step)
    ensures s.after == data
    ensures s.result == Strict("Subperiod", SubperiodFields, data)
  {
    DecodeAllRequired("Subperiod", SubperiodFields, data);
    Plain("Subperiod", AllRequired(SubperiodFields), data)
  }

  function SubperiodItem(v: Value): ItemStep {
    AsItem(SubperiodStep, v)
  }

  // ---------------------------------------------------------- SummaryMarks

  /**
   * `SummaryMarks.de_json`: `discipline_marks` moves to `disciplines`, each
   * discipline is decoded in place, then `subperiod` is replaced by its record.
   */
  function SummaryMarksStep(data: map<string, Value>): (s: Step)
    ensures "discipline_marks" !in data ==> s == Step(Err(KeyError("discipline_marks")), data)
    ensures "discipline_marks" in data ==>
              var moved := Rename(data, "discipline_marks", "disciplines").after;
              var items := MapAt(SummaryMarksDisciplineItem, moved, "disciplines");
              var sub := ApplyAt(SubperiodItem, items.after, "subperiod");
              && (items.error.Some? ==> s == Step(Err(items.error.value), items.after))
              && (items.error.None? && sub.error.Some? ==> s == Step(Err(sub.error.value), sub.after))
              && (items.error.None? && sub.error.None? ==>
                    s == Step(Strict("SummaryMarks", SummaryMarksFields, sub.after), sub.after))
  {
    var moved := Rename(data, "discipline_marks", "disciplines");
    if moved.error.Some? then Abort(moved)
    else
      var items := MapAt(SummaryMarksDisciplineItem, moved.after, "disciplines");
      if items.error.Some? then Abort(items)
      else
        var sub := ApplyAt(SubperiodItem, items.after, "subperiod");
        if sub.error.Some? then Abort(sub)
        else
          DecodeAllRequired("SummaryMarks", SummaryMarksFields, sub.after);
          Step(Decode("SummaryMarks", AllRequired(SummaryMarksFields), sub.after), sub.after)
  }

  /** The rename is visible to the caller: `discipline_marks` is gone from its dict, whatever follows. */
  lemma SummaryMarksRenameVisible(data: map<string, Value>)
    requires "discipline_marks" in data
    ensures "discipline_marks" !in SummaryMarksStep(data).after
    ensures "disciplines" in SummaryMarksStep(data).after
  {
  }

  method SummaryMarksDeJson(d: WireDict) returns (r: Result<Value>)
    modifies d
    ensures Step(r, d.entries) == SummaryMarksStep(old(d.entries))
  {
    var err := RenameInPlace(d, "discipline_marks", "disciplines");
    if err.Some? {
      return Err(err.value);
    }
    err := MapInPlace(d, "disciplines", SummaryMarksDisciplineItem);
    if err.Some? {
      return Err(err.value);
    }
    err := ApplyInPlace(d, "subperiod", SubperiodItem);
    if err.Some? {
      return Err(err.value);
    }
    var unknown;
    r, unknown := Finish("SummaryMarks", AllRequired(SummaryMarksFields), d.entries);
  }

  // -------------------------------------------------- TotalMarksDiscipline

  /** `data['period_marks'][i] = int(data['period_marks'][i])`: a refused entry stays as it was. */
  function IntItem(v: Value): (r: ItemStep)
    ensures r.result.Ok? <==> PyInt(v).Ok?
    ensures r.result.Ok? ==> r.result.value == Int(PyInt(v).value)
    ensures r.result.Err? ==> r.result.error == BadInt(v) && r.after == v
  {
    match PyInt(v)
    case Ok(n) => ItemStep(Ok(Int(n)), v)
    case Err(e) => ItemStep(Err(e), v)
  }

  /** `TotalMarksDiscipline.de_json`: every period mark goes through `int()` in place. */
  function TotalMarksDisciplineStep(data: map<string, Value>): (s: Step)
    ensures var marks := MapAt(IntItem, data, "period_marks");
            && s.after == marks.after
            && (marks.error.Some? ==> s.result == Err(marks.error.value))
            && (marks.error.None? ==> s.result == Strict("TotalMarksDiscipline", TotalMarksDisciplineFields, s.after))
  {
    var marks := MapAt(IntItem, data, "period_marks");
    if marks.error.Some? then Abort(marks)
    else
      DecodeAllRequired("TotalMarksDiscipline", TotalMarksDisciplineFields, marks.after);
      Step(Decode("TotalMarksDiscipline", AllRequired(TotalMarksDisciplineFields), marks.after), marks.after)
  }

  /**
   * Period marks keep their length and order and each becomes `int()` of the
   * wire entry; the first entry `int()` refuses fails the decoder, with every
   * entry before it already converted in the caller's list.
   */
  lemma {:induction false} PeriodMarksCoerced(data: map<string, Value>)
    requires "period_marks" in data && data["period_marks"].Arr?
    ensures var items := data["period_marks"].items;
            var s := TotalMarksDisciplineStep(data);
            var k := FirstFailure(IntItem, items);
            && s.after["period_marks"].Arr?
            && |s.after["period_marks"].items| == |items|
            && (forall i :: 0 <= i < k ==> s.after["period_marks"].items[i] == Int(PyInt(items[i]).value))
            && (k < |items| ==> s.result == Err(BadInt(items[k])) && s.after["period_marks"].items[k..] == items[k..])
  {
    var items := data["period_marks"].items;
    var m := MapEach(IntItem, items);
    var k := FirstFailure(IntItem, items);
    if k < |items| {
      assert m.items[k..] == [m.items[k]] + m.items[k + 1..];
      assert items[k..] == [items[k]] + items[k + 1..];
    }
  }

  method TotalMarksDisciplineDeJson(d: WireDict) returns (r: Result<Value>)
    modifies d
    ensures Step(r, d.entries) == TotalMarksDisciplineStep(old(d.entries))
  {
    var err := MapInPlace(d, "period_marks", IntItem);
    if err.Some? {
      return Err(err.value);
    }
    var unknown;
    r, unknown := Finish("TotalMarksDiscipline", AllRequired(TotalMarksDisciplineFields), d.entries);
  }

  function TotalMarksDisciplineItem(v: Value): ItemStep {
    AsItem(TotalMarksDisciplineStep, v)
  }

  // ------------------------------------------------------------ TotalMarks

  /** `TotalMarks.de_json`: the same rename as `SummaryMarks`, then two lists decoded in place. */
  function TotalMarksStep(data: map<string, Value>): (s: Step)
    ensures "discipline_marks" !in data ==> s == Step(Err(KeyError("discipline_marks")), data)
    ensures "discipline_marks" in data ==>
              var moved := Rename(data, "discipline_marks", "disciplines").after;
              var items := MapAt(TotalMarksDisciplineItem, moved, "disciplines");
              var subs := MapAt(SubperiodItem, items.after, "subperiods");
              && (items.error.Some? ==> s == Step(Err(items.error.value), items.after))
              && (items.error.None? && subs.error.Some? ==> s == Step(Err(subs.error.value), subs.after))
              && (items.error.None? && subs.error.None? ==>
                    s == Step(Strict("TotalMarks", TotalMarksFields, subs.after), subs.after))
  {
    var moved := Rename(data, "discipline_marks", "disciplines");
    if moved.error.Some? then Abort(moved)
    else
      var items := MapAt(TotalMarksDisciplineItem, moved.after, "disciplines");
      if items.error.Some? then Abort(items)
      else
        var subs := MapAt(SubperiodItem, items.after, "subperiods");
        if subs.error.Some? then Abort(subs)
        else
          DecodeAllRequired("TotalMarks", TotalMarksFields, subs.after);
          Step(Decode("TotalMarks", AllRequired(TotalMarksFields), subs.after), subs.after)
  }

  method TotalMarksDeJson(d: WireDict) returns (r: Result<Value>)
    modifies d
    ensures Step(r, d.entries) == TotalMarksStep(old(d.entries))
  {
    var err := RenameInPlace(d, "discipline_marks", "disciplines");
    if err.Some? {
      return Err(err.value);
    }
    err := MapInPlace(d, "disciplines", TotalMarksDisciplineItem);
    if err.Some? {
      return Err(err.value);
    }
    err := MapInPlace(d, "subperiods", SubperiodItem);
    if err.Some? {
      return Err(err.value);
    }
    var unknown;
    r, unknown := Finish("TotalMarks", AllRequired(TotalMarksFields), d.entries);
  }

  // --------------------------------------------------------- AttendaceData

  /** `AttendaceData.de_json`: the six counters are all required and passed through as they are. */
  function AttendaceDataStep(data: map<string, Value>): (s: Step)
    ensures s.after == data
    ensures s.result.Ok? <==> AttendaceDataFields <= data.Keys
    ensures s.result.Ok? ==> s.result.value == Rec("AttendaceData", Kept(AttendaceDataFields, data))
    ensures s.result.Err? ==> s.result.error == MissingFields("AttendaceData", AttendaceDataFields - data.Keys)
  {
    DecodeAllRequired("AttendaceData", AttendaceDataFields, data);
    Plain("AttendaceData", AllRequired(AttendaceDataFields), data)
  }

  // ------------------------------------------------------------ SeriesItem

  /** `SeriesItem.de_json`: `pointWidth` moves to `point_width` in the caller's dict. */
  function SeriesItemStep(data: map<string, Value>): (s: Step)
    ensures "pointWidth" !in data ==> s == Step(Err(KeyError("pointWidth")), data)
    ensures "pointWidth" in data ==>
              && s.after == data["point_width" := data["pointWidth"]] - {"pointWidth"}
              && s.result == Strict("SeriesItem", SeriesItemFields, s.after)
  {
    var moved := Rename(data, "pointWidth", "point_width");
    if moved.error.Some? then Abort(moved)
    else
      DecodeAllRequired("SeriesItem", SeriesItemFields, moved.after);
      Step(Decode("SeriesItem", AllRequired(SeriesItemFields), moved.after), moved.after)
  }

  /** The decoded width is the wire `pointWidth`, whatever `point_width` the wire also carried. */
  lemma SeriesItemWidth(data: map<string, Value>)
    requires SeriesItemStep(data).result.Ok?
    ensures SeriesItemStep(data).result.value.attrs["point_width"] == data["pointWidth"]
    ensures "pointWidth" in data && {"color", "data", "name"} <= data.Keys
  {
    var s := SeriesItemStep(data);
    assert "point_width" in SeriesItemFields;
  }

  method SeriesItemDeJson(d: WireDict) returns (r: Result<Value>)
    modifies d
    ensures Step(r, d.entries) == SeriesItemStep(old(d.entries))
  {
    var err := RenameInPlace(d, "pointWidth", "point_width");
    if err.Some? {
      return Err(err.value);
    }
    var unknown;
    r, unknown := Finish("SeriesItem", AllRequired(SeriesItemFields), d.entries);
  }

  function SeriesItemItem(v: Value): ItemStep {
    AsItem(SeriesItemStep, v)
  }

  // ---------------------------------------------------------- ProgressData

  /** `ProgressData.de_json`: each chart series is decoded in place. */
  function ProgressDataStep(data: map<string, Value>): (s: Step)
    ensures var series := MapAt(SeriesItemItem, data, "series");
            && s.after == series.after
            && (series.error.Some? ==> s.result == Err(series.error.value))
            && (series.error.None? ==> s.result == Strict("ProgressData", ProgressDataFields, s.after))
  {
    var series := MapAt(SeriesItemItem, data, "series");
    if series.error.Some? then Abort(series)
    else
      DecodeAllRequired("ProgressData", ProgressDataFields, series.after);
      Step(Decode("ProgressData", AllRequired(ProgressDataFields), series.after), series.after)
  }

  method ProgressDataDeJson(d: WireDict) returns (r: Result<Value>)
    modifies d
    ensures Step(r, d.entries) == ProgressDataStep(old(d.entries))
  {
    var err := MapInPlace(d, "series", SeriesItemItem);
    if err.Some? {
      return Err(err.value);
    }
    var unknown;
    r, unknown := Finish("ProgressData", AllRequired(ProgressDataFields), d.entries);
  }
}
