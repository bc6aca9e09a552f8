/**
 * BARS/_misc.py: a current event or holiday.
 */
module Misc {
  import opened Values
  import opened Base

  const EventFields: set<string> := {"date", "date_str", "theme"}

  /**
   * `Event.de_json`: the three fields are taken unchanged from the
   * same-named keys, extra keys are dropped and the caller's dict is left
   * as it was.
   */
  function EventStep(data: map<string, Value>): (s: Step)
    ensures s.after == data
    ensures s.result.Ok? <==> EventFields <= data.Keys
    ensures s.result.Ok? ==>
              s.result.value == Rec("Event", map["date" := data["date"], "date_str" := data["date_str"], "theme" := data["theme"]])
    ensures s.result.Err? ==> s.result.error == MissingFields("Event", EventFields - data.Keys)
  {
    DecodeAllRequired("Event", EventFields, data);
    var s := Plain("Event", AllRequired(EventFields), data);
    assert s.result.Ok? ==>
      Kept(EventFields, data) == map["date" := data["date"], "date_str" := data["date_str"], "theme" := data["theme"]];
    s
  }

  function EventItem(v: Value): ItemStep {
    AsItem(EventStep, v)
  }
}
