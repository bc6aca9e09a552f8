/**
 * BARS/_account.py: an unlocked discipline, the account information (whose
 * `pupil_id` wire key becomes the `pupilid` field) and the pupil profile.
 */
module Account {
  import opened Values
  import opened Base

  const UnlockedDiscilpineFields: set<string> := {"id", "name"}
  const AccountInfoFields: set<string> :=
    {"charts_urls", "disciplines", "period_begin", "period_end", "pupilid", "student_id_param_name"}
  const PupilInfoFields: set<string> := {
    "auth_user_profile_id", "children_persons", "indicators", "selected_pupil_ava_url",
    "selected_pupil_classyear", "selected_pupil_id", "selected_pupil_is_male", "selected_pupil_name",
    "selected_pupil_school", "user_ava_url", "user_desc", "user_fullname", "user_has_ava", "user_is_male"
  }

  /** `UnlockedDiscilpine.de_json`: `id` and `name` required, other keys dropped. */
  function UnlockedDiscilpineStep(data: map<string, Value>): (s: Step)
    ensures s.after == data
    ensures s.result.Ok? <==> "id" in data && "name" in data
    ensures s.result.Ok? ==> s.result.value == Rec("UnlockedDiscilpine", map["id" := data["id"], "name" := data["name"]])
  {
    DecodeAllRequired("UnlockedDiscilpine", UnlockedDiscilpineFields, data);
    var s := Plain("UnlockedDiscilpine", AllRequired(UnlockedDiscilpineFields), data);
    assert s.result.Ok? ==> Kept(UnlockedDiscilpineFields, data) == map["id" := data["id"], "name" := data["name"]];
    s
  }

  function UnlockedDiscilpineItem(v: Value): ItemStep {
    AsItem(UnlockedDiscilpineStep, v)
  }

  /**
   * `AccountInfo.de_json`: `pupil_id` moves to `pupilid` in the caller's
   * dict, then the unlocked disciplines are decoded in place.
   */
  function AccountInfoStep(data: map<string, Value>): (s: Step)
    ensures "pupil_id" !in data ==> s == Step(Err(KeyError("pupil_id")), data)
    ensures "pupil_id" in data ==>
              var moved := Rename(data, "pupil_id", "pupilid").after;
              var items := MapAt(UnlockedDiscilpineItem, moved, "disciplines");
              && s.after == items.after
              && (items.error.Some? ==> s.result == Err(items.error.value))
              && (items.error.None? ==> s.result == Strict("AccountInfo", AccountInfoFields, s.after))
  {
    var moved := Rename(data, "pupil_id", "pupilid");
    if moved.error.Some? then Abort(moved)
    else
      var items := MapAt(UnlockedDiscilpineItem, moved.after, "disciplines");
      if items.error.Some? then Abort(items)
      else
        DecodeAllRequired("AccountInfo", AccountInfoFields, items.after);
        Step(Decode("AccountInfo", AllRequired(AccountInfoFields), items.after), items.after)
  }

  /**
   * A decoded account carries the wire `pupil_id` as `pupilid` and
   * `charts_urls` exactly as received; the caller's dict no longer has
   * `pupil_id`.
   */
  lemma AccountInfoPupilId(data: map<string, Value>)
    requires AccountInfoStep(data).result.Ok?
    ensures "pupil_id" in data && "charts_urls" in data
    ensures AccountInfoStep(data).result.value.attrs["pupilid"] == data["pupil_id"]
    ensures AccountInfoStep(data).result.value.attrs["charts_urls"] == data["charts_urls"]
    ensures "pupil_id" !in AccountInfoStep(data).after
  {
    var moved := Rename(data, "pupil_id", "pupilid").after;
    var items := MapAt(UnlockedDiscilpineItem, moved, "disciplines");
    assert "charts_urls" in AccountInfoFields && "pupilid" in AccountInfoFields;
    assert "charts_urls" in items.after;
  }

  method AccountInfoDeJson(d: WireDict) returns (r: Result<Value>)
    modifies d
    ensures Step(r, d.entries) == AccountInfoStep(old(d.entries))
  {
    var err := RenameInPlace(d, "pupil_id", "pupilid");
    if err.Some? {
      return Err(err.value);
    }
    err := MapInPlace(d, "disciplines", UnlockedDiscilpineItem);
    if err.Some? {
      return Err(err.value);
    }
    var unknown;
    r, unknown := Finish("AccountInfo", AllRequired(AccountInfoFields), d.entries);
  }

  /** `PupilInfo.de_json`: the fourteen fields are required and passed through unconverted. */
  function PupilInfoStep(data: map<string, Value>): (s: Step)
    ensures s.after == data
    ensures s.result == Strict("PupilInfo", PupilInfoFields, data)
  {
    DecodeAllRequired("PupilInfo", PupilInfoFields, data);
    Plain("PupilInfo", AllRequired(PupilInfoFields), data)
  }
}
