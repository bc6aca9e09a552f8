/**
 * BARS/_school.py: school staff, the school, pupils and the class.
 */
module School {
  import opened Values
  import opened Base

  const EmployeeFields: set<string> := {"group", "fullname", "category", "employer_jobs", "male", "photo"}
  const SchoolInfoFields: set<string> := {
    "name", "address", "phone", "site_url", "count_employees", "count_pupils", "photo", "email", "ustav", "employees"
  }
  const PupilFields: set<string> := {"fullname", "male", "photo"}
  const ClassInfoFields: set<string> := {
    "study_level", "letter", "form_master", "form_master_photo", "form_master_male", "specialization", "photo", "pupils"
  }

  /** `Employee.de_json`: every declared field required, nothing converted. */
  function EmployeeStep(data: map<string, Value>): (s: Step)
    ensures s.after == data
    ensures s.result == Strict("Employee", EmployeeFields, data)
  {
    DecodeAllRequired("Employee", EmployeeFields, data);
    Plain("Employee", AllRequired(EmployeeFields), data)
  }

  function EmployeeItem(v: Value): ItemStep {
    AsItem(EmployeeStep, v)
  }

  /** `SchoolInfo.de_json`: the staff list is decoded in place. */
  function SchoolInfoStep(data: map<string, Value>): (s: Step)
    ensures var staff := MapAt(EmployeeItem, data, "employees");
            && s.after == staff.after
            && (staff.error.Some? ==> s.result == Err(staff.error.value))
            && (staff.error.None? ==> s.result == Strict("SchoolInfo", SchoolInfoFields, s.after))
  {
    var staff := MapAt(EmployeeItem, data, "employees");
    if staff.error.Some? then Abort(staff)
    else
      DecodeAllRequired("SchoolInfo", SchoolInfoFields, staff.after);
      Step(Decode("SchoolInfo", AllRequired(SchoolInfoFields), staff.after), staff.after)
  }

  /**
   * The staff list keeps its length and order, each slot the exact
   * declared keys of the wire dict there; the two counters are passed
   * through as received.
   */
  lemma SchoolInfoStaffInOrder(data: map<string, Value>)
    requires "employees" in data && data["employees"].Arr?
    requires SchoolInfoStep(data).result.Ok?
    ensures var wire := data["employees"].items;
            var out := SchoolInfoStep(data).result.value.attrs["employees"];
            && out.Arr? && |out.items| == |wire|
            && forall i :: 0 <= i < |wire| ==>
                 wire[i].Obj? && out.items[i] == Rec("Employee", Kept(EmployeeFields, wire[i].entries))
    ensures SchoolInfoStep(data).result.value.attrs["count_employees"] == data["count_employees"]
    ensures SchoolInfoStep(data).result.value.attrs["count_pupils"] == data["count_pupils"]
  {
    var wire := data["employees"].items;
    var m := MapEach(EmployeeItem, wire);
    forall i | 0 <= i < |wire|
      ensures wire[i].Obj? && m.items[i] == Rec("Employee", Kept(EmployeeFields, wire[i].entries))
    {
      assert EmployeeItem(wire[i]).result.Ok?;
    }
    assert "count_employees" in SchoolInfoFields && "count_pupils" in SchoolInfoFields;
  }

  method SchoolInfoDeJson(d: WireDict) returns (r: Result<Value>)
    modifies d
    ensures Step(r, d.entries) == SchoolInfoStep(old(d.entries))
  {
    var err := MapInPlace(d, "employees", EmployeeItem);
    if err.Some? {
      return Err(err.value);
    }
    var unknown;
    r, unknown := Finish("SchoolInfo", AllRequired(SchoolInfoFields), d.entries);
  }

  /** `Pupil.de_json`: `fullname`, `male` and `photo` required. */
  function PupilStep(data: map<string, Value>): (s: Step)
    ensures s.after == data
    ensures s.result == Strict("Pupil", PupilFields, data)
  {
    DecodeAllRequired("Pupil", PupilFields, data);
    Plain("Pupil", AllRequired(PupilFields), data)
  }

  function PupilItem(v: Value): ItemStep {
    AsItem(PupilStep, v)
  }

  /** `ClassInfo.de_json`: the pupil list is decoded in place. */
  function ClassInfoStep(data: map<string, Value>): (s: Step)
    ensures var pupils := MapAt(PupilItem, data, "pupils");
            && s.after == pupils.after
            && (pupils.error.Some? ==> s.result == Err(pupils.error.value))
            && (pupils.error.None? ==> s.result == Strict("ClassInfo", ClassInfoFields, s.after))
  {
    var pupils := MapAt(PupilItem, data, "pupils");
    if pupils.error.Some? then Abort(pupils)
    else
      DecodeAllRequired("ClassInfo", ClassInfoFields, pupils.after);
      Step(Decode("ClassInfo", AllRequired(ClassInfoFields), pupils.after), pupils.after)
  }

  /** A class without `pupils` is a KeyError; `study_level` is passed through unconverted. */
  lemma ClassInfoPupilsRequired(data: map<string, Value>)
    ensures "pupils" !in data ==> ClassInfoStep(data) == Step(Err(KeyError("pupils")), data)
    ensures ClassInfoStep(data).result.Ok? ==>
              ClassInfoStep(data).result.value.attrs["study_level"] == data["study_level"]
  {
    var pupils := MapAt(PupilItem, data, "pupils");
    assert pupils.after.Keys == data.Keys;
    assert "study_level" in ClassInfoFields;
  }

  method ClassInfoDeJson(d: WireDict) returns (r: Result<Value>)
    modifies d
    ensures Step(r, d.entries) == ClassInfoStep(old(d.entries))
  {
    var err := MapInPlace(d, "pupils", PupilItem);
    if err.Some? {
      return Err(err.value);
    }
    var unknown;
    r, unknown := Finish("ClassInfo", AllRequired(ClassInfoFields), d.entries);
  }
}
