/**
 * BARS/_base.py: the generic step every record decoder ends with
 * (`ClientObject.de_json` followed by `cls(**data)`), and the in-place
 * pieces the per-type decoders share: the caller's dict as a mutable
 * object, and the `for i, x in enumerate(data[key]): data[key][i] = f(x)`
 * loop.
 */
module Base {
  import opened Values

  /** A dataclass's declared fields, each with its default when it has one. */
  type Schema = map<string, Option<Value>>

  function Required(schema: Schema): set<string> {
    set f | f in schema && schema[f].None?
  }

  /** A dataclass whose fields are all required. */
  function AllRequired(fields: set<string>): (schema: Schema)
    ensures schema.Keys == fields && Required(schema) == fields
  {
    map f | f in fields :: None
  }

  /** The declared keys of `data`, with their values: what `de_json` returns. */
  function Kept(fields: set<string>, data: map<string, Value>): map<string, Value> {
    map k | k in data && k in fields :: data[k]
  }

  /** The undeclared keys of `data`, with their values: what `de_json` logs. */
  function Unknown(fields: set<string>, data: map<string, Value>): map<string, Value> {
    map k | k in data && k !in fields :: data[k]
  }

  /**
   * `ClientObject.de_json(data)`: partitions a copy of `data` into declared
   * and unknown keys.  `data` is a value here, so the caller's dict cannot
   * change; a warning is logged exactly when `unknown` is not empty.
   */
  method DeJson(fields: set<string>, data: map<string, Value>)
    returns (cleaned: map<string, Value>, unknown: map<string, Value>)
    ensures cleaned == Kept(fields, data)
    ensures unknown == Unknown(fields, data)
  {
    cleaned, unknown := map[], map[];
    var rest := data.Keys;
    while rest != {}
      invariant rest <= data.Keys
      invariant cleaned.Keys == (data.Keys - rest) * fields
      invariant unknown.Keys == (data.Keys - rest) - fields
      invariant forall k :: k in cleaned ==> cleaned[k] == data[k]
      invariant forall k :: k in unknown ==> unknown[k] == data[k]
      decreases rest
    {
      var k :| k in rest;
      if k in fields {
        cleaned := cleaned[k := data[k]];
      } else {
        unknown := unknown[k := data[k]];
      }
      rest := rest - {k};
    }
  }

  /** Every input key lands in exactly one of the two maps, with its value unchanged. */
  lemma PartitionExact(fields: set<string>, data: map<string, Value>)
    ensures Kept(fields, data).Keys !! Unknown(fields, data).Keys
    ensures Kept(fields, data).Keys + Unknown(fields, data).Keys == data.Keys
    ensures Kept(fields, data).Keys == data.Keys * fields
    ensures forall k :: k in Kept(fields, data) ==> Kept(fields, data)[k] == data[k]
    ensures forall k :: k in Unknown(fields, data) ==> Unknown(fields, data)[k] == data[k]
    ensures Unknown(fields, data) == map[] <==> data.Keys <= fields
  {
    if Unknown(fields, data) == map[] {
      forall k | k in data ensures k in fields {
        assert k !in Unknown(fields, data);
      }
    }
  }

  /** Re-applying the filter to its own result changes nothing and logs nothing. */
  lemma KeptIdempotent(fields: set<string>, data: map<string, Value>)
    ensures Kept(fields, Kept(fields, data)) == Kept(fields, data)
    ensures Unknown(fields, Kept(fields, data)) == map[]
  {
    PartitionExact(fields, Kept(fields, data));
  }

  /** `cls(**kw)` for a dataclass named `kind` with the given fields. */
  function Construct(kind: string, schema: Schema, kw: map<string, Value>): (r: Result<Value>)
    ensures !(kw.Keys <= schema.Keys) ==> r == Err(UnexpectedFields(kind, kw.Keys - schema.Keys))
    ensures kw.Keys <= schema.Keys && !(Required(schema) <= kw.Keys) ==>
              r == Err(MissingFields(kind, Required(schema) - kw.Keys))
    ensures r.Ok? <==> kw.Keys <= schema.Keys && Required(schema) <= kw.Keys
    ensures r.Ok? ==> r.value.Rec? && r.value.kind == kind && r.value.attrs.Keys == schema.Keys
    ensures r.Ok? ==> forall f :: f in kw ==> r.value.attrs[f] == kw[f]
    ensures r.Ok? ==> forall f :: f in schema && f !in kw ==> schema[f].Some? && r.value.attrs[f] == schema[f].value
  {
    if !(kw.Keys <= schema.Keys) then Err(UnexpectedFields(kind, kw.Keys - schema.Keys))
    else if !(Required(schema) <= kw.Keys) then Err(MissingFields(kind, Required(schema) - kw.Keys))
    else
      assert forall f :: f in schema && f !in kw ==> schema[f].Some? by {
        forall f | f in schema && f !in kw ensures schema[f].Some? {
          assert f !in Required(schema);
        }
      }
      Ok(Rec(kind, map f | f in schema :: if f in kw then kw[f] else schema[f].value))
  }

  /**
   * `data = super().de_json(data); return cls(**data)`: extra keys never make
   * it fail; a missing required field always does, and defaults fill the rest.
   */
  function Decode(kind: string, schema: Schema, data: map<string, Value>): (r: Result<Value>)
    ensures r.Ok? <==> Required(schema) <= data.Keys
    ensures r.Err? ==> r.error == MissingFields(kind, Required(schema) - data.Keys)
    ensures r.Ok? ==> r.value.Rec? && r.value.kind == kind && r.value.attrs.Keys == schema.Keys
    ensures r.Ok? ==> forall f :: f in schema && f in data ==> r.value.attrs[f] == data[f]
    ensures r.Ok? ==> forall f :: f in schema && f !in data ==> schema[f].Some? && r.value.attrs[f] == schema[f].value
  {
    PartitionExact(schema.Keys, data);
    var kw := Kept(schema.Keys, data);
    assert Required(schema) <= kw.Keys <==> Required(schema) <= data.Keys;
    assert Required(schema) - kw.Keys == Required(schema) - data.Keys;
    Construct(kind, schema, kw)
  }

  /** The generic tail of every decoder, with the unknown keys it logs. */
  method Finish(kind: string, schema: Schema, data: map<string, Value>)
    returns (r: Result<Value>, unknown: map<string, Value>)
    ensures r == Decode(kind, schema, data)
    ensures unknown == Unknown(schema.Keys, data)
  {
    var cleaned;
    cleaned, unknown := DeJson(schema.Keys, data);
    r := Construct(kind, schema, cleaned);
  }

  /**
   * The outcome of decoding a dataclass whose fields are all required:
   * exactly the declared keys, or the set of those that are missing.
   */
  function Strict(kind: string, fields: set<string>, data: map<string, Value>): Result<Value> {
    if fields <= data.Keys then Ok(Rec(kind, Kept(fields, data)))
    else Err(MissingFields(kind, fields - data.Keys))
  }

  /** For an all-required dataclass the generic step is `Strict`. */
  lemma DecodeAllRequired(kind: string, fields: set<string>, data: map<string, Value>)
    ensures Decode(kind, AllRequired(fields), data) == Strict(kind, fields, data)
  {
    var r := Decode(kind, AllRequired(fields), data);
    if r.Ok? {
      PartitionExact(fields, data);
      assert r.value.attrs == Kept(fields, data);
    }
  }

  /** A dict owned by the caller, which the per-type decoders change in place. */
  class WireDict {
    var entries: map<string, Value>

    constructor (entries: map<string, Value>)
      ensures this.entries == entries
    {
      this.entries := entries;
    }
  }

  /** What a per-type decoder returns, and the caller's dict afterwards. */
  datatype Step = Step(result: Result<Value>, after: map<string, Value>)

  /** A decoder with no pre-processing: the caller's dict is left as it was. */
  function Plain(kind: string, schema: Schema, data: map<string, Value>): (r: Step)
    ensures r.after == data
    ensures r.result == Decode(kind, schema, data)
  {
    Step(Decode(kind, schema, data), data)
  }

  /** One list slot: the value written back on success, and the slot's own state otherwise. */
  datatype ItemStep = ItemStep(result: Result<Value>, after: Value)

  /**
   * `X.de_json(v)` for a list element `v`.  The element dict is the very
   * object the decoder mutates, so on failure its slot shows those mutations;
   * an element that is not a dict fails before anything changes.
   */
  function AsItem(dec: map<string, Value> -> Step, v: Value): (r: ItemStep)
    ensures !v.Obj? ==> r == ItemStep(Err(NotADict(v)), v)
    ensures v.Obj? ==> r == ItemStep(dec(v.entries).result, Obj(dec(v.entries).after))
  {
    if v.Obj? then
      var s := dec(v.entries);
      ItemStep(s.result, Obj(s.after))
    else ItemStep(Err(NotADict(v)), v)
  }

  /** How the element loop ended, and the list it leaves behind. */
  datatype ListStep = ListStep(error: Option<Error>, items: seq<Value>)

  /** The index of the first element `f` refuses, or |items| when there is none. */
  function FirstFailure(f: Value -> ItemStep, items: seq<Value>): (k: nat)
    ensures k <= |items|
    ensures forall i :: 0 <= i < k ==> f(items[i]).result.Ok?
    ensures k < |items| ==> f(items[k]).result.Err?
  {
    if items == [] || f(items[0]).result.Err? then 0 else 1 + FirstFailure(f, items[1..])
  }

  /**
   * The element loop: slots are overwritten in order until the first
   * failure, which stops the loop with that slot showing its own state and
   * the later slots untouched.
   */
  function MapEach(f: Value -> ItemStep, items: seq<Value>): (r: ListStep)
    ensures |r.items| == |items|
    ensures r.error.None? <==> FirstFailure(f, items) == |items|
    ensures forall i :: 0 <= i < FirstFailure(f, items) ==> r.items[i] == f(items[i]).result.value
    ensures FirstFailure(f, items) < |items| ==>
              var k := FirstFailure(f, items);
              && r.error == Some(f(items[k]).result.error)
              && r.items[k] == f(items[k]).after
              && forall i :: k < i < |items| ==> r.items[i] == items[i]
  {
    var k := FirstFailure(f, items);
    var slots := seq(|items|, i requires 0 <= i < |items| => Slot(f, items, k, i));
    if k == |items| then ListStep(None, slots) else ListStep(Some(f(items[k]).result.error), slots)
  }

  /** Slot `i` once the loop has stopped at `k` (or run to the end when `k == |items|`). */
  function Slot(f: Value -> ItemStep, items: seq<Value>, k: nat, i: nat): Value
    requires i < |items| && k <= |items|
    requires forall j :: 0 <= j < k ==> f(items[j]).result.Ok?
  {
    if i < k then f(items[i]).result.value else if i == k then f(items[k]).after else items[i]
  }

  /** How a pre-processing statement ended, and the caller's dict afterwards. */
  datatype DictStep = DictStep(error: Option<Error>, after: map<string, Value>)

  /** An empty text or dict: iterating it runs no step at all. */
  predicate EmptyIterable(v: Value) {
    v == Str([]) || v == Obj(map[])
  }

  /**
   * `for i, x in enumerate(data[key]): data[key][i] = f(x)`.  Anything other
   * than a list fails, except an empty text or dict, which leaves nothing to do.
   */
  function MapAt(f: Value -> ItemStep, data: map<string, Value>, key: string): (r: DictStep)
    ensures key !in data ==> r == DictStep(Some(KeyError(key)), data)
    ensures key in data && EmptyIterable(data[key]) ==> r == DictStep(None, data)
    ensures key in data && !data[key].Arr? && !EmptyIterable(data[key]) ==>
              r == DictStep(Some(NotAList(data[key])), data)
    ensures key in data && data[key].Arr? ==>
              r == DictStep(MapEach(f, data[key].items).error, data[key := Arr(MapEach(f, data[key].items).items)])
  {
    if key !in data then DictStep(Some(KeyError(key)), data)
    else if EmptyIterable(data[key]) then DictStep(None, data)
    else if !data[key].Arr? then DictStep(Some(NotAList(data[key])), data)
    else
      var r := MapEach(f, data[key].items);
      DictStep(r.error, data[key := Arr(r.items)])
  }

  /** The element loop run on the caller's dict, one slot at a time. */
  method MapInPlace(d: WireDict, key: string, f: Value -> ItemStep) returns (err: Option<Error>)
    modifies d
    ensures DictStep(err, d.entries) == MapAt(f, old(d.entries), key)
  {
    if key !in d.entries {
      return Some(KeyError(key));
    }
    var v := d.entries[key];
    if EmptyIterable(v) {
      return None;
    }
    if !v.Arr? {
      return Some(NotAList(v));
    }
    var cur;
    err, cur := MapSlots(f, v.items);
    d.entries := d.entries[key := Arr(cur)];
  }

  /**
   * The element loop itself, overwriting slot after slot of the list until
   * a slot fails.  The list is reachable only through the caller's dict, so
   * storing it back once the loop ends leaves the dict as the slot-by-slot
   * writes would.
   */
  method MapSlots(f: Value -> ItemStep, items: seq<Value>) returns (err: Option<Error>, cur: seq<Value>)
    ensures ListStep(err, cur) == MapEach(f, items)
  {
    cur := items;
    var i := 0;
    while i < |items|
      invariant 0 <= i <= |items| && |cur| == |items|
      invariant i <= FirstFailure(f, items)
      invariant forall j :: 0 <= j < i ==> cur[j] == f(items[j]).result.value
      invariant forall j :: i <= j < |items| ==> cur[j] == items[j]
    {
      var s := f(cur[i]);
      if s.result.Err? {
        cur := cur[i := s.after];
        MapEachStopped(f, items, cur, i);
        return Some(s.result.error), cur;
      }
      cur := cur[i := s.result.value];
      i := i + 1;
    }
    MapEachDone(f, items, cur);
    err := None;
  }

  /** A loop that overwrote every slot has produced the list `MapEach` describes. */
  lemma MapEachDone(f: Value -> ItemStep, items: seq<Value>, cur: seq<Value>)
    requires |cur| == |items| && FirstFailure(f, items) == |items|
    requires forall j :: 0 <= j < |items| ==> cur[j] == f(items[j]).result.value
    ensures MapEach(f, items) == ListStep(None, cur)
  {
    assert MapEach(f, items).items == cur;
  }

  /** A loop stopped by slot `i` has produced the list and error `MapEach` describes. */
  lemma MapEachStopped(f: Value -> ItemStep, items: seq<Value>, cur: seq<Value>, i: nat)
    requires i < |items| == |cur| && i <= FirstFailure(f, items) && f(items[i]).result.Err?
    requires forall j :: 0 <= j < i ==> cur[j] == f(items[j]).result.value
    requires cur[i] == f(items[i]).after
    requires forall j :: i < j < |items| ==> cur[j] == items[j]
    ensures MapEach(f, items) == ListStep(Some(f(items[i]).result.error), cur)
  {
    assert MapEach(f, items).items == cur;
  }

  /** `data[to] = data[from]; del data[from]`, for two distinct keys. */
  function Rename(data: map<string, Value>, from: string, to: string): (r: DictStep)
    requires from != to
    ensures from !in data ==> r == DictStep(Some(KeyError(from)), data)
    ensures from in data ==> r.error.None? && r.after.Keys == data.Keys - {from} + {to}
    ensures from in data ==> r.after[to] == data[from]
    ensures from in data ==> forall k :: k in data && k != from && k != to ==> r.after[k] == data[k]
  {
    if from !in data then DictStep(Some(KeyError(from)), data)
    else DictStep(None, data[to := data[from]] - {from})
  }

  /** `data[key] = X.de_json(data[key])` for a single nested record. */
  function ApplyAt(f: Value -> ItemStep, data: map<string, Value>, key: string): (r: DictStep)
    ensures key !in data ==> r == DictStep(Some(KeyError(key)), data)
    ensures key in data && f(data[key]).result.Err? ==>
              r == DictStep(Some(f(data[key]).result.error), data[key := f(data[key]).after])
    ensures key in data && f(data[key]).result.Ok? ==>
              r == DictStep(None, data[key := f(data[key]).result.value])
  {
    if key !in data then DictStep(Some(KeyError(key)), data)
    else
      var s := f(data[key]);
      if s.result.Err? then DictStep(Some(s.result.error), data[key := s.after])
      else DictStep(None, data[key := s.result.value])
  }

  /** `data[to] = data[from]; del data[from]` on the caller's dict. */
  method RenameInPlace(d: WireDict, from: string, to: string) returns (err: Option<Error>)
    requires from != to
    modifies d
    ensures DictStep(err, d.entries) == Rename(old(d.entries), from, to)
  {
    if from !in d.entries {
      return Some(KeyError(from));
    }
    d.entries := d.entries[to := d.entries[from]];
    d.entries := d.entries - {from};
    err := None;
  }

  /** `data[key] = X.de_json(data[key])` on the caller's dict. */
  method ApplyInPlace(d: WireDict, key: string, f: Value -> ItemStep) returns (err: Option<Error>)
    modifies d
    ensures DictStep(err, d.entries) == ApplyAt(f, old(d.entries), key)
  {
    if key !in d.entries {
      return Some(KeyError(key));
    }
    var s := f(d.entries[key]);
    if s.result.Err? {
      d.entries := d.entries[key := s.after];
      return Some(s.result.error);
    }
    d.entries := d.entries[key := s.result.value];
    err := None;
  }

  /** A decoder stopped by a failed pre-processing statement keeps what that statement changed. */
  function Abort(d: DictStep): (s: Step)
    requires d.error.Some?
    ensures s.result == Err(d.error.value) && s.after == d.after
  {
    Step(Err(d.error.value), d.after)
  }
}
