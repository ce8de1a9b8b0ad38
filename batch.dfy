/** `createMany($data)`, the same in all four files: the input must be an
    array of records; each record's fields are assigned to a fresh model,
    which is then validated, until a record fails; then a batch insert of all
    of `$data` is attempted. Which keys a model accepts
    (`$model->{$key} = $value` on an ActiveRecord) and whether a model
    validates are parameters: `assignable` and `valid`. */
module Batch {
  import opened Php

  /** The Error PHP raises for `$modelClassName->attributes()`, the variable
      holding the class-name string that `get_class` returned. */
  const AttributesOnString := "Call to a member function attributes() on string"

  /** The arguments of `batchInsert($table, $columns, $rows)`. */
  datatype BatchInsert = BatchInsert(table: string, columns: seq<string>, rows: Val)

  /** The pairs `foreach ($record as $key => $value)` visits: an array's
      entries; PHP only warns on a scalar record and visits nothing. */
  function Fields(record: Val): (fs: seq<(Val, Val)>)
    ensures !IsArray(record) ==> fs == []
    ensures IsArray(record) ==> |fs| == Count(record)
  {
    if IsArray(record) then Entries(record) else []
  }

  /** The position of the first field whose key the model has no property
      for, where the assignment throws UnknownPropertyException; the number
      of fields when every key is accepted. */
  function FirstUnknownKey(fields: seq<(Val, Val)>, assignable: Val -> bool): (i: nat)
    ensures i <= |fields|
    ensures forall j | 0 <= j < i :: assignable(fields[j].0)
    ensures i < |fields| ==> !assignable(fields[i].0)
  {
    if fields == [] || !assignable(fields[0].0) then 0
    else 1 + FirstUnknownKey(fields[1..], assignable)
  }

  /** Every field of `record` can be assigned to a model. */
  predicate Assignable(record: Val, assignable: Val -> bool) {
    FirstUnknownKey(Fields(record), assignable) == |Fields(record)|
  }

  /** A record that is assigned in full and then validates lets the loop go on. */
  predicate Passes(record: Val, assignable: Val -> bool, valid: Val -> bool) {
    Assignable(record, assignable) && valid(record)
  }

  /** Where the assignment and validation loop ends: after every record, at
      the `break` of a record that does not validate, or at the exception of
      a field (`field` is its position in the record) that cannot be assigned. */
  datatype Halt = Completed | Invalid(record: nat) | UnknownKey(record: nat, field: nat)

  /** The same halting point, one record further on. */
  function Later(h: Halt): (l: Halt)
    ensures l.Completed? == h.Completed? && l.Invalid? == h.Invalid?
    ensures !h.Completed? ==> l.record == h.record + 1
    ensures h.UnknownKey? ==> l.field == h.field
  {
    match h
    case Completed => Completed
    case Invalid(i) => Invalid(i + 1)
    case UnknownKey(i, f) => UnknownKey(i + 1, f)
  }

  /** What it means for the loop over `records` to halt at `h`: every record
      before the halting point passes, and the record there fails in the
      way `h` says. */
  predicate HaltsAt(records: seq<Val>, assignable: Val -> bool, valid: Val -> bool, h: Halt) {
    (h.Completed? ==> forall i | 0 <= i < |records| :: Passes(records[i], assignable, valid)) &&
    (!h.Completed? ==> h.record < |records| && forall i | 0 <= i < h.record :: Passes(records[i], assignable, valid)) &&
    (h.Invalid? ==> Assignable(records[h.record], assignable) && !valid(records[h.record])) &&
    (h.UnknownKey? ==> h.field == FirstUnknownKey(Fields(records[h.record]), assignable) < |Fields(records[h.record])|)
  }

  /** The halting point of the loop, record by record. */
  function LoopHalt(records: seq<Val>, assignable: Val -> bool, valid: Val -> bool): (h: Halt)
    ensures HaltsAt(records, assignable, valid, h)
  {
    if records == [] then Completed
    else
      var f := FirstUnknownKey(Fields(records[0]), assignable);
      if f < |Fields(records[0])| then UnknownKey(0, f)
      else if !valid(records[0]) then Invalid(0)
      else
        var rest := LoopHalt(records[1..], assignable, valid);
        assert forall i | 1 <= i < |records| :: records[i] == records[1..][i - 1];
        Later(rest)
  }

  /** The halting point is determined: any `h` that meets `HaltsAt` is the
      one `LoopHalt` computes. */
  lemma HaltDetermined(records: seq<Val>, assignable: Val -> bool, valid: Val -> bool, h: Halt)
    requires HaltsAt(records, assignable, valid, h)
    ensures h == LoopHalt(records, assignable, valid)
  {
  }

  /** The inner loop, `foreach ($record as $key => $value) $model->{$key} =
      $value;`: the position of the field whose assignment throws, or the
      number of fields. */
  method AssignFields(record: Val, assignable: Val -> bool) returns (stopped: nat)
    ensures stopped == FirstUnknownKey(Fields(record), assignable)
  {
    var fields := Fields(record);
    var k := 0;
    while k < |fields|
      invariant 0 <= k <= |fields|
      invariant forall j | 0 <= j < k :: assignable(fields[j].0)
    {
      if !assignable(fields[k].0) {
        return k;
      }
      k := k + 1;
    }
    return k;
  }

  /** The outer loop: each record assigned to a fresh model, which is then
      validated; the loop ends at the first record that throws or fails. */
  method AssignAndValidate(records: seq<Val>, assignable: Val -> bool, valid: Val -> bool) returns (h: Halt)
    ensures h == LoopHalt(records, assignable, valid)
  {
    var i := 0;
    while i < |records|
      invariant 0 <= i <= |records|
      invariant forall j | 0 <= j < i :: Passes(records[j], assignable, valid)
    {
      var stopped := AssignFields(records[i], assignable);
      if stopped < |Fields(records[i])| {
        h := UnknownKey(i, stopped);
        HaltDetermined(records, assignable, valid, h);
        return;
      }
      if !valid(records[i]) {
        h := Invalid(i);
        HaltDetermined(records, assignable, valid, h);
        return;
      }
      i := i + 1;
    }
    h := Completed;
    HaltDetermined(records, assignable, valid, h);
  }

  /** The exception a halting point raises, if any: the unknown property. */
  function HaltFailure(records: seq<Val>, h: Halt): (f: Option<Failure>)
    requires h.UnknownKey? ==> h.record < |records| && h.field < |Fields(records[h.record])|
    ensures f.Some? <==> h.UnknownKey?
    ensures h.UnknownKey? ==> f == Some(UnknownPropertyException(Fields(records[h.record])[h.field].0))
  {
    if h.UnknownKey? then Some(UnknownPropertyException(Fields(records[h.record])[h.field].0)) else None
  }

  /** `createMany` as written: input of depth below 2 throws
      RepositoryException; otherwise the loop runs, and a field that cannot
      be assigned throws UnknownPropertyException; any other input reaches
      `$modelClassName->attributes()` on a string, which raises an Error
      before `batchInsert` runs. Nothing is ever inserted. */
  method CreateMany(data: Val, assignable: Val -> bool, valid: Val -> bool) returns (r: Result<BatchInsert>)
    requires IsArray(data)
    ensures Depth(data) < 2 ==> r == Thrown(RepositoryException(""))
    ensures Depth(data) >= 2 ==>
      var h := LoopHalt(Values(data), assignable, valid);
      r == Thrown(if h.UnknownKey? then HaltFailure(Values(data), h).value else EngineError(AttributesOnString))
  {
    if Depth(data) < 2 {
      return Thrown(RepositoryException(""));
    }
    var h := AssignAndValidate(Values(data), assignable, valid);
    if h.UnknownKey? {
      return Thrown(HaltFailure(Values(data), h).value);
    }
    return Thrown(EngineError(AttributesOnString));
  }

  /** `createMany` as intended, with the model's attribute names passed to
      `batchInsert`: unless a field cannot be assigned, every record of
      `data` is inserted, whether or not the validation loop found one
      invalid. */
  method IntendedCreateMany(data: Val, table: string, attributes: seq<string>, assignable: Val -> bool, valid: Val -> bool)
    returns (r: Result<BatchInsert>)
    requires IsArray(data)
    ensures Depth(data) < 2 ==> r == Thrown(RepositoryException(""))
    ensures Depth(data) >= 2 && LoopHalt(Values(data), assignable, valid).UnknownKey? ==>
      r == Thrown(HaltFailure(Values(data), LoopHalt(Values(data), assignable, valid)).value)
    ensures Depth(data) >= 2 && !LoopHalt(Values(data), assignable, valid).UnknownKey? ==>
      r.Ok? && r.value.table == table && r.value.columns == attributes &&
      IsArray(r.value.rows) && Values(r.value.rows) == Values(data)
  {
    if Depth(data) < 2 {
      return Thrown(RepositoryException(""));
    }
    var h := AssignAndValidate(Values(data), assignable, valid);
    if h.UnknownKey? {
      return Thrown(HaltFailure(Values(data), h).value);
    }
    return Ok(BatchInsert(table, attributes, data));
  }

  /** A model whose only property is `title`. */
  predicate TitleOnly(key: Val) { key == Str("title") }

  /** A model that validates when its title is not `empty`. */
  predicate HasTitle(record: Val) {
    IsArray(record) && !IsEmpty(Get(Entries(record), Str("title")))
  }

  /** For a model whose only property is `title`: `[['nosuch' => 1]]` and the
      list record `[[1, 2]]` (key 0) throw at their first field; a record
      after a passing one throws at its own unknown key; an invalid record
      before it ends the loop first, so its unknown key is never reached. */
  lemma UnknownKeyExamples()
    ensures LoopHalt([Map([(Str("nosuch"), Int(1))])], TitleOnly, HasTitle) == UnknownKey(0, 0)
    ensures LoopHalt([List([Int(1), Int(2)])], TitleOnly, HasTitle) == UnknownKey(0, 0)
    ensures LoopHalt([Map([(Str("title"), Str("a"))]), Map([(Str("title"), Str("b")), (Str("nosuch"), Int(1))])], TitleOnly, HasTitle)
      == UnknownKey(1, 1)
    ensures LoopHalt([Map([(Str("title"), Str(""))]), Map([(Str("nosuch"), Int(1))])], TitleOnly, HasTitle) == Invalid(0)
  {
  }
}
