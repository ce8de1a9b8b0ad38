/** The condition values the repositories hand to the ORM (`where`, `one`,
    `findOne`, `updateAll`, `deleteAll`, `updateCounters`): single-key
    conditions, id sets, the remapping of the application key, the Mongo
    criteria normaliser and the `'and'` prefix. The ORM itself is not modelled:
    an operation is represented by the call it makes and the values it passes. */
module Criteria {
  import opened Php

  /** The two key names of a repository: the storage primary key and the key
      the application sees (`PRIMARY_KEY` and `APPLICATION_KEY`). */
  datatype Keys = Keys(primaryKey: string, applicationKey: string)

  /** The ActiveRecord model a repository holds, seen through its class name
      and the attribute names its `attributes()` returns. */
  datatype ActiveRecord = ActiveRecord(className: string, attributes: seq<string>)

  /** A call into the ORM, recorded by the values it receives. */
  datatype OrmCall =
    | Where(condition: Val)                            // $query->where($condition)
    | FindOne(condition: Val)                          // $model->findOne($condition)
    | QueryOne(argument: Val)                          // $query->one($argument): Yii reads it as the connection
    | UpdateAll(attributes: Val, condition: Val)       // $model->updateAll($data, $condition)
    | DeleteAll(condition: Val)                        // $model->deleteAll($condition)
    | UpdateCounters(lookup: OrmCall, counters: Val)   // ($entity = lookup)->updateCounters($counters)

  /** `$x == '='` under PHP 7's loose comparison: the string "=", any integer
      0 (to which "=" converts), or an ObjectID whose string form is "=". */
  predicate LooselyEqualsEq(v: Val) {
    match v
    case Str(s) => s == "="
    case Int(i) => i == 0
    case Oid(id) => id.ToString() == "="
    case _ => false
  }

  /** `[$k => $v]`: an array of one pair. Null is stored under the key "",
      and an array or object key is an illegal offset, leaving the array empty. */
  function ArrayOf(k: Val, v: Val): (r: Val)
    ensures r.Map? && |r.entries| <= 1
    ensures (k.Int? || k.Str?) ==> r == Map([(k, v)])
  {
    match k
    case Null => Map([(Str(""), v)])
    case Int(_) => Map([(k, v)])
    case Str(_) => Map([(k, v)])
    case _ => Map([])
  }

  /** `[$operation, $key, $value]` */
  function Triple(operation: string, key: string, value: Val): Val {
    List([Str(operation), Str(key), value])
  }

  /** The single-key condition of `findOneBy` and `deleteOneBy`:
      `($operation == '=') ? [$key => $value] : [$operation, $key, $value]`. */
  function KeyCondition(key: string, value: Val, operation: string): (c: Val)
    ensures operation == "=" ==> c.Map? && c.entries == [(Str(key), value)]
    ensures operation != "=" ==> c.List? && c.items == [Str(operation), Str(key), value]
  {
    if operation == "=" then ArrayOf(Str(key), value) else Triple(operation, key, value)
  }

  /** `if($key == self::APPLICATION_KEY) $key = self::PRIMARY_KEY;` */
  function RemapKey(keys: Keys, key: string): (k: string)
    ensures key == keys.applicationKey ==> k == keys.primaryKey
    ensures key != keys.applicationKey ==> k == key
    ensures k == keys.applicationKey ==> keys.applicationKey == keys.primaryKey
  {
    if key == keys.applicationKey then keys.primaryKey else key
  }

  /** `['in', self::PRIMARY_KEY, $ids]`, the condition of `updateManyByIds`
      and `deleteManyByIds`. */
  function IdsCondition(keys: Keys, ids: Val): (c: Val)
    requires IsArray(ids)
    ensures Depth(c) > 1
    ensures c.List? && c.items == [Str("in"), Str(keys.primaryKey), ids]
  {
    NestedListDepth([Str("in"), Str(keys.primaryKey), ids]);
    List([Str("in"), Str(keys.primaryKey), ids])
  }

  // ---------------------------------------------------------------------------
  // Key-based operations of the Mongo files: the application key is rewritten
  // to the primary key before the condition reaches the ORM.

  /** `updateOneBy`: the entity to update is `findOne([$key => $value])`. */
  function UpdateOneByLookup(keys: Keys, key: string, value: Val): (c: OrmCall)
    ensures c.FindOne? && c.condition.Map? && |c.condition.entries| == 1
    ensures c.condition.entries[0].1 == value
    ensures key == keys.applicationKey ==> c.condition.entries[0].0 == Str(keys.primaryKey)
    ensures key != keys.applicationKey ==> c.condition.entries[0].0 == Str(key)
    ensures c.condition.entries[0].0 == Str(keys.applicationKey) ==> keys.applicationKey == keys.primaryKey
  {
    FindOne(ArrayOf(Str(RemapKey(keys, key)), value))
  }

  /** `updateManyBy`: `updateAll($data, [$operation, $key, $value])`. */
  function UpdateManyByCall(keys: Keys, key: string, value: Val, data: Val, operation: string): (c: OrmCall)
    ensures c.UpdateAll? && c.attributes == data
    ensures c.condition.List? && |c.condition.items| == 3
    ensures c.condition.items[0] == Str(operation) && c.condition.items[2] == value
    ensures key == keys.applicationKey ==> c.condition.items[1] == Str(keys.primaryKey)
    ensures key != keys.applicationKey ==> c.condition.items[1] == Str(key)
    ensures c.condition.items[1] == Str(keys.applicationKey) ==> keys.applicationKey == keys.primaryKey
  {
    UpdateAll(data, Triple(operation, RemapKey(keys, key), value))
  }

  /** `deleteOneBy`: the entity to delete is `findOne([$condition])`, the
      single-key condition wrapped in a one-element list. */
  function DeleteOneByLookup(keys: Keys, key: string, value: Val, operation: string): (c: OrmCall)
    ensures c.FindOne? && c.condition.List? && |c.condition.items| == 1
    ensures c.condition.items[0] == KeyCondition(RemapKey(keys, key), value, operation)
    ensures key == keys.applicationKey ==> c.condition.items[0] == KeyCondition(keys.primaryKey, value, operation)
  {
    FindOne(List([KeyCondition(RemapKey(keys, key), value, operation)]))
  }

  /** `deleteManyBy`: `deleteAll([$operation, $key, $value])`. */
  function DeleteManyByCall(keys: Keys, key: string, value: Val, operation: string): (c: OrmCall)
    ensures c.DeleteAll? && c.condition.List? && |c.condition.items| == 3
    ensures c.condition.items[0] == Str(operation) && c.condition.items[2] == value
    ensures key == keys.applicationKey ==> c.condition.items[1] == Str(keys.primaryKey)
    ensures key != keys.applicationKey ==> c.condition.items[1] == Str(key)
    ensures c.condition.items[1] == Str(keys.applicationKey) ==> keys.applicationKey == keys.primaryKey
  {
    DeleteAll(Triple(operation, RemapKey(keys, key), value))
  }

  // ---------------------------------------------------------------------------
  // The `'and'` prefix of `*ManyByCriteria` (every file) and of the SQL files'
  // `findManyByCriteria`

  /** `if(depth($criteria) > 1) array_unshift($criteria, 'and');` */
  function AndPrefixed(criteria: Val): (r: Val)
    requires IsArray(criteria)
    ensures IsArray(r)
    ensures Depth(criteria) > 1 ==> Values(r) == [Str("and")] + Values(criteria)
    ensures Depth(criteria) > 1 && criteria.Map? ==>
      r.Map? && r.entries[0] == (Int(0), Str("and")) &&
      forall i | 0 <= i < |criteria.entries| && !criteria.entries[i].0.Int? :: r.entries[i + 1] == criteria.entries[i]
    ensures Depth(criteria) <= 1 ==> r == criteria
  {
    if Depth(criteria) > 1 then Unshift(criteria, Str("and")) else criteria
  }

  /** `updateManyByCriteria($criteria, $data)` */
  function UpdateManyByCriteriaCall(criteria: Val, data: Val): (c: OrmCall)
    requires IsArray(criteria)
    ensures c.UpdateAll? && c.attributes == data && c.condition == AndPrefixed(criteria)
  {
    UpdateAll(data, AndPrefixed(criteria))
  }

  /** `deleteManyByCriteria($criteria)` */
  function DeleteManyByCriteriaCall(criteria: Val): (c: OrmCall)
    requires IsArray(criteria)
    ensures c.DeleteAll? && c.condition == AndPrefixed(criteria)
  {
    DeleteAll(AndPrefixed(criteria))
  }

  /** A list of conditions, at least one of them an array, gets `'and'` in
      front and is otherwise kept as it is: `=` triples are not rewritten and
      a single condition is not unwrapped. */
  lemma AndPrefixKeepsConditions(cs: seq<Val>)
    requires exists c | c in cs :: IsArray(c)
    ensures AndPrefixed(List(cs)) == List([Str("and")] + cs)
  {
    NestedListDepth(cs);
  }

  /** `updateManyByIds` and `deleteManyByIds` hand the id condition to the
      ORM directly: the same triple passed as criteria to a
      `*ManyByCriteria` operation would instead be read as three conditions
      behind `'and'`. */
  lemma IdsConditionNotCriteria(keys: Keys, ids: Val)
    requires IsArray(ids)
    ensures AndPrefixed(IdsCondition(keys, ids)) == List([Str("and"), Str("in"), Str(keys.primaryKey), ids])
    ensures AndPrefixed(IdsCondition(keys, ids)) != IdsCondition(keys, ids)
  {
    var c := IdsCondition(keys, ids);
    assert Values(Unshift(c, Str("and"))) == [Str("and")] + c.items;
  }

  /** A flat list (a single triple) passes through unchanged. */
  lemma AndPrefixKeepsFlatTriple(operation: string, key: string, value: Val)
    requires !IsArray(value)
    ensures AndPrefixed(Triple(operation, key, value)) == Triple(operation, key, value)
  {
    FlatListDepth([Str(operation), Str(key), value]);
  }

  // ---------------------------------------------------------------------------
  // The criteria normaliser of the Mongo files' `findManyByCriteria`

  /** One condition as the normaliser's loop pushes it: a condition whose
      first element is loosely `'='` becomes `[$condition[1] => $condition[2]]`,
      any other is kept. */
  function Shorthand(condition: Val): Val {
    if LooselyEqualsEq(Index(condition, 0)) then ArrayOf(Index(condition, 1), Index(condition, 2))
    else condition
  }

  function Shorthands(vs: seq<Val>): (r: seq<Val>)
    ensures |r| == |vs|
    ensures forall i | 0 <= i < |vs| :: r[i] == Shorthand(vs[i])
  {
    seq(|vs|, i requires 0 <= i < |vs| => Shorthand(vs[i]))
  }

  /** `$mainCriteria` before the unwrapping step: nested criteria give the
      rewritten conditions, behind `'and'` when there is more than one; a flat
      `=` triple gives a one-element list; other flat criteria are kept. */
  function Collected(criteria: Val): Val
    requires IsArray(criteria)
  {
    if Depth(criteria) > 1 then
      List((if Count(criteria) > 1 then [Str("and")] else []) + Shorthands(Values(criteria)))
    else if LooselyEqualsEq(Index(criteria, 0)) then
      List([ArrayOf(Index(criteria, 1), Index(criteria, 2))])
    else criteria
  }

  /** The condition the normaliser passes to `where`: `Collected`, with a
      one-element list of an array unwrapped to that array. */
  function Normalized(criteria: Val): (r: Val)
    requires IsArray(criteria)
    ensures Depth(criteria) > 1 && Count(criteria) > 1 ==> r == List([Str("and")] + Shorthands(Values(criteria)))
    ensures Depth(criteria) <= 1 && !LooselyEqualsEq(Index(criteria, 0)) ==> r == criteria
  {
    var main := Collected(criteria);
    if IsArray(main) && Count(main) == 1 && Depth(main) > 1 then Index(main, 0) else main
  }

  /** The normaliser of `findManyByCriteria`, step by step as the source
      builds `$mainCriteria`. */
  method NormalizeCriteria(criteria: Val) returns (main: Val)
    requires IsArray(criteria)
    ensures main == Normalized(criteria)
  {
    if Depth(criteria) > 1 {
      var conditions: seq<Val> := [];
      if Count(criteria) > 1 {
        conditions := [Str("and")];
      }
      ghost var prefix := conditions;
      var vs := Values(criteria);
      var i := 0;
      while i < |vs|
        invariant 0 <= i <= |vs|
        invariant prefix == (if Count(criteria) > 1 then [Str("and")] else [])
        invariant |conditions| == |prefix| + i
        invariant conditions[..|prefix|] == prefix
        invariant forall j | 0 <= j < i :: conditions[|prefix| + j] == Shorthand(vs[j])
      {
        var condition := vs[i];
        if LooselyEqualsEq(Index(condition, 0)) {
          conditions := conditions + [ArrayOf(Index(condition, 1), Index(condition, 2))];
        } else {
          conditions := conditions + [condition];
        }
        i := i + 1;
      }
      assert conditions == prefix + Shorthands(vs);
      main := List(conditions);
    } else if LooselyEqualsEq(Index(criteria, 0)) {
      main := List([ArrayOf(Index(criteria, 1), Index(criteria, 2))]);
    } else {
      main := criteria;
    }
    if IsArray(main) && Count(main) == 1 && Depth(main) > 1 {
      main := Index(main, 0);
    }
  }

  /** More than one condition: `['and', c1', ..., cn']` in input order, each
      `=` triple rewritten to `{field: value}` and every other kept. */
  lemma NormalizedConjunction(cs: seq<Val>)
    requires |cs| > 1
    requires exists c | c in cs :: IsArray(c)
    ensures Normalized(List(cs)) == List([Str("and")] + Shorthands(cs))
  {
    NestedListDepth(cs);
  }

  /** A one-element list of conditions is never wrapped in `'and'`: it
      normalises to its one condition, rewritten if it is an `=` triple. */
  lemma NormalizedSingleton(c: Val)
    requires IsArray(c)
    ensures Normalized(List([c])) == Shorthand(c)
  {
    NestedListDepth([c]);
    var s := Shorthand(c);
    assert IsArray(s);
    NestedListDepth([s]);
    assert Collected(List([c])) == List([s]);
  }

  /** A single flat triple normalises to exactly the condition `findOneBy`
      builds for the same key, value and operator. */
  lemma NormalizedFlatTriple(operation: string, key: string, value: Val)
    requires !IsArray(value)
    ensures Normalized(Triple(operation, key, value)) == KeyCondition(key, value, operation)
  {
    FlatListDepth([Str(operation), Str(key), value]);
    if operation == "=" {
      var m := ArrayOf(Str(key), value);
      NestedListDepth([m]);
    }
  }

  /** The caveat of dispatching on depth: a single triple whose value is an
      array, such as `['in', 'id', [1, 2]]`, is read as a list of three
      conditions and comes out as `['and', 'in', 'id', [1, 2]]`. */
  lemma NormalizedArrayValuedTriple(operation: string, key: string, values: seq<Val>)
    requires operation != "" && operation[0] != '='
    requires key != "" && key[0] != '='
    requires values == [] || !LooselyEqualsEq(values[0])
    ensures Normalized(Triple(operation, key, List(values)))
         == List([Str("and"), Str(operation), Str(key), List(values)])
  {
    var cs := [Str(operation), Str(key), List(values)];
    assert List(values) in cs;
    NestedListDepth(cs);
    assert Shorthand(List(values)) == List(values);
    assert Index(Str(operation), 0) == Str([operation[0]]);
    assert Index(Str(key), 0) == Str([key[0]]);
    assert Shorthands(cs) == cs;
    assert [Str("and")] + cs == [Str("and"), Str(operation), Str(key), List(values)];
  }

  /** Where the Mongo normaliser and the SQL `'and'` prefix agree: two or more
      conditions, none of them an `=` triple. */
  lemma NormalizerAgreesWithAndPrefix(cs: seq<Val>)
    requires |cs| > 1
    requires forall c | c in cs :: IsArray(c) && !LooselyEqualsEq(Index(c, 0))
    ensures Normalized(List(cs)) == AndPrefixed(List(cs))
  {
    NestedListDepth(cs);
    assert Shorthands(cs) == cs;
  }

  /** Where they differ: the Mongo files unwrap a single condition, the SQL
      files hand `['and', c]` to the ORM. */
  lemma NormalizerDiffersFromAndPrefixOnSingleton(c: Val)
    requires IsArray(c)
    ensures Normalized(List([c])) != AndPrefixed(List([c]))
  {
    NormalizedSingleton(c);
    AndPrefixKeepsConditions([c]);
    if LooselyEqualsEq(Index(c, 0)) {
      assert Shorthand(c).Map?;
    } else {
      assert Shorthand(c) == c;
      var pair := [Str("and"), c];
      assert pair[1] == c;
    }
  }
}
