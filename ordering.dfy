/** The validation `orderBy($orderBy, $sort)` performs and the value each
    family of repositories stores for it. */
module Ordering {
  import opened Php

  /** The `$orderBy` argument: `null`, a field name, or an array mapping
      fields to directions (any PHP array, seen as its key/value pairs). */
  datatype OrderArg = NoOrder | Field(name: string) | Fields(pairs: seq<(Val, Val)>)

  /** `in_array(strtoupper($sort), ['DESC', 'ASC'])` */
  predicate ValidDirection(sort: string) {
    Upper(sort) == "DESC" || Upper(sort) == "ASC"
  }

  /** The same test on an array value: `strtoupper` of anything but a string
      never yields "DESC" or "ASC". */
  predicate ValidDirectionValue(v: Val) {
    v.Str? && ValidDirection(v.s)
  }

  /** Whether `orderBy($orderBy, $sort)` throws RepositoryException: a field
      with an invalid `$sort`, or an array with any invalid direction. `null`
      is never rejected, and `$sort` is not looked at for an array. */
  predicate OrderRejected(arg: OrderArg, sort: string) {
    match arg
    case NoOrder => false
    case Field(_) => !ValidDirection(sort)
    case Fields(pairs) => exists p | p in pairs :: !ValidDirectionValue(p.1)
  }

  /** The loop `foreach ($orderBy as $field => $method)` of `orderBy`,
      which throws at the first invalid direction: whether it gets through. */
  method CheckDirections(pairs: seq<(Val, Val)>) returns (ok: bool)
    ensures ok <==> forall p | p in pairs :: ValidDirectionValue(p.1)
  {
    var i := 0;
    while i < |pairs|
      invariant 0 <= i <= |pairs|
      invariant forall j | 0 <= j < i :: ValidDirectionValue(pairs[j].1)
    {
      var direction := pairs[i].1;
      if !(direction.Str? && (Upper(direction.s) == "DESC" || Upper(direction.s) == "ASC")) {
        return false;
      }
      i := i + 1;
    }
    return true;
  }

  /** What the Mongo files store: `[$orderBy .' '. $sort]` for a field, the
      array itself otherwise. */
  function MongoOrder(arg: OrderArg, sort: string): (v: Val)
    requires !arg.NoOrder?
    ensures arg.Field? ==> v.List? && |v.items| == 1 && v.items[0].Str?
    ensures arg.Field? ==> |v.items[0].s| == |arg.name| + 1 + |sort| && v.items[0].s[|arg.name|] == ' '
    ensures arg.Field? ==> v.items[0].s[..|arg.name|] == arg.name && v.items[0].s[|arg.name| + 1..] == sort
    ensures arg.Fields? ==> v == Map(arg.pairs)
  {
    match arg
    case Field(name) =>
      var s := name + " " + sort;
      assert s[..|name|] == name && s[|name| + 1..] == sort;
      List([Str(s)])
    case Fields(pairs) => Map(pairs)
  }

  /** What the SQL files store: `[$orderBy => 'SORT_'.$sort]` for a field (the
      direction kept in the caller's case), the array itself otherwise. */
  function SqlOrder(arg: OrderArg, sort: string): (v: Val)
    requires !arg.NoOrder?
    ensures arg.Field? ==> v.Map? && v.entries == [(Str(arg.name), Str("SORT_" + sort))]
    ensures arg.Fields? ==> v == Map(arg.pairs)
  {
    match arg
    case Field(name) => Map([(Str(name), Str("SORT_" + sort))])
    case Fields(pairs) => Map(pairs)
  }

  /** The test ignores case in both directions of the word. */
  lemma ValidDirectionCases()
    ensures ValidDirection("DESC") && ValidDirection("desc") && ValidDirection("Desc")
    ensures ValidDirection("ASC") && ValidDirection("asc") && ValidDirection("aSc")
    ensures !ValidDirection("") && !ValidDirection("descending") && !ValidDirection("DES")
  {
    assert Upper("desc") == "DESC";
    assert Upper("Desc") == "DESC";
    assert Upper("asc") == "ASC";
    assert Upper("aSc") == "ASC";
    assert |Upper("descending")| == 10;
    assert |Upper("DES")| == 3 && Upper("DES")[2] == 'S';
  }

  /** A direction with the `SORT_` prefix is never a valid direction: its
      upper-cased form is longer than "DESC". */
  lemma SortPrefixedNeverValid(sort: string)
    ensures !ValidDirection("SORT_" + sort)
  {
    assert |Upper("SORT_" + sort)| >= 5;
  }

  /** The order the SQL files store for a field is not accepted back by
      `orderBy`: its one direction carries the `SORT_` prefix. */
  lemma SqlOrderNotAcceptedBack(field: string, sort: string)
    ensures OrderRejected(Fields(SqlOrder(Field(field), sort).entries), sort)
  {
    SortPrefixedNeverValid(sort);
    var p := (Str(field), Str("SORT_" + sort));
    assert p in SqlOrder(Field(field), sort).entries && !ValidDirectionValue(p.1);
  }
}
