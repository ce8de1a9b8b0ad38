/** The SQL repository trait (src/Traits/SqlArRepositoryTrait.php): the
    configuration state with its one-shot `init` and setters, the scalar
    order stored as `{field: 'SORT_'.sort}`, and a `searchByCriteria` that
    also applies the `perPage` and `page` parameters. `PRIMARY_KEY`,
    `APPLICATION_KEY` and `desc` belong to the class using the trait, so they
    are parameters here. */
module SqlArRepositoryTrait {
  import opened Php
  import opened Criteria
  import opened Ordering
  import opened Search

  /** The message `init` throws with when no model class is configured. */
  const InitMessage := "what the f ..."

  class Repository {
    const keys: Keys
    const desc: string
    var modelClass: string
    var model: Option<ActiveRecord>
    var with: seq<string>
    var columns: seq<string>
    var orderBy: Val
    var limit: int
    var offset: int

    /** What the setters guarantee of the paging fields. */
    predicate Valid()
      reads this`limit, this`offset
    {
      limit >= 1 && offset >= 0
    }

    /** The trait's property defaults, before `init`; the order defaults to
        `[PRIMARY_KEY => desc]`. */
    constructor (keys: Keys, desc: string, modelClass: string)
      ensures this.keys == keys && this.desc == desc && this.modelClass == modelClass
      ensures model == None && with == [] && columns == ["*"]
      ensures orderBy == Map([(Str(keys.primaryKey), Str(desc))])
      ensures limit == 10 && offset == 0 && Valid()
    {
      this.keys := keys;
      this.desc := desc;
      this.modelClass := modelClass;
      model := None;
      with := [];
      columns := ["*"];
      orderBy := Map([(Str(keys.primaryKey), Str(desc))]);
      limit := 10;
      offset := 0;
    }

    /** `init()`: does nothing once a model is set; throws when no model
        class is configured; otherwise instantiates the model and applies
        `columns()` and `orderBy(PRIMARY_KEY, desc)`, which throws, after the
        model is set, for a `desc` that is not ASC or DESC (such as
        `'SORT_DESC'`). */
    method Init(attributes: seq<string>) returns (r: Result<()>)
      modifies this`model, this`columns, this`orderBy
      ensures old(model).Some? ==> r.Ok? && model == old(model) && columns == old(columns) && orderBy == old(orderBy)
      ensures old(model).None? && IsEmpty(Str(modelClass)) ==>
        r == Thrown(RepositoryException(InitMessage)) && model == None && columns == old(columns) && orderBy == old(orderBy)
      ensures old(model).None? && !IsEmpty(Str(modelClass)) ==>
        model == Some(ActiveRecord(modelClass, attributes)) && columns == ["*"]
      ensures old(model).None? && !IsEmpty(Str(modelClass)) && OrderRejected(Field(keys.primaryKey), desc) ==>
        r == Thrown(RepositoryException("")) && orderBy == old(orderBy)
      ensures old(model).None? && !IsEmpty(Str(modelClass)) && !OrderRejected(Field(keys.primaryKey), desc) ==>
        r.Ok? && orderBy == SqlOrder(Field(keys.primaryKey), desc)
    {
      if model.Some? {
        return Ok(());
      }
      if IsEmpty(Str(modelClass)) {
        return Thrown(RepositoryException(InitMessage));
      }
      model := Some(ActiveRecord(modelClass, attributes));
      Columns();
      r := OrderBy(Field(keys.primaryKey), desc);
    }

    /** `with(array $with = [])` */
    method With(with: seq<string> := [])
      modifies this`with
      ensures this.with == with
    {
      this.with := with;
    }

    /** `columns(array $columns = ['*'])` */
    method Columns(columns: seq<string> := ["*"])
      modifies this`columns
      ensures this.columns == columns
    {
      this.columns := columns;
    }

    /** `offset($offset = 0)`: a value that is not numeric, or is negative,
        throws and changes nothing; otherwise the offset becomes its number. */
    method Offset(offset: Val := Int(0)) returns (r: Result<()>)
      modifies this`offset
      ensures r.Thrown? <==> !IsNumeric(offset) || NumericValue(offset) < 0
      ensures r.Thrown? ==> r.failure == RepositoryException("") && this.offset == old(this.offset)
      ensures r.Ok? ==> this.offset == NumericValue(offset)
      ensures old(Valid()) ==> Valid()
    {
      if !IsNumeric(offset) || NumericValue(offset) < 0 {
        return Thrown(RepositoryException(""));
      }
      this.offset := NumericValue(offset);
      return Ok(());
    }

    /** `limit($limit = 10)`: a value that is not numeric, or is below 1,
        throws and changes nothing; otherwise the limit becomes its number. */
    method Limit(limit: Val := Int(10)) returns (r: Result<()>)
      modifies this`limit
      ensures r.Thrown? <==> !IsNumeric(limit) || NumericValue(limit) < 1
      ensures r.Thrown? ==> r.failure == RepositoryException("") && this.limit == old(this.limit)
      ensures r.Ok? ==> this.limit == NumericValue(limit)
      ensures old(Valid()) ==> Valid()
    {
      if !IsNumeric(limit) || NumericValue(limit) < 1 {
        return Thrown(RepositoryException(""));
      }
      this.limit := NumericValue(limit);
      return Ok(());
    }

    /** `orderBy($orderBy, $sort = 'DESC')`: null changes nothing; a field is
        stored as `[field => 'SORT_'.sort]`, the direction not upper-cased;
        an array of directions as it is; an invalid direction throws and
        changes nothing. */
    method OrderBy(arg: OrderArg, sort: string := "DESC") returns (r: Result<()>)
      modifies this`orderBy
      ensures r.Thrown? <==> OrderRejected(arg, sort)
      ensures r.Thrown? ==> r.failure == RepositoryException("")
      ensures arg.NoOrder? || r.Thrown? ==> orderBy == old(orderBy)
      ensures !arg.NoOrder? && r.Ok? ==> orderBy == SqlOrder(arg, sort)
    {
      match arg {
        case NoOrder =>
          return Ok(());
        case Field(name) =>
          if !ValidDirection(sort) {
            return Thrown(RepositoryException(""));
          }
          orderBy := Map([(Str(name), Str("SORT_" + sort))]);
        case Fields(pairs) =>
          var ok := CheckDirections(pairs);
          if !ok {
            return Thrown(RepositoryException(""));
          }
          orderBy := Map(pairs);
      }
      return Ok(());
    }

    /** `searchByCriteria()`: `fields` and `with` replace the columns and
        relations (the `$perPage` it tests first is an undefined local, so that
        test never passes); a given `perPage` string goes through `limit`, so
        one that is not a number of at least 1 throws; a given `page` sets the
        offset to `page * limit` through `offset`, so a negative product
        throws. Each token `a:b:c` becomes `[b, a, c]`, unchecked and not
        remapped, and the criteria get the `'and'` prefix of
        `findManyByCriteria`. No search string means `findAll()`. */
    method SearchByCriteria(request: Request) returns (r: Result<Search>)
      modifies this`columns, this`with, this`limit, this`offset
      ensures columns == (if Given(request.fields) then Split(request.fields.value, ',') else old(columns))
      ensures with == (if Given(request.with) then Split(request.with.value, ',') else old(with))
      ensures PerPageRejected(request.perPage) ==>
        r == Thrown(RepositoryException("")) && limit == old(limit) && offset == old(offset)
      ensures !PerPageRejected(request.perPage) ==>
        limit == (if Given(request.perPage) then NumericValue(Str(request.perPage.value)) else old(limit))
        && (Given(request.page) && PageOffset(request.page.value, limit) < 0 ==>
              r == Thrown(RepositoryException("")) && offset == old(offset))
        && (Given(request.page) && PageOffset(request.page.value, limit) >= 0 ==> offset == PageOffset(request.page.value, limit))
        && (!Given(request.page) ==> offset == old(offset))
      ensures r.Ok? <==>
        !PerPageRejected(request.perPage) && !(Given(request.page) && PageOffset(request.page.value, limit) < 0)
      ensures r.Ok? && !Given(request.search) ==> r.value == FindAll
      ensures r.Ok? && Given(request.search) ==>
        var criteria := List(TokenCriteria(None, Split(request.search.value, ',')));
        r.value == FindManyByCriteria(criteria, AndPrefixed(criteria))
      ensures old(Valid()) ==> Valid()
    {
      if Given(request.fields) {
        Columns(Split(request.fields.value, ','));
      }
      if Given(request.with) {
        With(Split(request.with.value, ','));
      }
      if Given(request.perPage) {
        var limited := Limit(Str(request.perPage.value));
        if limited.Thrown? {
          return Thrown(limited.failure);
        }
      }
      if Given(request.page) {
        var offsetted := Offset(Int(PageOffset(request.page.value, limit)));
        if offsetted.Thrown? {
          return Thrown(offsetted.failure);
        }
      }
      if !Given(request.search) {
        return Ok(FindAll);
      }
      var parsed := ParseTokens(Split(request.search.value, ','), false, None);
      return Ok(FindManyByCriteria(parsed.value, AndPrefixed(parsed.value)));
    }
  }

  /** `inc($id, $field, $count = 1)`: `$this->query->one(...)` is called with
      the argument `[PRIMARY_KEY => $id]`, and its result gets
      `updateCounters([$field => $count])`. `one` takes a database
      connection, not a condition, so the id does not select the entity. */
  function Inc(keys: Keys, id: Val, field: string, count: int := 1): (c: OrmCall)
    ensures c.UpdateCounters? && c.lookup == QueryOne(Map([(Str(keys.primaryKey), id)]))
    ensures c.counters == Map([(Str(field), Int(count))])
  {
    UpdateCounters(QueryOne(ArrayOf(Str(keys.primaryKey), id)), ArrayOf(Str(field), Int(count)))
  }

  /** `dec($id, $field, $count = -1)` */
  function Dec(keys: Keys, id: Val, field: string, count: int := -1): (c: OrmCall)
    ensures c.UpdateCounters? && c.lookup == QueryOne(Map([(Str(keys.primaryKey), id)]))
    ensures c.counters == Map([(Str(field), Int(count))])
  {
    UpdateCounters(QueryOne(ArrayOf(Str(keys.primaryKey), id)), ArrayOf(Str(field), Int(count)))
  }

  /** By default `inc` passes the counter 1 and `dec` the counter -1, both
      after the same `one` call; `dec` with an explicit count makes the same
      call as `inc`. */
  lemma IncDecDefaults(keys: Keys, id: Val, field: string, count: int)
    ensures Inc(keys, id, field).counters == Map([(Str(field), Int(1))])
    ensures Dec(keys, id, field).counters == Map([(Str(field), Int(-1))])
    ensures Dec(keys, id, field).lookup == Inc(keys, id, field).lookup
    ensures Dec(keys, id, field, count) == Inc(keys, id, field, count)
  {
  }
}
