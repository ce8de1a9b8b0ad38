/** The abstract SQL repository (src/AbstractSqlArRepository.php): a
    repository over one model whose primary key is the class constant `id`
    (its application-key constant is spelt `APPLICATION_KEy` and never
    used, so it is not modelled), with
    the same setters as the SQL trait, a constructor that only stores the
    model, and a `searchByCriteria` without paging parameters. Its own
    direction constants are `'SORT_DESC'` and `'SORT_ASC'`, which `orderBy`
    itself refuses. */
module AbstractSqlArRepository {
  import opened Php
  import opened Criteria
  import opened Ordering
  import opened Search

  const Desc := "SORT_DESC"
  const Asc := "SORT_ASC"
  const PrimaryKey := "id"

  /** The default order `[PRIMARY_KEY => self::desc]`. */
  const DefaultOrder := Map([(Str(PrimaryKey), Str(Desc))])

  class Repository {
    const model: ActiveRecord
    var with: seq<string>
    var columns: seq<string>
    var orderBy: Val
    var limit: int
    var offset: int

    /** What the setters guarantee of the paging fields. */
    predicate Valid()
      reads this`limit, this`offset
    {
      limit >= 1 && offset >= 0
    }

    /** `new AbstractRepository($model)`: the property defaults and the
        model; unlike the trait's `init`, no `orderBy` call is made, so the
        default order is kept as it is. */
    constructor (model: ActiveRecord)
      ensures this.model == model
      ensures with == [] && columns == ["*"] && orderBy == DefaultOrder
      ensures limit == 10 && offset == 0 && Valid()
    {
      this.model := model;
      with := [];
      columns := ["*"];
      orderBy := DefaultOrder;
      limit := 10;
      offset := 0;
    }

    /** `with(array $with = [])` */
    method With(with: seq<string> := [])
      modifies this`with
      ensures this.with == with
    {
      this.with := with;
    }

    /** `columns(array $columns = ['*'])` */
    method Columns(columns: seq<string> := ["*"])
      modifies this`columns
      ensures this.columns == columns
    {
      this.columns := columns;
    }

    /** `offset($offset = 0)`: a value that is not numeric, or is negative,
        throws and changes nothing; otherwise the offset becomes its number. */
    method Offset(offset: Val := Int(0)) returns (r: Result<()>)
      modifies this`offset
      ensures r.Thrown? <==> !IsNumeric(offset) || NumericValue(offset) < 0
      ensures r.Thrown? ==> r.failure == RepositoryException("") && this.offset == old(this.offset)
      ensures r.Ok? ==> this.offset == NumericValue(offset)
      ensures old(Valid()) ==> Valid()
    {
      if !IsNumeric(offset) || NumericValue(offset) < 0 {
        return Thrown(RepositoryException(""));
      }
      this.offset := NumericValue(offset);
      return Ok(());
    }

    /** `limit($limit = 10)`: a value that is not numeric, or is below 1,
        throws and changes nothing; otherwise the limit becomes its number. */
    method Limit(limit: Val := Int(10)) returns (r: Result<()>)
      modifies this`limit
      ensures r.Thrown? <==> !IsNumeric(limit) || NumericValue(limit) < 1
      ensures r.Thrown? ==> r.failure == RepositoryException("") && this.limit == old(this.limit)
      ensures r.Ok? ==> this.limit == NumericValue(limit)
      ensures old(Valid()) ==> Valid()
    {
      if !IsNumeric(limit) || NumericValue(limit) < 1 {
        return Thrown(RepositoryException(""));
      }
      this.limit := NumericValue(limit);
      return Ok(());
    }

    /** `orderBy($orderBy, $sort = 'DESC')`: null changes nothing; a field is
        stored as `[field => 'SORT_'.sort]`; an array of directions as it is;
        an invalid direction throws and changes nothing. */
    method OrderBy(arg: OrderArg, sort: string := "DESC") returns (r: Result<()>)
      modifies this`orderBy
      ensures r.Thrown? <==> OrderRejected(arg, sort)
      ensures r.Thrown? ==> r.failure == RepositoryException("")
      ensures arg.NoOrder? || r.Thrown? ==> orderBy == old(orderBy)
      ensures !arg.NoOrder? && r.Ok? ==> orderBy == SqlOrder(arg, sort)
    {
      match arg {
        case NoOrder =>
          return Ok(());
        case Field(name) =>
          if !ValidDirection(sort) {
            return Thrown(RepositoryException(""));
          }
          orderBy := Map([(Str(name), Str("SORT_" + sort))]);
        case Fields(pairs) =>
          var ok := CheckDirections(pairs);
          if !ok {
            return Thrown(RepositoryException(""));
          }
          orderBy := Map(pairs);
      }
      return Ok(());
    }

    /** `searchByCriteria()`: `fields` and `with` replace the columns and
        relations (the `$perPage` it tests is an undefined local, so the
        limit never changes); each token `a:b:c` becomes `[b, a, c]`,
        unchecked and not remapped, and the criteria get the `'and'` prefix
        of `findManyByCriteria`. No search string means `findAll()`. */
    method SearchByCriteria(request: Request) returns (r: Result<Search>)
      modifies this`columns, this`with
      ensures columns == (if Given(request.fields) then Split(request.fields.value, ',') else old(columns))
      ensures with == (if Given(request.with) then Split(request.with.value, ',') else old(with))
      ensures !Given(request.search) ==> r == Ok(FindAll)
      ensures Given(request.search) ==>
        var criteria := List(TokenCriteria(None, Split(request.search.value, ',')));
        r == Ok(FindManyByCriteria(criteria, AndPrefixed(criteria)))
    {
      if Given(request.fields) {
        Columns(Split(request.fields.value, ','));
      }
      if Given(request.with) {
        With(Split(request.with.value, ','));
      }
      if !Given(request.search) {
        return Ok(FindAll);
      }
      var parsed := ParseTokens(Split(request.search.value, ','), false, None);
      return Ok(FindManyByCriteria(parsed.value, AndPrefixed(parsed.value)));
    }
  }

  /** `inc($id, $field, $count = 1)`: the entity found by the model's
      `findOne([PRIMARY_KEY => $id])` gets `updateCounters([$field => $count])`. */
  function Inc(id: Val, field: string, count: int := 1): (c: OrmCall)
    ensures c.UpdateCounters? && c.lookup == FindOne(Map([(Str(PrimaryKey), id)]))
    ensures c.counters == Map([(Str(field), Int(count))])
  {
    UpdateCounters(FindOne(ArrayOf(Str(PrimaryKey), id)), ArrayOf(Str(field), Int(count)))
  }

  /** `dec($id, $field, $count = -1)` */
  function Dec(id: Val, field: string, count: int := -1): (c: OrmCall)
    ensures c.UpdateCounters? && c.lookup == FindOne(Map([(Str(PrimaryKey), id)]))
    ensures c.counters == Map([(Str(field), Int(count))])
  {
    UpdateCounters(FindOne(ArrayOf(Str(PrimaryKey), id)), ArrayOf(Str(field), Int(count)))
  }

  /** By default `inc` adds 1 and `dec` adds -1 to the field of the same
      entity, whatever the id. */
  lemma IncDecDefaults(id: Val, field: string)
    ensures Inc(id, field).lookup == FindOne(Map([(Str(PrimaryKey), id)]))
    ensures Dec(id, field).lookup == Inc(id, field).lookup
    ensures Inc(id, field).counters == Map([(Str(field), Int(1))])
    ensures Dec(id, field).counters == Map([(Str(field), Int(-1))])
  {
  }

  /** The class's own direction constants cannot be passed to `orderBy`:
      `'SORT_DESC'` and `'SORT_ASC'` upper-case to neither DESC nor ASC, so
      either throws. */
  lemma DirectionConstantsRejected(field: string)
    ensures OrderRejected(Field(field), Desc)
    ensures OrderRejected(Field(field), Asc)
  {
    SortPrefixedNeverValid("DESC");
    SortPrefixedNeverValid("ASC");
    assert Desc == "SORT_" + "DESC";
    assert Asc == "SORT_" + "ASC";
  }

  /** The default order cannot be set again through `orderBy`: its direction
      is the constant `'SORT_DESC'`, which the direction test refuses. */
  lemma DefaultOrderNotAcceptedBack(sort: string)
    ensures OrderRejected(Fields(DefaultOrder.entries), sort)
  {
    DirectionConstantsRejected(PrimaryKey);
    var p := (Str(PrimaryKey), Str(Desc));
    assert p in DefaultOrder.entries;
    assert !ValidDirectionValue(p.1);
  }
}
