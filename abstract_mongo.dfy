/** The abstract Mongo repository (src/AbstractMongoArRepository.php): the
    same configuration state and setters as the Mongo trait, set up by the
    constructor instead of `init`; entity formatting keyed on the projected
    `columns` rather than the model's attributes; and a `searchByCriteria`
    that does not validate its tokens. `PRIMARY_KEY`, `APPLICATION_KEY` and
    `desc` are not defined in the file, so they are parameters here. */
module AbstractMongoArRepository {
  import opened Php
  import opened Criteria
  import opened Ordering
  import opened Search
  import opened EntityFormat

  class Repository {
    const keys: Keys
    const desc: string
    const model: ActiveRecord
    var with: seq<string>
    var columns: seq<string>
    var orderBy: Val
    var limit: int
    var offset: int

    /** What the setters guarantee of the paging fields. */
    predicate Valid()
      reads this`limit, this`offset
    {
      limit >= 1 && offset >= 0
    }

    /** The property defaults and the model; the rest of the PHP constructor
        is `New`. */
    constructor (keys: Keys, desc: string, model: ActiveRecord)
      ensures this.keys == keys && this.desc == desc && this.model == model
      ensures with == [] && columns == ["*"] && orderBy == Null
      ensures limit == 10 && offset == 0 && Valid()
    {
      this.keys := keys;
      this.desc := desc;
      this.model := model;
      with := [];
      columns := ["*"];
      orderBy := Null;
      limit := 10;
      offset := 0;
    }

    /** `new AbstractMongoArRepository($model)`: the defaults, `columns()` and
        `orderBy(PRIMARY_KEY, desc)`, which throws for an invalid `desc`, in
        which case no repository is made. */
    static method New(keys: Keys, desc: string, model: ActiveRecord) returns (r: Result<Repository>)
      ensures r.Thrown? <==> OrderRejected(Field(keys.primaryKey), desc)
      ensures r.Thrown? ==> r.failure == RepositoryException("")
      ensures r.Ok? ==> fresh(r.value) && r.value.keys == keys && r.value.desc == desc && r.value.model == model
      ensures r.Ok? ==> r.value.with == [] && r.value.columns == ["*"] && r.value.limit == 10 && r.value.offset == 0
      ensures r.Ok? ==> r.value.orderBy == MongoOrder(Field(keys.primaryKey), desc) && r.value.Valid()
    {
      var repository := new Repository(keys, desc, model);
      repository.Columns();
      var ordered := repository.OrderBy(Field(keys.primaryKey), desc);
      if ordered.Thrown? {
        return Thrown(ordered.failure);
      }
      return Ok(repository);
    }

    /** `with(array $with = [])` */
    method With(with: seq<string> := [])
      modifies this`with
      ensures this.with == with
    {
      this.with := with;
    }

    /** `columns(array $columns = ['*'])` */
    method Columns(columns: seq<string> := ["*"])
      modifies this`columns
      ensures this.columns == columns
    {
      this.columns := columns;
    }

    /** `offset($offset = 0)`: a value that is not numeric, or is negative,
        throws and changes nothing; otherwise the offset becomes its number. */
    method Offset(offset: Val := Int(0)) returns (r: Result<()>)
      modifies this`offset
      ensures r.Thrown? <==> !IsNumeric(offset) || NumericValue(offset) < 0
      ensures r.Thrown? ==> r.failure == RepositoryException("") && this.offset == old(this.offset)
      ensures r.Ok? ==> this.offset == NumericValue(offset)
      ensures old(Valid()) ==> Valid()
    {
      if !IsNumeric(offset) || NumericValue(offset) < 0 {
        return Thrown(RepositoryException(""));
      }
      this.offset := NumericValue(offset);
      return Ok(());
    }

    /** `limit($limit = 10)`: a value that is not numeric, or is below 1,
        throws and changes nothing; otherwise the limit becomes its number. */
    method Limit(limit: Val := Int(10)) returns (r: Result<()>)
      modifies this`limit
      ensures r.Thrown? <==> !IsNumeric(limit) || NumericValue(limit) < 1
      ensures r.Thrown? ==> r.failure == RepositoryException("") && this.limit == old(this.limit)
      ensures r.Ok? ==> this.limit == NumericValue(limit)
      ensures old(Valid()) ==> Valid()
    {
      if !IsNumeric(limit) || NumericValue(limit) < 1 {
        return Thrown(RepositoryException(""));
      }
      this.limit := NumericValue(limit);
      return Ok(());
    }

    /** `orderBy($orderBy, $sort = 'DESC')`: null changes nothing; a field is
        stored as `[field.' '.sort]`, an array of directions as it is; an
        invalid direction throws and changes nothing. */
    method OrderBy(arg: OrderArg, sort: string := "DESC") returns (r: Result<()>)
      modifies this`orderBy
      ensures r.Thrown? <==> OrderRejected(arg, sort)
      ensures r.Thrown? ==> r.failure == RepositoryException("")
      ensures arg.NoOrder? || r.Thrown? ==> orderBy == old(orderBy)
      ensures !arg.NoOrder? && r.Ok? ==> orderBy == MongoOrder(arg, sort)
    {
      match arg {
        case NoOrder =>
          return Ok(());
        case Field(name) =>
          if !ValidDirection(sort) {
            return Thrown(RepositoryException(""));
          }
          orderBy := List([Str(name + " " + sort)]);
        case Fields(pairs) =>
          var ok := CheckDirections(pairs);
          if !ok {
            return Thrown(RepositoryException(""));
          }
          orderBy := Map(pairs);
      }
      return Ok(());
    }

    /** `formatEntity($entity)` on an array entity: the primary key is always
        removed; its value, stringified, goes to the application key only
        when the application key is one of the projected `columns`. With the
        default columns `['*']` the key is therefore dropped, not copied. */
    function FormatEntity(entity: Val): (r: Val)
      reads this`columns
      requires IsArray(entity)
      ensures r.Map? && !HasKey(r.entries, Str(keys.primaryKey))
      ensures keys.applicationKey in columns && keys.applicationKey != keys.primaryKey ==>
        Get(r.entries, Str(keys.applicationKey)) == Stringified(Get(Entries(entity), Str(keys.primaryKey)))
      ensures forall k | k != Str(keys.primaryKey) && (keys.applicationKey !in columns || k != Str(keys.applicationKey)) ::
        Get(r.entries, k) == Get(Entries(entity), k) && (HasKey(r.entries, k) <==> HasKey(Entries(entity), k))
    {
      ArrayFormatted(keys, keys.applicationKey in columns, entity)
    }

    /** `formatEntitiesObject($entities)`: the entities formatted as objects,
        in order. When the application key is not among the columns, each
        object loses its primary key and does not gain the application key,
        and any other value is returned unchanged. Otherwise the first object
        with a primary key throws when it does not accept the application
        key, and the exception ends the loop. */
    method FormatEntitiesObject(assignable: Val -> bool, entities: seq<Val>) returns (r: Result<seq<Val>>)
      ensures r.Thrown? <==>
        keys.applicationKey in columns && !assignable(Str(keys.applicationKey)) &&
        exists i | 0 <= i < |entities| :: HasPrimaryKey(keys, entities[i])
      ensures r.Thrown? ==> r.failure == UnknownPropertyException(Str(keys.applicationKey))
      ensures r.Ok? ==> |r.value| == |entities|
      ensures r.Ok? && keys.applicationKey in columns ==>
        forall i | 0 <= i < |entities| :: Ok(r.value[i]) == ObjectFormatted(keys, assignable, entities[i])
      ensures r.Ok? && keys.applicationKey !in columns ==>
        forall i | 0 <= i < |entities| && entities[i].Obj? :: r.value[i] == Obj(Unset(entities[i].props, Str(keys.primaryKey)))
      ensures r.Ok? && keys.applicationKey !in columns ==>
        forall i | 0 <= i < |entities| && !entities[i].Obj? :: r.value[i] == entities[i]
    {
      var result := [];
      var i := 0;
      while i < |entities|
        invariant 0 <= i <= |entities|
        invariant |result| == i
        invariant keys.applicationKey in columns && !assignable(Str(keys.applicationKey)) ==>
          forall j | 0 <= j < i :: !HasPrimaryKey(keys, entities[j])
        invariant keys.applicationKey in columns ==>
          forall j | 0 <= j < i :: Ok(result[j]) == ObjectFormatted(keys, assignable, entities[j])
        invariant keys.applicationKey !in columns ==>
          forall j | 0 <= j < i && entities[j].Obj? :: result[j] == Obj(Unset(entities[j].props, Str(keys.primaryKey)))
        invariant keys.applicationKey !in columns ==>
          forall j | 0 <= j < i && !entities[j].Obj? :: result[j] == entities[j]
      {
        var entity := entities[i];
        if keys.applicationKey !in columns {
          entity := WithoutPrimaryProperty(keys, entity);
          if entities[i].Obj? {
            ObjectFormattedAfterRemoval(keys, assignable, entities[i]);
          }
        }
        var formatted := ObjectFormatted(keys, assignable, entity);
        if formatted.Thrown? {
          return Thrown(formatted.failure);
        }
        result := result + [formatted.value];
        i := i + 1;
      }
      return Ok(result);
    }

    /** `formatEntities($entities)`: each array entity formatted, in order. */
    method FormatEntities(entities: seq<Val>) returns (result: seq<Val>)
      requires forall e | e in entities :: IsArray(e)
      ensures |result| == |entities|
      ensures forall i | 0 <= i < |entities| :: result[i] == FormatEntity(entities[i])
    {
      result := [];
      var i := 0;
      while i < |entities|
        invariant 0 <= i <= |entities|
        invariant |result| == i
        invariant forall j | 0 <= j < i :: result[j] == FormatEntity(entities[j])
      {
        result := result + [FormatEntity(entities[i])];
        i := i + 1;
      }
    }

    /** `searchByCriteria()`: as in the Mongo trait, but tokens are not
        checked: a missing part reads as null. */
    method SearchByCriteria(request: Request) returns (r: Result<Search>)
      modifies this`columns, this`with
      ensures columns == (if Given(request.fields) then Split(request.fields.value, ',') else old(columns))
      ensures with == (if Given(request.with) then Split(request.with.value, ',') else old(with))
      ensures !Given(request.search) ==> r == Ok(FindAll)
      ensures Given(request.search) ==>
        var criteria := List(TokenCriteria(Some(keys), Split(request.search.value, ',')));
        r == Ok(FindManyByCriteria(criteria, Normalized(criteria)))
    {
      if Given(request.fields) {
        Columns(Split(request.fields.value, ','));
      }
      if Given(request.with) {
        With(Split(request.with.value, ','));
      }
      if !Given(request.search) {
        return Ok(FindAll);
      }
      var parsed := ParseTokens(Split(request.search.value, ','), false, Some(keys));
      var condition := NormalizeCriteria(parsed.value);
      return Ok(FindManyByCriteria(parsed.value, condition));
    }
  }

  /** `inc($id, $field, $count = 1)`: the entity found by
      `findOne([PRIMARY_KEY => $id])` gets `updateCounters([$field => $count])`. */
  function Inc(keys: Keys, id: Val, field: string, count: int := 1): (c: OrmCall)
    ensures c.UpdateCounters? && c.lookup == FindOne(Map([(Str(keys.primaryKey), id)]))
    ensures c.counters == Map([(Str(field), Int(count))])
  {
    UpdateCounters(FindOne(ArrayOf(Str(keys.primaryKey), id)), ArrayOf(Str(field), Int(count)))
  }

  /** `dec($id, $field, $count = 1)`: the same call as `inc`. */
  function Dec(keys: Keys, id: Val, field: string, count: int := 1): (c: OrmCall)
    ensures c.UpdateCounters? && c.lookup == FindOne(Map([(Str(keys.primaryKey), id)]))
    ensures c.counters == Map([(Str(field), Int(count))])
  {
    UpdateCounters(FindOne(ArrayOf(Str(keys.primaryKey), id)), ArrayOf(Str(field), Int(count)))
  }

  /** `dec` passes its count unchanged, so by default it adds 1 to the field,
      exactly as `inc` does, and for any count it makes the same call. */
  lemma DecIncrements(keys: Keys, id: Val, field: string, count: int)
    ensures Dec(keys, id, field) == Inc(keys, id, field)
    ensures Dec(keys, id, field).counters == Map([(Str(field), Int(1))])
    ensures Dec(keys, id, field, count) == Inc(keys, id, field, count)
  {
  }
}
