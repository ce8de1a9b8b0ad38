/** The Mongo repository trait (src/Traits/MongoArRepositoryTrait.php): the
    configuration a repository carries between calls, its one-shot `init`,
    the fluent setters, `searchByCriteria`, and the formatting of the
    entities it returns. `PRIMARY_KEY`, `APPLICATION_KEY` and `desc` belong
    to the class using the trait, so they are parameters of the model. */
module MongoArRepositoryTrait {
  import opened Php
  import opened Criteria
  import opened Ordering
  import opened Search
  import opened EntityFormat

  /** The message `init` throws with when no model class is configured. */
  const InitMessage := "what the f ..."

  class Repository {
    const keys: Keys
    const desc: string
    var modelClass: string
    var model: Option<ActiveRecord>
    var with: seq<string>
    var columns: seq<string>
    var orderBy: Val
    var limit: int
    var offset: int

    /** What the setters guarantee of the paging fields. */
    predicate Valid()
      reads this`limit, this`offset
    {
      limit >= 1 && offset >= 0
    }

    /** The trait's property defaults, before `init`. */
    constructor (keys: Keys, desc: string, modelClass: string)
      ensures this.keys == keys && this.desc == desc && this.modelClass == modelClass
      ensures model == None && with == [] && columns == ["*"] && orderBy == Null
      ensures limit == 10 && offset == 0 && Valid()
    {
      this.keys := keys;
      this.desc := desc;
      this.modelClass := modelClass;
      model := None;
      with := [];
      columns := ["*"];
      orderBy := Null;
      limit := 10;
      offset := 0;
    }

    /** `init()`: does nothing once a model is set; throws when no model
      class is configured; otherwise instantiates the model (whose
      `attributes()` are given) and applies `columns()` and
      `orderBy(PRIMARY_KEY, desc)`, which throws for an invalid `desc` after
      the model is already set. */
    method Init(attributes: seq<string>) returns (r: Result<()>)
      modifies this`model, this`columns, this`orderBy
      ensures old(model).Some? ==> r.Ok? && model == old(model) && columns == old(columns) && orderBy == old(orderBy)
      ensures old(model).None? && IsEmpty(Str(modelClass)) ==>
        r == Thrown(RepositoryException(InitMessage)) && model == None && columns == old(columns) && orderBy == old(orderBy)
      ensures old(model).None? && !IsEmpty(Str(modelClass)) ==>
        model == Some(ActiveRecord(modelClass, attributes)) && columns == ["*"]
      ensures old(model).None? && !IsEmpty(Str(modelClass)) && OrderRejected(Field(keys.primaryKey), desc) ==>
        r == Thrown(RepositoryException("")) && orderBy == old(orderBy)
      ensures old(model).None? && !IsEmpty(Str(modelClass)) && !OrderRejected(Field(keys.primaryKey), desc) ==>
        r.Ok? && orderBy == MongoOrder(Field(keys.primaryKey), desc)
    {
      if model.Some? {
        return Ok(());
      }
      if IsEmpty(Str(modelClass)) {
        return Thrown(RepositoryException(InitMessage));
      }
      model := Some(ActiveRecord(modelClass, attributes));
      Columns();
      r := OrderBy(Field(keys.primaryKey), desc);
    }

    /** `with(array $with = [])` */
    method With(with: seq<string> := [])
      modifies this`with
      ensures this.with == with
    {
      this.with := with;
    }

    /** `columns(array $columns = ['*'])` */
    method Columns(columns: seq<string> := ["*"])
      modifies this`columns
      ensures this.columns == columns
    {
      this.columns := columns;
    }

    /** `offset($offset = 0)`: a value that is not numeric, or is negative,
        throws and changes nothing; otherwise the offset becomes its number. */
    method Offset(offset: Val := Int(0)) returns (r: Result<()>)
      modifies this`offset
      ensures r.Thrown? <==> !IsNumeric(offset) || NumericValue(offset) < 0
      ensures r.Thrown? ==> r.failure == RepositoryException("") && this.offset == old(this.offset)
      ensures r.Ok? ==> this.offset == NumericValue(offset)
      ensures old(Valid()) ==> Valid()
    {
      if !IsNumeric(offset) || NumericValue(offset) < 0 {
        return Thrown(RepositoryException(""));
      }
      this.offset := NumericValue(offset);
      return Ok(());
    }

    /** `limit($limit = 10)`: a value that is not numeric, or is below 1,
        throws and changes nothing; otherwise the limit becomes its number. */
    method Limit(limit: Val := Int(10)) returns (r: Result<()>)
      modifies this`limit
      ensures r.Thrown? <==> !IsNumeric(limit) || NumericValue(limit) < 1
      ensures r.Thrown? ==> r.failure == RepositoryException("") && this.limit == old(this.limit)
      ensures r.Ok? ==> this.limit == NumericValue(limit)
      ensures old(Valid()) ==> Valid()
    {
      if !IsNumeric(limit) || NumericValue(limit) < 1 {
        return Thrown(RepositoryException(""));
      }
      this.limit := NumericValue(limit);
      return Ok(());
    }

    /** `orderBy($orderBy, $sort = 'DESC')`: null changes nothing; a field is
      stored as `[field.' '.sort]`, an array of directions as it is; an
      invalid direction throws and changes nothing. */
    method OrderBy(arg: OrderArg, sort: string := "DESC") returns (r: Result<()>)
      modifies this`orderBy
      ensures r.Thrown? <==> OrderRejected(arg, sort)
      ensures r.Thrown? ==> r.failure == RepositoryException("")
      ensures arg.NoOrder? || r.Thrown? ==> orderBy == old(orderBy)
      ensures !arg.NoOrder? && r.Ok? ==> orderBy == MongoOrder(arg, sort)
    {
      match arg {
        case NoOrder =>
          return Ok(());
        case Field(name) =>
          if !ValidDirection(sort) {
            return Thrown(RepositoryException(""));
          }
          orderBy := List([Str(name + " " + sort)]);
        case Fields(pairs) =>
          var ok := CheckDirections(pairs);
          if !ok {
            return Thrown(RepositoryException(""));
          }
          orderBy := Map(pairs);
      }
      return Ok(());
    }

    /** `searchByCriteria()`: `fields` and `with` replace the columns and
      relations; every search token must have three non-empty parts, or
      RepositoryException is thrown; the tokens' criteria, the application
      key remapped, go through the normaliser of `findManyByCriteria`. No
      search string means `findAll()`. The `$perPage` the source tests is an
      undefined local, so the limit is never changed. */
    method SearchByCriteria(request: Request) returns (r: Result<Search>)
      modifies this`columns, this`with
      ensures columns == (if Given(request.fields) then Split(request.fields.value, ',') else old(columns))
      ensures with == (if Given(request.with) then Split(request.with.value, ',') else old(with))
      ensures !Given(request.search) ==> r == Ok(FindAll)
      ensures Given(request.search) ==>
        var tokens := Split(request.search.value, ',');
        var criteria := List(TokenCriteria(Some(keys), tokens));
        (r.Thrown? <==> exists i | 0 <= i < |tokens| :: !WellFormedToken(tokens[i]))
        && (r.Thrown? ==> r.failure == RepositoryException(MalformedSearch))
        && (r.Ok? ==> r.value == FindManyByCriteria(criteria, Normalized(criteria)))
    {
      if Given(request.fields) {
        Columns(Split(request.fields.value, ','));
      }
      if Given(request.with) {
        With(Split(request.with.value, ','));
      }
      if !Given(request.search) {
        return Ok(FindAll);
      }
      var tokens := Split(request.search.value, ',');
      var parsed := ParseTokens(tokens, true, Some(keys));
      if parsed.Thrown? {
        r := Thrown(parsed.failure);
        assert tokens == Split(request.search.value, ',');
        return;
      }
      var condition := NormalizeCriteria(parsed.value);
      return Ok(FindManyByCriteria(parsed.value, condition));
    }
  }

  /** `formatEntityArray($entity)`: the primary key is always removed; its
      value, stringified, goes to the application key only when the
      application key is one of the model's `attributes()`. */
  function FormatEntityArray(keys: Keys, attributes: seq<string>, entity: Val): (r: Val)
    requires IsArray(entity)
    ensures r.Map? && !HasKey(r.entries, Str(keys.primaryKey))
    ensures keys.applicationKey in attributes && keys.applicationKey != keys.primaryKey ==>
      Get(r.entries, Str(keys.applicationKey)) == Stringified(Get(Entries(entity), Str(keys.primaryKey)))
    ensures forall k | k != Str(keys.primaryKey) && (keys.applicationKey !in attributes || k != Str(keys.applicationKey)) ::
      Get(r.entries, k) == Get(Entries(entity), k) && (HasKey(r.entries, k) <==> HasKey(Entries(entity), k))
  {
    ArrayFormatted(keys, keys.applicationKey in attributes, entity)
  }

  /** `formatEntity($entity)`: arrays and objects each by their formatter;
      only the object formatter can throw. */
  function FormatEntity(keys: Keys, attributes: seq<string>, assignable: Val -> bool, entity: Val): (r: Result<Val>)
    ensures IsArray(entity) ==> r.Ok? && r.value.Map? && !HasKey(r.value.entries, Str(keys.primaryKey))
    ensures IsArray(entity) && keys.applicationKey in attributes && keys.applicationKey != keys.primaryKey ==>
      Get(r.value.entries, Str(keys.applicationKey)) == Stringified(Get(Entries(entity), Str(keys.primaryKey)))
    ensures IsArray(entity) ==>
      forall k | k != Str(keys.primaryKey) && (keys.applicationKey !in attributes || k != Str(keys.applicationKey)) ::
        Get(r.value.entries, k) == Get(Entries(entity), k) && (HasKey(r.value.entries, k) <==> HasKey(Entries(entity), k))
    ensures !IsArray(entity) ==> r == ObjectFormatted(keys, assignable, entity)
    ensures r.Thrown? <==> HasPrimaryKey(keys, entity) && !assignable(Str(keys.applicationKey))
  {
    if IsArray(entity) then Ok(FormatEntityArray(keys, attributes, entity)) else ObjectFormatted(keys, assignable, entity)
  }

  /** `formatEntities($entities)`: each entity formatted, in order; when the
      application key is not an attribute, an object first loses its primary
      key, so it is returned without it and without gaining the application
      key. Otherwise the first object with a primary key throws when it does
      not accept the application key, and the exception ends the loop. */
  method FormatEntities(keys: Keys, attributes: seq<string>, assignable: Val -> bool, entities: seq<Val>)
    returns (r: Result<seq<Val>>)
    ensures r.Thrown? <==>
      keys.applicationKey in attributes && !assignable(Str(keys.applicationKey)) &&
      exists i | 0 <= i < |entities| :: HasPrimaryKey(keys, entities[i])
    ensures r.Thrown? ==> r.failure == UnknownPropertyException(Str(keys.applicationKey))
    ensures r.Ok? ==> |r.value| == |entities|
    ensures r.Ok? && keys.applicationKey in attributes ==>
      forall i | 0 <= i < |entities| :: Ok(r.value[i]) == FormatEntity(keys, attributes, assignable, entities[i])
    ensures r.Ok? && keys.applicationKey !in attributes ==>
      forall i | 0 <= i < |entities| && entities[i].Obj? :: r.value[i] == Obj(Unset(entities[i].props, Str(keys.primaryKey)))
    ensures r.Ok? && keys.applicationKey !in attributes ==>
      forall i | 0 <= i < |entities| && !entities[i].Obj? :: Ok(r.value[i]) == FormatEntity(keys, attributes, assignable, entities[i])
  {
    var result := [];
    var i := 0;
    while i < |entities|
      invariant 0 <= i <= |entities|
      invariant |result| == i
      invariant keys.applicationKey in attributes && !assignable(Str(keys.applicationKey)) ==>
        forall j | 0 <= j < i :: !HasPrimaryKey(keys, entities[j])
      invariant keys.applicationKey in attributes ==>
        forall j | 0 <= j < i :: Ok(result[j]) == FormatEntity(keys, attributes, assignable, entities[j])
      invariant keys.applicationKey !in attributes ==>
        forall j | 0 <= j < i && entities[j].Obj? :: result[j] == Obj(Unset(entities[j].props, Str(keys.primaryKey)))
      invariant keys.applicationKey !in attributes ==>
        forall j | 0 <= j < i && !entities[j].Obj? :: Ok(result[j]) == FormatEntity(keys, attributes, assignable, entities[j])
    {
      var entity := entities[i];
      if keys.applicationKey !in attributes {
        entity := WithoutPrimaryProperty(keys, entity);
        if entities[i].Obj? {
          ObjectFormattedAfterRemoval(keys, assignable, entities[i]);
        }
      }
      var formatted := FormatEntity(keys, attributes, assignable, entity);
      if formatted.Thrown? {
        return Thrown(formatted.failure);
      }
      result := result + [formatted.value];
      i := i + 1;
    }
    return Ok(result);
  }

  /** `inc($id, $field, $count = 1)`: `$this->query->one(...)` is called with
      the argument `[PRIMARY_KEY => $id]`, and its result gets
      `updateCounters([$field => $count])`. `one` takes a database
      connection, not a condition, so the id does not select the entity. */
  function Inc(keys: Keys, id: Val, field: string, count: int := 1): (c: OrmCall)
    ensures c.UpdateCounters? && c.lookup == QueryOne(Map([(Str(keys.primaryKey), id)]))
    ensures c.counters == Map([(Str(field), Int(count))])
  {
    UpdateCounters(QueryOne(ArrayOf(Str(keys.primaryKey), id)), ArrayOf(Str(field), Int(count)))
  }

  /** `dec($id, $field, $count = 1)`: the same call as `inc`. */
  function Dec(keys: Keys, id: Val, field: string, count: int := 1): (c: OrmCall)
    ensures c.UpdateCounters? && c.lookup == QueryOne(Map([(Str(keys.primaryKey), id)]))
    ensures c.counters == Map([(Str(field), Int(count))])
  {
    UpdateCounters(QueryOne(ArrayOf(Str(keys.primaryKey), id)), ArrayOf(Str(field), Int(count)))
  }

  /** `dec` passes its count unchanged, and its default is 1, so by default it
      makes exactly the call `inc` makes, with the counter 1. */
  lemma DecDefaultIncrements(keys: Keys, id: Val, field: string)
    ensures Dec(keys, id, field) == Inc(keys, id, field)
    ensures Dec(keys, id, field).counters == Map([(Str(field), Int(1))])
  {
  }
}
