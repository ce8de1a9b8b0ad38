/** The entity formatting of the Mongo files: the storage primary key is
    removed from an entity and, depending on the file and the entity's form,
    its value is first copied to the application key, an ObjectID turned into
    its string. Entities are values here: an object is seen through its
    properties, and formatting returns the changed object. */
module EntityFormat {
  import opened Php
  import opened Criteria

  /** `$v instanceof ObjectID ? $v->__toString() : $v` */
  function Stringified(v: Val): (r: Val)
    ensures v.Oid? ==> r == Str(v.id.ToString())
    ensures !v.Oid? ==> r == v
  {
    if v.Oid? then Str(v.id.ToString()) else v
  }

  /** An array entity: when `copy` holds, `$entity[APP] = $entity[PK]`
      (stringified); then `unset($entity[PK])`. */
  function ArrayFormatted(keys: Keys, copy: bool, entity: Val): (r: Val)
    requires IsArray(entity)
    ensures r.Map? && !HasKey(r.entries, Str(keys.primaryKey))
    ensures copy && keys.applicationKey != keys.primaryKey ==>
      Get(r.entries, Str(keys.applicationKey)) == Stringified(Get(Entries(entity), Str(keys.primaryKey)))
    ensures forall k | k != Str(keys.primaryKey) && (!copy || k != Str(keys.applicationKey)) ::
      Get(r.entries, k) == Get(Entries(entity), k) && (HasKey(r.entries, k) <==> HasKey(Entries(entity), k))
  {
    var es := Entries(entity);
    var pk, app := Str(keys.primaryKey), Str(keys.applicationKey);
    var copied := if copy then Set(es, app, Stringified(Get(es, pk))) else es;
    Map(Unset(copied, pk))
  }

  /** Whether `formatEntityObject` changes `entity`: an object whose
      primary-key property is not `empty`. */
  predicate HasPrimaryKey(keys: Keys, entity: Val) {
    entity.Obj? && !IsEmpty(Get(entity.props, Str(keys.primaryKey)))
  }

  /** `formatEntityObject($entity)`: on an object with a non-empty primary
      key, the (stringified) key is copied to the application key and the
      primary key removed; anything else is returned unchanged. When the two
      keys are the same name the property is removed all the same.
      `assignable` says which property names the object accepts on write:
      every name on a plain object; on an ActiveRecord an attribute or a
      declared property, any other name making Yii throw
      UnknownPropertyException. The write of the application key is not
      guarded, so that throw is reachable. */
  function ObjectFormatted(keys: Keys, assignable: Val -> bool, entity: Val): (r: Result<Val>)
    ensures !HasPrimaryKey(keys, entity) ==> r == Ok(entity)
    ensures HasPrimaryKey(keys, entity) && !assignable(Str(keys.applicationKey)) ==>
      r == Thrown(UnknownPropertyException(Str(keys.applicationKey)))
    ensures HasPrimaryKey(keys, entity) && assignable(Str(keys.applicationKey)) ==>
      r.Ok? && r.value.Obj? && !HasKey(r.value.props, Str(keys.primaryKey))
    ensures HasPrimaryKey(keys, entity) && assignable(Str(keys.applicationKey)) && keys.applicationKey != keys.primaryKey ==>
      Get(r.value.props, Str(keys.applicationKey)) == Stringified(Get(entity.props, Str(keys.primaryKey)))
    ensures HasPrimaryKey(keys, entity) && assignable(Str(keys.applicationKey)) ==>
      forall k | k != Str(keys.primaryKey) && k != Str(keys.applicationKey) ::
        Get(r.value.props, k) == Get(entity.props, k) && (HasKey(r.value.props, k) <==> HasKey(entity.props, k))
  {
    if !HasPrimaryKey(keys, entity) then Ok(entity)
    else if !assignable(Str(keys.applicationKey)) then Thrown(UnknownPropertyException(Str(keys.applicationKey)))
    else
      var pk, app := Str(keys.primaryKey), Str(keys.applicationKey);
      var ps := Set(entity.props, pk, Stringified(Get(entity.props, pk)));
      Ok(Obj(Unset(Set(ps, app, Get(ps, pk)), pk)))
  }

  /** `unset($entity->{PK})`: removes the property from an object; on any
      other value it does nothing. */
  function WithoutPrimaryProperty(keys: Keys, entity: Val): (r: Val)
    ensures entity.Obj? ==> r.Obj? && !HasKey(r.props, Str(keys.primaryKey))
    ensures entity.Obj? ==> forall k | k != Str(keys.primaryKey) ::
      Get(r.props, k) == Get(entity.props, k) && (HasKey(r.props, k) <==> HasKey(entity.props, k))
    ensures !entity.Obj? ==> r == entity
  {
    if entity.Obj? then Obj(Unset(entity.props, Str(keys.primaryKey))) else entity
  }

  /** An object whose primary key was removed is left alone by
      `formatEntityObject`: it does not gain the application key, and the
      unguarded write that could throw is never reached. */
  lemma ObjectFormattedAfterRemoval(keys: Keys, assignable: Val -> bool, entity: Val)
    requires entity.Obj?
    ensures ObjectFormatted(keys, assignable, WithoutPrimaryProperty(keys, entity)) == Ok(Obj(Unset(entity.props, Str(keys.primaryKey))))
  {
    var r := WithoutPrimaryProperty(keys, entity);
    assert Get(r.props, Str(keys.primaryKey)) == Null;
  }
}
