# yii2-repository: repositories over Yii2 ActiveRecord, modelled in Dafny

The repository offers four base implementations of a repository over the Yii2
ActiveRecord ORM: a trait and an abstract class for MongoDB
(`src/Traits/MongoArRepositoryTrait.php`, `src/AbstractMongoArRepository.php`)
and the same two for SQL databases (`src/Traits/SqlArRepositoryTrait.php`,
`src/AbstractSqlArRepository.php`). Most of their code hands work to the
ORM. The part that is their own is modelled here:

- the configuration a repository carries between calls: `with`, `columns`,
  `limit`, `offset` and `orderBy`, the fluent setters that validate them, the
  traits' one-shot `init`, and the constructors of the abstract classes;
- the condition values handed to the ORM:
  - single-key conditions and the rewriting of `APPLICATION_KEY` to
    `PRIMARY_KEY`;
  - the `['in', PRIMARY_KEY, $ids]` conditions;
  - the Mongo criteria normaliser of `findManyByCriteria`;
  - the `'and'` prefix of the SQL files and of every `*ManyByCriteria`;
- the `search` query parameter of `searchByCriteria`, a comma-separated list
  of `field:op:value` tokens, and the parameters `fields`, `with`, `page` and
  `perPage`;
- the Mongo entity formatting, which moves the storage primary key to the
  application key;
- the `_meta` block of `paginate`;
- the assignment and validation loop of `createMany`.

PHP values are the datatype `Php.Val`. A list is an array keyed 0..n-1; any
other array is a sequence of key/value pairs; an object is seen through its
properties. `depth()` is not part of these files. It is defined here so that
a scalar has depth 0 and a flat array depth 1. An ORM call is recorded as the
`Criteria.OrmCall` value it receives, never executed.

Modules:

- `Php`: PHP arrays, `depth`, `explode`/`implode`, `strtoupper`, `empty`,
  `array_unshift`.
- `Criteria`: the conditions.
- `Ordering`: the direction test and the stored order.
- `Search`: the request and the token parser.
- `EntityFormat`: the Mongo entity formatting.
- `Pagination`: the `_meta` block.
- `Batch`: `createMany`.
- One module per source file, each with a `Repository` class holding that
  file's state.

`PRIMARY_KEY`, `APPLICATION_KEY` and `desc` are not defined in the Mongo files
or the SQL trait, so there they are parameters: a `Criteria.Keys` value and a
`desc` string. The abstract SQL class defines `PRIMARY_KEY` as `'id'` and
`desc` as `'SORT_DESC'`. Its application-key constant is spelt
`APPLICATION_KEy` and is never read, so it is not modelled.

The token layout follows the code: component 0 is the field, component 1 the
operator, component 2 the value. So `title:=:hello` gives
`['=', 'title', 'hello']` (`Search.TokenLayout`).

The `page` and `perPage` parameters are strings, as `$_GET` holds them.
`Php.IsNumeric` models `is_numeric` on integers and integer strings, and
`Php.LeadingInt` models PHP's use of a string in arithmetic.

## Model

| member | source | states |
|---|---|---|
| Criteria.KeyCondition | src/Traits/MongoArRepositoryTrait.php:439-445 | with operator `=` the condition is the one-pair array `{key: value}`, otherwise the triple `[op, key, value]` |
| Criteria.RemapKey | src/Traits/MongoArRepositoryTrait.php:627-629 | the application key is rewritten to the primary key; every other key is kept; the result is the application key only when the two key names coincide |
| Criteria.UpdateOneByLookup | src/Traits/MongoArRepositoryTrait.php:625-634 | `updateOneBy` looks up `findOne({key': value})` with exactly one pair; key' is the primary key when key is the application key, and key itself otherwise |
| Criteria.UpdateManyByCall | src/Traits/MongoArRepositoryTrait.php:655-662 | `updateManyBy` calls `updateAll(data, [op, key', value])`; key' is the primary key when key is the application key, and key itself otherwise |
| Criteria.DeleteOneByLookup | src/Traits/MongoArRepositoryTrait.php:713-724 | `deleteOneBy` looks up `findOne([condition])`, the single-key condition of the remapped key wrapped in a one-element list; the application key becomes the primary key |
| Criteria.DeleteManyByCall | src/Traits/MongoArRepositoryTrait.php:743-750 | `deleteManyBy` calls `deleteAll([op, key', value])`; key' is the primary key when key is the application key, and key itself otherwise |
| Criteria.IdsCondition | src/Traits/SqlArRepositoryTrait.php:575-578 | the condition of `updateManyByIds` and `deleteManyByIds` is `['in', PRIMARY_KEY, ids]`, a nested array (depth above 1) |
| Criteria.IdsConditionNotCriteria | src/AbstractSqlArRepository.php:529-532 | the id condition goes to the ORM as it is; given to a `*ManyByCriteria` operation instead, the same triple would get `'and'` in front and be read as three conditions |
| Criteria.AndPrefixed | src/Traits/SqlArRepositoryTrait.php:452-466 | criteria of depth above 1 get `'and'` as their first value under key 0, all values kept in order, and every string-keyed pair kept with its key and value; any other criteria are passed unchanged |
| Criteria.UpdateManyByCriteriaCall | src/Traits/SqlArRepositoryTrait.php:562-568 | `updateManyByCriteria` calls `updateAll(data, c)` with c the `'and'`-prefixed criteria |
| Criteria.DeleteManyByCriteriaCall | src/AbstractSqlArRepository.php:594-600 | `deleteManyByCriteria` calls `deleteAll(c)` with c the `'and'`-prefixed criteria |
| Criteria.AndPrefixKeepsConditions | src/AbstractSqlArRepository.php:408-420 | a list of conditions holding an array becomes `['and', c1, ..., cn]`: no `=` triple is rewritten, a single condition is not unwrapped |
| Criteria.AndPrefixKeepsFlatTriple | src/Traits/SqlArRepositoryTrait.php:641-647 | a single flat triple passes through the `'and'` prefixing unchanged |
| Criteria.Normalized | src/Traits/MongoArRepositoryTrait.php:551-581 | two or more conditions holding an array become `['and', ...]` of their shorthands, in order; flat criteria not starting with `'='` are returned unchanged |
| Criteria.NormalizeCriteria | src/Traits/MongoArRepositoryTrait.php:551-581 | the loop that builds `$mainCriteria` computes exactly `Normalized(criteria)` |
| Criteria.NormalizedConjunction | src/Traits/MongoArRepositoryTrait.php:555-568 | n > 1 conditions normalise to `['and', c1', ..., cn']` in input order, each `=` triple rewritten to `{field: value}` and every other kept |
| Criteria.NormalizedSingleton | src/Traits/MongoArRepositoryTrait.php:579-581 | a one-element list is never wrapped in `'and'`: it normalises to its condition, rewritten when it is an `=` triple |
| Criteria.NormalizedFlatTriple | src/Traits/MongoArRepositoryTrait.php:570-576 | a single flat triple normalises to the same condition `findOneBy` builds: `{field: value}` for `=`, the triple itself otherwise |
| Criteria.NormalizedArrayValuedTriple | src/Traits/MongoArRepositoryTrait.php:555 | a single triple whose value is an array, such as `['in', 'id', [1, 2]]`, is read as three conditions and becomes `['and', 'in', 'id', [1, 2]]` |
| Criteria.NormalizerAgreesWithAndPrefix | src/AbstractMongoArRepository.php:520-548 | for two or more conditions, none of them an `=` triple, the Mongo normaliser and the SQL `'and'` prefix give the same condition |
| Criteria.NormalizerDiffersFromAndPrefixOnSingleton | src/AbstractSqlArRepository.php:410-411 | for a single condition they differ: the Mongo files unwrap it, the SQL files hand over `['and', c]` |
| Ordering.CheckDirections | src/Traits/SqlArRepositoryTrait.php:217-244 | the direction loop of `orderBy` gets through iff every direction is a string that upper-cases to DESC or ASC |
| Ordering.MongoOrder | src/Traits/MongoArRepositoryTrait.php:252-279 | a field is stored as the single string `field + ' ' + sort`, from which field and sort can be read back; an array is stored as it is |
| Ordering.SqlOrder | src/Traits/SqlArRepositoryTrait.php:217-244 | a field is stored as the one pair `{field: 'SORT_' + sort}`; an array is stored as it is |
| Ordering.ValidDirectionCases | src/AbstractMongoArRepository.php:225-252 | the direction test ignores case: DESC, desc, Desc, ASC, asc and aSc pass; the empty string, `descending` and `DES` do not |
| Ordering.SortPrefixedNeverValid | src/AbstractSqlArRepository.php:204-231 | no `'SORT_'`-prefixed direction passes the test |
| Ordering.SqlOrderNotAcceptedBack | src/Traits/SqlArRepositoryTrait.php:217-244 | the order stored for a field is rejected when passed back to `orderBy` |
| Search.ParseTokens | src/Traits/MongoArRepositoryTrait.php:786-806 | when validating, the parse throws `search parameters are not specified correctly.` iff some token lacks one of its three parts or has an empty one; otherwise each token gives its criterion, in order |
| Search.TokenCriterion | src/AbstractMongoArRepository.php:756-767 | a token gives exactly `[part 1, part 0', part 2]`, a missing part read as null, part 0 remapped from the application key to the primary key when the file remaps |
| Search.TokenCriteria | src/AbstractSqlArRepository.php:637-649 | the criteria are one per token, in the tokens' order |
| Search.TokenLayout | src/Traits/SqlArRepositoryTrait.php:692-700 | a token `field:op:value[:...]` gives `[op, field', value]`; parts after the third are ignored; the Mongo trait accepts it iff none of the three is empty |
| Search.TokenWithTwoParts | src/AbstractMongoArRepository.php:756-767 | a token `field:op` gives `[op, field', null]` unvalidated, and the Mongo trait rejects it |
| Search.PageOffset | src/Traits/SqlArRepositoryTrait.php:687-688 | the offset `page * limit`; for an integer string it is the page's number times the limit |
| Search.PageOffsetOfInteger | src/Traits/SqlArRepositoryTrait.php:687-688 | the page sent as the string of an integer `n` gives the offset `n * limit` |
| Search.PerPageCases | src/Traits/SqlArRepositoryTrait.php:683-684 | `perPage` `"00"`, `"-1"` and `"ten"` are passed to `limit` and make it throw; `"05"` sets 5; absent, `"0"` and `""` skip the call |
| Search.TokenWithoutSeparator | src/AbstractSqlArRepository.php:637-649 | a token without `:` gives `[null, field, null]` unvalidated, and the Mongo trait rejects it |
| Php.SplitJoin | src/Traits/MongoArRepositoryTrait.php:770 | `explode` undoes `implode` when no part holds the separator |
| Php.JoinSplit | src/Traits/MongoArRepositoryTrait.php:789 | `implode` undoes `explode`: splitting loses nothing |
| Php.IntStringRoundTrip | src/Traits/SqlArRepositoryTrait.php:183-192 | the decimal string of any integer is numeric and reads back as that integer, both for `is_numeric` and for arithmetic |
| Php.IntegerStringCases | src/Traits/SqlArRepositoryTrait.php:687-688 | `"00"` is numeric with value 0 and not `empty`; `"-3"` is -3; `""`, `"abc"` and `"5x"` are not numeric; in arithmetic `"5x"` counts as 5 and `"abc"` as 0 |
| EntityFormat.ArrayFormatted | src/AbstractMongoArRepository.php:307-322 | the primary key is removed; when copying, the application key gets its value (stringified); every other key keeps its value and its presence |
| EntityFormat.ObjectFormatted | src/Traits/MongoArRepositoryTrait.php:353-369 | an object with a non-empty primary key throws UnknownPropertyException when it does not accept the application key as a property; otherwise it loses the primary key and gains the application key holding its value (an ObjectID as its string), other properties unchanged; anything else is returned unchanged |
| EntityFormat.WithoutPrimaryProperty | src/Traits/MongoArRepositoryTrait.php:417-420 | `unset($entity->{PK})` removes only that property from an object and leaves any other value alone |
| EntityFormat.ObjectFormattedAfterRemoval | src/AbstractMongoArRepository.php:374-379 | an object whose primary key was removed is left alone by `formatEntityObject`: it does not gain the application key and cannot throw |
| MongoArRepositoryTrait.Repository.constructor | src/Traits/MongoArRepositoryTrait.php:77-97 | before `init`: no model, `with []`, `columns ['*']`, no order, `limit 10`, `offset 0` |
| MongoArRepositoryTrait.Repository.Init | src/Traits/MongoArRepositoryTrait.php:116-144 | one-shot: with a model set nothing changes; an empty model class throws and changes nothing; otherwise the model is set, columns reset, and the order set by `orderBy(PRIMARY_KEY, desc)` or that call's exception raised |
| MongoArRepositoryTrait.Repository.With | src/Traits/MongoArRepositoryTrait.php:183-192 | sets the relations and nothing else |
| MongoArRepositoryTrait.Repository.Columns | src/Traits/MongoArRepositoryTrait.php:199-210 | sets the columns and nothing else |
| MongoArRepositoryTrait.Repository.Offset | src/Traits/MongoArRepositoryTrait.php:218-227 | throws iff the value is not numeric (an int or an integer string) or is negative, and then nothing changes; otherwise the offset is set to the value, stored as its number; keeps `limit >= 1 && offset >= 0` |
| MongoArRepositoryTrait.Repository.Limit | src/Traits/MongoArRepositoryTrait.php:235-244 | throws iff the value is not numeric (an int or an integer string) or is below 1, and then nothing changes; otherwise the limit is set to the value, stored as its number; keeps `limit >= 1 && offset >= 0` |
| MongoArRepositoryTrait.Repository.OrderBy | src/Traits/MongoArRepositoryTrait.php:252-279 | null changes nothing; throws iff a direction is invalid, then nothing changes; otherwise stores the Mongo encoding |
| MongoArRepositoryTrait.Repository.SearchByCriteria | src/Traits/MongoArRepositoryTrait.php:768-808 | fields and with replace the columns and relations; no search means `findAll`; a malformed token throws; otherwise `findManyByCriteria` of the remapped token criteria, with the normalised condition |
| MongoArRepositoryTrait.FormatEntityArray | src/Traits/MongoArRepositoryTrait.php:376-392 | the primary key is always removed; the application key gets its value (stringified) when the application key is a model attribute; every other key, and the application key when it is not an attribute, keeps its value and its presence |
| MongoArRepositoryTrait.FormatEntity | src/Traits/MongoArRepositoryTrait.php:399-408 | an array is formatted as by `formatEntityArray`, with the same guarantees; any other value goes through `formatEntityObject`, with its guarantees; throws iff the entity is an object with a non-empty primary key that does not accept the application key |
| MongoArRepositoryTrait.FormatEntities | src/Traits/MongoArRepositoryTrait.php:414-429 | throws UnknownPropertyException iff the application key is an attribute, the objects do not accept it, and some entity is an object with a non-empty primary key; otherwise same length and order, with the application key an attribute each entity formatted, and without it an object only losing its primary key and an array formatted |
| MongoArRepositoryTrait.Inc | src/Traits/MongoArRepositoryTrait.php:824-830 | calls `query->one` with the argument `[PRIMARY_KEY => id]`, then `updateCounters({field: count})` on its result |
| MongoArRepositoryTrait.Dec | src/Traits/MongoArRepositoryTrait.php:837-843 | the same `one` call and `updateCounters({field: count})`, the count passed as given |
| MongoArRepositoryTrait.DecDefaultIncrements | src/Traits/MongoArRepositoryTrait.php:824-843 | `dec` with its default count makes the same calls as `inc`, with the counter 1 |
| AbstractMongoArRepository.Repository.constructor | src/AbstractMongoArRepository.php:74-94 | the property defaults: `with []`, `columns ['*']`, `limit 10`, `offset 0` |
| AbstractMongoArRepository.Repository.New | src/AbstractMongoArRepository.php:113-123 | construction throws iff `orderBy(PRIMARY_KEY, desc)` rejects `desc`; otherwise the defaults hold and the order is `[PRIMARY_KEY + ' ' + desc]` |
| AbstractMongoArRepository.Repository.With | src/AbstractMongoArRepository.php:158-167 | sets the relations and nothing else |
| AbstractMongoArRepository.Repository.Columns | src/AbstractMongoArRepository.php:174-183 | sets the columns and nothing else |
| AbstractMongoArRepository.Repository.Offset | src/AbstractMongoArRepository.php:191-200 | throws iff the value is not numeric (an int or an integer string) or is negative, and then nothing changes; otherwise the offset is set to the value, stored as its number; keeps `limit >= 1 && offset >= 0` |
| AbstractMongoArRepository.Repository.Limit | src/AbstractMongoArRepository.php:208-217 | throws iff the value is not numeric (an int or an integer string) or is below 1, and then nothing changes; otherwise the limit is set to the value, stored as its number; keeps `limit >= 1 && offset >= 0` |
| AbstractMongoArRepository.Repository.OrderBy | src/AbstractMongoArRepository.php:225-252 | as the Mongo trait: null is a no-op, invalid directions throw and change nothing, a field is stored as `[field + ' ' + sort]` |
| AbstractMongoArRepository.Repository.FormatEntity | src/AbstractMongoArRepository.php:307-322 | the primary key is always removed; the application key gets its value (stringified) when the application key is among the projected columns; every other key, and the application key when it is not a column, keeps its value and its presence |
| AbstractMongoArRepository.Repository.FormatEntitiesObject | src/AbstractMongoArRepository.php:370-386 | throws UnknownPropertyException iff the application key is among the columns, the objects do not accept it, and some entity is an object with a non-empty primary key; otherwise same length and order, with the application key among the columns each entity through `formatEntityObject`, and without it an object losing its primary key without gaining the application key, any other value unchanged |
| AbstractMongoArRepository.Repository.FormatEntities | src/AbstractMongoArRepository.php:470-478 | each array entity formatted, in order |
| AbstractMongoArRepository.Repository.SearchByCriteria | src/AbstractMongoArRepository.php:736-773 | as the Mongo trait but no token is rejected: a missing part reads as null |
| AbstractMongoArRepository.Inc | src/AbstractMongoArRepository.php:789-794 | the entity found by the model's `findOne({PRIMARY_KEY: id})` gets `updateCounters({field: count})` |
| AbstractMongoArRepository.Dec | src/AbstractMongoArRepository.php:801-806 | the same lookup and `updateCounters({field: count})`, the count passed as given |
| AbstractMongoArRepository.DecIncrements | src/AbstractMongoArRepository.php:789-806 | `dec` passes its count unchanged, so it makes the same call as `inc` and by default adds 1 |
| SqlArRepositoryTrait.Repository.constructor | src/Traits/SqlArRepositoryTrait.php:84-104 | before `init`: no model, `with []`, `columns ['*']`, order `{PRIMARY_KEY: desc}`, `limit 10`, `offset 0` |
| SqlArRepositoryTrait.Repository.Init | src/Traits/SqlArRepositoryTrait.php:110-128 | one-shot as in the Mongo trait, the order stored in the SQL encoding |
| SqlArRepositoryTrait.Repository.With | src/Traits/SqlArRepositoryTrait.php:150-159 | sets the relations and nothing else |
| SqlArRepositoryTrait.Repository.Columns | src/Traits/SqlArRepositoryTrait.php:166-175 | sets the columns and nothing else |
| SqlArRepositoryTrait.Repository.Offset | src/Traits/SqlArRepositoryTrait.php:183-192 | throws iff the value is not numeric (an int or an integer string) or is negative, and then nothing changes; otherwise the offset is set to the value, stored as its number; keeps `limit >= 1 && offset >= 0` |
| SqlArRepositoryTrait.Repository.Limit | src/Traits/SqlArRepositoryTrait.php:200-209 | throws iff the value is not numeric (an int or an integer string) or is below 1, and then nothing changes; otherwise the limit is set to the value, stored as its number; keeps `limit >= 1 && offset >= 0` |
| SqlArRepositoryTrait.Repository.OrderBy | src/Traits/SqlArRepositoryTrait.php:217-244 | null is a no-op; throws iff a direction is invalid, then nothing changes; a field is stored as `{field: 'SORT_' + sort}`, sort not upper-cased |
| SqlArRepositoryTrait.Repository.SearchByCriteria | src/Traits/SqlArRepositoryTrait.php:664-706 | a non-`empty` `perPage` that is not numeric or is below 1 throws; otherwise it becomes the limit; a `page` sets the offset to `page * limit` (its leading integer times the limit) or throws when that is negative; no search means `findAll`; tokens become unchecked, unremapped criteria with the `'and'` prefix; the invariant is kept |
| SqlArRepositoryTrait.Inc | src/Traits/SqlArRepositoryTrait.php:473-478 | calls `query->one` with the argument `[PRIMARY_KEY => id]`, then `updateCounters({field: count})` on its result |
| SqlArRepositoryTrait.Dec | src/Traits/SqlArRepositoryTrait.php:485-490 | the same `one` call and `updateCounters({field: count})`, with -1 as the default count |
| SqlArRepositoryTrait.IncDecDefaults | src/Traits/SqlArRepositoryTrait.php:473-490 | by default `inc` passes the counter 1 and `dec` the counter -1 after the same `one` call; with an explicit count they make the same calls |
| AbstractSqlArRepository.Repository.constructor | src/AbstractSqlArRepository.php:87-122 | `with []`, `columns ['*']`, order `{'id': 'SORT_DESC'}`, `limit 10`, `offset 0`; no `orderBy` call is made |
| AbstractSqlArRepository.Repository.With | src/AbstractSqlArRepository.php:137-146 | sets the relations and nothing else |
| AbstractSqlArRepository.Repository.Columns | src/AbstractSqlArRepository.php:153-162 | sets the columns and nothing else |
| AbstractSqlArRepository.Repository.Offset | src/AbstractSqlArRepository.php:170-179 | throws iff the value is not numeric (an int or an integer string) or is negative, and then nothing changes; otherwise the offset is set to the value, stored as its number; keeps `limit >= 1 && offset >= 0` |
| AbstractSqlArRepository.Repository.Limit | src/AbstractSqlArRepository.php:187-196 | throws iff the value is not numeric (an int or an integer string) or is below 1, and then nothing changes; otherwise the limit is set to the value, stored as its number; keeps `limit >= 1 && offset >= 0` |
| AbstractSqlArRepository.Repository.OrderBy | src/AbstractSqlArRepository.php:204-231 | null is a no-op; throws iff a direction is invalid; a field is stored as `{field: 'SORT_' + sort}` |
| AbstractSqlArRepository.Repository.SearchByCriteria | src/AbstractSqlArRepository.php:617-651 | no page or perPage handling; tokens become unchecked, unremapped criteria with the `'and'` prefix; no search means `findAll` |
| AbstractSqlArRepository.Inc | src/AbstractSqlArRepository.php:427-432 | the entity found by the model's `findOne({'id': id})` gets `updateCounters({field: count})` |
| AbstractSqlArRepository.Dec | src/AbstractSqlArRepository.php:439-444 | the same lookup and `updateCounters({field: count})`, with -1 as the default count |
| AbstractSqlArRepository.IncDecDefaults | src/AbstractSqlArRepository.php:427-444 | the entity is found by `findOne({'id': id})`; `inc` adds 1 and `dec` adds -1 by default |
| AbstractSqlArRepository.DirectionConstantsRejected | src/AbstractSqlArRepository.php:55-56 | `orderBy(f, self::desc)` and `orderBy(f, self::asc)` throw: `'SORT_DESC'` and `'SORT_ASC'` are not directions |
| AbstractSqlArRepository.DefaultOrderNotAcceptedBack | src/AbstractSqlArRepository.php:97 | the default order `{'id': 'SORT_DESC'}` cannot be set again through `orderBy` |
| Pagination.PageCount | src/AbstractMongoArRepository.php:501 | the page count n as written satisfies `(n-1)*perPage <= total < n*perPage`, so n is at least 1 |
| Pagination.CurrentPage | src/Traits/SqlArRepositoryTrait.php:403 | the current page is the `page` string exactly as given (`"00"` stays `"00"`), or the integer 1 when it is absent or `empty` |
| Pagination.PaginateMeta | src/Traits/SqlArRepositoryTrait.php:386-409 | `_meta` holds the total, the page count as written, the current page, and a page size of 10 |
| Pagination.PageCountEmptyLastPage | src/AbstractSqlArRepository.php:378 | the last announced page starts at the end of the records, so holds none, iff the total is a multiple of the page size |
| Pagination.PageCountExamples | src/Traits/SqlArRepositoryTrait.php:402 | 20 records in pages of 10 are announced as 3 pages (2 are filled); 25 as 3; none as 1 |
| Pagination.CeilPageCount | src/AbstractMongoArRepository.php:501 | the intended count: the least n with `total <= n*perPage`, 0 for no records |
| Pagination.PageCountVersusCeil | src/AbstractMongoArRepository.php:501 | the count as written equals the intended one except on exact multiples, where it is one more |
| Pagination.IntendedPaginateMeta | src/AbstractSqlArRepository.php:362-385 | `_meta` with a page count that covers all records and announces no empty page |
| Batch.FirstUnknownKey | src/Traits/SqlArRepositoryTrait.php:276-278 | the assignment of a record's fields throws at the first key the model has no property for: every earlier key is accepted and that one is not |
| Batch.AssignFields | src/Traits/SqlArRepositoryTrait.php:276-278 | the field-assignment loop stops exactly at `FirstUnknownKey` |
| Batch.LoopHalt | src/Traits/SqlArRepositoryTrait.php:272-284 | the loop over the records halts where `HaltsAt` says: every earlier record is assigned in full and validates, and the record there has an unknown key (at its first one) or does not validate |
| Batch.HaltDetermined | src/Traits/SqlArRepositoryTrait.php:272-284 | only one halting point meets `HaltsAt`, so the loop's outcome is determined by the records |
| Batch.AssignAndValidate | src/Traits/SqlArRepositoryTrait.php:272-284 | the assignment and validation loop halts exactly at `LoopHalt` |
| Batch.CreateMany | src/Traits/SqlArRepositoryTrait.php:264-288 | depth below 2 throws RepositoryException; otherwise an unknown key reached by the loop throws UnknownPropertyException for that key, and any other input raises the Error of calling `attributes()` on a string; nothing is inserted |
| Batch.IntendedCreateMany | src/AbstractSqlArRepository.php:250-274 | depth below 2 throws; an unknown key reached by the loop throws UnknownPropertyException; otherwise the batch insert receives every record of `data`, whatever the validation found |
| Batch.UnknownKeyExamples | src/Traits/SqlArRepositoryTrait.php:272-284 | with `title` the only property: `[['nosuch' => 1]]` and `[[1, 2]]` throw at their first field; a later record throws at its own unknown key; an invalid record before it ends the loop first |

## Left out

- Executing queries: `where`, `one`, `all`, `count`, `select`, `asArray`,
  `updateAll`, `deleteAll`, `updateCounters`, `save`, `validate`,
  `setAttributes` and `batchInsert` are ORM calls. Only the condition or the
  arguments they receive are modelled. Which keys a model accepts
  (`BaseActiveRecord::__set`) and whether a record validates are parameters
  of `Batch`.
- `one` in `inc` and `dec` of the two traits: Yii's `ActiveQuery::one` takes
  a database connection, not a condition, so the array `[PRIMARY_KEY => $id]`
  passed there does not select an entity by id. What `one` then does is Yii's
  code, not part of this model; the model records the call as written.
- `yii\data\Pagination`, a foreign class: its offset, limit, links and the
  whole `paginate` of the Mongo trait. `Pagination.PaginateMeta` uses 10 for
  its `limit`, the page size every caller passes.
- `$_GET`, `Yii::$app->db` and the Mongo connection: the request parameters
  are the `Search.Request` datatype, each an optional string.
- Php.IsNumeric: takes only integers and integer strings (an optional sign,
  then digits) as numeric. PHP's `is_numeric` also accepts fractions,
  exponents and leading whitespace (`"1.5"`, `"1e3"`, `" 5"`), which the
  model treats as non-numeric, because floats are not modelled.
- SqlArRepositoryTrait.Repository.SearchByCriteria: a fractional, exponent
  or whitespace-led `perPage` or `page` is outside the model, as for
  `Php.IsNumeric`. PHP 7 arithmetic reads a page `" 2"` as 2, so the offset
  is `2 * limit`; `Php.LeadingInt`, and so `Search.PageOffset`, reads it
  as 0.
- Pagination.PageCount: `floor` returns a float in PHP; the model keeps its
  integral value and not its type.
- `ObjectID` internals: an ObjectID is an opaque value with its string form.
- `allExist`, an empty stub in every file.
- `src/Interfaces/iRepository.php`, which declares signatures only.
- `create`, `updateEntity`, `findOneById`, `updateOneById`, `deleteOneById`
  and the `*OneByCriteria` operations: each only passes its argument to the
  ORM.
- The SQL files' `findOneBy`, `updateOneBy`, `deleteOneBy` and `findManyBy`,
  and every file's `findManyByIds` and `findManyWhereIn`: single ORM calls
  whose conditions are built the same way as the ones modelled here.
- PHP's coercion of numeric-string array keys and its loose comparison of two
  numeric strings: keys and compared names are taken as written.
- A scalar non-string `orderBy` argument: the model takes a field name.
- EntityFormat.ObjectFormatted: when the write of the application key
  throws, PHP has already replaced an ObjectID primary key on the caller's
  object by its string; the model returns only the exception, and that
  partial update is not modelled. Which names an object accepts on write is
  the parameter `assignable`, as Yii's `__set` is not part of this model.
- MongoArRepositoryTrait.Repository.Offset, MongoArRepositoryTrait.Repository.Limit
  and the `Offset` and `Limit` of the other three classes: a numeric string
  is stored as its number, where PHP stores the string as given (`"05"` stays
  `"05"`). Every modelled reader of `limit` or `offset` takes it as a number,
  so the difference is not observable in the model.
- Ordering.MongoOrder, Ordering.SqlOrder: an array argument is stored as a
  `Map` of its pairs even when it is a list, where PHP keeps it as given;
  the pairs and their order are the same.
- Entities are values: `formatEntities` and `formatEntitiesObject` return the
  changed entities, and the change PHP makes to an object shared with the
  caller is not modelled.
- AbstractMongoArRepository.Repository.FormatEntity: requires an array
  entity. `create` passes it the model object, which it reads through
  ActiveRecord's array access, and that is not modelled.
- AbstractMongoArRepository.Repository.FormatEntities: requires array
  entities, as it formats each through `FormatEntity`.
- `Php.Index` on an object gives null, where PHP raises an Error.
- The `connection` and `query` fields, which hold ORM handles.
- The `is_array` checks behind array type hints, which the hints make
  unreachable.
- Where `limit` and `offset` are read. The SQL trait's `searchByCriteria`
  reads `limit` to compute the offset
  (src/Traits/SqlArRepositoryTrait.php:688), and that is modelled. The Mongo
  trait's `paginate` reads it as the default page size
  (src/Traits/MongoArRepositoryTrait.php:523); that is left out with
  `yii\data\Pagination`. No modelled fetch reads `offset`.
- All four `searchByCriteria` test the undefined local `$perPage`
  (src/Traits/MongoArRepositoryTrait.php:777,
  src/AbstractMongoArRepository.php:745,
  src/Traits/SqlArRepositoryTrait.php:673,
  src/AbstractSqlArRepository.php:626). It is always `empty`, so that
  `limit` call never happens; the model reproduces this.

## Findings

| source | as written | input that shows it | evidently intended | confidence | as-written member | corrected member |
|---|---|---|---|---|---|---|
| src/AbstractMongoArRepository.php:501 | `pageCount = floor(count / limit) + 1` | 20 records in pages of 10 are announced as 3 pages, the third empty; no records as 1 page | the number of pages the records fill, `ceil(count / limit)` | high, not executed | Pagination.PageCountEmptyLastPage | Pagination.PageCountVersusCeil |
| src/Traits/SqlArRepositoryTrait.php:286-287 | `batchInsert(..., $modelClassName->attributes(), $data)` with `$modelClassName = get_class($this->model)`, a string | with `title` a model attribute, `createMany([['title' => 'a']])` raises the Error of calling `attributes()` on a string, and nothing is inserted | the model's attribute names as the columns, so every record of `$data` is inserted | high, not executed | Batch.CreateMany | Batch.IntendedCreateMany |
