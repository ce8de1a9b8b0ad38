/** The query string `searchByCriteria` reads and the criteria its `search`
    parameter parses to. The parameter is a comma-separated list of tokens
    `field:op:value`; each token becomes the criterion `[op, field, value]`. */
module Search {
  import opened Php
  import opened Criteria

  /** The `$_GET` parameters `searchByCriteria` reads, as the strings the
      request carries, `None` when absent. */
  datatype Request = Request(
    search: Option<string>,
    fields: Option<string>,
    with: Option<string>,
    page: Option<string>,
    perPage: Option<string>)

  /** Whether `limit($_GET['perPage'])` throws: the parameter is given (not
      `empty`) but is not a number, or is a number below 1, as "00" is. */
  predicate PerPageRejected(perPage: Option<string>) {
    Given(perPage) && (!IsNumeric(Str(perPage.value)) || NumericValue(Str(perPage.value)) < 1)
  }

  /** `$_GET['page'] * $this->limit`: the page string counts as its leading
      integer, 0 when it has none. */
  function PageOffset(page: string, limit: int): (o: int)
    ensures IsIntegerLiteral(page) ==> o == NumericValue(Str(page)) * limit
  {
    LeadingInt(page) * limit
  }

  /** The page sent as an integer's own string gives the offset that
      integer times the limit. */
  lemma PageOffsetOfInteger(n: int, limit: int)
    ensures PageOffset(IntString(n), limit) == n * limit
  {
    IntStringRoundTrip(n);
  }

  /** Which `perPage` strings `limit` refuses: "00" and "-1" (numbers below 1)
      and "ten" (not a number); "05" is accepted as 5. An absent parameter and
      "0", which is `empty`, are not passed to `limit` at all. */
  lemma PerPageCases()
    ensures PerPageRejected(Some("00")) && PerPageRejected(Some("-1")) && PerPageRejected(Some("ten"))
    ensures !PerPageRejected(Some("05")) && NumericValue(Str("05")) == 5
    ensures !PerPageRejected(None) && !PerPageRejected(Some("0")) && !PerPageRejected(Some(""))
  {
    IntegerStringCases();
    assert DigitPrefix("1") == "1";
    assert Unsigned("-1") == "1";
    assert DigitPrefix("05") == "05";
    assert DigitPrefix("ten") == "";
  }

  /** What `searchByCriteria` hands over to: `findAll()`, or
      `findManyByCriteria($criteria)`, recorded with the condition that
      reaches `where`. */
  datatype Search = FindAll | FindManyByCriteria(criteria: Val, condition: Val)

  /** The message of the RepositoryException for a malformed token. */
  const MalformedSearch := "search parameters are not specified correctly."

  /** `$components[$i]`: the `i`th `:`-part, or null when there are fewer. */
  function Component(parts: seq<string>, i: nat): (c: Val)
    ensures i < |parts| ==> c == Str(parts[i])
    ensures i >= |parts| ==> c == Null
  {
    if i < |parts| then Str(parts[i]) else Null
  }

  /** A token the Mongo trait accepts: its first three `:`-parts are present
      and none of them is `empty` ("" or "0"). */
  predicate WellFormedToken(token: string) {
    var parts := Split(token, ':');
    !IsEmpty(Component(parts, 0)) && !IsEmpty(Component(parts, 1)) && !IsEmpty(Component(parts, 2))
  }

  /** `[$components[1], $components[0], $components[2]]`, the field first
      remapped from the application key to the primary key when `remap` is
      given (the Mongo files). */
  function TokenCriterion(remap: Option<Keys>, token: string): (c: Val)
    ensures var parts := Split(token, ':');
      c == List([Component(parts, 1), Str(Field(remap, parts[0])), Component(parts, 2)])
  {
    var parts := Split(token, ':');
    List([Component(parts, 1), Str(Field(remap, parts[0])), Component(parts, 2)])
  }

  /** The field of a criterion: component 0, remapped when `remap` is given. */
  function Field(remap: Option<Keys>, field: string): (f: string)
    ensures remap.None? ==> f == field
    ensures remap.Some? && field == remap.value.applicationKey ==> f == remap.value.primaryKey
    ensures remap.Some? && field != remap.value.applicationKey ==> f == field
  {
    if remap.Some? then RemapKey(remap.value, field) else field
  }

  /** The criteria for all tokens, in order. */
  function TokenCriteria(remap: Option<Keys>, tokens: seq<string>): (cs: seq<Val>)
    ensures |cs| == |tokens|
    ensures forall i | 0 <= i < |tokens| :: cs[i] == TokenCriterion(remap, tokens[i])
  {
    seq(|tokens|, i requires 0 <= i < |tokens| => TokenCriterion(remap, tokens[i]))
  }

  /** The token loop of `searchByCriteria`. With `validated` (the Mongo
      trait) a malformed token throws; with `remap` (the Mongo files) the
      application key is rewritten to the primary key. */
  method ParseTokens(tokens: seq<string>, validated: bool, remap: Option<Keys>) returns (r: Result<Val>)
    ensures r.Thrown? <==> validated && exists i | 0 <= i < |tokens| :: !WellFormedToken(tokens[i])
    ensures r.Thrown? ==> r.failure == RepositoryException(MalformedSearch)
    ensures r.Ok? ==> r.value == List(TokenCriteria(remap, tokens))
  {
    var criteria: seq<Val> := [];
    var i := 0;
    while i < |tokens|
      invariant 0 <= i <= |tokens|
      invariant validated ==> forall j | 0 <= j < i :: WellFormedToken(tokens[j])
      invariant criteria == TokenCriteria(remap, tokens[..i])
    {
      var components := Split(tokens[i], ':');
      if validated
        && (IsEmpty(Component(components, 0)) || IsEmpty(Component(components, 1)) || IsEmpty(Component(components, 2)))
      {
        return Thrown(RepositoryException(MalformedSearch));
      }
      var field := components[0];
      if remap.Some? && field == remap.value.applicationKey {
        field := remap.value.primaryKey;
      }
      criteria := criteria + [List([Component(components, 1), Str(field), Component(components, 2)])];
      assert tokens[..i + 1] == tokens[..i] + [tokens[i]];
      i := i + 1;
    }
    assert tokens[..i] == tokens;
    return Ok(List(criteria));
  }

  /** The token layout is `field:op:value`: a token built from those parts
      (and any further parts, which are ignored) gives `[op, field', value]`,
      and the Mongo trait accepts it exactly when none of the three is empty. */
  lemma TokenLayout(remap: Option<Keys>, field: string, operation: string, value: string, rest: seq<string>)
    requires ':' !in field && ':' !in operation && ':' !in value
    requires forall p | p in rest :: ':' !in p
    ensures TokenCriterion(remap, Join([field, operation, value] + rest, ':'))
         == List([Str(operation), Str(Field(remap, field)), Str(value)])
    ensures WellFormedToken(Join([field, operation, value] + rest, ':'))
        <==> !IsEmpty(Str(field)) && !IsEmpty(Str(operation)) && !IsEmpty(Str(value))
  {
    var parts := [field, operation, value] + rest;
    assert forall p | p in parts :: ':' !in p;
    SplitJoin(parts, ':');
  }

  /** A token without `:` has no operator and no value: unvalidated parsing
      gives `[null, field, null]` and the Mongo trait rejects it. */
  lemma TokenWithoutSeparator(remap: Option<Keys>, token: string)
    requires ':' !in token
    ensures TokenCriterion(remap, token)
         == List([Null, Str(Field(remap, token)), Null])
    ensures !WellFormedToken(token)
  {
    SplitWithoutSeparator(token, ':');
  }

  /** A token with two parts, `field:op`, has no value: it gives
      `[op, field', null]` unvalidated, and the Mongo trait rejects it. */
  lemma TokenWithTwoParts(remap: Option<Keys>, field: string, operation: string)
    requires ':' !in field && ':' !in operation
    ensures TokenCriterion(remap, field + ":" + operation) == List([Str(operation), Str(Field(remap, field)), Null])
    ensures !WellFormedToken(field + ":" + operation)
  {
    SplitJoin([field, operation], ':');
    assert Join([field, operation], ':') == field + ":" + operation by {
      assert [field, operation][1..] == [operation];
    }
  }
}
