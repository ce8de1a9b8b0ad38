/** PHP values, as the repositories pass them to the ORM, and the handful of
    PHP built-ins (`depth`, `$a[$i]`, `explode`, `strtoupper`, `empty`,
    `array_unshift`) whose behaviour the repositories depend on.
    Comparisons follow PHP 7, the version the repositories were written for. */
module Php {

  datatype Option<T> = None | Some(value: T)

  /** MongoDB\BSON\ObjectID, kept opaque: only its string form is observable. */
  datatype ObjectId = ObjectId(hex: string) {
    function ToString(): string { hex }
  }

  /** A PHP value. A PHP array with keys 0..n-1 is a `List`; any other array
      is a `Map` of key/value pairs in insertion order. `Obj` is an object
      (an ActiveRecord) seen through its properties. */
  datatype Val =
    | Null
    | Int(i: int)
    | Str(s: string)
    | Oid(id: ObjectId)
    | List(items: seq<Val>)
    | Map(entries: seq<(Val, Val)>)
    | Obj(props: seq<(Val, Val)>)

  /** The failures a repository operation can end with: the repository's own
      RepositoryException, the UnknownPropertyException Yii raises when a
      model is given a property it does not have, or an error raised by the
      PHP engine itself. */
  datatype Failure =
    | RepositoryException(message: string)
    | UnknownPropertyException(property: Val)
    | EngineError(message: string)

  datatype Result<T> = Ok(value: T) | Thrown(failure: Failure)

  predicate IsArray(v: Val) { v.List? || v.Map? }

  /** `count($a)` */
  function Count(v: Val): nat
    requires IsArray(v)
  {
    if v.List? then |v.items| else |v.entries|
  }

  /** The values `foreach ($a as $x)` visits, in order. */
  function Values(v: Val): (vs: seq<Val>)
    requires IsArray(v)
    ensures |vs| == Count(v)
  {
    if v.List? then v.items else seq(|v.entries|, i requires 0 <= i < |v.entries| => v.entries[i].1)
  }

  /** The key/value pairs of an array; a list's keys are 0..n-1. */
  function Entries(v: Val): (es: seq<(Val, Val)>)
    requires IsArray(v)
    ensures |es| == Count(v)
  {
    if v.Map? then v.entries else seq(|v.items|, i requires 0 <= i < |v.items| => (Int(i), v.items[i]))
  }

  // ---------------------------------------------------------------------------
  // depth(): a scalar has depth 0, an array one more than its deepest value

  function Depth(v: Val): (d: nat)
    ensures d >= 1 <==> IsArray(v)
  {
    match v
    case List(items) => 1 + ItemsDepth(items)
    case Map(entries) => 1 + EntriesDepth(v, entries)
    case _ => 0
  }

  function ItemsDepth(vs: seq<Val>): (d: nat)
    ensures forall x | x in vs :: Depth(x) <= d
    ensures vs == [] ==> d == 0
  {
    if vs == [] then 0
    else
      var here, rest := Depth(vs[0]), ItemsDepth(vs[1..]);
      if here < rest then rest else here
  }

  function EntriesDepth(ghost parent: Val, es: seq<(Val, Val)>): (d: nat)
    requires forall e | e in es :: e.1 < parent
    decreases parent, |es|
  {
    if es == [] then 0
    else
      var here, rest := Depth(es[0].1), EntriesDepth(parent, es[1..]);
      if here < rest then rest else here
  }

  /** A list of scalars is flat: its depth is exactly 1. */
  lemma {:induction false} FlatListDepth(vs: seq<Val>)
    requires forall x | x in vs :: !IsArray(x)
    ensures Depth(List(vs)) == 1
  {
    if vs != [] {
      FlatListDepth(vs[1..]);
      assert ItemsDepth(vs) == 0;
    }
  }

  /** A list is nested (depth above 1) exactly when one of its values is an array. */
  lemma {:induction false} NestedListDepth(vs: seq<Val>)
    ensures Depth(List(vs)) > 1 <==> exists x | x in vs :: IsArray(x)
  {
    if vs != [] {
      NestedListDepth(vs[1..]);
      assert forall x | x in vs[1..] :: x in vs;
      assert forall x | x in vs :: x == vs[0] || x in vs[1..];
    }
  }

  // ---------------------------------------------------------------------------
  // Array access

  /** Whether `$a` has key `k`. */
  predicate HasKey(es: seq<(Val, Val)>, k: Val) {
    exists e | e in es :: e.0 == k
  }

  /** `$a[$k]`: the value under key `k`, or null when there is none. */
  function Get(es: seq<(Val, Val)>, k: Val): (v: Val)
    ensures HasKey(es, k) ==> (k, v) in es
    ensures !HasKey(es, k) ==> v == Null
  {
    if es == [] then Null
    else if es[0].0 == k then es[0].1
    else Get(es[1..], k)
  }

  /** `$a[$k] = $v`: replaces the value under `k`, or appends the pair. */
  function Set(es: seq<(Val, Val)>, k: Val, v: Val): (r: seq<(Val, Val)>)
    ensures Get(r, k) == v
    ensures forall k' | k' != k :: Get(r, k') == Get(es, k') && (HasKey(r, k') <==> HasKey(es, k'))
  {
    if es == [] then [(k, v)]
    else if es[0].0 == k then
      ConsLookups((k, v), Unset(es[1..], k));
      ConsLookups(es[0], es[1..]);
      [(k, v)] + Unset(es[1..], k)
    else
      ConsLookups(es[0], Set(es[1..], k, v));
      ConsLookups(es[0], es[1..]);
      [es[0]] + Set(es[1..], k, v)
  }

  /** Looking a key up in a list of pairs with one pair in front. */
  lemma ConsLookups(e: (Val, Val), rest: seq<(Val, Val)>)
    ensures forall k | k != e.0 :: Get([e] + rest, k) == Get(rest, k) && (HasKey([e] + rest, k) <==> HasKey(rest, k))
  {
    assert ([e] + rest)[1..] == rest;
    forall k | k != e.0 && HasKey([e] + rest, k)
      ensures HasKey(rest, k)
    {
      var x :| x in [e] + rest && x.0 == k;
      assert x in rest;
    }
  }

  /** `unset($a[$k])`: drops the pairs with key `k`, keeps the rest in order. */
  function Unset(es: seq<(Val, Val)>, k: Val): (r: seq<(Val, Val)>)
    ensures !HasKey(r, k)
    ensures forall k' | k' != k :: Get(r, k') == Get(es, k') && (HasKey(r, k') <==> HasKey(es, k'))
    ensures forall e | e in r :: e in es
  {
    if es == [] then []
    else if es[0].0 == k then
      ConsLookups(es[0], es[1..]);
      Unset(es[1..], k)
    else
      ConsLookups(es[0], Unset(es[1..], k));
      ConsLookups(es[0], es[1..]);
      [es[0]] + Unset(es[1..], k)
  }

  /** `$v[$i]` on whatever `$v` is: a list element, a map entry, one character
      of a string (an empty string past its end), or null otherwise. */
  function Index(v: Val, i: int): (r: Val)
    ensures v.List? ==> (0 <= i < |v.items| ==> r == v.items[i]) && (i < 0 || i >= |v.items| ==> r == Null)
    ensures v.Map? ==> r == Get(v.entries, Int(i))
  {
    match v
    case List(items) => if 0 <= i < |items| then items[i] else Null
    case Map(entries) => Get(entries, Int(i))
    case Str(s) => if 0 <= i < |s| then Str([s[i]]) else Str("")
    case _ => Null
  }

  /** `array_unshift($a, $x)`: puts `x` first under key 0 and renumbers the
      other integer keys from 1; string keys are kept. */
  function Unshift(v: Val, x: Val): (r: Val)
    requires IsArray(v)
    ensures IsArray(r) && Values(r) == [x] + Values(v)
    ensures v.List? ==> r == List([x] + v.items)
    ensures v.Map? ==> r.Map? && |r.entries| == 1 + |v.entries| && r.entries[0] == (Int(0), x)
    ensures v.Map? ==> forall i | 0 <= i < |v.entries| && !v.entries[i].0.Int? :: r.entries[i + 1] == v.entries[i]
  {
    if v.List? then List([x] + v.items)
    else
      ConsValues((Int(0), x), Renumbered(v.entries, 1), Values(v));
      Map([(Int(0), x)] + Renumbered(v.entries, 1))
  }

  /** The values of a map with one pair put in front. */
  lemma ConsValues(e: (Val, Val), es: seq<(Val, Val)>, vs: seq<Val>)
    requires |es| == |vs| && forall i | 0 <= i < |es| :: es[i].1 == vs[i]
    ensures Values(Map([e] + es)) == [e.1] + vs
  {
    var r := Values(Map([e] + es));
    assert forall i | 0 <= i < |r| :: r[i] == ([e.1] + vs)[i];
  }

  function Renumbered(es: seq<(Val, Val)>, next: int): (r: seq<(Val, Val)>)
    ensures |r| == |es|
    ensures forall i | 0 <= i < |es| :: r[i].1 == es[i].1 && (!es[i].0.Int? ==> r[i].0 == es[i].0)
  {
    if es == [] then []
    else if es[0].0.Int? then [(Int(next), es[0].1)] + Renumbered(es[1..], next + 1)
    else [es[0]] + Renumbered(es[1..], next)
  }

  // ---------------------------------------------------------------------------
  // Strings and truthiness

  function UpperChar(c: char): char {
    if 'a' <= c <= 'z' then (c as int - 'a' as int + 'A' as int) as char else c
  }

  /** `strtoupper($s)`: ASCII letters only. */
  function Upper(s: string): (u: string)
    ensures |u| == |s|
    ensures forall i | 0 <= i < |s| :: u[i] == UpperChar(s[i])
  {
    seq(|s|, i requires 0 <= i < |s| => UpperChar(s[i]))
  }

  /** `empty($v)`: null, 0, "", "0" and the empty array are empty; objects never. */
  predicate IsEmpty(v: Val) {
    match v
    case Null => true
    case Int(i) => i == 0
    case Str(s) => s == "" || s == "0"
    case List(items) => items == []
    case Map(entries) => entries == []
    case _ => false
  }

  /** A request parameter that is present and not `empty`. */
  predicate Given(p: Option<string>) {
    p.Some? && !IsEmpty(Str(p.value))
  }

  // ---------------------------------------------------------------------------
  // Integer strings: `is_numeric` and the number a string stands for

  predicate IsDigit(c: char) { '0' <= c <= '9' }

  /** The decimal value of a string of digits, most significant first. */
  function DigitsValue(s: string): nat
    requires forall i | 0 <= i < |s| :: IsDigit(s[i])
  {
    if s == [] then 0
    else
      var last := |s| - 1;
      assert IsDigit(s[last]);
      DigitsValue(s[..last]) * 10 + (s[last] as int - '0' as int)
  }

  /** The longest prefix of `s` made of digits. */
  function DigitPrefix(s: string): (p: string)
    ensures |p| <= |s| && p == s[..|p|]
    ensures forall i | 0 <= i < |p| :: IsDigit(p[i])
    ensures |p| < |s| ==> !IsDigit(s[|p|])
  {
    if s == [] || !IsDigit(s[0]) then [] else [s[0]] + DigitPrefix(s[1..])
  }

  /** `s` without a leading sign. */
  function Unsigned(s: string): string {
    if s != [] && (s[0] == '+' || s[0] == '-') then s[1..] else s
  }

  /** The integer PHP 7 reads from a string used in arithmetic: its leading
      signed digits, or 0 when it does not start with any. */
  function LeadingInt(s: string): int {
    var n: int := DigitsValue(DigitPrefix(Unsigned(s)));
    if s != [] && s[0] == '-' then -n else n
  }

  /** An integer literal: an optional sign, then one or more digits and
      nothing else. Leading zeros are allowed, so "00" is one. */
  predicate IsIntegerLiteral(s: string) {
    var u := Unsigned(s);
    u != [] && DigitPrefix(u) == u
  }

  /** `is_numeric($v)`, on integers and integer strings. */
  predicate IsNumeric(v: Val) {
    v.Int? || (v.Str? && IsIntegerLiteral(v.s))
  }

  /** The number a numeric value stands for in a comparison such as `$v < 1`. */
  function NumericValue(v: Val): int
    requires IsNumeric(v)
  {
    if v.Int? then v.i else LeadingInt(v.s)
  }

  /** The decimal digits of `n`, as `strval` writes them. */
  function Decimal(n: nat): (s: string)
    ensures s != [] && forall i | 0 <= i < |s| :: IsDigit(s[i])
  {
    var d := ('0' as int + n % 10) as char;
    if n < 10 then [d] else Decimal(n / 10) + [d]
  }

  /** `strval($n)` for an integer. */
  function IntString(n: int): string {
    if n < 0 then "-" + Decimal(-n) else Decimal(n)
  }

  /** Reading back the digits `Decimal` writes gives the number. */
  lemma {:induction false} DigitsValueDecimal(n: nat)
    ensures DigitsValue(Decimal(n)) == n
  {
    if n >= 10 {
      DigitsValueDecimal(n / 10);
      var s := Decimal(n);
      assert s[..|s| - 1] == Decimal(n / 10);
    }
  }

  /** Every integer's string is numeric and stands for that integer: the
      request string of a number is read back as the number. */
  lemma IntStringRoundTrip(n: int)
    ensures IsIntegerLiteral(IntString(n)) && IsNumeric(Str(IntString(n)))
    ensures LeadingInt(IntString(n)) == n && NumericValue(Str(IntString(n))) == n
  {
    var m: nat := if n < 0 then -n else n;
    var digits := Decimal(m);
    DigitsValueDecimal(m);
    assert DigitPrefix(digits) == digits;
    if n < 0 {
      assert Unsigned(IntString(n)) == digits;
    } else {
      assert Unsigned(IntString(n)) == digits;
    }
  }

  /** Strings with leading zeros and a sign are numbers too. */
  lemma IntegerStringCases()
    ensures IsNumeric(Str("00")) && NumericValue(Str("00")) == 0 && !IsEmpty(Str("00"))
    ensures IsNumeric(Str("-3")) && NumericValue(Str("-3")) == -3
    ensures !IsNumeric(Str("")) && !IsNumeric(Str("abc")) && !IsNumeric(Str("5x"))
    ensures LeadingInt("5x") == 5 && LeadingInt("abc") == 0
  {
    assert DigitPrefix("00") == "00";
    assert DigitPrefix("3") == "3";
    assert Unsigned("-3") == "3";
    assert DigitPrefix("5x") == "5";
    assert DigitPrefix("abc") == "";
  }

  // ---------------------------------------------------------------------------
  // explode()

  /** `explode($sep, $s)`: the pieces of `s` between occurrences of `sep`. */
  function Split(s: string, sep: char): (parts: seq<string>)
    ensures |parts| >= 1
    ensures forall p | p in parts :: sep !in p
  {
    if s == [] then [""]
    else
      var rest := Split(s[1..], sep);
      if s[0] == sep then [""] + rest
      else [[s[0]] + rest[0]] + rest[1..]
  }

  /** `implode($sep, $parts)`, the inverse of `Split`. */
  function Join(parts: seq<string>, sep: char): string
    requires |parts| >= 1
  {
    if |parts| == 1 then parts[0] else parts[0] + [sep] + Join(parts[1..], sep)
  }

  /** Splitting at the first separator: the part before it comes first. */
  lemma {:induction false} SplitAtSeparator(a: string, sep: char, rest: string)
    requires sep !in a
    ensures Split(a + [sep] + rest, sep) == [a] + Split(rest, sep)
  {
    if a != [] {
      SplitAtSeparator(a[1..], sep, rest);
      var s := a + [sep] + rest;
      assert s[0] == a[0] && s[1..] == a[1..] + [sep] + rest;
      var r := Split(s[1..], sep);
      assert r == [a[1..]] + Split(rest, sep);
      assert Split(s, sep) == [[a[0]] + r[0]] + r[1..];
      assert [a[0]] + a[1..] == a;
    } else {
      assert a + [sep] + rest == [sep] + rest;
      assert ([sep] + rest)[1..] == rest;
    }
  }

  /** A string with no separator splits into itself. */
  lemma {:induction false} SplitWithoutSeparator(a: string, sep: char)
    requires sep !in a
    ensures Split(a, sep) == [a]
  {
    if a != [] {
      SplitWithoutSeparator(a[1..], sep);
      assert [a[0]] + a[1..] == a;
    }
  }

  /** `explode` undoes `implode` when no part holds the separator. */
  lemma {:induction false} SplitJoin(parts: seq<string>, sep: char)
    requires |parts| >= 1
    requires forall p | p in parts :: sep !in p
    ensures Split(Join(parts, sep), sep) == parts
  {
    if |parts| == 1 {
      SplitWithoutSeparator(parts[0], sep);
    } else {
      assert forall p | p in parts[1..] :: p in parts;
      SplitJoin(parts[1..], sep);
      SplitAtSeparator(parts[0], sep, Join(parts[1..], sep));
      assert [parts[0]] + parts[1..] == parts;
    }
  }

  /** `implode` of a part put in front of at least one other part. */
  lemma JoinCons(head: string, parts: seq<string>, sep: char)
    requires |parts| >= 1
    ensures Join([head] + parts, sep) == head + [sep] + Join(parts, sep)
  {
    assert ([head] + parts)[1..] == parts;
  }

  /** Putting a character in front of the first part puts it in front of
      the joined string. */
  lemma JoinExtendsHead(c: char, parts: seq<string>, sep: char)
    requires |parts| >= 1
    ensures Join([[c] + parts[0]] + parts[1..], sep) == [c] + Join(parts, sep)
  {
    if |parts| > 1 {
      JoinCons([c] + parts[0], parts[1..], sep);
      JoinCons(parts[0], parts[1..], sep);
      assert [parts[0]] + parts[1..] == parts;
    }
  }

  /** The step of `JoinSplit` for a string starting with a character other
      than the separator, given that the rest joins back. */
  lemma JoinSplitStep(s: string, sep: char)
    requires s != [] && s[0] != sep
    requires Join(Split(s[1..], sep), sep) == s[1..]
    ensures Join(Split(s, sep), sep) == s
  {
    var rest := Split(s[1..], sep);
    assert Split(s, sep) == [[s[0]] + rest[0]] + rest[1..];
    JoinExtendsHead(s[0], rest, sep);
    assert [s[0]] + s[1..] == s;
  }

  /** `implode` undoes `explode`: splitting loses nothing. */
  lemma {:induction false} JoinSplit(s: string, sep: char)
    ensures Join(Split(s, sep), sep) == s
  {
    if s != [] {
      JoinSplit(s[1..], sep);
      if s[0] == sep {
        JoinCons("", Split(s[1..], sep), sep);
        assert [s[0]] + s[1..] == s;
      } else {
        JoinSplitStep(s, sep);
      }
    }
  }
}
