/** Python's == on JSON values, which compares dictionaries without order and takes true for 1, and what it
    means for the arguments a call is run with. */
module PythonValues {
  import opened Wrappers
  import opened Json
  import opened References

  // ------------------------------------------------------------------ equality

  /** Python's True and False are the numbers 1 and 0. */
  function AsNumbers(v: Value): Value {
    match v
    case Bool(b) => Num(if b then 1 else 0)
    case Arr(items) => Arr(NumberItems(items))
    case Obj(fields) => Obj(NumberFields(fields))
    case _ => v
  }

  function NumberItems(items: seq<Value>): seq<Value> {
    if items == [] then [] else [AsNumbers(items[0])] + NumberItems(items[1..])
  }

  function NumberFields(fields: seq<Field>): seq<Field> {
    if fields == [] then [] else [Field(fields[0].key, AsNumbers(fields[0].value))] + NumberFields(fields[1..])
  }

  predicate EqualInPython(a: Value, b: Value) { AsNumbers(Canon(a)) == AsNumbers(Canon(b)) }

  // ------------------------------------------------------------------ mapping the values of an object

  function MapFields(h: Value -> Value, fields: seq<Field>): (r: seq<Field>)
    ensures |r| == |fields| && forall i | 0 <= i < |r| :: r[i] == Field(fields[i].key, h(fields[i].value))
  {
    seq(|fields|, i requires 0 <= i < |fields| => Field(fields[i].key, h(fields[i].value)))
  }

  lemma {:induction false} InsertMapped(h: Value -> Value, f: Field, sorted: seq<Field>)
    ensures MapFields(h, InsertField(f, sorted)) == InsertField(Field(f.key, h(f.value)), MapFields(h, sorted))
  {
    if sorted == [] || !KeyLess(sorted[0].key, f.key) {
      assert MapFields(h, [f] + sorted) == [Field(f.key, h(f.value))] + MapFields(h, sorted);
    } else {
      InsertMapped(h, f, sorted[1..]);
      assert MapFields(h, sorted)[1..] == MapFields(h, sorted[1..]);
      assert MapFields(h, [sorted[0]] + InsertField(f, sorted[1..]))
          == [Field(sorted[0].key, h(sorted[0].value))] + MapFields(h, InsertField(f, sorted[1..]));
    }
  }

  /** Sorting looks at keys only. */
  lemma {:induction false} SortMapped(h: Value -> Value, fields: seq<Field>)
    ensures MapFields(h, SortFields(fields)) == SortFields(MapFields(h, fields))
  {
    if fields == [] {
      assert MapFields(h, []) == [];
    } else {
      SortMapped(h, fields[1..]);
      InsertMapped(h, fields[0], SortFields(fields[1..]));
      assert MapFields(h, fields)[1..] == MapFields(h, fields[1..]);
    }
  }

  lemma {:induction false} KeyLessOneWay(a: string, b: string)
    requires KeyLess(a, b)
    ensures !KeyLess(b, a)
  {
    if a != "" && a[0] == b[0] { KeyLessOneWay(a[1..], b[1..]); }
  }

  lemma {:induction false} InsertKeepsSorted(f: Field, sorted: seq<Field>)
    requires SortedKeys(sorted)
    ensures SortedKeys(InsertField(f, sorted))
    ensures var r := InsertField(f, sorted); r[0] == f || (sorted != [] && r[0] == sorted[0])
  {
    if sorted != [] && KeyLess(sorted[0].key, f.key) {
      var rest := sorted[1..];
      assert forall i | 0 <= i < |rest| :: rest[i] == sorted[i + 1];
      InsertKeepsSorted(f, rest);
      KeyLessOneWay(sorted[0].key, f.key);
      var r := InsertField(f, rest);
      forall i | 0 <= i < |[sorted[0]] + r| - 1
        ensures !KeyLess(([sorted[0]] + r)[i + 1].key, ([sorted[0]] + r)[i].key)
      {
        if i > 0 { assert !KeyLess(r[i - 1 + 1].key, r[i - 1].key); }
        else if r[0] != f { assert !KeyLess(sorted[0 + 1].key, sorted[0].key); }
      }
    }
  }

  lemma {:induction false} SortSorts(fields: seq<Field>)
    ensures SortedKeys(SortFields(fields)) && SortFields(SortFields(fields)) == SortFields(fields)
  {
    if fields != [] {
      SortSorts(fields[1..]);
      InsertKeepsSorted(fields[0], SortFields(fields[1..]));
    }
    SortedFieldsStay(SortFields(fields));
  }

  lemma CanonMapped(fields: seq<Field>)
    ensures CanonFields(fields) == MapFields(Canon, fields)
  {
    CanonEach(fields);
  }

  lemma {:induction false} NumbersMapped(fields: seq<Field>)
    ensures NumberFields(fields) == MapFields(AsNumbers, fields)
  {
    if fields != [] { NumbersMapped(fields[1..]); }
  }

  lemma {:induction false} ResolveMapped(fields: seq<Field>, results: Results)
    ensures ResolveFields(fields, results).0 == MapFields(v => Resolve(v, results).0, fields)
  {
    if fields != [] { ResolveMapped(fields[1..], results); }
  }

  // ------------------------------------------------------------------ resolving canonical arguments

  function Resolved(v: Value, results: Results): Value { Resolve(v, results).0 }

  lemma ResolveObj(fields: seq<Field>, results: Results)
    ensures Resolved(Obj(fields), results) == Obj(MapFields(v => Resolved(v, results), fields))
    ensures ResolveFields(fields, results).0 == MapFields(v => Resolved(v, results), fields)
  {
    ResolveMapped(fields, results);
    assert MapFields(v => Resolve(v, results).0, fields) == MapFields(v => Resolved(v, results), fields);
  }

  lemma CanonObject(fields: seq<Field>)
    ensures Canon(Obj(fields)) == Obj(SortFields(MapFields(Canon, fields)))
  {
    CanonMapped(fields);
  }

  /** Whether arguments are resolved as written or with their keys sorted, the canonical result is the same. */
  lemma {:induction false} ResolveCanon(v: Value, results: Results)
    ensures Canon(Resolved(Canon(v), results)) == Canon(Resolved(v, results))
    decreases v, 0
  {
    match v
    case Obj(fields) =>
      var resolve := (x: Value) => Resolved(x, results);
      var canonical := MapFields(Canon, fields);
      hide Canon, Resolve, SortFields, Resolved;
      CanonObject(fields);
      ResolveObj(SortFields(canonical), results);
      ResolveObj(fields, results);
      SortMapped(resolve, canonical);
      CanonObject(MapFields(resolve, SortFields(canonical)));
      CanonObject(MapFields(resolve, fields));
      SortMapped(Canon, MapFields(resolve, canonical));
      SortSorts(MapFields(Canon, MapFields(resolve, canonical)));
      forall i | 0 <= i < |fields| ensures Canon(resolve(Canon(fields[i].value))) == Canon(resolve(fields[i].value)) {
        ResolveCanon(fields[i].value, results);
      }
      assert MapFields(Canon, MapFields(resolve, canonical)) == MapFields(Canon, MapFields(resolve, fields));
    case Arr(items) => ResolveCanonItems(items, results);
    case _ =>
  }

  lemma {:induction false} ResolveCanonItems(items: seq<Value>, results: Results)
    ensures CanonItems(ResolveItems(CanonItems(items), results).0) == CanonItems(ResolveItems(items, results).0)
    decreases items, 1
  {
    if items != [] {
      ResolveCanon(items[0], results);
      ResolveCanonItems(items[1..], results);
      var rest := CanonItems(items[1..]);
      assert ([Canon(items[0])] + rest)[1..] == rest;
      var a := [Resolved(Canon(items[0]), results)] + ResolveItems(rest, results).0;
      var b := [Resolved(items[0], results)] + ResolveItems(items[1..], results).0;
      assert a[1..] == ResolveItems(rest, results).0 && b[1..] == ResolveItems(items[1..], results).0;
    }
  }

  // ------------------------------------------------------------------ errors do not depend on the order of keys

  predicate Resolves(v: Value, results: Results) { Resolve(v, results).1 == [] }

  lemma {:induction false} FieldsResolve(fields: seq<Field>, results: Results)
    ensures ResolveFields(fields, results).1 == [] <==> forall f | f in fields :: Resolves(f.value, results)
  {
    if fields != [] {
      FieldsResolve(fields[1..], results);
      assert fields == [fields[0]] + fields[1..];
    }
  }

  lemma {:induction false} ItemsResolve(items: seq<Value>, results: Results)
    ensures ResolveItems(items, results).1 == [] <==> forall x | x in items :: Resolves(x, results)
  {
    if items != [] {
      hide Resolve;
      ItemsResolve(items[1..], results);
      assert items == [items[0]] + items[1..];
      assert (forall x | x in items :: Resolves(x, results))
          <==> Resolves(items[0], results) && forall x | x in items[1..] :: Resolves(x, results);
    }
  }

  lemma {:induction false} InsertHolds(f: Field, sorted: seq<Field>)
    ensures forall x :: x in InsertField(f, sorted) <==> x == f || x in sorted
  {
    if sorted != [] && KeyLess(sorted[0].key, f.key) {
      InsertHolds(f, sorted[1..]);
      assert sorted == [sorted[0]] + sorted[1..];
    }
  }

  lemma {:induction false} SortHolds(fields: seq<Field>)
    ensures forall x :: x in SortFields(fields) <==> x in fields
  {
    if fields != [] {
      SortHolds(fields[1..]);
      InsertHolds(fields[0], SortFields(fields[1..]));
      assert fields == [fields[0]] + fields[1..];
    }
  }

  lemma CompoundResolves(fields: seq<Field>, items: seq<Value>, results: Results)
    ensures Resolves(Obj(fields), results) <==> forall f | f in fields :: Resolves(f.value, results)
    ensures Resolves(Arr(items), results) <==> forall x | x in items :: Resolves(x, results)
  {
    FieldsResolve(fields, results);
    ItemsResolve(items, results);
  }

  lemma {:induction false} CanonResolves(v: Value, results: Results)
    ensures Resolves(Canon(v), results) <==> Resolves(v, results)
    decreases v
  {
    match v
    case Obj(fields) =>
      var canonical := MapFields(Canon, fields);
      hide Canon, SortFields, Resolves;
      CanonObject(fields);
      SortHolds(canonical);
      CompoundResolves(SortFields(canonical), [], results);
      CompoundResolves(fields, [], results);
      forall i | 0 <= i < |fields|
        ensures fields[i] in fields && canonical[i] in canonical
        ensures Resolves(canonical[i].value, results) <==> Resolves(fields[i].value, results)
      {
        CanonResolves(fields[i].value, results);
      }
    case Arr(items) =>
      hide Resolves;
      CanonEachItem(items);
      CompoundResolves([], CanonItems(items), results);
      CompoundResolves([], items, results);
      forall i | 0 <= i < |items|
        ensures items[i] in items && CanonItems(items)[i] in CanonItems(items)
        ensures Resolves(CanonItems(items)[i], results) <==> Resolves(items[i], results)
      {
        CanonResolves(items[i], results);
      }
    case _ =>
  }

  lemma {:induction false} CanonEachItem(items: seq<Value>)
    ensures |CanonItems(items)| == |items| && forall i | 0 <= i < |items| :: CanonItems(items)[i] == Canon(items[i])
  {
    hide Canon;
    if items != [] { CanonEachItem(items[1..]); }
  }

  // ------------------------------------------------------------------ canonical form

  ghost predicate Canonical(v: Value) {
    match v
    case Arr(items) => forall x | x in items :: Canonical(x)
    case Obj(fields) => SortedKeys(fields) && forall f | f in fields :: Canonical(f.value)
    case _ => true
  }

  lemma {:induction false} CanonIsCanonical(v: Value)
    ensures Canonical(Canon(v))
    decreases v
  {
    match v
    case Obj(fields) =>
      var canonical := MapFields(Canon, fields);
      hide Canon, SortFields;
      CanonObject(fields);
      SortHolds(canonical);
      SortSorts(canonical);
      forall i | 0 <= i < |fields| ensures Canonical(canonical[i].value) { CanonIsCanonical(fields[i].value); }
    case Arr(items) =>
      CanonEachItem(items);
      forall i | 0 <= i < |items| ensures Canonical(CanonItems(items)[i]) { CanonIsCanonical(items[i]); }
    case _ =>
  }

  lemma SortedMapStays(h: Value -> Value, fields: seq<Field>)
    requires SortedKeys(fields)
    ensures SortFields(MapFields(h, fields)) == MapFields(h, fields)
  {
    SortedFieldsStay(fields);
    SortMapped(h, fields);
  }

  lemma {:induction false} ItemsMapped(items: seq<Value>, results: Results)
    ensures |NumberItems(items)| == |items| == |ResolveItems(items, results).0|
    ensures forall i | 0 <= i < |items| ::
              NumberItems(items)[i] == AsNumbers(items[i]) && ResolveItems(items, results).0[i] == Resolved(items[i], results)
  {
    hide AsNumbers, Resolve;
    if items != [] { ItemsMapped(items[1..], results); }
  }

  /** Values that differ only in true for 1 still differ after their references are resolved. */
  lemma {:induction false} ResolvingKeepsApart(a: Value, b: Value, results: Results)
    requires Canonical(a) && Canonical(b) && AsNumbers(a) == AsNumbers(b)
    requires Canon(Resolved(a, results)) == Canon(Resolved(b, results))
    ensures a == b
    decreases a
  {
    match a
    case Obj(fields) =>
      var resolve := (x: Value) => Resolved(x, results);
      var others := b.fields;
      hide Canon, Resolve, AsNumbers;
      assert NumberFields(fields) == NumberFields(others) by { ObjNumbers(fields, b); }
      NumbersMapped(fields);
      NumbersMapped(others);
      ResolveObj(fields, results);
      ResolveObj(others, results);
      CanonObject(MapFields(resolve, fields));
      CanonObject(MapFields(resolve, others));
      SameKeysSorted(fields, MapFields(resolve, fields));
      SameKeysSorted(others, MapFields(resolve, others));
      SortedMapStays(Canon, MapFields(resolve, fields));
      SortedMapStays(Canon, MapFields(resolve, others));
      forall i | 0 <= i < |fields| ensures fields[i] == others[i] {
        assert MapFields(AsNumbers, fields)[i] == MapFields(AsNumbers, others)[i];
        assert MapFields(Canon, MapFields(resolve, fields))[i] == MapFields(Canon, MapFields(resolve, others))[i];
        assert fields[i] in fields && others[i] in others;
        ResolvingKeepsApart(fields[i].value, others[i].value, results);
      }
    case Arr(items) =>
      var others := b.items;
      ItemsMapped(items, results);
      ItemsMapped(others, results);
      CanonEachItem(ResolveItems(items, results).0);
      CanonEachItem(ResolveItems(others, results).0);
      forall i | 0 <= i < |items| ensures items[i] == others[i] {
        assert NumberItems(items)[i] == NumberItems(others)[i];
        assert CanonItems(ResolveItems(items, results).0)[i] == CanonItems(ResolveItems(others, results).0)[i];
        assert items[i] in items && others[i] in others;
        ResolvingKeepsApart(items[i], others[i], results);
      }
    case _ =>
  }

  lemma ObjNumbers(fields: seq<Field>, b: Value)
    requires AsNumbers(Obj(fields)) == AsNumbers(b)
    ensures b.Obj? && NumberFields(fields) == NumberFields(b.fields)
  {}

  lemma SameKeysSorted(a: seq<Field>, b: seq<Field>)
    requires SortedKeys(a) && |a| == |b| && forall i | 0 <= i < |a| :: a[i].key == b[i].key
    ensures SortedKeys(b)
  {
    forall i | 0 <= i < |b| - 1 ensures !KeyLess(b[i + 1].key, b[i].key) {
      assert a[i + 1].key == b[i + 1].key;
    }
  }

  /** Of two values that are equal in Python, the resolved ones have one canonical form exactly when the
      values themselves have. */
  lemma ResolvedAgreeExactly(a: Value, b: Value, results: Results)
    requires EqualInPython(a, b)
    ensures Canon(Resolved(a, results)) == Canon(Resolved(b, results)) <==> Canon(a) == Canon(b)
  {
    ResolveCanon(a, results);
    ResolveCanon(b, results);
    if Canon(Resolved(a, results)) == Canon(Resolved(b, results)) {
      CanonIsCanonical(a);
      CanonIsCanonical(b);
      ResolvingKeepsApart(Canon(a), Canon(b), results);
    }
  }

  // ------------------------------------------------------------------ what equality means, constructor by constructor

  lemma TrueIsOne(b: bool, n: int)
    ensures EqualInPython(Bool(b), Num(n)) <==> n == if b then 1 else 0
  {}

  lemma {:induction false} NumbersEachItem(items: seq<Value>)
    ensures |NumberItems(items)| == |items| && forall i | 0 <= i < |items| :: NumberItems(items)[i] == AsNumbers(items[i])
  {
    hide AsNumbers;
    if items != [] { NumbersEachItem(items[1..]); }
  }

  lemma ListsEqual(a: seq<Value>, b: seq<Value>)
    ensures EqualInPython(Arr(a), Arr(b)) <==> |a| == |b| && forall i | 0 <= i < |a| :: EqualInPython(a[i], b[i])
  {
    CanonEachItem(a);
    CanonEachItem(b);
    NumbersEachItem(CanonItems(a));
    NumbersEachItem(CanonItems(b));
    forall i | 0 <= i < |a| && i < |b|
      ensures EqualInPython(a[i], b[i]) <==> NumberItems(CanonItems(a))[i] == NumberItems(CanonItems(b))[i]
    {
    }
  }

  lemma {:induction false} InsertFinds(f: Field, sorted: seq<Field>, key: string)
    ensures FieldOf(InsertField(f, sorted), key) == if f.key == key then Some(f.value) else FieldOf(sorted, key)
  {
    if sorted != [] && KeyLess(sorted[0].key, f.key) {
      InsertFinds(f, sorted[1..], key);
      KeyLessOneWay(sorted[0].key, f.key);
      assert ([sorted[0]] + InsertField(f, sorted[1..]))[1..] == InsertField(f, sorted[1..]);
    } else {
      assert ([f] + sorted)[1..] == sorted;
    }
  }

  lemma {:induction false} SortFinds(fields: seq<Field>, key: string)
    ensures FieldOf(SortFields(fields), key) == FieldOf(fields, key)
  {
    if fields != [] {
      SortFinds(fields[1..], key);
      InsertFinds(fields[0], SortFields(fields[1..]), key);
    }
  }

  lemma {:induction false} MapFinds(h: Value -> Value, fields: seq<Field>, key: string)
    ensures FieldOf(MapFields(h, fields), key) == if FieldOf(fields, key).None? then None else Some(h(FieldOf(fields, key).value))
  {
    if fields != [] {
      MapFinds(h, fields[1..], key);
      assert MapFields(h, fields)[1..] == MapFields(h, fields[1..]);
    }
  }

  ghost predicate DistinctKeys(fields: seq<Field>) { forall i, j | 0 <= i < j < |fields| :: fields[i].key != fields[j].key }

  ghost predicate Ascending(fields: seq<Field>) { forall i, j | 0 <= i < j < |fields| :: KeyLess(fields[i].key, fields[j].key) }

  lemma {:induction false} KeysCompare(a: string, b: string)
    ensures a == b || KeyLess(a, b) || KeyLess(b, a)
  {
    if a != "" && b != "" && a[0] == b[0] {
      KeysCompare(a[1..], b[1..]);
      assert a == [a[0]] + a[1..] && b == [b[0]] + b[1..];
    }
  }

  lemma {:induction false} KeyLessChains(a: string, b: string, c: string)
    requires KeyLess(a, b) && KeyLess(b, c)
    ensures KeyLess(a, c)
  {
    if a != "" && a[0] == b[0] && b[0] == c[0] { KeyLessChains(a[1..], b[1..], c[1..]); }
  }

  lemma {:induction false} InsertAscends(f: Field, sorted: seq<Field>)
    requires Ascending(sorted) && forall x | x in sorted :: x.key != f.key
    ensures Ascending(InsertField(f, sorted))
  {
    if sorted == [] {
    } else if KeyLess(sorted[0].key, f.key) {
      var rest := sorted[1..];
      InsertAscends(f, rest);
      InsertHolds(f, rest);
      var r := InsertField(f, rest);
      forall i | 0 <= i < |r| ensures KeyLess(sorted[0].key, r[i].key) {
        assert r[i] in r;
      }
    } else {
      forall i | 0 <= i < |sorted| ensures KeyLess(f.key, sorted[i].key) {
        assert sorted[0] in sorted;
        KeysCompare(f.key, sorted[0].key);
        if i > 0 { KeyLessChains(f.key, sorted[0].key, sorted[i].key); }
      }
    }
  }

  lemma {:induction false} SortAscends(fields: seq<Field>)
    requires DistinctKeys(fields)
    ensures Ascending(SortFields(fields))
  {
    if fields != [] {
      SortAscends(fields[1..]);
      SortHolds(fields[1..]);
      InsertAscends(fields[0], SortFields(fields[1..]));
    }
  }

  ghost predicate SameLookups(a: seq<Field>, b: seq<Field>) { forall key :: FieldOf(a, key) == FieldOf(b, key) }

  lemma {:induction false} KeyIsThere(a: seq<Field>, key: string)
    ensures FieldOf(a, key).Some? <==> exists f :: f in a && f.key == key
  {
    if a != [] {
      KeyIsThere(a[1..], key);
      assert a == [a[0]] + a[1..];
    }
  }

  lemma HeadIsLeast(a: seq<Field>, key: string)
    requires Ascending(a) && a != [] && FieldOf(a, key).Some?
    ensures key == a[0].key || KeyLess(a[0].key, key)
  {
    KeyIsThere(a, key);
    var f :| f in a && f.key == key;
  }

  lemma FirstIsFound(b: seq<Field>)
    ensures b != [] ==> FieldOf(b, b[0].key) == Some(b[0].value)
  {}

  lemma {:induction false} LookupsDetermine(a: seq<Field>, b: seq<Field>)
    requires Ascending(a) && Ascending(b) && SameLookups(a, b)
    ensures a == b
  {
    if a == [] {
      FirstIsFound(b);
    } else {
      assert FieldOf(b, a[0].key) == FieldOf(a, a[0].key) == Some(a[0].value);
      assert b != [];
      assert FieldOf(a, b[0].key) == FieldOf(b, b[0].key) == Some(b[0].value);
      HeadIsLeast(a, b[0].key);
      HeadIsLeast(b, a[0].key);
      if a[0].key != b[0].key { KeyLessOneWay(a[0].key, b[0].key); }
      forall key ensures FieldOf(a[1..], key) == FieldOf(b[1..], key) {
        assert FieldOf(a, key) == FieldOf(b, key);
        if key == a[0].key {
          KeyIsThere(a[1..], key);
          KeyIsThere(b[1..], key);
          NotAgain(a);
          NotAgain(b);
        }
      }
      LookupsDetermine(a[1..], b[1..]);
      assert a == [a[0]] + a[1..] && b == [b[0]] + b[1..];
    }
  }

  lemma NotAgain(a: seq<Field>)
    requires Ascending(a) && a != []
    ensures forall f | f in a[1..] :: f.key != a[0].key
  {
    forall i | 1 <= i < |a| ensures a[i].key != a[0].key {
      if a[i].key == a[0].key { KeyLessOneWay(a[0].key, a[i].key); }
    }
  }

  function Found(fields: seq<Field>, key: string): Option<Value> {
    var v := FieldOf(fields, key); if v.None? then None else Some(AsNumbers(Canon(v.value)))
  }

  lemma NormalObject(fields: seq<Field>, key: string)
    ensures AsNumbers(Canon(Obj(fields))) == Obj(SortFields(MapFields(AsNumbers, MapFields(Canon, fields))))
    ensures FieldOf(SortFields(MapFields(AsNumbers, MapFields(Canon, fields))), key) == Found(fields, key)
  {
    hide Canon, SortFields, FieldOf;
    CanonObject(fields);
    var canonical := MapFields(Canon, fields);
    NumbersMapped(SortFields(canonical));
    SortMapped(AsNumbers, canonical);
    SortFinds(MapFields(AsNumbers, canonical), key);
    MapFinds(AsNumbers, canonical, key);
    MapFinds(Canon, fields, key);
  }

  predicate EqualUnder(key: string, a: seq<Field>, b: seq<Field>) {
    match (FieldOf(a, key), FieldOf(b, key))
    case (Some(v), Some(w)) => EqualInPython(v, w)
    case (None, None) => true
    case _ => false
  }

  /** Dictionaries are equal when they have the same keys and equal values under each: order plays no part. */
  lemma DictionariesEqual(a: seq<Field>, b: seq<Field>)
    requires DistinctKeys(a) && DistinctKeys(b)
    ensures EqualInPython(Obj(a), Obj(b)) <==>
      forall key :: EqualUnder(key, a, b)
  {
    hide Canon, SortFields, FieldOf, AsNumbers;
    var x, y := MapFields(AsNumbers, MapFields(Canon, a)), MapFields(AsNumbers, MapFields(Canon, b));
    assert DistinctKeys(x) && DistinctKeys(y);
    forall key ensures FieldOf(SortFields(x), key) == Found(a, key) && FieldOf(SortFields(y), key) == Found(b, key) {
      NormalObject(a, key);
      NormalObject(b, key);
    }
    NormalObject(a, "");
    NormalObject(b, "");
    SortAscends(x);
    SortAscends(y);
    if forall key :: Found(a, key) == Found(b, key) {
      assert SameLookups(SortFields(x), SortFields(y));
      LookupsDetermine(SortFields(x), SortFields(y));
    }
    assert EqualInPython(Obj(a), Obj(b)) <==> forall key :: Found(a, key) == Found(b, key);
    forall key ensures EqualUnder(key, a, b) <==> Found(a, key) == Found(b, key) {
    }
  }
}
