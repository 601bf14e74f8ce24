/** References between the calls of one plan: how they parse, what they find, how arguments resolve. */
module References {
  import opened Wrappers
  import opened Plans
  import Json

  datatype Parsed = Parsed(callId: string, path: seq<string>)

  function NonEmpty(part: string): seq<string> { if part == "" then [] else [part] }

  /** The pieces between dots; empty pieces vanish. */
  function Parts(s: string, current: string := ""): seq<string> {
    if s == "" then NonEmpty(current)
    else if s[0] == '.' then NonEmpty(current) + Parts(s[1..], "")
    else Parts(s[1..], current + [s[0]])
  }

  function Join(parts: seq<string>): string {
    if parts == [] then "" else if |parts| == 1 then parts[0] else parts[0] + "." + Join(parts[1..])
  }

  predicate IsReference(v: Json.Value) { v.Str? && v.s != "" && v.s[0] == '$' }

  function Parse(reference: string): Option<Parsed> {
    if reference == "" || reference[0] != '$' then None else
      var parts := Parts(reference[1..]);
      if |parts| < 2 then None else Some(Parsed(parts[0], parts[1..]))
  }

  predicate DotFree(part: string) { forall i | 0 <= i < |part| :: part[i] != '.' }

  predicate Plain(part: string) { part != "" && DotFree(part) }

  lemma {:induction false} PartsOfPlain(part: string, rest: string, current: string)
    requires DotFree(part)
    ensures Parts(part + rest, current) == Parts(rest, current + part)
  {
    if part == "" {
      assert part + rest == rest && current + part == current;
    } else {
      assert (part + rest)[1..] == part[1..] + rest;
      PartsOfPlain(part[1..], rest, current + [part[0]]);
      assert current + [part[0]] + part[1..] == current + part;
    }
  }

  function WithoutEmpty(pieces: seq<string>): seq<string> {
    if pieces == [] then [] else NonEmpty(pieces[0]) + WithoutEmpty(pieces[1..])
  }

  /** Splitting what was joined from dot-free pieces gives the pieces that are not empty. */
  lemma {:induction false} PartsOfJoin(pieces: seq<string>)
    requires pieces != [] && forall p | p in pieces :: DotFree(p)
    ensures Parts(Join(pieces)) == WithoutEmpty(pieces)
  {
    assert DotFree(pieces[0]);
    if |pieces| == 1 {
      PartsOfPlain(pieces[0], "", "");
      assert pieces[0] + "" == pieces[0] && "" + pieces[0] == pieces[0];
    } else {
      var rest := "." + Join(pieces[1..]);
      PartsOfPlain(pieces[0], rest, "");
      assert pieces[0] + rest == Join(pieces) && "" + pieces[0] == pieces[0] && rest[1..] == Join(pieces[1..]);
      PartsOfJoin(pieces[1..]);
    }
  }

  lemma {:induction false} PlainPiecesStay(pieces: seq<string>)
    requires forall p | p in pieces :: Plain(p)
    ensures WithoutEmpty(pieces) == pieces
  {
    if pieces != [] {
      assert Plain(pieces[0]);
      PlainPiecesStay(pieces[1..]);
    }
  }

  /** A reference reads as its pieces without the empty ones, if two or more are left. */
  lemma ParsePieces(pieces: seq<string>)
    requires pieces != [] && forall p | p in pieces :: DotFree(p)
    ensures var parts := WithoutEmpty(pieces);
      Parse("$" + Join(pieces)) == if |parts| < 2 then None else Some(Parsed(parts[0], parts[1..]))
  {
    PartsOfJoin(pieces);
    assert ("$" + Join(pieces))[1..] == Join(pieces);
  }

  /** A reference written from a call id and a path of plain parts reads back as exactly those. */
  lemma ParseWritten(callId: string, path: seq<string>)
    requires Plain(callId) && path != [] && forall p | p in path :: Plain(p)
    ensures Parse("$" + Join([callId] + path)) == Some(Parsed(callId, path))
  {
    forall p | p in [callId] + path ensures Plain(p) && DotFree(p) {}
    PlainPiecesStay([callId] + path);
    ParsePieces([callId] + path);
  }

  // ------------------------------------------------------------------ paths into a result

  function Lookup(v: Json.Value, path: seq<string>): Option<Json.Value>
    decreases |path|
  {
    if path == [] then Some(v)
    else if !v.Obj? || Json.FieldOf(v.fields, path[0]).None? then None
    else Lookup(Json.FieldOf(v.fields, path[0]).value, path[1..])
  }

  method LookupPath(v: Json.Value, path: seq<string>) returns (value: Json.Value, found: bool)
    ensures found <==> Lookup(v, path).Some?
    ensures value == if found then Lookup(v, path).value else Json.Null
  {
    var current := v;
    for i := 0 to |path|
      invariant Lookup(current, path[i..]) == Lookup(v, path)
    {
      assert path[i..][1..] == path[i + 1..];
      if !current.Obj? || Json.FieldOf(current.fields, path[i]).None? {
        return Json.Null, false;
      }
      current := Json.FieldOf(current.fields, path[i]).value;
    }
    return current, true;
  }

  // ------------------------------------------------------------------ references in arguments

  datatype ResolveError =
    | InvalidReference(reference: string)
    | TargetUnavailable(reference: string)
    | TargetFailed(callId: string)
    | PathNotFound(reference: string)

  type Results = map<string, ToolResult>

  function ResolveReference(reference: string, results: Results): (Json.Value, seq<ResolveError>) {
    var parsed := Parse(reference);
    if parsed.None? then (Json.Null, [InvalidReference(reference)])
    else if parsed.value.callId !in results then (Json.Null, [TargetUnavailable(reference)])
    else
      var result := results[parsed.value.callId];
      if result.status != Ok then (Json.Null, [TargetFailed(parsed.value.callId)])
      else
        var value := Lookup(Json.Obj(ResultFields(result)), parsed.value.path);
        if value.None? then (Json.Null, [PathNotFound(reference)]) else (value.value, [])
  }

  function Resolve(v: Json.Value, results: Results): (Json.Value, seq<ResolveError>) {
    if IsReference(v) then ResolveReference(v.s, results) else
      match v
      case Obj(fields) => var r := ResolveFields(fields, results); (Json.Obj(r.0), r.1)
      case Arr(items) => var r := ResolveItems(items, results); (Json.Arr(r.0), r.1)
      case _ => (v, [])
  }

  function ResolveFields(fields: seq<Json.Field>, results: Results): (seq<Json.Field>, seq<ResolveError>) {
    if fields == [] then ([], []) else
      var first := Resolve(fields[0].value, results);
      var rest := ResolveFields(fields[1..], results);
      ([Json.Field(fields[0].key, first.0)] + rest.0, first.1 + rest.1)
  }

  function ResolveItems(items: seq<Json.Value>, results: Results): (seq<Json.Value>, seq<ResolveError>) {
    if items == [] then ([], []) else
      var first := Resolve(items[0], results);
      var rest := ResolveItems(items[1..], results);
      ([first.0] + rest.0, first.1 + rest.1)
  }

  function FindReferences(v: Json.Value): seq<string> {
    if IsReference(v) then [v.s] else
      match v
      case Obj(fields) => FindInFields(fields)
      case Arr(items) => FindInItems(items)
      case _ => []
  }

  function FindInFields(fields: seq<Json.Field>): seq<string> {
    if fields == [] then [] else FindReferences(fields[0].value) + FindInFields(fields[1..])
  }

  function FindInItems(items: seq<Json.Value>): seq<string> {
    if items == [] then [] else FindReferences(items[0]) + FindInItems(items[1..])
  }

  // ------------------------------------------------------------------ resolving meets what finding found

  function ErrorsOf(references: seq<string>, results: Results): seq<ResolveError> {
    if references == [] then [] else
      ResolveReference(references[0], results).1 + ErrorsOf(references[1..], results)
  }

  lemma {:induction false} ErrorsOfConcat(a: seq<string>, b: seq<string>, results: Results)
    ensures ErrorsOf(a + b, results) == ErrorsOf(a, results) + ErrorsOf(b, results)
  {
    if a == [] {
      assert a + b == b;
    } else {
      assert (a + b)[1..] == a[1..] + b;
      ErrorsOfConcat(a[1..], b, results);
    }
  }

  /** The errors of resolving a value are those of the references found in it, one by one and in order. */
  lemma {:induction false} ResolveErrors(v: Json.Value, results: Results)
    ensures Resolve(v, results).1 == ErrorsOf(FindReferences(v), results)
    decreases v, 0
  {
    if !IsReference(v) {
      match v
      case Obj(fields) => ResolveFieldsErrors(fields, results);
      case Arr(items) => ResolveItemsErrors(items, results);
      case _ =>
    }
  }

  lemma {:induction false} ResolveFieldsErrors(fields: seq<Json.Field>, results: Results)
    ensures ResolveFields(fields, results).1 == ErrorsOf(FindInFields(fields), results)
    decreases fields, 1
  {
    if fields != [] {
      ResolveErrors(fields[0].value, results);
      ResolveFieldsErrors(fields[1..], results);
      ErrorsOfConcat(FindReferences(fields[0].value), FindInFields(fields[1..]), results);
    }
  }

  lemma {:induction false} ResolveItemsErrors(items: seq<Json.Value>, results: Results)
    ensures ResolveItems(items, results).1 == ErrorsOf(FindInItems(items), results)
    decreases items, 1
  {
    if items != [] {
      ResolveErrors(items[0], results);
      ResolveItemsErrors(items[1..], results);
      ErrorsOfConcat(FindReferences(items[0]), FindInItems(items[1..]), results);
    }
  }

  // ------------------------------------------------------------------ what a reference stands for

  /** The dictionary has this value under this key. */
  ghost predicate HasEntry(fields: seq<Json.Field>, key: string, v: Json.Value) {
    exists k | 0 <= k < |fields| :: fields[k] == Json.Field(key, v) && forall j | 0 <= j < k :: fields[j].key != key
  }

  /** A walk through nested dictionaries: each value after the first is what the one before has under the next part. */
  ghost predicate Walk(values: seq<Json.Value>, parts: seq<string>) {
    && |values| == |parts| + 1
    && forall i | 0 <= i < |parts| :: values[i].Obj? && HasEntry(values[i].fields, parts[i], values[i + 1])
  }

  /** What a tool result shows under each of its names. */
  ghost predicate Shows(r: ToolResult, name: string, v: Json.Value) {
    || (name == "tool_call_id" && v == Json.Str(r.callId))
    || (name == "tool" && v == Json.Str(r.tool))
    || (name == "status" && v == Json.Str(if r.status.Ok? then "ok" else "error"))
    || (name == "data" && v == r.data)
    || (name == "source" && v == r.source)
    || (name == "latency_ms" && v == Json.Num(r.latencyMs))
    || (name == "error" && v == if r.error.Some? then Json.Str(r.error.value) else Json.Null)
    || (name == "metadata" && v == r.metadata)
  }

  /** The end of a walk that starts at what the named call's result shows under the first part of the path. */
  ghost predicate EndOfWalk(r: ToolResult, path: seq<string>, v: Json.Value) {
    path != [] && exists values: seq<Json.Value> :: Walk(values, path[1..]) && Shows(r, path[0], values[0]) && values[|path| - 1] == v
  }

  /** The value a reference stands for once the calls before it have ended. */
  ghost predicate StandsFor(reference: string, results: Results, v: Json.Value) {
    var parsed := Parse(reference);
    parsed.Some? && parsed.value.callId in results && results[parsed.value.callId].status == Ok
    && EndOfWalk(results[parsed.value.callId], parsed.value.path, v)
  }

  lemma {:induction false} EntryFound(fields: seq<Json.Field>, key: string, v: Json.Value)
    ensures Json.FieldOf(fields, key) == Some(v) <==> HasEntry(fields, key, v)
  {
    if fields != [] {
      EntryFound(fields[1..], key, v);
      if fields[0].key == key {
        if HasEntry(fields, key, v) { assert fields[0].value == v; }
        if fields[0].value == v { assert fields[0] == Json.Field(key, v); }
      } else {
        if HasEntry(fields[1..], key, v) {
          var k :| 0 <= k < |fields[1..]| && fields[1..][k] == Json.Field(key, v) && forall j | 0 <= j < k :: fields[1..][j].key != key;
          assert forall j | 0 <= j < k + 1 :: fields[j].key != key by {
            assert forall j | 1 <= j < k + 1 :: fields[j] == fields[1..][j - 1];
          }
          assert fields[k + 1] == Json.Field(key, v);
        }
        if HasEntry(fields, key, v) {
          var k :| 0 <= k < |fields| && fields[k] == Json.Field(key, v) && forall j | 0 <= j < k :: fields[j].key != key;
          assert fields[1..][k - 1] == Json.Field(key, v);
          assert forall j | 0 <= j < k - 1 :: fields[1..][j] == fields[j + 1];
        }
      }
    }
  }

  lemma {:induction false} LookupWalks(v: Json.Value, parts: seq<string>, w: Json.Value)
    ensures Lookup(v, parts) == Some(w) <==> exists values: seq<Json.Value> :: Walk(values, parts) && values[0] == v && values[|parts|] == w
    decreases |parts|
  {
    hide HasEntry;
    if parts == [] {
      if v == w { assert Walk([v], parts); }
    } else {
      if Lookup(v, parts) == Some(w) {
        var inner := Json.FieldOf(v.fields, parts[0]).value;
        EntryFound(v.fields, parts[0], inner);
        LookupWalks(inner, parts[1..], w);
        var values: seq<Json.Value> :| Walk(values, parts[1..]) && values[0] == inner && values[|parts| - 1] == w;
        var whole := [v] + values;
        forall i | 0 <= i < |parts| ensures whole[i].Obj? && HasEntry(whole[i].fields, parts[i], whole[i + 1]) {
          if i > 0 { assert parts[i] == parts[1..][i - 1] && whole[i] == values[i - 1] && whole[i + 1] == values[i]; }
        }
        assert Walk(whole, parts) && whole[0] == v && whole[|parts|] == w;
      }
      if exists values: seq<Json.Value> :: Walk(values, parts) && values[0] == v && values[|parts|] == w {
        var values: seq<Json.Value> :| Walk(values, parts) && values[0] == v && values[|parts|] == w;
        EntryFound(v.fields, parts[0], values[1]);
        forall i | 0 <= i < |parts[1..]| ensures values[1..][i].Obj? && HasEntry(values[1..][i].fields, parts[1..][i], values[1..][i + 1]) {
          assert parts[1..][i] == parts[i + 1] && values[1..][i] == values[i + 1] && values[1..][i + 1] == values[i + 2];
        }
        assert Walk(values[1..], parts[1..]) && values[1..][0] == values[1] && values[1..][|parts| - 1] == w;
        LookupWalks(values[1], parts[1..], w);
      }
    }
  }

  lemma ResultShows(r: ToolResult, name: string, v: Json.Value)
    ensures Json.FieldOf(ResultFields(r), name) == Some(v) <==> Shows(r, name, v)
  {
    EntryFound(ResultFields(r), name, v);
    var fields := ResultFields(r);
    if Shows(r, name, v) {
      var k := if name == "tool_call_id" then 0 else if name == "tool" then 1 else if name == "status" then 2
        else if name == "data" then 3 else if name == "source" then 4 else if name == "latency_ms" then 5 else if name == "error" then 6 else 7;
      assert fields[k] == Json.Field(name, v) && forall j | 0 <= j < k :: fields[j].key != name;
    }
  }

  lemma WalkFromResult(r: ToolResult, path: seq<string>, v: Json.Value)
    requires path != []
    ensures Lookup(Json.Obj(ResultFields(r)), path) == Some(v) <==> EndOfWalk(r, path, v)
  {
    hide Shows, ResultFields, HasEntry;
    var first := Json.FieldOf(ResultFields(r), path[0]);
    forall w ensures Shows(r, path[0], w) <==> first == Some(w) { ResultShows(r, path[0], w); }
    if first.Some? {
      LookupWalks(first.value, path[1..], v);
      if Lookup(first.value, path[1..]) == Some(v) {
        var values: seq<Json.Value> :| Walk(values, path[1..]) && values[0] == first.value && values[|path| - 1] == v;
        assert Shows(r, path[0], values[0]);
      }
    }
  }

  /** Resolving gives a value without an error exactly when the reference stands for that value. */
  lemma ReferenceResolvesExactly(reference: string, results: Results, v: Json.Value)
    ensures ResolveReference(reference, results) == (v, []) <==> StandsFor(reference, results, v)
  {
    hide Lookup, ResultFields, Parts;
    var parsed := Parse(reference);
    if parsed.Some? && parsed.value.callId in results {
      WalkFromResult(results[parsed.value.callId], parsed.value.path, v);
    }
  }

  /** What a value becomes: references give way to what they stand for, keys, order and everything else stay. */
  ghost predicate Becomes(v: Json.Value, w: Json.Value, results: Results)
    decreases v, 0
  {
    if IsReference(v) then StandsFor(v.s, results, w) else
      match v
      case Obj(fields) => w.Obj? && FieldsBecome(fields, w.fields, results)
      case Arr(items) => w.Arr? && |w.items| == |items| && forall i | 0 <= i < |items| :: Becomes(items[i], w.items[i], results)
      case _ => w == v
  }

  ghost predicate FieldsBecome(fields: seq<Json.Field>, resolved: seq<Json.Field>, results: Results)
    decreases fields, 1
  {
    && |resolved| == |fields|
    && forall i | 0 <= i < |fields| :: resolved[i].key == fields[i].key && Becomes(fields[i].value, resolved[i].value, results)
  }

  /** Resolving goes through without an error exactly when there is a value it becomes, and gives that one. */
  lemma {:induction false} ResolvesExactly(v: Json.Value, w: Json.Value, results: Results)
    ensures Resolve(v, results) == (w, []) <==> Becomes(v, w, results)
    decreases v, 0
  {
    if IsReference(v) {
      ReferenceResolvesExactly(v.s, results, w);
    } else {
      match v
      case Obj(fields) => if w.Obj? { FieldsResolveExactly(fields, w.fields, results); }
      case Arr(items) => if w.Arr? { ItemsResolveExactly(items, w.items, results); }
      case _ =>
    }
  }

  lemma {:induction false} FieldsResolveExactly(fields: seq<Json.Field>, resolved: seq<Json.Field>, results: Results)
    ensures ResolveFields(fields, results) == (resolved, []) <==> FieldsBecome(fields, resolved, results)
    decreases fields, 1
  {
    hide Resolve, Becomes;
    if fields != [] && resolved != [] {
      ResolvesExactly(fields[0].value, resolved[0].value, results);
      FieldsResolveExactly(fields[1..], resolved[1..], results);
      assert FieldsBecome(fields, resolved, results) <==>
        resolved[0].key == fields[0].key && Becomes(fields[0].value, resolved[0].value, results) && FieldsBecome(fields[1..], resolved[1..], results) by
      {
        if FieldsBecome(fields[1..], resolved[1..], results) {
          assert forall i | 1 <= i < |fields| :: fields[i] == fields[1..][i - 1] && resolved[i] == resolved[1..][i - 1];
        }
      }
      var first, rest := Resolve(fields[0].value, results), ResolveFields(fields[1..], results);
      FieldsGrow(fields[0].key, first.0, rest.0, resolved);
      assert first.1 + rest.1 == [] <==> |first.1| + |rest.1| == 0;
    }
  }

  lemma FieldsGrow(key: string, v: Json.Value, rest: seq<Json.Field>, resolved: seq<Json.Field>)
    requires resolved != []
    ensures [Json.Field(key, v)] + rest == resolved <==> resolved[0] == Json.Field(key, v) && resolved[1..] == rest
  {
    assert resolved == [resolved[0]] + resolved[1..];
    assert ([Json.Field(key, v)] + rest)[1..] == rest;
  }

  lemma {:induction false} ItemsResolveExactly(items: seq<Json.Value>, resolved: seq<Json.Value>, results: Results)
    ensures ResolveItems(items, results) == (resolved, []) <==>
      |resolved| == |items| && forall i | 0 <= i < |items| :: Becomes(items[i], resolved[i], results)
    decreases items, 1
  {
    hide Resolve, Becomes;
    if items != [] && resolved != [] {
      ResolvesExactly(items[0], resolved[0], results);
      ItemsResolveExactly(items[1..], resolved[1..], results);
      var first, rest := Resolve(items[0], results), ResolveItems(items[1..], results);
      ItemsGrow(first.0, rest.0, resolved);
      assert first.1 + rest.1 == [] <==> |first.1| + |rest.1| == 0;
      if |resolved| == |items| { AllBecome(items, resolved, results); }
    }
  }

  lemma ItemsGrow(v: Json.Value, rest: seq<Json.Value>, resolved: seq<Json.Value>)
    requires resolved != []
    ensures [v] + rest == resolved <==> resolved[0] == v && resolved[1..] == rest
  {
    assert resolved == [resolved[0]] + resolved[1..];
    assert ([v] + rest)[1..] == rest;
  }

  /** The first becomes the first, and the others the others. */
  lemma AllBecome(items: seq<Json.Value>, resolved: seq<Json.Value>, results: Results)
    requires items != [] && |resolved| == |items|
    ensures (forall i | 0 <= i < |items| :: Becomes(items[i], resolved[i], results)) <==>
      Becomes(items[0], resolved[0], results) && forall i | 0 <= i < |items[1..]| :: Becomes(items[1..][i], resolved[1..][i], results)
  {
    hide Becomes;
    assert forall i | 0 <= i < |items[1..]| :: items[1..][i] == items[i + 1] && resolved[1..][i] == resolved[i + 1];
    if forall i | 0 <= i < |items[1..]| :: Becomes(items[1..][i], resolved[1..][i], results) {
      forall i | 1 <= i < |items| ensures Becomes(items[i], resolved[i], results) {
        assert items[1..][i - 1] == items[i] && resolved[1..][i - 1] == resolved[i];
      }
    }
  }

  /** A value without references stays what it is. */
  lemma {:induction false} NothingToResolve(v: Json.Value, results: Results)
    requires FindReferences(v) == []
    ensures Becomes(v, v, results)
    decreases v, 0
  {
    match v
    case Obj(fields) =>
      forall i | 0 <= i < |fields| ensures Becomes(fields[i].value, fields[i].value, results) {
        NoneFoundInField(fields, i);
        NothingToResolve(fields[i].value, results);
      }
    case Arr(items) =>
      forall i | 0 <= i < |items| ensures Becomes(items[i], items[i], results) {
        NoneFoundInItem(items, i);
        NothingToResolve(items[i], results);
      }
    case _ =>
  }

  lemma {:induction false} NoneFoundInField(fields: seq<Json.Field>, i: nat)
    requires FindInFields(fields) == [] && i < |fields|
    ensures FindReferences(fields[i].value) == []
  {
    if i > 0 { NoneFoundInField(fields[1..], i - 1); }
  }

  lemma {:induction false} NoneFoundInItem(items: seq<Json.Value>, i: nat)
    requires FindInItems(items) == [] && i < |items|
    ensures FindReferences(items[i]) == []
  {
    if i > 0 { NoneFoundInItem(items[1..], i - 1); }
  }

  ghost predicate Targets(references: seq<string>, ids: set<string>) {
    forall r | r in references :: Parse(r).Some? && Parse(r).value.callId in ids
  }

  /** When every reference parses and names a finished call, only a failed target or a missing
      path can go wrong. */
  lemma {:induction false} OnlyTargetErrors(references: seq<string>, results: Results)
    requires Targets(references, results.Keys)
    ensures forall e | e in ErrorsOf(references, results) :: e.TargetFailed? || e.PathNotFound?
  {
    if references != [] {
      OnlyTargetErrors(references[1..], results);
    }
  }
}
