/** The texts the Redis store keeps: canonical JSON of turns and request records, and the pattern rewrite a
    script uses to put the final turn index into them. */
module RedisModels {
  import opened Wrappers
  import opened Json

  // ------------------------------------------------------------------ canonical text of an envelope

  predicate PlainChar(c: char) { c as int >= 32 && c != '"' && c != '\\' }

  lemma {:induction false} EscapePlain(s: string)
    requires forall i | 0 <= i < |s| :: PlainChar(s[i])
    ensures Escape(s) == s
  {
    if s != "" {
      assert PlainChar(s[0]);
      EscapePlain(s[1..]);
      assert [s[0]] + s[1..] == s;
    }
  }

  lemma {:induction false} PrintFieldsSnoc(fields: seq<Field>, f: Field)
    ensures PrintFields(fields + [f]) == (if fields == [] then "" else PrintFields(fields) + ",") + PrintField(f)
  {
    hide PrintField;
    var all := fields + [f];
    if fields == [] {
      assert all == [f];
    } else {
      assert all[0] == fields[0] && all[1..] == fields[1..] + [f];
      PrintFieldsSnoc(fields[1..], f);
    }
  }

  function Envelope(data: seq<Field>, version: nat): Value {
    Obj([Field("data", Obj(data)), Field("schema_version", Num(version))])
  }

  const INDEX_KEY := "\"turn_index\":"

  function Tail(version: nat): string { "},\"schema_version\":" + PrintNat(version) + "}" }

  function Head(data: seq<Field>): string { "{\"data\":{" + PrintFields(CanonFields(data)) + "," }

  /** A stored text ends with its turn index and schema version; everything before is the body. */
  function TextOf(body: string, index: nat, version: nat): string { body + INDEX_KEY + PrintNat(index) + Tail(version) }

  function IndexField(index: nat): Field { Field("turn_index", Num(index)) }

  lemma PrintKey(key: string, v: Value)
    requires forall i | 0 <= i < |key| :: PlainChar(key[i])
    ensures PrintField(Field(key, v)) == "\"" + key + "\":" + Print(v)
  {
    hide Print;
    EscapePlain(key);
  }

  lemma CanonLast(data: seq<Field>, index: nat)
    ensures CanonFields(data + [IndexField(index)]) == CanonFields(data) + [IndexField(index)]
  {
    CanonEach(data);
    CanonEach(data + [IndexField(index)]);
  }

  lemma EnvelopeKeys(data: seq<Field>, version: nat)
    ensures SortedKeys(Envelope(data, version).fields)
  {}

  lemma CanonEnvelope(data: seq<Field>, version: nat)
    requires SortedKeys(data)
    ensures Canon(Envelope(data, version)) == Envelope(CanonFields(data), version)
  {
    var e := Envelope(data, version);
    EnvelopeKeys(data, version);
    CanonOfSorted(e.fields);
    CanonOfSorted(data);
    CanonEach(e.fields);
    assert Canon(Num(version)) == Num(version);
    assert CanonFields(e.fields) == Envelope(CanonFields(data), version).fields;
  }

  lemma PrintObj(fields: seq<Field>)
    ensures Print(Obj(fields)) == "{" + PrintFields(fields) + "}"
  {}

  lemma PrintNumber(n: nat)
    ensures Print(Num(n)) == PrintNat(n)
  {}

  lemma PrintPair(a: Field, b: Field)
    ensures PrintFields([a, b]) == PrintField(a) + "," + PrintField(b)
  {
    hide PrintField;
    assert [a, b][1..] == [b];
  }

  lemma PrintData(data: seq<Field>)
    ensures PrintField(Field("data", Obj(data))) == "\"data\":{" + PrintFields(data) + "}"
  {
    hide Print, PrintFields, PrintField;
    PrintKey("data", Obj(data));
    PrintObj(data);
    var fields := PrintFields(data);
    assert "\"" + "data" + "\":" + ("{" + fields + "}") == "\"data\":{" + fields + "}";
  }

  lemma PrintVersion(version: nat)
    ensures PrintField(Field("schema_version", Num(version))) == "\"schema_version\":" + PrintNat(version)
  {
    hide Print, PrintNat, PrintField;
    PrintKey("schema_version", Num(version));
    PrintNumber(version);
    assert "\"" + "schema_version" + "\":" == "\"schema_version\":";
  }

  lemma PrintEnvelope(data: seq<Field>, version: nat)
    ensures Print(Envelope(data, version)) == "{\"data\":{" + PrintFields(data) + Tail(version)
  {
    hide Print, PrintFields, PrintField, PrintNat;
    var d, v := Field("data", Obj(data)), Field("schema_version", Num(version));
    PrintData(data);
    PrintVersion(version);
    PrintPair(d, v);
    PrintObj([d, v]);
    JoinEnvelope(PrintFields(data), PrintNat(version));
  }

  lemma JoinEnvelope(fields: string, number: string)
    ensures "{" + (("\"data\":{" + fields + "}") + "," + ("\"schema_version\":" + number)) + "}"
            == "{\"data\":{" + fields + ("},\"schema_version\":" + number + "}")
  {
    var left := "{" + (("\"data\":{" + fields + "}") + "," + ("\"schema_version\":" + number)) + "}";
    var a: string, b: string := "{\"data\":{", "},\"schema_version\":";
    assert "{" + "\"data\":{" == a && "}" + "," + "\"schema_version\":" == b;
    assert left == a + fields + (b + number + "}");
  }

  lemma PrintIndex(index: nat)
    ensures PrintField(IndexField(index)) == INDEX_KEY + PrintNat(index)
  {
    hide Print, PrintNat, PrintField;
    PrintKey("turn_index", Num(index));
    PrintNumber(index);
    assert "\"" + "turn_index" + "\":" == INDEX_KEY;
  }

  /** The canonical text of an envelope whose last key is the turn index. */
  lemma EnvelopeText(data: seq<Field>, index: nat, version: nat)
    requires data != [] && SortedKeys(data + [IndexField(index)])
    ensures CanonicalJson(Envelope(data + [IndexField(index)], version)) == TextOf(Head(data), index, version)
  {
    hide Print, PrintFields, PrintField, PrintNat, Canon, CanonFields, SortedKeys, Tail, Envelope, IndexField;
    var all := data + [IndexField(index)];
    CanonEnvelope(all, version);
    CanonLast(data, index);
    PrintEnvelope(CanonFields(all), version);
    CanonLength(data);
    PrintFieldsSnoc(CanonFields(data), IndexField(index));
    PrintIndex(index);
    var fields, number, tail := PrintFields(CanonFields(data)), PrintNat(index), Tail(version);
    assert "{\"data\":{" + (fields + "," + (INDEX_KEY + number)) + tail == "{\"data\":{" + fields + "," + INDEX_KEY + number + tail;
  }

  lemma CanonLength(data: seq<Field>)
    ensures |CanonFields(data)| == |data|
  {
    CanonEach(data);
  }

  // ------------------------------------------------------------------ the rewrite

  /** The script's pattern at a position: the index key, one or more digits, the tail, the end. */
  predicate MatchesAt(s: string, i: nat, tail: string) {
    && i + |INDEX_KEY| + |tail| < |s|
    && s[i..i + |INDEX_KEY|] == INDEX_KEY
    && s[|s| - |tail|..] == tail
    && forall k | i + |INDEX_KEY| <= k < |s| - |tail| :: IsDigit(s[k])
  }

  /** Leftmost match from a position on, as string.gsub finds it. */
  function FindMatch(s: string, i: nat, tail: string): (r: Option<nat>)
    ensures r.Some? ==> i <= r.value && MatchesAt(s, r.value, tail) && forall k | i <= k < r.value :: !MatchesAt(s, k, tail)
    ensures r.None? ==> forall k | i <= k :: !MatchesAt(s, k, tail)
    decreases |s| - i
  {
    if i >= |s| then None else if MatchesAt(s, i, tail) then Some(i) else FindMatch(s, i + 1, tail)
  }

  /** string.gsub with a count of one: the new text and how many places changed. */
  function RewriteIndex(s: string, index: nat, version: nat): (string, nat) {
    var at := FindMatch(s, 0, Tail(version));
    if at.None? then (s, 0) else (s[..at.value] + INDEX_KEY + PrintNat(index) + Tail(version), 1)
  }

  lemma OneMatch(s: string, i: nat, j: nat, tail: string)
    requires MatchesAt(s, i, tail) && MatchesAt(s, j, tail)
    ensures i == j
  {
    StartsWithQuoteT(s, i, tail);
    StartsWithQuoteT(s, j, tail);
    if i < j { NoLaterQuoteT(s, i, j, tail); } else if j < i { NoLaterQuoteT(s, j, i, tail); }
  }

  lemma StartsWithQuoteT(s: string, i: nat, tail: string)
    requires MatchesAt(s, i, tail)
    ensures s[i] == '"' && s[i + 1] == 't'
  {
    assert s[i] == s[i..i + |INDEX_KEY|][0] && s[i + 1] == s[i..i + |INDEX_KEY|][1];
  }

  /** After the start of a match no later place begins like one: the key does not repeat its beginning, and
      digits follow. */
  lemma NoLaterQuoteT(s: string, i: nat, j: nat, tail: string)
    requires MatchesAt(s, i, tail) && i < j && j + |INDEX_KEY| + |tail| < |s|
    ensures s[j] != '"' || s[j + 1] != 't'
  {
    if j < i + |INDEX_KEY| { assert s[j] == s[i..i + |INDEX_KEY|][j - i]; }
    if j + 1 < i + |INDEX_KEY| { assert s[j + 1] == s[i..i + |INDEX_KEY|][j + 1 - i]; }
    assert |INDEX_KEY| == 13 && INDEX_KEY[11] == '"' && INDEX_KEY[12] == ':';
  }

  lemma TextMatches(body: string, index: nat, version: nat)
    ensures MatchesAt(TextOf(body, index, version), |body|, Tail(version))
    ensures TextOf(body, index, version)[..|body|] == body
  {
    var digits, tail, s := PrintNat(index), Tail(version), TextOf(body, index, version);
    assert forall i | 0 <= i < |digits| :: IsDigit(digits[i]);
    hide PrintNat, Tail;
    assert s == body + INDEX_KEY + digits + tail;
    assert s[|body|..|body| + |INDEX_KEY|] == INDEX_KEY && s[|s| - |tail|..] == tail;
    assert forall k | |body| + |INDEX_KEY| <= k < |s| - |tail| :: s[k] == digits[k - |body| - |INDEX_KEY|];
  }

  /** Rewriting the index inside the text is the same as having written the text with that index: exactly
      one place changes. */
  lemma RewriteIsReserialize(body: string, old_: nat, index: nat, version: nat)
    ensures RewriteIndex(TextOf(body, old_, version), index, version) == (TextOf(body, index, version), 1)
  {
    var s, tail := TextOf(body, old_, version), Tail(version);
    TextMatches(body, old_, version);
    var at := FindMatch(s, 0, tail);
    assert at.Some?;
    OneMatch(s, at.value, |body|, tail);
  }

  function DigitsAt(s: string, i: nat, tail: string): (digits: string)
    requires MatchesAt(s, i, tail)
    ensures forall k | 0 <= k < |digits| :: IsDigit(digits[k])
  {
    s[i + |INDEX_KEY|..|s| - |tail|]
  }

  /** Reading the body and index back from a text. */
  function SplitText(s: string, version: nat): Option<(string, nat)> {
    var at := FindMatch(s, 0, Tail(version));
    if at.None? then None else Some((s[..at.value], NatOf(DigitsAt(s, at.value, Tail(version)))))
  }

  lemma SplitOfText(body: string, index: nat, version: nat)
    ensures SplitText(TextOf(body, index, version), version) == Some((body, index))
  {
    var s, tail := TextOf(body, index, version), Tail(version);
    TextMatches(body, index, version);
    var at := FindMatch(s, 0, tail);
    assert at.Some?;
    OneMatch(s, at.value, |body|, tail);
    NatOfPrint(index);
    assert s[|body| + |INDEX_KEY|..|s| - |tail|] == PrintNat(index);
  }

  // ------------------------------------------------------------------ turns

  const TURN_VERSION: nat := 2
  const RECORD_VERSION: nat := 1

  datatype StoredTurn = StoredTurn(
    index: nat, query: string, status: string, responseType: Option<string>, intent: Option<string>,
    contextScope: seq<Field>, missingFields: seq<string>, responseSummary: string)

  function OptStr(s: Option<string>): Value { if s.None? then Null else Str(s.value) }

  function Strs(strings: seq<string>): seq<Value> {
    if strings == [] then [] else [Str(strings[0])] + Strs(strings[1..])
  }

  function TurnBody(t: StoredTurn): seq<Field> {
    [Field("context_scope", Obj(t.contextScope)), Field("intent", OptStr(t.intent)), Field("missing_fields", Arr(Strs(t.missingFields))),
     Field("query", Str(t.query)), Field("response_summary", Str(t.responseSummary)), Field("response_type", OptStr(t.responseType)),
     Field("status", Str(t.status))]
  }

  function TurnValue(t: StoredTurn): Value { Envelope(TurnBody(t) + [IndexField(t.index)], TURN_VERSION) }

  function SerializeTurn(t: StoredTurn): string { CanonicalJson(TurnValue(t)) }

  /** Comparing keys that start alike. */
  lemma {:induction false} CommonPrefix(p: string, a: string, b: string)
    ensures KeyLess(p + a, p + b) == KeyLess(a, b)
  {
    if p == "" {
      assert p + a == a && p + b == b;
    } else {
      assert (p + a)[1..] == p[1..] + a && (p + b)[1..] == p[1..] + b;
      CommonPrefix(p[1..], a, b);
    }
  }

  /** Keys that differ first after a common beginning are ordered by the characters that follow. */
  lemma InOrder(p: string, a: string, b: string)
    requires a != "" && b != "" && a[0] < b[0]
    ensures !KeyLess(p + b, p + a)
  {
    CommonPrefix(p, b, a);
  }

  lemma Ordered(a: string, b: string)
    requires a != "" && b != "" && a[0] < b[0]
    ensures !KeyLess(b, a)
  {}

  lemma TurnKeysSorted(t: StoredTurn)
    ensures SortedKeys(TurnBody(t) + [IndexField(t.index)])
  {
    hide KeyLess, OptStr, Strs;
    Ordered("context_scope", "intent");
    Ordered("intent", "missing_fields");
    Ordered("missing_fields", "query");
    Ordered("query", "response_summary");
    InOrder("response_", "summary", "type");
    assert "response_" + "type" == "response_type" && "response_" + "summary" == "response_summary";
    Ordered("response_type", "status");
    Ordered("status", "turn_index");
  }

  lemma TurnText(t: StoredTurn)
    ensures SerializeTurn(t) == TextOf(Head(TurnBody(t)), t.index, TURN_VERSION)
  {
    hide SortedKeys;
    TurnKeysSorted(t);
    EnvelopeText(TurnBody(t), t.index, TURN_VERSION);
  }

  /** The append and complete scripts' rewrite of a serialized turn is the serialized turn with the new index,
      so exactly one place changes. */
  lemma RewrittenTurn(t: StoredTurn, index: nat)
    ensures RewriteIndex(SerializeTurn(t), index, TURN_VERSION) == (SerializeTurn(t.(index := index)), 1)
  {
    hide RewriteIndex, Head, TextOf;
    TurnText(t);
    TurnText(t.(index := index));
    assert TurnBody(t.(index := index)) == TurnBody(t);
    RewriteIsReserialize(Head(TurnBody(t)), t.index, index, TURN_VERSION);
  }

  // ------------------------------------------------------------------ request records

  datatype RecordStatus = InProgress | Completed | Failed

  function StatusText(s: RecordStatus): string {
    match s case InProgress => "in_progress" case Completed => "completed" case Failed => "failed"
  }

  datatype StoredRecord = StoredRecord(
    request: nat, payload: string, status: RecordStatus, owner: nat, run: Option<string>,
    response: Option<seq<Field>>, turnIndex: Option<nat>, started: string, completed: Option<string>, expires: nat)

  /** Identifiers and expiry times are written as text. */
  function IdText(id: nat): Value { Str(PrintNat(id)) }

  function RecordBody(r: StoredRecord): seq<Field> {
    [Field("cached_public_response", if r.response.None? then Null else Obj(r.response.value)),
     Field("completed_at", OptStr(r.completed)), Field("expires_at", IdText(r.expires)), Field("owner_token", IdText(r.owner)),
     Field("payload_hash", Str(r.payload)), Field("request_id", IdText(r.request)), Field("run_id", OptStr(r.run)),
     Field("started_at", Str(r.started)), Field("status", Str(StatusText(r.status)))]
  }

  function TurnIndexField(index: Option<nat>): Field {
    Field("turn_index", if index.None? then Null else Num(index.value))
  }

  function RecordValue(r: StoredRecord): Value { Envelope(RecordBody(r) + [TurnIndexField(r.turnIndex)], RECORD_VERSION) }

  function SerializeRecord(r: StoredRecord): string { CanonicalJson(RecordValue(r)) }

  lemma RecordKeysSorted(r: StoredRecord)
    ensures SortedKeys(RecordBody(r) + [TurnIndexField(r.turnIndex)])
  {
    hide KeyLess, OptStr, IdText, StatusText;
    InOrder("c", "ached_public_response", "ompleted_at");
    assert "c" + "ached_public_response" == "cached_public_response" && "c" + "ompleted_at" == "completed_at";
    Ordered("completed_at", "expires_at");
    Ordered("expires_at", "owner_token");
    Ordered("owner_token", "payload_hash");
    Ordered("payload_hash", "request_id");
    InOrder("r", "equest_id", "un_id");
    assert "r" + "equest_id" == "request_id" && "r" + "un_id" == "run_id";
    Ordered("run_id", "started_at");
    InOrder("sta", "rted_at", "tus");
    assert "sta" + "tus" == "status" && "sta" + "rted_at" == "started_at";
    Ordered("status", "turn_index");
  }

  /** The complete script's literal rewrite: it puts the index where the record has a zero. */
  function RewriteZero(s: string, index: nat): (string, nat) {
    var zero := INDEX_KEY + "0" + Tail(RECORD_VERSION);
    if |s| < |zero| || s[|s| - |zero|..] != zero then (s, 0)
    else (s[..|s| - |zero|] + INDEX_KEY + PrintNat(index) + Tail(RECORD_VERSION), 1)
  }

  lemma RecordText(r: StoredRecord)
    requires r.turnIndex.Some?
    ensures SerializeRecord(r) == TextOf(Head(RecordBody(r)), r.turnIndex.value, RECORD_VERSION)
  {
    hide SortedKeys;
    RecordKeysSorted(r);
    EnvelopeText(RecordBody(r), r.turnIndex.value, RECORD_VERSION);
  }

  lemma RewriteZeroOfText(body: string, index: nat)
    ensures RewriteZero(TextOf(body, 0, RECORD_VERSION), index) == (TextOf(body, index, RECORD_VERSION), 1)
  {
    var zero, s := INDEX_KEY + "0" + Tail(RECORD_VERSION), TextOf(body, 0, RECORD_VERSION);
    assert PrintNat(0) == "0";
    assert s == body + zero;
    assert s[|s| - |zero|..] == zero && s[..|s| - |zero|] == body;
  }

  /** A completed record is written with index zero; its rewrite is the record with the final index. */
  lemma RewrittenRecord(r: StoredRecord, index: nat)
    requires r.turnIndex == Some(0)
    ensures RewriteZero(SerializeRecord(r), index) == (SerializeRecord(r.(turnIndex := Some(index))), 1)
  {
    hide RewriteZero, Head, TextOf;
    RecordText(r);
    RecordText(r.(turnIndex := Some(index)));
    assert RecordBody(r.(turnIndex := Some(index))) == RecordBody(r);
    RewriteZeroOfText(Head(RecordBody(r)), index);
  }
}
