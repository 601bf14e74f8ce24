/** Reading the stored texts back: strict typed decoding, and that it inverts the serializers up to the key
    order of the dictionaries inside. */
module RedisDecoding {
  import opened Wrappers
  import opened Json
  import opened RedisModels

  // ------------------------------------------------------------------ typed access

  function StrAt(fields: seq<Field>, key: string): Option<string> {
    var v := FieldOf(fields, key);
    if v.Some? && v.value.Str? then Some(v.value.s) else None
  }

  function OptStrAt(fields: seq<Field>, key: string): Option<Option<string>> {
    var v := FieldOf(fields, key);
    if v.None? || v.value.Null? then Some(None)
    else if v.value.Str? then Some(Some(v.value.s))
    else None
  }

  predicate AllDigits(s: string) { s != "" && forall i | 0 <= i < |s| :: IsDigit(s[i]) }

  function IdAt(fields: seq<Field>, key: string): Option<nat> {
    var s := StrAt(fields, key);
    if s.Some? && AllDigits(s.value) then Some(NatOf(s.value)) else None
  }

  function NatAt(fields: seq<Field>, key: string): Option<nat> {
    var v := FieldOf(fields, key);
    if v.Some? && v.value.Num? && v.value.n >= 0 then Some(v.value.n) else None
  }

  function OptNatAt(fields: seq<Field>, key: string): Option<Option<nat>> {
    var v := FieldOf(fields, key);
    if v.None? || v.value.Null? then Some(None)
    else if v.value.Num? && v.value.n >= 0 then Some(Some(v.value.n))
    else None
  }

  function OptObjAt(fields: seq<Field>, key: string): Option<Option<seq<Field>>> {
    var v := FieldOf(fields, key);
    if v.None? || v.value.Null? then Some(None)
    else if v.value.Obj? then Some(Some(v.value.fields))
    else None
  }

  predicate OnlyKeys(fields: seq<Field>, keys: seq<string>) { forall i | 0 <= i < |fields| :: fields[i].key in keys }

  /** The data of an envelope of the expected version, with no key but the known ones. */
  function DataOf(text: string, version: nat, keys: seq<string>): Option<seq<Field>> {
    var v := Read(text);
    if v.None? || !v.value.Obj? || !OnlyKeys(v.value.fields, ["data", "schema_version"]) then None else
      var data := FieldOf(v.value.fields, "data");
      if FieldOf(v.value.fields, "schema_version") != Some(Num(version)) || data.None? || !data.value.Obj? then None
      else if !OnlyKeys(data.value.fields, keys) then None
      else Some(data.value.fields)
  }

  // ------------------------------------------------------------------ keys by position

  ghost predicate KeysAre(fields: seq<Field>, keys: seq<string>) {
    |fields| == |keys| && forall i | 0 <= i < |fields| :: fields[i].key == keys[i]
  }

  /** First character and length tell the keys of one object apart. */
  ghost predicate Distinguishable(keys: seq<string>) {
    forall i, j | 0 <= i < j < |keys| :: |keys[i]| > 0 && |keys[j]| > 0 && (|keys[i]| != |keys[j]| || keys[i][0] != keys[j][0])
  }

  lemma {:induction false} FieldAtIndex(fields: seq<Field>, i: nat)
    requires i < |fields| && forall j | 0 <= j < i :: fields[j].key != fields[i].key
    ensures FieldOf(fields, fields[i].key) == Some(fields[i].value)
  {
    if i > 0 { FieldAtIndex(fields[1..], i - 1); }
  }

  /** Every key of a canonical object gives the canonical value. */
  lemma CanonicalField(fields: seq<Field>, keys: seq<string>, i: nat)
    requires KeysAre(fields, keys) && Distinguishable(keys) && i < |keys|
    ensures FieldOf(CanonFields(fields), keys[i]) == Some(Canon(fields[i].value))
  {
    CanonEach(fields);
    var canon := CanonFields(fields);
    forall j | 0 <= j < i ensures canon[j].key != canon[i].key {
      assert |keys[j]| != |keys[i]| || keys[j][0] != keys[i][0];
    }
    FieldAtIndex(canon, i);
  }

  lemma CanonKeys(fields: seq<Field>, keys: seq<string>)
    requires KeysAre(fields, keys)
    ensures KeysAre(CanonFields(fields), keys) && OnlyKeys(CanonFields(fields), keys)
  {
    CanonEach(fields);
  }

  lemma EnvelopeData(fields: seq<Field>, version: nat, keys: seq<string>)
    requires SortedKeys(fields) && KeysAre(fields, keys)
    ensures DataOf(CanonicalJson(Envelope(fields, version)), version, keys) == Some(CanonFields(fields))
  {
    CanonEnvelope(fields, version);
    CanonKeys(fields, keys);
    var e := Envelope(CanonFields(fields), version);
    RoundTrip(e);
    EnvelopeLookups(CanonFields(fields), version);
    hide CanonFields, Print, Read;
  }

  lemma EnvelopeLookups(data: seq<Field>, version: nat)
    ensures var e := Envelope(data, version).fields;
      && OnlyKeys(e, ["data", "schema_version"])
      && FieldOf(e, "data") == Some(Obj(data)) && FieldOf(e, "schema_version") == Some(Num(version))
  {
    var e := Envelope(data, version).fields;
    assert |e[0].key| == 4 && |e[1].key| == 14;
    FieldAtIndex(e, 0);
    FieldAtIndex(e, 1);
  }

  // ------------------------------------------------------------------ request records

  const RECORD_KEYS: seq<string> :=
    ["cached_public_response", "completed_at", "expires_at", "owner_token", "payload_hash", "request_id", "run_id",
     "started_at", "status", "turn_index"]

  function StatusOf(s: string): Option<RecordStatus> {
    if s == "in_progress" then Some(InProgress) else if s == "completed" then Some(Completed)
    else if s == "failed" then Some(Failed) else None
  }

  function RecordOf(f: seq<Field>): Option<StoredRecord> {
    var response, completed, expires := OptObjAt(f, RECORD_KEYS[0]), OptStrAt(f, RECORD_KEYS[1]), IdAt(f, RECORD_KEYS[2]);
    var owner, payload, request := IdAt(f, RECORD_KEYS[3]), StrAt(f, RECORD_KEYS[4]), IdAt(f, RECORD_KEYS[5]);
    var run, started, status := OptStrAt(f, RECORD_KEYS[6]), StrAt(f, RECORD_KEYS[7]), StrAt(f, RECORD_KEYS[8]);
    var turnIndex := OptNatAt(f, RECORD_KEYS[9]);
    if response.None? || completed.None? || expires.None? || owner.None? || payload.None? || request.None? || run.None?
       || started.None? || status.None? || turnIndex.None? || StatusOf(status.value).None? then None
    else Some(StoredRecord(request.value, payload.value, StatusOf(status.value).value, owner.value, run.value, response.value,
                           turnIndex.value, started.value, completed.value, expires.value))
  }

  function DeserializeRecord(text: string): Option<StoredRecord> {
    var data := DataOf(text, RECORD_VERSION, RECORD_KEYS);
    if data.None? then None else RecordOf(data.value)
  }

  /** The response dictionary comes back with its keys in canonical order. */
  function Canonical(r: StoredRecord): StoredRecord {
    r.(response := if r.response.None? then None else Some(SortFields(CanonFields(r.response.value))))
  }

  lemma RecordKeysDistinguishable()
    ensures Distinguishable(RECORD_KEYS)
  {
    var k := RECORD_KEYS;
    assert |k| == 10;
    assert |k[0]| == 22 && |k[1]| == 12 && |k[2]| == 10 && |k[3]| == 11 && |k[4]| == 12;
    assert |k[5]| == 10 && |k[6]| == 6 && |k[7]| == 10 && |k[8]| == 6 && |k[9]| == 10;
    assert k[0][0] == 'c' && k[1][0] == 'c' && k[2][0] == 'e' && k[3][0] == 'o' && k[4][0] == 'p';
    assert k[5][0] == 'r' && k[6][0] == 'r' && k[7][0] == 's' && k[8][0] == 's' && k[9][0] == 't';
  }

  lemma RecordKeyNames(r: StoredRecord)
    ensures KeysAre(RecordBody(r) + [TurnIndexField(r.turnIndex)], RECORD_KEYS)
  {
    hide OptStr, IdText, StatusText;
  }

  lemma DigitsRead(n: nat)
    ensures AllDigits(PrintNat(n)) && NatOf(PrintNat(n)) == n
  {
    NatOfPrint(n);
  }

  lemma StatusRead(s: RecordStatus)
    ensures StatusOf(StatusText(s)) == Some(s)
  {}

  /** Decoding a serialized record gives the record back. */
  lemma RecordRoundTrip(r: StoredRecord)
    ensures DeserializeRecord(SerializeRecord(r)) == Some(Canonical(r))
  {
    hide SortedKeys, KeysAre, Distinguishable, DataOf, StatusOf, StatusText, PrintNat, FieldOf, CanonFields, SortFields, RECORD_KEYS;
    var fields := RecordBody(r) + [TurnIndexField(r.turnIndex)];
    RecordKeysSorted(r);
    RecordKeyNames(r);
    RecordKeysDistinguishable();
    EnvelopeData(fields, RECORD_VERSION, RECORD_KEYS);
    RecordKeyCount();
    forall i: nat | i < 10 ensures FieldOf(CanonFields(fields), RECORD_KEYS[i]) == Some(Canon(fields[i].value)) {
      CanonicalField(fields, RECORD_KEYS, i);
    }
    DigitsRead(r.owner);
    DigitsRead(r.request);
    DigitsRead(r.expires);
    StatusRead(r.status);
    RecordOfCanon(r, CanonFields(fields));
  }

  lemma RecordKeyCount()
    ensures |RECORD_KEYS| == 10
  {}

  lemma RecordOfCanon(r: StoredRecord, f: seq<Field>)
    requires |RECORD_KEYS| == 10
    requires forall i: nat | i < 10 :: FieldOf(f, RECORD_KEYS[i]) == Some(Canon((RecordBody(r) + [TurnIndexField(r.turnIndex)])[i].value))
    ensures RecordOf(f) == Some(Canonical(r))
  {
    hide FieldOf, CanonFields, SortFields, RECORD_KEYS, StatusOf, StatusText, PrintNat, NatOf, AllDigits;
    DigitsRead(r.owner);
    DigitsRead(r.request);
    DigitsRead(r.expires);
    StatusRead(r.status);
    var body := RecordBody(r) + [TurnIndexField(r.turnIndex)];
    assert FieldOf(f, RECORD_KEYS[0]) == Some(Canon(body[0].value)) && FieldOf(f, RECORD_KEYS[1]) == Some(Canon(body[1].value));
    assert FieldOf(f, RECORD_KEYS[2]) == Some(Canon(body[2].value)) && FieldOf(f, RECORD_KEYS[3]) == Some(Canon(body[3].value));
    assert FieldOf(f, RECORD_KEYS[4]) == Some(Canon(body[4].value)) && FieldOf(f, RECORD_KEYS[5]) == Some(Canon(body[5].value));
    assert FieldOf(f, RECORD_KEYS[6]) == Some(Canon(body[6].value)) && FieldOf(f, RECORD_KEYS[7]) == Some(Canon(body[7].value));
    assert FieldOf(f, RECORD_KEYS[8]) == Some(Canon(body[8].value)) && FieldOf(f, RECORD_KEYS[9]) == Some(Canon(body[9].value));
  }

  // ------------------------------------------------------------------ turns

  const TURN_KEYS: seq<string> :=
    ["context_scope", "intent", "missing_fields", "query", "response_summary", "response_type", "status", "turn_index"]

  function StringsOf(items: seq<Value>): Option<seq<string>> {
    if items == [] then Some([])
    else if !items[0].Str? || StringsOf(items[1..]).None? then None
    else Some([items[0].s] + StringsOf(items[1..]).value)
  }

  function ObjAt(fields: seq<Field>, key: string): Option<seq<Field>> {
    var v := FieldOf(fields, key);
    if v.Some? && v.value.Obj? then Some(v.value.fields) else None
  }

  function StringsAt(fields: seq<Field>, key: string): Option<seq<string>> {
    var v := FieldOf(fields, key);
    if v.Some? && v.value.Arr? then StringsOf(v.value.items) else None
  }

  const TURN_STATUSES: set<string> :=
    {"ok", "clarification_required", "insufficient_context", "insufficient_tools", "insufficient_evidence", "error"}

  function TurnOf(f: seq<Field>): Option<StoredTurn> {
    var scope, intent, missing, query := ObjAt(f, TURN_KEYS[0]), OptStrAt(f, TURN_KEYS[1]), StringsAt(f, TURN_KEYS[2]), StrAt(f, TURN_KEYS[3]);
    var summary, responseType, status, index := StrAt(f, TURN_KEYS[4]), OptStrAt(f, TURN_KEYS[5]), StrAt(f, TURN_KEYS[6]), NatAt(f, TURN_KEYS[7]);
    if scope.None? || intent.None? || missing.None? || query.None? || summary.None? || responseType.None? || status.None? || index.None?
       || status.value !in TURN_STATUSES then None
    else Some(StoredTurn(index.value, query.value, status.value, responseType.value, intent.value, scope.value, missing.value, summary.value))
  }

  function DeserializeTurn(text: string): Option<StoredTurn> {
    var data := DataOf(text, TURN_VERSION, TURN_KEYS);
    if data.None? then None else TurnOf(data.value)
  }

  lemma TurnKeyNames(t: StoredTurn)
    ensures KeysAre(TurnBody(t) + [IndexField(t.index)], TURN_KEYS) && |TURN_KEYS| == 8
  {
    hide OptStr, Strs;
  }

  lemma TurnKeysDistinguishable()
    ensures Distinguishable(TURN_KEYS)
  {
    var k := TURN_KEYS;
    assert |k| == 8;
    assert |k[0]| == 13 && |k[1]| == 6 && |k[2]| == 14 && |k[3]| == 5 && |k[4]| == 16 && |k[5]| == 13 && |k[6]| == 6 && |k[7]| == 10;
    assert k[0][0] == 'c' && k[1][0] == 'i' && k[2][0] == 'm' && k[3][0] == 'q' && k[4][0] == 'r' && k[5][0] == 'r' && k[6][0] == 's' && k[7][0] == 't';
  }

  lemma {:induction false} StringsRead(strings: seq<string>)
    ensures Canon(Arr(Strs(strings))) == Arr(Strs(strings)) && StringsOf(Strs(strings)) == Some(strings)
  {
    if strings != [] {
      StringsRead(strings[1..]);
      var items := Strs(strings);
      assert items[1..] == Strs(strings[1..]) && Canon(Str(strings[0])) == Str(strings[0]);
      assert CanonItems(items) == [Canon(items[0])] + CanonItems(items[1..]);
      assert [strings[0]] + strings[1..] == strings;
    }
  }

  /** Decoding a serialized turn gives the turn back, its context dictionary in canonical key order. */
  lemma TurnRoundTrip(t: StoredTurn)
    requires t.status in TURN_STATUSES
    ensures DeserializeTurn(SerializeTurn(t)) == Some(t.(contextScope := SortFields(CanonFields(t.contextScope))))
  {
    hide SortedKeys, KeysAre, Distinguishable, DataOf, FieldOf, CanonFields, SortFields, TURN_KEYS, TURN_STATUSES;
    var fields := TurnBody(t) + [IndexField(t.index)];
    TurnKeysSorted(t);
    TurnKeyNames(t);
    TurnKeysDistinguishable();
    EnvelopeData(fields, TURN_VERSION, TURN_KEYS);
    forall i: nat | i < 8 ensures FieldOf(CanonFields(fields), TURN_KEYS[i]) == Some(Canon(fields[i].value)) {
      CanonicalField(fields, TURN_KEYS, i);
    }
    TurnOfCanon(t, CanonFields(fields));
  }

  lemma TurnOfCanon(t: StoredTurn, f: seq<Field>)
    requires |TURN_KEYS| == 8 && t.status in TURN_STATUSES
    requires forall i: nat | i < 8 :: FieldOf(f, TURN_KEYS[i]) == Some(Canon((TurnBody(t) + [IndexField(t.index)])[i].value))
    ensures TurnOf(f) == Some(t.(contextScope := SortFields(CanonFields(t.contextScope))))
  {
    hide FieldOf, CanonFields, SortFields, TURN_KEYS, TURN_STATUSES, StringsOf, Strs, CanonItems;
    StringsRead(t.missingFields);
    var body := TurnBody(t) + [IndexField(t.index)];
    assert FieldOf(f, TURN_KEYS[0]) == Some(Canon(body[0].value)) && FieldOf(f, TURN_KEYS[1]) == Some(Canon(body[1].value));
    assert FieldOf(f, TURN_KEYS[2]) == Some(Canon(body[2].value)) && FieldOf(f, TURN_KEYS[3]) == Some(Canon(body[3].value));
    assert FieldOf(f, TURN_KEYS[4]) == Some(Canon(body[4].value)) && FieldOf(f, TURN_KEYS[5]) == Some(Canon(body[5].value));
    assert FieldOf(f, TURN_KEYS[6]) == Some(Canon(body[6].value)) && FieldOf(f, TURN_KEYS[7]) == Some(Canon(body[7].value));
  }
}
