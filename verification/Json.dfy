/** Canonical JSON text: sorted keys, no spaces, characters kept unless JSON must escape them
    (section 7 of RFC 8259), and a reader for it. */
module Json {
  import opened Wrappers

  datatype Value =
    | Null
    | Bool(b: bool)
    | Num(n: int)
    | Str(s: string)
    | Arr(items: seq<Value>)
    | Obj(fields: seq<Field>)

  datatype Field = Field(key: string, value: Value)

  // ------------------------------------------------------------------ writing

  const DIGITS := "0123456789abcdef"

  function PrintNat(n: nat): (s: string)
    ensures |s| >= 1 && (forall i | 0 <= i < |s| :: IsDigit(s[i]))
    ensures s[0] == '0' ==> |s| == 1
  {
    if n < 10 then [DIGITS[n]] else PrintNat(n / 10) + [DIGITS[n % 10]]
  }

  function PrintInt(n: int): string {
    if n < 0 then "-" + PrintNat(-n) else PrintNat(n)
  }

  function EscapeChar(c: char): string {
    if c == '"' then "\\\"" else if c == '\\' then "\\\\"
    else if c == '\n' then "\\n" else if c == '\r' then "\\r" else if c == '\t' then "\\t"
    else if c as int == 12 then "\\f" else if c as int == 8 then "\\b"
    else if c as int < 32 then "\\u00" + [DIGITS[c as int / 16], DIGITS[c as int % 16]]
    else [c]
  }

  function Escape(s: string): string {
    if s == "" then "" else EscapeChar(s[0]) + Escape(s[1..])
  }

  function PrintString(s: string): string { "\"" + Escape(s) + "\"" }

  function Print(v: Value): string {
    match v
    case Null => "null"
    case Bool(b) => if b then "true" else "false"
    case Num(n) => PrintInt(n)
    case Str(s) => PrintString(s)
    case Arr(items) => "[" + PrintItems(items) + "]"
    case Obj(fields) => "{" + PrintFields(fields) + "}"
  }

  function PrintItems(items: seq<Value>): string {
    if items == [] then "" else
      Print(items[0]) + (if |items| == 1 then "" else "," + PrintItems(items[1..]))
  }

  function PrintField(f: Field): string { PrintString(f.key) + ":" + Print(f.value) }

  function PrintFields(fields: seq<Field>): string {
    if fields == [] then "" else
      PrintField(fields[0]) + (if |fields| == 1 then "" else "," + PrintFields(fields[1..]))
  }

  /** Looking a key up in an object. */
  function FieldOf(fields: seq<Field>, key: string): Option<Value> {
    if fields == [] then None
    else if fields[0].key == key then Some(fields[0].value)
    else FieldOf(fields[1..], key)
  }

  // ------------------------------------------------------------------ key order

  predicate KeyLess(a: string, b: string) {
    b != "" && (a == "" || a[0] < b[0] || (a[0] == b[0] && KeyLess(a[1..], b[1..])))
  }

  function InsertField(f: Field, sorted: seq<Field>): seq<Field> {
    if sorted == [] || !KeyLess(sorted[0].key, f.key) then [f] + sorted
    else [sorted[0]] + InsertField(f, sorted[1..])
  }

  function SortFields(fields: seq<Field>): seq<Field> {
    if fields == [] then [] else InsertField(fields[0], SortFields(fields[1..]))
  }

  function Canon(v: Value): Value {
    match v
    case Arr(items) => Arr(CanonItems(items))
    case Obj(fields) => Obj(SortFields(CanonFields(fields)))
    case _ => v
  }

  function CanonItems(items: seq<Value>): seq<Value> {
    if items == [] then [] else [Canon(items[0])] + CanonItems(items[1..])
  }

  function CanonFields(fields: seq<Field>): seq<Field> {
    if fields == [] then [] else [Field(fields[0].key, Canon(fields[0].value))] + CanonFields(fields[1..])
  }

  function CanonicalJson(v: Value): string { Print(Canon(v)) }

  // ------------------------------------------------------------------ reading

  predicate IsDigit(c: char) { '0' <= c <= '9' }

  function DigitRun(t: string): (n: nat)
    ensures n <= |t| && (forall i | 0 <= i < n :: IsDigit(t[i]))
  {
    if t == "" || !IsDigit(t[0]) then 0 else 1 + DigitRun(t[1..])
  }

  function NatOf(digits: string): nat
    requires forall i | 0 <= i < |digits| :: IsDigit(digits[i])
  {
    if digits == "" then 0
    else
      var last := digits[|digits| - 1];
      assert IsDigit(last);
      NatOf(digits[..|digits| - 1]) * 10 + (last as int - '0' as int)
  }

  /** A leading zero is a number of its own, as the JSON grammar has it. */
  function ReadNat(t: string): (r: Option<(nat, string)>)
    ensures r.Some? ==> |r.value.1| < |t|
  {
    if t == "" || !IsDigit(t[0]) then None
    else
      var n := if t[0] == '0' then 1 else DigitRun(t);
      Some((NatOf(t[..n]), t[n..]))
  }

  function HexValue(c: char): Option<nat> {
    if '0' <= c <= '9' then Some(c as int - '0' as int)
    else if 'a' <= c <= 'f' then Some(c as int - 'a' as int + 10)
    else if 'A' <= c <= 'F' then Some(c as int - 'A' as int + 10)
    else None
  }

  /** The character a `\u` escape names; escapes of surrogate halves are not read. */
  function HexChar(t: string): Option<char>
    requires |t| >= 4
  {
    var a, b, c, d := HexValue(t[0]), HexValue(t[1]), HexValue(t[2]), HexValue(t[3]);
    if a.None? || b.None? || c.None? || d.None? then None else
      var code := ((a.value * 16 + b.value) * 16 + c.value) * 16 + d.value;
      if code < 0xD800 then Some(code as char) else None
  }

  function SimpleEscape(c: char): Option<char> {
    if c == '"' || c == '\\' || c == '/' then Some(c)
    else if c == 'n' then Some('\n') else if c == 'r' then Some('\r') else if c == 't' then Some('\t')
    else if c == 'f' then Some(12 as char) else if c == 'b' then Some(8 as char)
    else None
  }

  /** Reads up to the closing quote. */
  function ReadString(t: string): (r: Option<(string, string)>)
    ensures r.Some? ==> |r.value.1| < |t|
  {
    if t == "" || t[0] as int < 32 then None
    else if t[0] == '"' then Some(("", t[1..]))
    else if t[0] != '\\' then Prefix(t[0], ReadString(t[1..]))
    else if |t| < 2 then None
    else if t[1] == 'u' then
      if |t| < 6 || HexChar(t[2..6]).None? then None else Prefix(HexChar(t[2..6]).value, ReadString(t[6..]))
    else if SimpleEscape(t[1]).None? then None
    else Prefix(SimpleEscape(t[1]).value, ReadString(t[2..]))
  }

  function Prefix(c: char, r: Option<(string, string)>): Option<(string, string)> {
    if r.None? then None else Some(([c] + r.value.0, r.value.1))
  }

  function ReadWord(word: string, v: Value, t: string): (r: Option<(Value, string)>)
    requires word != ""
    ensures r.Some? ==> |r.value.1| < |t|
  {
    if word <= t then Some((v, t[|word|..])) else None
  }

  function ReadNum(t: string): (r: Option<(Value, string)>)
    requires t != ""
    ensures r.Some? ==> |r.value.1| < |t|
  {
    var negative := t[0] == '-';
    var r := ReadNat(if negative then t[1..] else t);
    if r.None? then None else
      var n: int := r.value.0;
      Some((Num(if negative then -n else n), r.value.1))
  }

  function ReadValue(t: string): (r: Option<(Value, string)>)
    ensures r.Some? ==> |r.value.1| < |t|
    decreases |t|, 0
  {
    if t == "" then None
    else if t[0] == 'n' then ReadWord("null", Null, t)
    else if t[0] == 't' then ReadWord("true", Bool(true), t)
    else if t[0] == 'f' then ReadWord("false", Bool(false), t)
    else if t[0] == '"' then
      var r := ReadString(t[1..]);
      if r.None? then None else Some((Str(r.value.0), r.value.1))
    else if t[0] == '[' then
      if "[]" <= t then Some((Arr([]), t[2..])) else
        var r := ReadItems(t[1..]);
        if r.None? then None else Some((Arr(r.value.0), r.value.1))
    else if t[0] == '{' then
      if "{}" <= t then Some((Obj([]), t[2..])) else
        var r := ReadFields(t[1..]);
        if r.None? then None else Some((Obj(r.value.0), r.value.1))
    else ReadNum(t)
  }

  function ReadItems(t: string): (r: Option<(seq<Value>, string)>)
    ensures r.Some? ==> |r.value.1| < |t|
    decreases |t|, 1
  {
    var v := ReadValue(t);
    if v.None? || v.value.1 == "" then None
    else if v.value.1[0] == ']' then Some(([v.value.0], v.value.1[1..]))
    else if v.value.1[0] != ',' then None
    else
      var rest := ReadItems(v.value.1[1..]);
      if rest.None? then None else Some(([v.value.0] + rest.value.0, rest.value.1))
  }

  function ReadField(t: string): (r: Option<(Field, string)>)
    ensures r.Some? ==> |r.value.1| < |t|
    decreases |t|, 1
  {
    if t == "" || t[0] != '"' then None else
      var k := ReadString(t[1..]);
      if k.None? || k.value.1 == "" || k.value.1[0] != ':' then None else
        var v := ReadValue(k.value.1[1..]);
        if v.None? then None else Some((Field(k.value.0, v.value.0), v.value.1))
  }

  function ReadFields(t: string): (r: Option<(seq<Field>, string)>)
    ensures r.Some? ==> |r.value.1| < |t|
    decreases |t|, 2
  {
    var f := ReadField(t);
    if f.None? || f.value.1 == "" then None
    else if f.value.1[0] == '}' then Some(([f.value.0], f.value.1[1..]))
    else if f.value.1[0] != ',' then None
    else
      var rest := ReadFields(f.value.1[1..]);
      if rest.None? then None else Some(([f.value.0] + rest.value.0, rest.value.1))
  }

  function Read(t: string): Option<Value> {
    var r := ReadValue(t);
    if r.Some? && r.value.1 == "" then Some(r.value.0) else None
  }

  // ------------------------------------------------------------------ reading what was written

  predicate NoDigitNext(rest: string) { rest == "" || !IsDigit(rest[0]) }

  lemma {:induction false} NatOfPrint(n: nat)
    ensures NatOf(PrintNat(n)) == n
  {
    if n >= 10 {
      NatOfPrint(n / 10);
      var s := PrintNat(n);
      assert s[..|s| - 1] == PrintNat(n / 10);
    } else {
      var s := PrintNat(n);
      assert s[..0] == "";
    }
  }

  lemma {:induction false} DigitRunAll(digits: string, rest: string)
    requires forall i | 0 <= i < |digits| :: IsDigit(digits[i])
    requires NoDigitNext(rest)
    ensures DigitRun(digits + rest) == |digits|
  {
    if digits == "" {
      assert digits + rest == rest;
    } else {
      assert (digits + rest)[1..] == digits[1..] + rest;
      DigitRunAll(digits[1..], rest);
    }
  }

  lemma ReadPrintedNat(n: nat, rest: string)
    requires NoDigitNext(rest)
    ensures ReadNat(PrintNat(n) + rest) == Some((n, rest))
  {
    var s := PrintNat(n);
    DigitRunAll(s, rest);
    NatOfPrint(n);
    assert (s + rest)[0] == s[0];
    assert (s + rest)[..|s|] == s && (s + rest)[|s|..] == rest;
  }

  lemma HexOfDigit(i: nat)
    requires i < 16
    ensures HexValue(DIGITS[i]) == Some(i)
  {}

  lemma ReadEscapedChar(c: char, rest: string)
    ensures ReadString(EscapeChar(c) + rest) == Prefix(c, ReadString(rest))
  {
    var e := EscapeChar(c);
    var t := e + rest;
    assert t[|e|..] == rest;
    assert forall i | 0 <= i < |e| :: t[i] == e[i];
    if |e| == 6 {
      HexOfDigit(0);
      HexOfDigit(c as int / 16);
      HexOfDigit(c as int % 16);
      assert t[2..6] == e[2..6];
    }
  }

  lemma {:induction false} ReadEscaped(s: string, rest: string)
    ensures ReadString(Escape(s) + "\"" + rest) == Some((s, rest))
  {
    if s == "" {
      assert Escape(s) + "\"" + rest == "\"" + rest;
      assert ("\"" + rest)[1..] == rest;
    } else {
      var tail := Escape(s[1..]) + "\"" + rest;
      assert Escape(s) + "\"" + rest == EscapeChar(s[0]) + tail;
      ReadEscapedChar(s[0], tail);
      ReadEscaped(s[1..], rest);
      assert [s[0]] + s[1..] == s;
    }
  }

  lemma PrintStarts(v: Value)
    ensures Print(v) != "" && Print(v)[0] !in {']', '}', ','}
  {}

  lemma ReadPrintedString(s: string, rest: string)
    ensures (PrintString(s) + rest)[0] == '"'
    ensures ReadString((PrintString(s) + rest)[1..]) == Some((s, rest))
  {
    assert (PrintString(s) + rest)[1..] == Escape(s) + "\"" + rest;
    ReadEscaped(s, rest);
  }

  lemma ReadPrintedNum(n: int, rest: string)
    requires NoDigitNext(rest)
    ensures ReadValue(PrintInt(n) + rest) == ReadNum(PrintInt(n) + rest) == Some((Num(n), rest))
  {
    hide PrintNat, ReadNat, ReadString, ReadItems, ReadFields, ReadWord, Print;
    var t := PrintInt(n) + rest;
    if n < 0 {
      assert t[0] == '-' && t[1..] == PrintNat(-n) + rest;
      ReadPrintedNat(-n, rest);
    } else {
      assert t[0] == PrintNat(n)[0] && IsDigit(t[0]);
      ReadPrintedNat(n, rest);
    }
  }

  lemma ReadPrintedWord(word: string, v: Value, rest: string)
    requires word != ""
    ensures ReadWord(word, v, word + rest) == Some((v, rest))
  {
    assert (word + rest)[|word|..] == rest;
  }

  lemma ReadPrintedScalar(v: Value, rest: string)
    requires NoDigitNext(rest) && !v.Arr? && !v.Obj?
    ensures ReadValue(Print(v) + rest) == Some((v, rest))
  {
    hide PrintInt, ReadNum, ReadString, ReadWord, Escape, ReadItems, ReadFields;
    match v
    case Null => ReadPrintedWord("null", v, rest);
    case Bool(b) => ReadPrintedWord(Print(v), v, rest);
    case Num(n) => ReadPrintedNum(n, rest);
    case Str(s) => ReadPrintedString(s, rest);
  }

  lemma PrintedArr(items: seq<Value>)
    ensures Print(Arr(items)) == "[" + PrintItems(items) + "]"
  {}

  lemma OpenBracket(body: string)
    requires body != "" && body[0] != ']'
    ensures ReadValue("[" + body) == if ReadItems(body).None? then None else Some((Arr(ReadItems(body).value.0), ReadItems(body).value.1))
  {
    hide ReadItems, ReadString, ReadNum, ReadWord, ReadFields;
    assert ("[" + body)[1..] == body;
  }

  lemma EmptyBrackets(rest: string)
    ensures ReadValue("[]" + rest) == Some((Arr([]), rest))
  {
    hide ReadItems, ReadString, ReadNum, ReadWord, ReadFields;
    assert ("[]" + rest)[..2] == "[]" && ("[]" + rest)[2..] == rest;
  }

  lemma ItemsStart(items: seq<Value>, rest: string)
    requires items != []
    ensures PrintItems(items) + rest != "" && (PrintItems(items) + rest)[0] !in {']', '}', ','}
  {
    PrintStarts(items[0]);
    hide Print;
  }

  lemma ReadPrintedArr(items: seq<Value>, rest: string)
    requires items != [] ==> ReadItems(PrintItems(items) + "]" + rest) == Some((items, rest))
    ensures ReadValue(Print(Arr(items)) + rest) == Some((Arr(items), rest))
  {
    PrintedArr(items);
    hide *;
    var inner := PrintItems(items);
    var body := inner + "]" + rest;
    if items != [] {
      ItemsStart(items, "]" + rest);
      assert body == inner + ("]" + rest);
      OpenBracket(body);
      assert "[" + inner + "]" + rest == "[" + body;
    } else {
      assert inner == "" by { NoItems(); }
      EmptyBrackets(rest);
      assert "[" + inner + "]" == "[]";
    }
  }

  lemma NoItems()
    ensures PrintItems([]) == ""
  {}

  lemma ReadPrintedObj(fields: seq<Field>, rest: string)
    requires fields != [] ==> ReadFields(PrintFields(fields) + "}" + rest) == Some((fields, rest))
    ensures ReadValue(Print(Obj(fields)) + rest) == Some((Obj(fields), rest))
  {
    hide ReadItems, ReadString, ReadNum, ReadWord, ReadFields, Escape;
    var body := PrintFields(fields) + "}" + rest;
    assert Print(Obj(fields)) + rest == "{" + body;
    if fields != [] {
      assert body[0] == '"';
    } else {
      assert ("{" + body)[..2] == "{}" && ("{" + body)[2..] == rest;
    }
    assert ("{" + body)[1..] == body;
  }

  /** Reading is the exact inverse of writing, for every value and whatever follows the text. */
  lemma {:induction false} ReadPrinted(v: Value, rest: string)
    requires NoDigitNext(rest)
    ensures ReadValue(Print(v) + rest) == Some((v, rest))
    decreases v, 0
  {
    hide ReadValue, Print, ReadItems, ReadFields, PrintItems, PrintFields;
    if v.Arr? {
      if v.items != [] { ReadPrintedItems(v.items, rest); }
      ReadPrintedArr(v.items, rest);
    } else if v.Obj? {
      if v.fields != [] { ReadPrintedFields(v.fields, rest); }
      ReadPrintedObj(v.fields, rest);
    } else {
      ReadPrintedScalar(v, rest);
    }
  }

  lemma Regroup(first: string, middle: string, close: string, rest: string)
    ensures first + middle + close + rest == first + (middle + close + rest)
    ensures "" + close + rest == close + rest && first + "" == first
  {}

  lemma NotADigit(c: char, rest: string)
    requires c in {',', ']', '}'}
    ensures NoDigitNext([c] + rest)
  {}

  lemma PrintedItems(items: seq<Value>)
    requires items != []
    ensures PrintItems(items) == Print(items[0]) + (if |items| == 1 then "" else "," + PrintItems(items[1..]))
  {
    hide Print;
  }

  /** One item read, then the end or a comma. */
  lemma ReadOneItem(t: string, v: Value, more: string)
    requires ReadValue(t) == Some((v, more)) && more != ""
    ensures more[0] == ']' ==> ReadItems(t) == Some(([v], more[1..]))
    ensures more[0] == ',' && ReadItems(more[1..]).Some? ==>
              ReadItems(t) == Some(([v] + ReadItems(more[1..]).value.0, ReadItems(more[1..]).value.1))
  {
    hide ReadValue;
  }

  lemma {:induction false} ReadPrintedItems(items: seq<Value>, rest: string)
    requires items != []
    ensures ReadItems(PrintItems(items) + "]" + rest) == Some((items, rest))
    decreases items, 1
  {
    hide *;
    PrintedItems(items);
    var first, end := Print(items[0]), "]" + rest;
    if |items| == 1 {
      Regroup(first, "", "]", rest);
      NotADigit(']', rest);
      var more := end;
      ReadPrinted(items[0], more);
      ReadOneItem(first + more, items[0], more);
      assert more[1..] == rest && items == [items[0]];
    } else {
      var tail := PrintItems(items[1..]);
      var more := "," + tail + "]" + rest;
      Regroup(first, "," + tail, "]", rest);
      NotADigit(',', tail + "]" + rest);
      assert more == "," + (tail + "]" + rest) && more[1..] == tail + "]" + rest;
      ReadPrinted(items[0], more);
      ReadPrintedItems(items[1..], rest);
      ReadOneItem(first + more, items[0], more);
      assert [items[0]] + items[1..] == items;
    }
  }

  lemma {:induction false} ReadPrintedField(f: Field, rest: string)
    requires NoDigitNext(rest)
    ensures ReadField(PrintField(f) + rest) == Some((f, rest))
    decreases f, 1
  {
    hide ReadValue, Print, ReadString, PrintString;
    var more := ":" + Print(f.value) + rest;
    assert PrintField(f) + rest == PrintString(f.key) + more;
    ReadPrintedString(f.key, more);
    assert more[1..] == Print(f.value) + rest;
    ReadPrinted(f.value, rest);
  }

  lemma PrintedFields(fields: seq<Field>)
    requires fields != []
    ensures PrintFields(fields) == PrintField(fields[0]) + (if |fields| == 1 then "" else "," + PrintFields(fields[1..]))
  {
    hide PrintField;
  }

  lemma ReadOneField(t: string, f: Field, more: string)
    requires ReadField(t) == Some((f, more)) && more != ""
    ensures more[0] == '}' ==> ReadFields(t) == Some(([f], more[1..]))
    ensures more[0] == ',' && ReadFields(more[1..]).Some? ==>
              ReadFields(t) == Some(([f] + ReadFields(more[1..]).value.0, ReadFields(more[1..]).value.1))
  {
    hide ReadField;
  }

  lemma {:induction false} ReadPrintedFields(fields: seq<Field>, rest: string)
    requires fields != []
    ensures ReadFields(PrintFields(fields) + "}" + rest) == Some((fields, rest))
    decreases fields, 2
  {
    hide *;
    PrintedFields(fields);
    var first, end := PrintField(fields[0]), "}" + rest;
    if |fields| == 1 {
      Regroup(first, "", "}", rest);
      NotADigit('}', rest);
      var more := end;
      ReadPrintedField(fields[0], more);
      ReadOneField(first + more, fields[0], more);
      assert more[1..] == rest && fields == [fields[0]];
    } else {
      var tail := PrintFields(fields[1..]);
      var more := "," + tail + "}" + rest;
      Regroup(first, "," + tail, "}", rest);
      NotADigit(',', tail + "}" + rest);
      assert more == "," + (tail + "}" + rest) && more[1..] == tail + "}" + rest;
      ReadPrintedField(fields[0], more);
      ReadPrintedFields(fields[1..], rest);
      ReadOneField(first + more, fields[0], more);
      assert [fields[0]] + fields[1..] == fields;
    }
  }

  lemma RoundTrip(v: Value)
    ensures Read(Print(v)) == Some(v)
  {
    ReadPrinted(v, "");
    assert Print(v) + "" == Print(v);
  }

  /** Two values share their canonical text exactly when they agree up to the order of object keys. */
  lemma CanonicalTextDetermines(a: Value, b: Value)
    ensures CanonicalJson(a) == CanonicalJson(b) <==> Canon(a) == Canon(b)
  {
    RoundTrip(Canon(a));
    RoundTrip(Canon(b));
  }

  // ------------------------------------------------------------------ sorted keys

  /** Keys in the order json.dumps writes them. */
  predicate SortedKeys(fields: seq<Field>) {
    forall i | 0 <= i < |fields| - 1 :: !KeyLess(fields[i + 1].key, fields[i].key)
  }

  lemma {:induction false} SortedFieldsStay(fields: seq<Field>)
    requires SortedKeys(fields)
    ensures SortFields(fields) == fields
  {
    if fields != [] {
      forall i | 0 <= i < |fields[1..]| - 1 ensures !KeyLess(fields[1..][i + 1].key, fields[1..][i].key) {
        assert !KeyLess(fields[(i + 1) + 1].key, fields[i + 1].key);
      }
      SortedFieldsStay(fields[1..]);
      if |fields| > 1 { assert fields[0 + 1].key == fields[1..][0].key; }
      assert [fields[0]] + fields[1..] == fields;
    }
  }

  lemma {:induction false} CanonEach(fields: seq<Field>)
    ensures |CanonFields(fields)| == |fields|
    ensures forall i | 0 <= i < |fields| :: CanonFields(fields)[i] == Field(fields[i].key, Canon(fields[i].value))
  {
    hide Canon;
    if fields != [] { CanonEach(fields[1..]); }
  }

  lemma CanonOfSorted(fields: seq<Field>)
    requires SortedKeys(fields)
    ensures Canon(Obj(fields)) == Obj(CanonFields(fields))
  {
    CanonEach(fields);
    SortedFieldsStay(CanonFields(fields));
  }
}
