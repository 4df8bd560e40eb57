/**
 canonicalJson and a parser that undoes it.  Text is a sequence of UTF-16 code units, as in JavaScript;
 a number is the decimal text JavaScript prints for it, which identifies 0 with -0.
 */
module CanonicalJson {
  import opened Common

  type Unit = u: nat | u < 0x1_0000
  type Text = seq<Unit>

  /** An own enumerable property. */
  datatype Field = Field(key: Text, value: Value)

  /** The JavaScript values the function may be given; functions and symbols behave like Undefined. */
  datatype Value =
    | Null
    | Undefined
    | NonFinite
    | Bool(value: bool)
    | Number(text: Text)
    | String(units: Text)
    | Array(items: seq<Value>)
    | Record(fields: seq<Field>)

  const QUOTE: Unit := 0x22
  const COMMA: Unit := 0x2C
  const COLON: Unit := 0x3A
  const BACKSLASH: Unit := 0x5C
  const OPEN_ARRAY: Unit := 0x5B
  const CLOSE_ARRAY: Unit := 0x5D
  const OPEN_RECORD: Unit := 0x7B
  const CLOSE_RECORD: Unit := 0x7D
  const NULL_TEXT: Text := [0x6E, 0x75, 0x6C, 0x6C]
  const TRUE_TEXT: Text := [0x74, 0x72, 0x75, 0x65]
  const FALSE_TEXT: Text := [0x66, 0x61, 0x6C, 0x73, 0x65]
  const UNDEFINED_TEXT: Text := [0x75, 0x6E, 0x64, 0x65, 0x66, 0x69, 0x6E, 0x65, 0x64]

  // ---------------------------------------------------------------------------
  // Values a JavaScript program can hold

  /** A digit, or one of + - . e */
  predicate IsNumeric(u: Unit) {
    0x30 <= u <= 0x39 || u == 0x2B || u == 0x2D || u == 0x2E || u == 0x65
  }

  predicate IsNumberText(t: Text) {
    |t| > 0 && forall i :: 0 <= i < |t| ==> IsNumeric(t[i])
  }

  function Keys(fields: seq<Field>): (keys: seq<Text>)
    ensures |keys| == |fields|
    ensures forall i :: 0 <= i < |fields| ==> keys[i] == fields[i].key
  {
    seq(|fields|, i requires 0 <= i < |fields| => fields[i].key)
  }

  /** Numbers print as numbers, and the keys of a record are distinct. */
  ghost predicate WellFormed(v: Value) {
    match v
    case Number(text) => IsNumberText(text)
    case Array(items) => forall i :: 0 <= i < |items| ==> WellFormed(items[i])
    case Record(fields) => Distinct(Keys(fields)) && forall i :: 0 <= i < |fields| ==> WellFormed(fields[i].value)
    case _ => true
  }

  // ---------------------------------------------------------------------------
  // JSON.stringify on strings

  predicate IsHigh(u: Unit) {
    0xD800 <= u <= 0xDBFF
  }

  predicate IsLow(u: Unit) {
    0xDC00 <= u <= 0xDFFF
  }

  function HexDigit(n: nat): Unit
    requires n < 16
  {
    if n < 10 then 0x30 + n else 0x57 + n
  }

  function UnicodeEscape(u: Unit): Text {
    [BACKSLASH, 0x75, HexDigit(u / 4096), HexDigit(u / 256 % 16), HexDigit(u / 16 % 16), HexDigit(u % 16)]
  }

  function EscapeUnit(u: Unit): Text {
    if u == 0x08 then [BACKSLASH, 0x62]
    else if u == 0x09 then [BACKSLASH, 0x74]
    else if u == 0x0A then [BACKSLASH, 0x6E]
    else if u == 0x0C then [BACKSLASH, 0x66]
    else if u == 0x0D then [BACKSLASH, 0x72]
    else if u == QUOTE || u == BACKSLASH then [BACKSLASH, u]
    else if u < 0x20 || IsHigh(u) || IsLow(u) then UnicodeEscape(u)
    else [u]
  }

  /** A surrogate pair stays as it is; a lone surrogate is escaped. */
  function Escape(s: Text): Text {
    if s == [] then []
    else if |s| > 1 && IsHigh(s[0]) && IsLow(s[1]) then s[..2] + Escape(s[2..])
    else EscapeUnit(s[0]) + Escape(s[1..])
  }

  function Quoted(s: Text): Text {
    [QUOTE] + Escape(s) + [QUOTE]
  }

  // ---------------------------------------------------------------------------
  // Key order: Array.prototype.sort compares code units

  predicate Less(a: Text, b: Text) {
    b != [] && (a == [] || a[0] < b[0] || (a[0] == b[0] && Less(a[1..], b[1..])))
  }

  function Insert(key: Text, sorted: seq<Text>): (r: seq<Text>)
    ensures |r| == |sorted| + 1
    ensures forall k :: k in r <==> k == key || k in sorted
  {
    if sorted == [] || Less(key, sorted[0]) then [key] + sorted
    else [sorted[0]] + Insert(key, sorted[1..])
  }

  function Sort(keys: seq<Text>): (r: seq<Text>)
    ensures |r| == |keys|
    ensures forall k :: k in r <==> k in keys
  {
    if keys == [] then [] else Insert(keys[0], Sort(keys[1..]))
  }

  function IndexOf(fields: seq<Field>, key: Text): (i: nat)
    requires key in Keys(fields)
    ensures i < |fields| && fields[i].key == key
  {
    if fields[0].key == key then 0
    else
      assert Keys(fields) == [fields[0].key] + Keys(fields[1..]);
      1 + IndexOf(fields[1..], key)
  }

  // ---------------------------------------------------------------------------
  // The printer

  /** `hole` is what an undefined value leaves: nothing between commas, "undefined" after a colon. */
  function Print(v: Value, hole: Text): Text
    decreases v
  {
    match v
    case Null => NULL_TEXT
    case NonFinite => NULL_TEXT
    case Undefined => hole
    case Bool(b) => if b then TRUE_TEXT else FALSE_TEXT
    case Number(text) => text
    case String(units) => Quoted(units)
    case Array(items) => [OPEN_ARRAY] + (if items == [] then [CLOSE_ARRAY] else PrintItems(items))
    case Record(fields) =>
      [OPEN_RECORD] + (if fields == [] then [CLOSE_RECORD] else PrintFields(fields, Sort(Keys(fields))))
  }

  /** Items joined by commas, up to the closing bracket. */
  function PrintItems(items: seq<Value>): Text
    requires items != []
    decreases items
  {
    Print(items[0], []) + (if |items| == 1 then [CLOSE_ARRAY] else [COMMA] + PrintItems(items[1..]))
  }

  function PrintFields(fields: seq<Field>, keys: seq<Text>): Text
    requires keys != [] && forall k :: k in keys ==> k in Keys(fields)
    decreases fields, |keys|
  {
    PrintField(fields, keys[0])
    + (if |keys| == 1 then [CLOSE_RECORD] else [COMMA] + PrintFields(fields, keys[1..]))
  }

  function PrintField(fields: seq<Field>, key: Text): Text
    requires key in Keys(fields)
    decreases fields, 0
  {
    var i := IndexOf(fields, key);
    assert fields[i].value < fields[i];
    Quoted(key) + [COLON] + Print(fields[i].value, UNDEFINED_TEXT)
  }
}
