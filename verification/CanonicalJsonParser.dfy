/** A parser for the text canonicalJson prints, and the canonical value it recovers. */
module CanonicalJsonParser {
  import opened Common
  import opened CanonicalJson

  // ---------------------------------------------------------------------------
  // Canonical values: keys in order, what prints alike made alike

  function Canon(v: Value): Value
    decreases v
  {
    match v
    case NonFinite => Null
    case Array(items) => if items == [Undefined] then Array([]) else Array(CanonItems(items))
    case Record(fields) => Record(CanonFields(fields, Sort(Keys(fields))))
    case _ => v
  }

  function CanonItems(items: seq<Value>): (r: seq<Value>)
    ensures |r| == |items|
    ensures forall i :: 0 <= i < |items| ==> r[i] == Canon(items[i])
    decreases items
  {
    if items == [] then [] else [Canon(items[0])] + CanonItems(items[1..])
  }

  function CanonFields(fields: seq<Field>, keys: seq<Text>): (r: seq<Field>)
    requires forall k :: k in keys ==> k in Keys(fields)
    ensures |r| == |keys|
    ensures forall i :: 0 <= i < |keys| ==> r[i].key == keys[i]
    decreases fields, |keys|
  {
    if keys == [] then []
    else
      var i := IndexOf(fields, keys[0]);
      assert fields[i].value < fields[i];
      [Field(keys[0], Canon(fields[i].value))] + CanonFields(fields, keys[1..])
  }

  // ---------------------------------------------------------------------------
  // The parser

  type Parsed<T> = Option<(T, Text)>

  predicate StartsWith(t: Text, prefix: Text) {
    |prefix| <= |t| && t[..|prefix|] == prefix
  }

  function NumericPrefix(t: Text): (n: nat)
    ensures n <= |t|
  {
    if t == [] || !IsNumeric(t[0]) then 0 else 1 + NumericPrefix(t[1..])
  }

  function HexValue(u: Unit): Option<nat> {
    if 0x30 <= u <= 0x39 then Some(u - 0x30)
    else if 0x61 <= u <= 0x66 then Some(u - 0x57)
    else None
  }

  function HexUnit(a: Unit, b: Unit, c: Unit, d: Unit): Option<Unit> {
    match (HexValue(a), HexValue(b), HexValue(c), HexValue(d))
    case (Some(w), Some(x), Some(y), Some(z)) =>
      if w < 16 && x < 16 && y < 16 && z < 16 then Some(w * 4096 + x * 256 + y * 16 + z) else None
    case _ => None
  }

  function SimpleEscape(u: Unit): Option<Unit> {
    if u == 0x62 then Some(0x08)
    else if u == 0x74 then Some(0x09)
    else if u == 0x6E then Some(0x0A)
    else if u == 0x66 then Some(0x0C)
    else if u == 0x72 then Some(0x0D)
    else if u == QUOTE || u == BACKSLASH then Some(u)
    else None
  }

  function Prefixed(u: Unit, r: Parsed<Text>): Parsed<Text> {
    if r.Some? then Some(([u] + r.value.0, r.value.1)) else None
  }

  /**
   The units of a string after its opening quote, and the text after its closing quote.  As JSON asks,
   control characters and lone surrogates must be escaped.
   */
  function ParseUnits(t: Text): (r: Parsed<Text>)
    ensures r.Some? ==> |r.value.1| < |t|
    decreases |t|
  {
    if t == [] then None
    else if t[0] == QUOTE then Some(([], t[1..]))
    else if t[0] < 0x20 || IsLow(t[0]) then None
    else if IsHigh(t[0]) then
      if |t| > 1 && IsLow(t[1]) then Prefixed(t[0], Prefixed(t[1], ParseUnits(t[2..]))) else None
    else if t[0] != BACKSLASH then Prefixed(t[0], ParseUnits(t[1..]))
    else if |t| == 1 then None
    else if t[1] != 0x75 then
      if SimpleEscape(t[1]).Some? then Prefixed(SimpleEscape(t[1]).value, ParseUnits(t[2..])) else None
    else if |t| < 6 then None
    else
      var u := HexUnit(t[2], t[3], t[4], t[5]);
      if u.Some? then Prefixed(u.value, ParseUnits(t[6..])) else None
  }

  function ParseString(t: Text): (r: Parsed<Text>)
    ensures r.Some? ==> |r.value.1| < |t|
  {
    if t != [] && t[0] == QUOTE then ParseUnits(t[1..]) else None
  }

  function Constant(v: Value, text: Text, t: Text): Parsed<Value>
    requires |text| <= |t|
  {
    Some((v, t[|text|..]))
  }

  function ParseValue(t: Text): (r: Parsed<Value>)
    ensures r.Some? ==> |r.value.1| < |t|
    decreases |t|, 0
  {
    if t == [] then None
    else if StartsWith(t, NULL_TEXT) then Constant(Null, NULL_TEXT, t)
    else if StartsWith(t, TRUE_TEXT) then Constant(Bool(true), TRUE_TEXT, t)
    else if StartsWith(t, FALSE_TEXT) then Constant(Bool(false), FALSE_TEXT, t)
    else if StartsWith(t, UNDEFINED_TEXT) then Constant(Undefined, UNDEFINED_TEXT, t)
    else if IsNumeric(t[0]) then
      var n := NumericPrefix(t);
      Some((Number(t[..n]), t[n..]))
    else if t[0] == QUOTE then
      match ParseUnits(t[1..])
      case None => None
      case Some((units, rest)) => Some((String(units), rest))
    else if t[0] == OPEN_ARRAY then
      if |t| > 1 && t[1] == CLOSE_ARRAY then Some((Array([]), t[2..]))
      else
        match ParseItems(t[1..])
        case None => None
        case Some((items, rest)) => Some((Array(items), rest))
    else if t[0] == OPEN_RECORD then
      if |t| > 1 && t[1] == CLOSE_RECORD then Some((Record([]), t[2..]))
      else
        match ParseFields(t[1..])
        case None => None
        case Some((fields, rest)) => Some((Record(fields), rest))
    else None
  }

  /** An item may be missing altogether: that is how an undefined item prints. */
  function ParseItem(t: Text): (r: Parsed<Value>)
    ensures r.Some? ==> |r.value.1| <= |t|
    decreases |t|, 1
  {
    if t != [] && (t[0] == COMMA || t[0] == CLOSE_ARRAY) then Some((Undefined, t)) else ParseValue(t)
  }

  function ParseItems(t: Text): (r: Parsed<seq<Value>>)
    ensures r.Some? ==> |r.value.1| < |t|
    decreases |t|, 2
  {
    match ParseItem(t)
    case None => None
    case Some((v, rest)) =>
      if rest == [] then None
      else if rest[0] == CLOSE_ARRAY then Some(([v], rest[1..]))
      else if rest[0] != COMMA then None
      else
        match ParseItems(rest[1..])
        case None => None
        case Some((items, end)) => Some(([v] + items, end))
  }

  function ParseField(t: Text): (r: Parsed<Field>)
    ensures r.Some? ==> |r.value.1| < |t|
    decreases |t|, 1
  {
    match ParseString(t)
    case None => None
    case Some((key, rest)) =>
      if rest == [] || rest[0] != COLON then None
      else
        match ParseValue(rest[1..])
        case None => None
        case Some((v, end)) => Some((Field(key, v), end))
  }

  function ParseFields(t: Text): (r: Parsed<seq<Field>>)
    ensures r.Some? ==> |r.value.1| < |t|
    decreases |t|, 2
  {
    match ParseField(t)
    case None => None
    case Some((field, rest)) =>
      if rest == [] then None
      else if rest[0] == CLOSE_RECORD then Some(([field], rest[1..]))
      else if rest[0] != COMMA then None
      else
        match ParseFields(rest[1..])
        case None => None
        case Some((fields, end)) => Some(([field] + fields, end))
  }

  /** The value a whole text stands for. */
  function Parse(t: Text): Option<Value> {
    match ParseValue(t)
    case Some((v, rest)) => if rest == [] then Some(v) else None
    case None => None
  }
}
