/**
 canonicalJson is unambiguous: its text parses back to the canonical value, so two values print alike
 exactly when they are equal up to the order of keys.
 */
module CanonicalJsonTheorems {
  import opened Common
  import opened CanonicalJson
  import opened CanonicalJsonParser

  // ---------------------------------------------------------------------------
  // Strings

  lemma HexDigitValue(n: nat)
    requires n < 16
    ensures HexValue(HexDigit(n)) == Some(n)
  {
  }

  lemma HexDigitsSum(u: Unit)
    ensures u / 4096 < 16
    ensures u / 4096 * 4096 + u / 256 % 16 * 256 + u / 16 % 16 * 16 + u % 16 == u
  {
    var p := u / 16;
    var q := u / 256;
    assert u == p * 16 + u % 16 && p == q * 16 + p % 16 && q == u / 4096 * 16 + q % 16;
  }

  lemma HexRoundTrip(u: Unit)
    ensures HexUnit(HexDigit(u / 4096), HexDigit(u / 256 % 16), HexDigit(u / 16 % 16), HexDigit(u % 16)) == Some(u)
  {
    HexDigitsSum(u);
    var a, b, c, d := u / 4096, u / 256 % 16, u / 16 % 16, u % 16;
    HexDigitValue(a);
    HexDigitValue(b);
    HexDigitValue(c);
    HexDigitValue(d);
    hide HexDigit, HexValue;
  }

  /** One printed unit parses back, whatever follows. */
  lemma ParsesUnit(u: Unit, tail: Text)
    ensures ParseUnits(EscapeUnit(u) + tail) == Prefixed(u, ParseUnits(tail))
  {
    var t := EscapeUnit(u) + tail;
    if |EscapeUnit(u)| == 6 {
      HexRoundTrip(u);
      assert t[6..] == tail;
    } else {
      assert t[|EscapeUnit(u)|..] == tail;
    }
  }

  lemma ParsesPair(high: Unit, low: Unit, tail: Text)
    requires IsHigh(high) && IsLow(low)
    ensures ParseUnits([high, low] + tail) == Prefixed(high, Prefixed(low, ParseUnits(tail)))
  {
    assert ([high, low] + tail)[2..] == tail;
  }

  lemma {:induction false} ParsesString(s: Text, rest: Text)
    ensures ParseUnits(Escape(s) + [QUOTE] + rest) == Some((s, rest))
  {
    hide EscapeUnit, UnicodeEscape;
    var t := Escape(s) + [QUOTE] + rest;
    if s == [] {
      assert t == [QUOTE] + rest;
    } else if |s| > 1 && IsHigh(s[0]) && IsLow(s[1]) {
      var tail := Escape(s[2..]) + [QUOTE] + rest;
      ParsesString(s[2..], rest);
      assert t == [s[0], s[1]] + tail;
      ParsesPair(s[0], s[1], tail);
      assert s == [s[0]] + ([s[1]] + s[2..]);
    } else {
      var tail := Escape(s[1..]) + [QUOTE] + rest;
      ParsesString(s[1..], rest);
      assert t == EscapeUnit(s[0]) + tail;
      ParsesUnit(s[0], tail);
      assert s == [s[0]] + s[1..];
    }
  }

  // ---------------------------------------------------------------------------
  // Values

  /** What may follow a value: nothing a number could go on with. */
  predicate Ends(rest: Text) {
    rest == [] || !IsNumeric(rest[0])
  }

  lemma {:induction false} NumberEnds(text: Text, rest: Text)
    requires (forall i :: 0 <= i < |text| ==> IsNumeric(text[i])) && Ends(rest)
    ensures NumericPrefix(text + rest) == |text|
  {
    if text == [] {
      assert text + rest == rest;
    } else {
      assert (text + rest)[1..] == text[1..] + rest;
      NumberEnds(text[1..], rest);
    }
  }

  lemma ParsesNumber(text: Text, rest: Text)
    requires IsNumberText(text) && Ends(rest)
    ensures ParseValue(text + rest) == Some((Number(text), rest))
  {
    NumberEnds(text, rest);
    assert (text + rest)[0] == text[0];
    assert (text + rest)[..|text|] == text && (text + rest)[|text|..] == rest;
  }

  lemma ParsesConstant(text: Text, rest: Text)
    requires text == NULL_TEXT || text == TRUE_TEXT || text == FALSE_TEXT || text == UNDEFINED_TEXT
    ensures ParseValue(text + rest) ==
            Some((if text == NULL_TEXT then Null
                  else if text == UNDEFINED_TEXT then Undefined
                  else Bool(text == TRUE_TEXT), rest))
  {
    var t := text + rest;
    assert t[..|text|] == text && t[|text|..] == rest;
    assert t[0] == text[0];
  }

  lemma ParsesQuoted(units: Text, rest: Text)
    ensures ParseValue(Quoted(units) + rest) == Some((String(units), rest))
  {
    hide ParseValue, ParseUnits, Escape;
    ParsesString(units, rest);
    var body := Escape(units) + [QUOTE] + rest;
    assert Quoted(units) + rest == [QUOTE] + body;
    ParsesQuotedBody(body);
  }

  /** A quote or an opening bracket starts no constant and no number. */
  lemma NotConstant(t: Text)
    requires t != [] && (t[0] == QUOTE || t[0] == OPEN_ARRAY || t[0] == OPEN_RECORD)
    ensures !StartsWith(t, NULL_TEXT) && !StartsWith(t, TRUE_TEXT) && !StartsWith(t, FALSE_TEXT)
    ensures !StartsWith(t, UNDEFINED_TEXT) && !IsNumeric(t[0])
  {
    forall prefix: Text | prefix != [] && StartsWith(t, prefix)
      ensures prefix[0] == t[0]
    {
      assert t[..|prefix|][0] == t[0];
    }
  }

  lemma ParsesQuotedBody(body: Text)
    requires ParseUnits(body).Some?
    ensures ParseValue([QUOTE] + body) == Some((String(ParseUnits(body).value.0), ParseUnits(body).value.1))
  {
    hide ParseUnits, ParseItems, ParseFields, NumericPrefix;
    NotConstant([QUOTE] + body);
    hide StartsWith;
    assert ([QUOTE] + body)[1..] == body;
  }

  /** The first unit tells apart what a printed value may be confused with. */
  lemma PrintStarts(v: Value, hole: Text)
    requires WellFormed(v) && !v.Undefined?
    ensures Print(v, hole) != []
    ensures Print(v, hole)[0] != COMMA && Print(v, hole)[0] != CLOSE_ARRAY
  {
  }

  lemma {:induction false} ParsesValue(v: Value, hole: Text, rest: Text)
    requires WellFormed(v) && Ends(rest) && (v.Undefined? ==> hole == UNDEFINED_TEXT)
    ensures ParseValue(Print(v, hole) + rest) == Some((Canon(v), rest))
    decreases v, 0
  {
    hide ParseValue, ParseItems, ParseFields, PrintFields, PrintItems, CanonItems, CanonFields, Quoted, Sort;
    match v
    case Null => ParsesConstant(NULL_TEXT, rest);
    case NonFinite => ParsesConstant(NULL_TEXT, rest);
    case Undefined => ParsesConstant(UNDEFINED_TEXT, rest);
    case Bool(b) => ParsesConstant(if b then TRUE_TEXT else FALSE_TEXT, rest);
    case Number(text) => ParsesNumber(text, rest);
    case String(units) => ParsesQuoted(units, rest);
    case Array(items) =>
      if items != [] {
        ParsesItems(items, rest);
      }
      ParsesArray(items, hole, rest);
    case Record(fields) =>
      if fields != [] {
        ParsesFields(fields, Sort(Keys(fields)), rest);
      }
      ParsesRecord(fields, hole, rest);
  }

  lemma ParsesArray(items: seq<Value>, hole: Text, rest: Text)
    requires WellFormed(Array(items))
    requires items != [] ==> ParseItems(PrintItems(items) + rest) == Some((CanonItems(items), rest))
    ensures ParseValue(Print(Array(items), hole) + rest) == Some((Canon(Array(items)), rest))
  {
    hide ParseItems, CanonItems;
    if items == [] || items == [Undefined] {
      assert Print(Array(items), hole) + rest == [OPEN_ARRAY, CLOSE_ARRAY] + rest;
      ParsesEmptyArray(rest);
    } else {
      ItemsStart(items);
      var body := PrintItems(items);
      assert Print(Array(items), hole) + rest == [OPEN_ARRAY] + (body + rest);
      hide Print, PrintItems;
      ParsesBracketed(body + rest);
    }
  }

  lemma ItemsStart(items: seq<Value>)
    requires items != [] && items != [Undefined] && WellFormed(items[0])
    ensures PrintItems(items) != [] && PrintItems(items)[0] != CLOSE_ARRAY
  {
    if items[0].Undefined? {
      assert |items| > 1;
    } else {
      PrintStarts(items[0], []);
      hide Print;
    }
  }

  lemma ParsesEmptyArray(rest: Text)
    ensures ParseValue([OPEN_ARRAY, CLOSE_ARRAY] + rest) == Some((Array([]), rest))
  {
    hide ParseFields, ParseItems, ParseUnits;
    NotConstant([OPEN_ARRAY, CLOSE_ARRAY] + rest);
    hide StartsWith;
    assert ([OPEN_ARRAY, CLOSE_ARRAY] + rest)[2..] == rest;
  }

  lemma ParsesBracketed(body: Text)
    requires body != [] && body[0] != CLOSE_ARRAY && ParseItems(body).Some?
    ensures ParseValue([OPEN_ARRAY] + body) == Some((Array(ParseItems(body).value.0), ParseItems(body).value.1))
  {
    hide ParseFields, ParseItems, ParseUnits;
    NotConstant([OPEN_ARRAY] + body);
    hide StartsWith;
    assert ([OPEN_ARRAY] + body)[1..] == body;
  }

  lemma ParsesRecord(fields: seq<Field>, hole: Text, rest: Text)
    requires fields != [] ==>
               ParseFields(PrintFields(fields, Sort(Keys(fields))) + rest) == Some((CanonFields(fields, Sort(Keys(fields))), rest))
    ensures ParseValue(Print(Record(fields), hole) + rest) == Some((Canon(Record(fields)), rest))
  {
    var t := Print(Record(fields), hole) + rest;
    hide ParseFields, PrintFields;
    if fields == [] {
      assert t[2..] == rest;
    } else {
      var keys := Sort(Keys(fields));
      hide Sort, CanonFields;
      FieldsStart(fields, keys);
      var body := PrintFields(fields, keys);
      assert t == [OPEN_RECORD] + (body + rest);
      ParsesBraced(body + rest);
    }
  }

  lemma FieldsStart(fields: seq<Field>, keys: seq<Text>)
    requires keys != [] && forall k :: k in keys ==> k in Keys(fields)
    ensures PrintFields(fields, keys) != [] && PrintFields(fields, keys)[0] == QUOTE
  {
  }

  lemma ParsesBraced(body: Text)
    requires body != [] && body[0] == QUOTE && ParseFields(body).Some?
    ensures ParseValue([OPEN_RECORD] + body) == Some((Record(ParseFields(body).value.0), ParseFields(body).value.1))
  {
    hide ParseFields, ParseItems, ParseUnits;
    NotConstant([OPEN_RECORD] + body);
    hide StartsWith;
    assert ([OPEN_RECORD] + body)[1..] == body;
  }

  lemma UndefinedPrints(v: Value)
    requires v.Undefined?
    ensures Print(v, []) == [] && Canon(v) == v
  {
  }

  lemma {:induction false} ParsesItems(items: seq<Value>, rest: Text)
    requires items != [] && forall i :: 0 <= i < |items| ==> WellFormed(items[i])
    ensures ParseItems(PrintItems(items) + rest) == Some((CanonItems(items), rest))
    decreases items, 0
  {
    hide ParseValue, Print, Canon;
    var first := Print(items[0], []);
    var after := if |items| == 1 then [CLOSE_ARRAY] + rest else [COMMA] + (PrintItems(items[1..]) + rest);
    assert PrintItems(items) + rest == first + after;
    assert Ends(after);
    if items[0].Undefined? {
      UndefinedPrints(items[0]);
      assert first + after == after;
    } else {
      ParsesValue(items[0], [], after);
      PrintStarts(items[0], []);
    }
    assert ParseItem(first + after) == Some((Canon(items[0]), after));
    hide ParseItem;
    if |items| == 1 {
      assert after[1..] == rest;
      assert CanonItems(items) == [Canon(items[0])];
    } else {
      ParsesItems(items[1..], rest);
      assert after[1..] == PrintItems(items[1..]) + rest;
    }
  }

  lemma {:induction false} ParsesFields(fields: seq<Field>, keys: seq<Text>, rest: Text)
    requires keys != [] && forall k :: k in keys ==> k in Keys(fields)
    requires forall i :: 0 <= i < |fields| ==> WellFormed(fields[i].value)
    ensures ParseFields(PrintFields(fields, keys) + rest) == Some((CanonFields(fields, keys), rest))
    decreases fields, |keys|
  {
    hide Print, ParseValue, ParseField, Quoted, Canon, WellFormed;
    var field := fields[IndexOf(fields, keys[0])];
    var after := if |keys| == 1 then [CLOSE_RECORD] + rest else [COMMA] + (PrintFields(fields, keys[1..]) + rest);
    assert PrintFields(fields, keys) + rest == PrintField(fields, keys[0]) + after;
    assert field.value < field;
    ParsesValue(field.value, UNDEFINED_TEXT, after);
    ParsesField(keys[0], field.value, after);
    if |keys| == 1 {
      assert after[1..] == rest;
      assert CanonFields(fields, keys) == [Field(keys[0], Canon(field.value))];
    } else {
      ParsesFields(fields, keys[1..], rest);
      assert after[1..] == PrintFields(fields, keys[1..]) + rest;
    }
  }

  lemma ParsesField(key: Text, v: Value, after: Text)
    requires ParseValue(Print(v, UNDEFINED_TEXT) + after) == Some((Canon(v), after))
    ensures ParseField(Quoted(key) + [COLON] + Print(v, UNDEFINED_TEXT) + after) == Some((Field(key, Canon(v)), after))
  {
    hide Print, ParseValue;
    var tail := [COLON] + (Print(v, UNDEFINED_TEXT) + after);
    var t := Quoted(key) + [COLON] + Print(v, UNDEFINED_TEXT) + after;
    ParsesString(key, tail);
    assert t[1..] == Escape(key) + [QUOTE] + tail;
    assert tail[1..] == Print(v, UNDEFINED_TEXT) + after;
  }

  // ---------------------------------------------------------------------------
  // Key order

  lemma {:induction false} LessTransitive(a: Text, b: Text, c: Text)
    requires Less(a, b) && Less(b, c)
    ensures Less(a, c)
  {
    if a != [] && a[0] == b[0] == c[0] {
      LessTransitive(a[1..], b[1..], c[1..]);
    }
  }

  lemma {:induction false} LessTotal(a: Text, b: Text)
    ensures a == b || Less(a, b) || Less(b, a)
    ensures !(Less(a, b) && Less(b, a))
  {
    if a != [] && b != [] && a[0] == b[0] {
      LessTotal(a[1..], b[1..]);
      assert a == [a[0]] + a[1..] && b == [b[0]] + b[1..];
    }
  }

  ghost predicate Ascending(keys: seq<Text>) {
    forall i, j :: 0 <= i < j < |keys| ==> Less(keys[i], keys[j])
  }

  lemma {:induction false} InsertAscends(key: Text, sorted: seq<Text>)
    requires Ascending(sorted) && key !in sorted
    ensures Ascending(Insert(key, sorted))
  {
    if sorted != [] {
      LessTotal(key, sorted[0]);
      if Less(key, sorted[0]) {
        forall j | 0 < j < |sorted|
          ensures Less(key, sorted[j])
        {
          LessTransitive(key, sorted[0], sorted[j]);
        }
      } else {
        InsertAscends(key, sorted[1..]);
        var tail := Insert(key, sorted[1..]);
        forall j | 0 <= j < |tail|
          ensures Less(sorted[0], tail[j])
        {
          assert tail[j] in tail;
        }
      }
    }
  }

  lemma {:induction false} SortAscends(keys: seq<Text>)
    requires Distinct(keys)
    ensures Ascending(Sort(keys))
  {
    if keys != [] {
      SortAscends(keys[1..]);
      InsertAscends(keys[0], Sort(keys[1..]));
    }
  }

  lemma HasMember(keys: seq<Text>)
    ensures keys == [] || exists k :: k in keys
  {
    if keys != [] {
      assert keys[0] in keys;
    }
  }

  lemma SameMembersEmpty(a: seq<Text>, b: seq<Text>)
    requires forall k :: k in a <==> k in b
    ensures a == [] ==> b == []
  {
    HasMember(b);
  }

  /** An ascending sequence is determined by its elements. */
  lemma {:induction false} AscendingUnique(a: seq<Text>, b: seq<Text>)
    requires Ascending(a) && Ascending(b) && forall k :: k in a <==> k in b
    ensures a == b
  {
    if a == [] || b == [] {
      SameMembersEmpty(a, b);
      SameMembersEmpty(b, a);
    } else {
      assert a[0] in b && b[0] in a;
      var i :| 0 <= i < |b| && b[i] == a[0];
      var j :| 0 <= j < |a| && a[j] == b[0];
      LessTotal(a[0], b[0]);
      assert a[0] == b[0];
      AscendingTail(a);
      AscendingTail(b);
      AscendingUnique(a[1..], b[1..]);
      assert a == [a[0]] + a[1..] && b == [b[0]] + b[1..];
    }
  }

  lemma AscendingTail(a: seq<Text>)
    requires a != [] && Ascending(a)
    ensures Ascending(a[1..]) && forall k :: k in a[1..] <==> k in a && k != a[0]
  {
    LessTotal(a[0], a[0]);
    assert a == [a[0]] + a[1..];
    forall i | 1 <= i < |a|
      ensures a[i] != a[0]
    {
    }
  }

  // ---------------------------------------------------------------------------
  // Equality up to key order

  function Shown(items: seq<Value>): seq<Value> {
    if items == [Undefined] then [] else items
  }

  /**
   The same value up to the order of keys.  Besides, a non-finite number counts as null, and an array
   holding one undefined as the empty array; neither occurs in a JSON value.
   */
  ghost predicate Equiv(v: Value, w: Value)
    decreases v
  {
    match v
    case Null => w.Null? || w.NonFinite?
    case NonFinite => w.Null? || w.NonFinite?
    case Array(items) =>
      w.Array? && |Shown(items)| == |Shown(w.items)|
      && forall i :: 0 <= i < |items| && i < |w.items| && Shown(items) != [] ==> Equiv(items[i], w.items[i])
    case Record(fields) =>
      w.Record? && (forall k :: k in Keys(fields) <==> k in Keys(w.fields))
      && forall i, j :: 0 <= i < |fields| && 0 <= j < |w.fields| && fields[i].key == w.fields[j].key ==>
           Equiv(fields[i].value, w.fields[j].value)
    case _ => v == w
  }

  lemma {:induction false} EquivPrints(v: Value, w: Value, hole: Text)
    requires WellFormed(v) && WellFormed(w) && Equiv(v, w)
    ensures Print(v, hole) == Print(w, hole)
    decreases v
  {
    match v
    case Array(items) =>
      if Shown(items) != [] {
        EquivItemsPrint(items, w.items);
      } else {
        EmptyPrints(items, hole);
        EmptyPrints(w.items, hole);
      }
    case Record(fields) =>
      SameMembersEmpty(Keys(fields), Keys(w.fields));
      SameMembersEmpty(Keys(w.fields), Keys(fields));
      if fields != [] {
        SameKeys(fields, w.fields);
        EquivFieldsPrint(fields, w.fields, Sort(Keys(fields)));
      }
    case _ =>
  }

  lemma EmptyPrints(items: seq<Value>, hole: Text)
    requires Shown(items) == []
    ensures Print(Array(items), hole) == [OPEN_ARRAY, CLOSE_ARRAY]
  {
    if items != [] {
      assert Print(items[0], []) == [];
      assert PrintItems(items) == [CLOSE_ARRAY];
    }
  }

  lemma SameKeys(fields: seq<Field>, others: seq<Field>)
    requires Distinct(Keys(fields)) && Distinct(Keys(others))
    requires forall k :: k in Keys(fields) <==> k in Keys(others)
    ensures Sort(Keys(fields)) == Sort(Keys(others))
  {
    SortAscends(Keys(fields));
    SortAscends(Keys(others));
    AscendingUnique(Sort(Keys(fields)), Sort(Keys(others)));
  }

  lemma {:induction false} EquivItemsPrint(items: seq<Value>, others: seq<Value>)
    requires items != [] && |items| == |others|
    requires forall i :: 0 <= i < |items| ==> WellFormed(items[i]) && WellFormed(others[i]) && Equiv(items[i], others[i])
    ensures PrintItems(items) == PrintItems(others)
    decreases items
  {
    EquivPrints(items[0], others[0], []);
    if |items| > 1 {
      EquivItemsPrint(items[1..], others[1..]);
    }
  }

  lemma {:induction false} EquivFieldsPrint(fields: seq<Field>, others: seq<Field>, keys: seq<Text>)
    requires keys != [] && forall k :: k in keys ==> k in Keys(fields) && k in Keys(others)
    requires forall i :: 0 <= i < |fields| ==> WellFormed(fields[i].value)
    requires forall j :: 0 <= j < |others| ==> WellFormed(others[j].value)
    requires forall i, j :: 0 <= i < |fields| && 0 <= j < |others| && fields[i].key == others[j].key ==>
               Equiv(fields[i].value, others[j].value)
    ensures PrintFields(fields, keys) == PrintFields(others, keys)
    decreases fields, |keys|
  {
    var i, j := IndexOf(fields, keys[0]), IndexOf(others, keys[0]);
    assert fields[i].value < fields[i];
    EquivPrints(fields[i].value, others[j].value, UNDEFINED_TEXT);
    if |keys| > 1 {
      EquivFieldsPrint(fields, others, keys[1..]);
    }
  }

  // ---------------------------------------------------------------------------
  // The theorem

  lemma {:induction false} CanonDecides(v: Value, w: Value)
    requires WellFormed(v) && WellFormed(w) && Canon(v) == Canon(w)
    ensures Equiv(v, w)
    decreases v
  {
    match v
    case Array(items) =>
      if Shown(items) != [] {
        forall i | 0 <= i < |items|
          ensures Equiv(items[i], w.items[i])
        {
          CanonDecides(items[i], w.items[i]);
        }
      }
    case Record(fields) =>
      hide Sort;
      CanonFieldsDecide(fields, w.fields, Sort(Keys(fields)), Sort(Keys(w.fields)));
      forall i, j | 0 <= i < |fields| && 0 <= j < |w.fields| && fields[i].key == w.fields[j].key
        ensures Equiv(fields[i].value, w.fields[j].value)
      {
        CanonDecides(fields[i].value, w.fields[j].value);
      }
    case _ =>
  }

  /** Equal canonical fields come from the same keys with the same canonical values. */
  lemma CanonFieldsDecide(fields: seq<Field>, others: seq<Field>, keys: seq<Text>, keys': seq<Text>)
    requires Distinct(Keys(fields)) && Distinct(Keys(others))
    requires forall k :: k in keys <==> k in Keys(fields)
    requires forall k :: k in keys' <==> k in Keys(others)
    requires CanonFields(fields, keys) == CanonFields(others, keys')
    ensures forall k :: k in Keys(fields) <==> k in Keys(others)
    ensures forall i, j :: 0 <= i < |fields| && 0 <= j < |others| && fields[i].key == others[j].key ==>
              Canon(fields[i].value) == Canon(others[j].value)
  {
    assert keys == keys' by {
      forall i | 0 <= i < |keys|
        ensures keys[i] == keys'[i]
      {
        assert CanonFields(fields, keys)[i].key == CanonFields(others, keys')[i].key;
      }
    }
    forall i, j | 0 <= i < |fields| && 0 <= j < |others| && fields[i].key == others[j].key
      ensures Canon(fields[i].value) == Canon(others[j].value)
    {
      assert Keys(fields)[i] in keys;
      var k :| 0 <= k < |keys| && keys[k] == fields[i].key;
      CanonFieldAt(fields, keys, k, i);
      CanonFieldAt(others, keys', k, j);
    }
  }

  lemma {:induction false} CanonFieldAt(fields: seq<Field>, keys: seq<Text>, k: nat, i: nat)
    requires Distinct(Keys(fields)) && k < |keys| && i < |fields| && fields[i].key == keys[k]
    requires forall k :: k in keys ==> k in Keys(fields)
    ensures CanonFields(fields, keys)[k].value == Canon(fields[i].value)
    decreases k
  {
    hide Canon;
    if k == 0 {
      var n := IndexOf(fields, keys[0]);
      assert Keys(fields)[n] == Keys(fields)[i];
    } else {
      CanonFieldAt(fields, keys[1..], k - 1, i);
    }
  }

  /** The text of any value parses back to that value in canonical form. */
  lemma PrintParses(v: Value)
    requires WellFormed(v) && !v.Undefined?
    ensures Parse(Print(v, [])) == Some(Canon(v))
  {
    hide Print, ParseValue, Canon;
    ParsesValue(v, [], []);
    assert Print(v, []) + [] == Print(v, []);
  }

  /** Two values have the same text, hence the same checksum, exactly when they are equal up to key order. */
  lemma Unambiguous(v: Value, w: Value)
    requires WellFormed(v) && WellFormed(w) && !v.Undefined? && !w.Undefined?
    ensures Print(v, []) == Print(w, []) <==> Equiv(v, w)
  {
    hide WellFormed, Print, Canon, Equiv;
    if Print(v, []) == Print(w, []) {
      PrintParses(v);
      PrintParses(w);
      CanonDecides(v, w);
    }
    if Equiv(v, w) {
      EquivPrints(v, w, []);
    }
  }

  // ---------------------------------------------------------------------------
  // The text is well-formed UTF-16, so encoding it as UTF-8 loses nothing

  predicate Paired(t: Text) {
    if t == [] then true
    else if IsHigh(t[0]) then |t| > 1 && IsLow(t[1]) && Paired(t[2..])
    else !IsLow(t[0]) && Paired(t[1..])
  }

  lemma {:induction false} PairedConcat(a: Text, b: Text)
    requires Paired(a) && Paired(b)
    ensures Paired(a + b)
  {
    if a == [] {
      assert a + b == b;
    } else if IsHigh(a[0]) {
      PairedConcat(a[2..], b);
      assert (a + b)[2..] == a[2..] + b;
    } else {
      PairedConcat(a[1..], b);
      assert (a + b)[1..] == a[1..] + b;
    }
  }

  lemma {:induction false} BasicIsPaired(t: Text)
    requires forall i :: 0 <= i < |t| ==> t[i] < 0xD800
    ensures Paired(t)
  {
    if t != [] {
      BasicIsPaired(t[1..]);
    }
  }

  lemma EscapeUnitPaired(u: Unit)
    ensures Paired(EscapeUnit(u))
  {
    if |EscapeUnit(u)| == 1 {
      assert EscapeUnit(u) == [u] && Paired([u][1..]);
    } else {
      BasicIsPaired(EscapeUnit(u));
    }
  }

  lemma {:induction false} EscapePaired(s: Text)
    ensures Paired(Escape(s))
  {
    if s == [] {
    } else if |s| > 1 && IsHigh(s[0]) && IsLow(s[1]) {
      EscapePaired(s[2..]);
      assert (s[..2] + Escape(s[2..]))[2..] == Escape(s[2..]);
    } else {
      EscapePaired(s[1..]);
      EscapeUnitPaired(s[0]);
      PairedConcat(EscapeUnit(s[0]), Escape(s[1..]));
    }
  }

  lemma QuotedPaired(s: Text)
    ensures Paired(Quoted(s))
  {
    EscapePaired(s);
    BasicIsPaired([QUOTE]);
    PairedConcat([QUOTE], Escape(s));
    PairedConcat([QUOTE] + Escape(s), [QUOTE]);
  }

  /** No lone surrogate ever reaches the text. */
  lemma {:induction false} PrintPaired(v: Value, hole: Text)
    requires WellFormed(v) && Paired(hole)
    ensures Paired(Print(v, hole))
    decreases v
  {
    match v
    case String(units) => QuotedPaired(units);
    case Array(items) =>
      BasicIsPaired([OPEN_ARRAY]);
      BasicIsPaired([CLOSE_ARRAY]);
      if items != [] {
        ItemsPaired(items);
        PairedConcat([OPEN_ARRAY], PrintItems(items));
      } else {
        PairedConcat([OPEN_ARRAY], [CLOSE_ARRAY]);
      }
    case Record(fields) =>
      BasicIsPaired([OPEN_RECORD]);
      BasicIsPaired([CLOSE_RECORD]);
      if fields != [] {
        FieldsPaired(fields, Sort(Keys(fields)));
        PairedConcat([OPEN_RECORD], PrintFields(fields, Sort(Keys(fields))));
      } else {
        PairedConcat([OPEN_RECORD], [CLOSE_RECORD]);
      }
    case Undefined =>
    case _ => BasicIsPaired(Print(v, hole));
  }

  lemma {:induction false} ItemsPaired(items: seq<Value>)
    requires items != [] && forall i :: 0 <= i < |items| ==> WellFormed(items[i])
    ensures Paired(PrintItems(items))
    decreases items
  {
    BasicIsPaired([CLOSE_ARRAY]);
    BasicIsPaired([COMMA]);
    PrintPaired(items[0], []);
    if |items| == 1 {
      PairedConcat(Print(items[0], []), [CLOSE_ARRAY]);
    } else {
      ItemsPaired(items[1..]);
      PairedConcat([COMMA], PrintItems(items[1..]));
      PairedConcat(Print(items[0], []), [COMMA] + PrintItems(items[1..]));
    }
  }

  lemma {:induction false} FieldsPaired(fields: seq<Field>, keys: seq<Text>)
    requires keys != [] && forall k :: k in keys ==> k in Keys(fields)
    requires forall i :: 0 <= i < |fields| ==> WellFormed(fields[i].value)
    ensures Paired(PrintFields(fields, keys))
    decreases fields, |keys|
  {
    var field := fields[IndexOf(fields, keys[0])];
    assert field.value < field;
    hide Print, Quoted, WellFormed;
    BasicIsPaired([CLOSE_RECORD]);
    BasicIsPaired([COMMA]);
    BasicIsPaired([COLON]);
    BasicIsPaired(UNDEFINED_TEXT);
    QuotedPaired(keys[0]);
    PrintPaired(field.value, UNDEFINED_TEXT);
    PairedConcat(Quoted(keys[0]), [COLON]);
    PairedConcat(Quoted(keys[0]) + [COLON], Print(field.value, UNDEFINED_TEXT));
    if |keys| == 1 {
      PairedConcat(PrintField(fields, keys[0]), [CLOSE_RECORD]);
    } else {
      FieldsPaired(fields, keys[1..]);
      PairedConcat([COMMA], PrintFields(fields, keys[1..]));
      PairedConcat(PrintField(fields, keys[0]), [COMMA] + PrintFields(fields, keys[1..]));
    }
  }
}
