/** The text of canonicalJson in independent terms: the characters, the shortest escapes and the order of keys. */
module CanonicalJsonText {
  import opened Common
  import opened CanonicalJson
  import opened CanonicalJsonParser
  import opened CanonicalJsonTheorems

  // ---------------------------------------------------------------------------
  // Characters

  /** The code units of a text in the Basic Latin block. */
  function Units(s: string): (t: Text)
    requires forall i :: 0 <= i < |s| ==> s[i] < 128 as char
    ensures |t| == |s| && forall i :: 0 <= i < |s| ==> t[i] == s[i] as int
  {
    seq(|s|, i requires 0 <= i < |s| => s[i] as int)
  }

  lemma ConstantsByCharacter()
    ensures [QUOTE, COMMA, COLON, BACKSLASH] == Units("\",:\\")
    ensures [OPEN_ARRAY, CLOSE_ARRAY, OPEN_RECORD, CLOSE_RECORD] == Units("[]{}")
    ensures NULL_TEXT == Units("null") && TRUE_TEXT == Units("true") && FALSE_TEXT == Units("false")
    ensures UNDEFINED_TEXT == Units("undefined")
    ensures forall u: Unit :: IsNumeric(u) <==> u in Units("0123456789+-.e")
  {
    var numeric := Units("0123456789+-.e");
    forall u: Unit | IsNumeric(u)
      ensures u in numeric
    {
      if u <= 0x39 && u >= 0x30 {
        assert numeric[u - 0x30] == u;
      } else {
        assert numeric[10] == 0x2B && numeric[11] == 0x2D && numeric[12] == 0x2E && numeric[13] == 0x65;
      }
    }
  }

  /** The escapes with a letter, and the two characters a backslash goes before. */
  lemma EscapesByCharacter()
    ensures EscapeUnit(8) == Units("\\b") && EscapeUnit(9) == Units("\\t") && EscapeUnit(10) == Units("\\n")
    ensures EscapeUnit(12) == Units("\\f") && EscapeUnit(13) == Units("\\r")
    ensures EscapeUnit(QUOTE) == Units("\\\"") && EscapeUnit(BACKSLASH) == Units("\\\\")
  {
  }

  /** The digits of base 16 in lower case. */
  function Digits(): (t: Text)
    ensures |t| == 16
  {
    Units("0123456789abcdef")
  }

  lemma HexDigitByCharacter(n: nat)
    requires n < 16
    ensures HexDigit(n) == Digits()[n]
  {
    var d := Digits();
    assert d[0] == 0x30 && d[1] == 0x31 && d[2] == 0x32 && d[3] == 0x33 && d[4] == 0x34 && d[5] == 0x35;
    assert d[6] == 0x36 && d[7] == 0x37 && d[8] == 0x38 && d[9] == 0x39 && d[10] == 0x61 && d[11] == 0x62;
    assert d[12] == 0x63 && d[13] == 0x64 && d[14] == 0x65 && d[15] == 0x66;
  }

  /** `t` is a backslash, the letter u and the digits a, b, c and d of `u` in base 16. */
  predicate SpelledBy(t: Text, u: Unit, a: nat, b: nat, c: nat, d: nat) {
    && a < 16 && b < 16 && c < 16 && d < 16
    && u == ((a * 16 + b) * 16 + c) * 16 + d
    && t == Units("\\u") + [Digits()[a], Digits()[b], Digits()[c], Digits()[d]]
  }

  ghost predicate IsUnicodeEscape(t: Text, u: Unit) {
    exists a: nat, b: nat, c: nat, d: nat :: SpelledBy(t, u, a, b, c, d)
  }

  /** Every other control character and every lone surrogate. */
  lemma UnicodeEscapesByDigit(u: Unit)
    requires u < 8 || u == 11 || 14 <= u < 32 || 0xD800 <= u < 0xE000
    ensures IsUnicodeEscape(EscapeUnit(u), u)
  {
    var a, b, c, d := u / 4096, u / 256 % 16, u / 16 % 16, u % 16;
    HexDigitsSum(u);
    HexDigitByCharacter(a);
    HexDigitByCharacter(b);
    HexDigitByCharacter(c);
    HexDigitByCharacter(d);
    assert EscapeUnit(u) == UnicodeEscape(u);
    DigitsEscape(a, b, c, d, u);
  }

  lemma DigitsEscape(a: nat, b: nat, c: nat, d: nat, u: Unit)
    requires a < 16 && b < 16 && c < 16 && d < 16
    requires u == a * 4096 + b * 256 + c * 16 + d
    ensures SpelledBy([BACKSLASH, 0x75, Digits()[a], Digits()[b], Digits()[c], Digits()[d]], u, a, b, c, d)
  {
    hide Digits;
    assert Units("\\u") == [BACKSLASH, 0x75];
  }

  // ---------------------------------------------------------------------------
  // Strings: the shortest escapes

  lemma HexValueByDigit(u: Unit)
    requires HexValue(u).Some?
    ensures HexValue(u).value < 16 && HexDigit(HexValue(u).value) == u
  {
  }

  lemma LastDigit(q: nat, r: nat)
    requires r < 16
    ensures (q * 16 + r) / 16 == q && (q * 16 + r) % 16 == r
  {
  }

  lemma LowerDigits(u: nat)
    ensures u / 256 == u / 16 / 16 && u / 4096 == u / 16 / 16 / 16
  {
  }

  lemma FourDigits(w: nat, x: nat, y: nat, z: nat)
    requires w < 16 && x < 16 && y < 16 && z < 16
    ensures
      var u := w * 4096 + x * 256 + y * 16 + z;
      u / 4096 == w && u / 256 % 16 == x && u / 16 % 16 == y && u % 16 == z
  {
    var b := w * 16 + x;
    var c := b * 16 + y;
    LastDigit(w, x);
    LastDigit(b, y);
    LastDigit(c, z);
    LowerDigits(c * 16 + z);
  }

  lemma HexUnitDigits(a: Unit, b: Unit, c: Unit, d: Unit)
    requires HexUnit(a, b, c, d).Some?
    ensures UnicodeEscape(HexUnit(a, b, c, d).value) == [BACKSLASH, 0x75, a, b, c, d]
  {
    hide HexValue, HexDigit;
    HexValueByDigit(a);
    HexValueByDigit(b);
    HexValueByDigit(c);
    HexValueByDigit(d);
    FourDigits(HexValue(a).value, HexValue(b).value, HexValue(c).value, HexValue(d).value);
  }

  lemma EscapeNothing()
    ensures Escape([]) == []
  {
  }

  lemma EscapePair(high: Unit, low: Unit, s: Text)
    requires IsHigh(high) && IsLow(low)
    ensures Escape([high, low] + s) == [high, low] + Escape(s)
  {
    assert ([high, low] + s)[2..] == s;
  }

  lemma RawUnit(u: Unit)
    requires u >= 0x20 && u != QUOTE && u != BACKSLASH && !IsHigh(u) && !IsLow(u)
    ensures EscapeUnit(u) == [u]
  {
  }

  /** No escape of a unit is shorter than the printed one. */
  lemma ShortestUnit(u: Unit, escape: Text)
    requires |escape| == 2 || |escape| == 6
    requires escape[0] == BACKSLASH
    requires |escape| == 2 ==> SimpleEscape(escape[1]) == Some(u)
    requires |escape| == 6 ==> escape[1] == 0x75 && HexUnit(escape[2], escape[3], escape[4], escape[5]) == Some(u)
    ensures |EscapeUnit(u)| <= |escape|
    ensures |EscapeUnit(u)| == |escape| ==> EscapeUnit(u) == escape
  {
    if |escape| == 6 {
      HexUnitDigits(escape[2], escape[3], escape[4], escape[5]);
    }
    hide HexUnit, HexDigit;
  }

  /** Escaping a unit for itself is never shorter than escaping it together with what follows. */
  lemma EscapeFirst(u: Unit, s: Text)
    ensures |Escape([u] + s)| <= |EscapeUnit(u)| + |Escape(s)|
    ensures |Escape([u] + s)| == |EscapeUnit(u)| + |Escape(s)| ==> Escape([u] + s) == EscapeUnit(u) + Escape(s)
  {
    var t := [u] + s;
    assert t[1..] == s;
    if |t| > 1 && IsHigh(t[0]) && IsLow(t[1]) {
      assert t[2..] == s[1..];
      assert Escape(s) == EscapeUnit(s[0]) + Escape(s[1..]);
    }
  }

  /**
   Whatever text JSON reads as the string `s` is at least as long as the printed one, and equally long only
   if it is the printed one.
   */
  lemma {:induction false} EscapeShortest(t: Text, s: Text, rest: Text)
    requires ParseUnits(t) == Some((s, rest))
    ensures |Escape(s)| + 1 + |rest| <= |t|
    ensures |Escape(s)| + 1 + |rest| == |t| ==> t == Escape(s) + [QUOTE] + rest
    decreases |t|, 1
  {
    hide Escape, EscapeUnit, HexUnit, SimpleEscape;
    if t[0] == QUOTE {
      QuoteShortest(t);
    } else if IsHigh(t[0]) {
      PairShortest(t, s, rest);
    } else if t[0] != BACKSLASH {
      RawShortest(t, s, rest);
    } else {
      EscapedShortest(t, s, rest);
    }
  }

  lemma QuoteShortest(t: Text)
    requires t != [] && t[0] == QUOTE
    ensures ParseUnits(t) == Some(([], t[1..])) && t == Escape([]) + [QUOTE] + t[1..]
  {
    EscapeNothing();
    hide Escape;
  }

  lemma {:induction false} PairShortest(t: Text, s: Text, rest: Text)
    requires ParseUnits(t) == Some((s, rest)) && IsHigh(t[0])
    ensures |Escape(s)| + 1 + |rest| <= |t|
    ensures |Escape(s)| + 1 + |rest| == |t| ==> t == Escape(s) + [QUOTE] + rest
    decreases |t|, 0
  {
    hide Escape, EscapeUnit, HexUnit, SimpleEscape;
    var tail := ParseUnits(t[2..]).value.0;
    assert s == [t[0], t[1]] + tail && t == [t[0], t[1]] + t[2..];
    EscapeShortest(t[2..], tail, rest);
    EscapePair(t[0], t[1], tail);
    hide ParseUnits;
  }

  lemma {:induction false} RawShortest(t: Text, s: Text, rest: Text)
    requires ParseUnits(t) == Some((s, rest)) && !IsHigh(t[0]) && t[0] != QUOTE && t[0] != BACKSLASH
    ensures |Escape(s)| + 1 + |rest| <= |t|
    ensures |Escape(s)| + 1 + |rest| == |t| ==> t == Escape(s) + [QUOTE] + rest
    decreases |t|, 0
  {
    hide Escape, EscapeUnit, HexUnit, SimpleEscape;
    var tail := ParseUnits(t[1..]).value.0;
    assert s == [t[0]] + tail && t == [t[0]] + t[1..];
    EscapeShortest(t[1..], tail, rest);
    RawUnit(t[0]);
    EscapeFirst(t[0], tail);
    hide ParseUnits;
  }

  lemma {:induction false} EscapedShortest(t: Text, s: Text, rest: Text)
    requires ParseUnits(t) == Some((s, rest)) && t[0] == BACKSLASH
    ensures |Escape(s)| + 1 + |rest| <= |t|
    ensures |Escape(s)| + 1 + |rest| == |t| ==> t == Escape(s) + [QUOTE] + rest
    decreases |t|, 0
  {
    hide Escape, EscapeUnit, HexUnit, SimpleEscape;
    var k := if t[1] == 0x75 then 6 else 2;
    var escape, u, tail := t[..k], s[0], ParseUnits(t[k..]).value.0;
    assert t == escape + t[k..] && s == [u] + tail;
    EscapeShortest(t[k..], tail, rest);
    ShortestUnit(u, escape);
    EscapeFirst(u, tail);
    hide ParseUnits;
    if |Escape(s)| + 1 + |rest| == |t| {
      assert Escape(s) == escape + Escape(tail);
    }
  }

  /** Text of pairs and characters that need no escape stays as it is. */
  lemma {:induction false} EscapeIdentity(s: Text)
    requires Paired(s) && forall i :: 0 <= i < |s| ==> s[i] >= 0x20 && s[i] != QUOTE && s[i] != BACKSLASH
    ensures Escape(s) == s
  {
    if s == [] {
    } else if IsHigh(s[0]) {
      EscapeIdentity(s[2..]);
    } else {
      EscapeIdentity(s[1..]);
    }
  }

  // ---------------------------------------------------------------------------
  // The order of keys

  /** `a` and `b` agree before position `i`, where `a` has the smaller code unit. */
  predicate SmallerAt(a: Text, b: Text, i: nat) {
    i < |a| && i < |b| && a[..i] == b[..i] && a[i] < b[i]
  }

  /** The order of the code units: a proper prefix comes first, else the first difference decides. */
  ghost predicate Precedes(a: Text, b: Text) {
    a < b || exists i: nat :: SmallerAt(a, b, i)
  }

  lemma {:induction false} LessExactly(a: Text, b: Text)
    ensures Less(a, b) <==> Precedes(a, b)
  {
    if a != [] && b != [] && a[0] == b[0] {
      LessExactly(a[1..], b[1..]);
      PrecedesTail(a, b);
    } else if a != [] && b != [] {
      if a[0] < b[0] {
        assert SmallerAt(a, b, 0);
      }
      forall i: nat | SmallerAt(a, b, i)
        ensures i == 0
      {
        if i > 0 {
          SameStart(a, b, i);
        }
      }
    }
  }

  lemma SameStart(a: Text, b: Text, i: nat)
    requires 0 < i <= |a| && i <= |b| && a[..i] == b[..i]
    ensures a[0] == b[0]
  {
    assert a[..i][0] == a[0] && b[..i][0] == b[0];
  }

  lemma PrecedesTail(a: Text, b: Text)
    requires a != [] && b != [] && a[0] == b[0]
    ensures Precedes(a, b) <==> Precedes(a[1..], b[1..])
  {
    assert a == [a[0]] + a[1..] && b == [b[0]] + b[1..];
    forall i: nat | SmallerAt(a, b, i)
      ensures i > 0 && SmallerAt(a[1..], b[1..], i - 1)
    {
      assert a[1..][..i - 1] == a[..i][1..] && b[1..][..i - 1] == b[..i][1..];
    }
    forall i: nat | SmallerAt(a[1..], b[1..], i)
      ensures SmallerAt(a, b, i + 1)
    {
      assert a[..i + 1] == [a[0]] + a[1..][..i] && b[..i + 1] == [b[0]] + b[1..][..i];
    }
  }

  /** The keys of a record are printed in strictly ascending order of their code units. */
  lemma SortPrecedes(keys: seq<Text>, i: nat, j: nat)
    requires Distinct(keys) && i < j < |keys|
    ensures Precedes(Sort(keys)[i], Sort(keys)[j])
  {
    SortAscends(keys);
    LessExactly(Sort(keys)[i], Sort(keys)[j]);
  }

  lemma CanonOfRecord(fields: seq<Field>)
    ensures Canon(Record(fields)) == Record(CanonFields(fields, Sort(Keys(fields))))
  {
  }

  /** A record's canonical form: its own properties, each once, in that order. */
  lemma CanonRecord(fields: seq<Field>, n: nat)
    requires WellFormed(Record(fields)) && n < |fields|
    ensures var r := Canon(Record(fields)).fields;
      && |r| == |fields|
      && (forall i, j :: 0 <= i < j < |r| ==> Precedes(r[i].key, r[j].key))
      && Field(fields[n].key, Canon(fields[n].value)) in r
  {
    hide Canon, Precedes, Sort;
    var keys := Sort(Keys(fields));
    var r := CanonFields(fields, keys);
    CanonOfRecord(fields);
    forall i, j | 0 <= i < j < |r|
      ensures Precedes(r[i].key, r[j].key)
    {
      SortPrecedes(Keys(fields), i, j);
    }
    assert Keys(fields)[n] in keys;
    var k :| 0 <= k < |keys| && keys[k] == fields[n].key;
    CanonFieldAt(fields, keys, k, n);
    assert r[k] == Field(fields[n].key, Canon(fields[n].value));
  }
}
