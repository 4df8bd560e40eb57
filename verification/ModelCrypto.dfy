/**
 The associated data that binds a sealed key to its configuration, and an ideal authenticated cipher:
 a ciphertext opens under its own nonce and associated data only, to what was sealed.
 */
module ModelCrypto {
  import opened Common

  type Byte = b: nat | b < 0x100
  type Bytes = seq<Byte>

  // ---------------------------------------------------------------------------
  // Integers and frames

  function Power(n: nat): (p: nat)
    ensures p > 0
  {
    if n == 0 then 1 else 256 * Power(n - 1)
  }

  /** int.to_bytes(length, "big"); the caller keeps the value below 256 to the length. */
  function ToBytes(value: nat, length: nat): (r: Bytes)
    ensures |r| == length
  {
    if length == 0 then [] else ToBytes(value / 256, length - 1) + [value % 256]
  }

  function FromBytes(bytes: Bytes): nat {
    if bytes == [] then 0 else 256 * FromBytes(bytes[..|bytes| - 1]) + bytes[|bytes| - 1]
  }

  function BitLength(n: nat): nat {
    if n == 0 then 0 else 1 + BitLength(n / 2)
  }

  function ByteLength(n: nat): nat {
    var length := (BitLength(n) + 7) / 8;
    if length < 1 then 1 else length
  }

  function PositiveIntegerBytes(n: nat): Bytes {
    ToBytes(n, ByteLength(n))
  }

  const FRAME_LIMIT: nat := 0x1_0000_0000

  /** to_bytes raises OverflowError at the limit. */
  function Frame(value: Bytes): Bytes
    requires |value| < FRAME_LIMIT
  {
    ToBytes(|value|, 4) + value
  }

  function Frames(fields: seq<Bytes>): Bytes
    requires forall f :: f in fields ==> |f| < FRAME_LIMIT
  {
    if fields == [] then [] else Frame(fields[0]) + Frames(fields[1..])
  }

  lemma {:induction false} BytesRoundTrip(value: nat, length: nat)
    requires value < Power(length)
    ensures FromBytes(ToBytes(value, length)) == value
  {
    if length > 0 {
      BytesRoundTrip(value / 256, length - 1);
      var r := ToBytes(value, length);
      assert r[..|r| - 1] == ToBytes(value / 256, length - 1);
    }
  }

  function PowerOfTwo(n: nat): (p: nat)
    ensures p > 0
  {
    if n == 0 then 1 else 2 * PowerOfTwo(n - 1)
  }

  lemma {:induction false} BitLengthBounds(n: nat)
    ensures n < PowerOfTwo(BitLength(n))
  {
    if n > 0 {
      BitLengthBounds(n / 2);
    }
  }

  lemma {:induction false} PowerIsPowerOfTwo(length: nat)
    ensures Power(length) == PowerOfTwo(8 * length)
  {
    if length > 0 {
      PowerIsPowerOfTwo(length - 1);
      var m := 8 * (length - 1);
      assert PowerOfTwo(m + 8) == 2 * PowerOfTwo(m + 7) == 4 * PowerOfTwo(m + 6) == 8 * PowerOfTwo(m + 5);
      assert PowerOfTwo(m + 5) == 2 * PowerOfTwo(m + 4) == 4 * PowerOfTwo(m + 3) == 8 * PowerOfTwo(m + 2);
      assert PowerOfTwo(m + 2) == 2 * PowerOfTwo(m + 1) == 4 * PowerOfTwo(m);
    }
  }

  lemma {:induction false} PowerOfTwoGrows(a: nat, b: nat)
    requires a <= b
    ensures PowerOfTwo(a) <= PowerOfTwo(b)
  {
    if a < b {
      PowerOfTwoGrows(a, b - 1);
    }
  }

  /** The length computed from the bit length is enough, so the integer reads back. */
  lemma IntegerRoundTrip(n: nat)
    ensures FromBytes(PositiveIntegerBytes(n)) == n
  {
    BitLengthBounds(n);
    PowerIsPowerOfTwo(ByteLength(n));
    PowerOfTwoGrows(BitLength(n), 8 * ByteLength(n));
    BytesRoundTrip(n, ByteLength(n));
  }

  /** Frames are read off one by one: equal framings have equal parts. */
  lemma FrameSplits(a: Bytes, b: Bytes, x: Bytes, y: Bytes)
    requires |a| < FRAME_LIMIT && |b| < FRAME_LIMIT
    requires Frame(a) + x == Frame(b) + y
    ensures a == b && x == y
  {
    var s, t := Frame(a) + x, Frame(b) + y;
    assert s[..4] == ToBytes(|a|, 4) && t[..4] == ToBytes(|b|, 4);
    assert Power(4) == FRAME_LIMIT by {
      assert Power(2) == 65536;
    }
    BytesRoundTrip(|a|, 4);
    BytesRoundTrip(|b|, 4);
    assert s[4..4 + |a|] == a && t[4..4 + |a|] == b;
    assert s[4 + |a|..] == x && t[4 + |a|..] == y;
  }

  lemma {:induction false} FramesInjective(fs: seq<Bytes>, gs: seq<Bytes>)
    requires |fs| == |gs|
    requires forall f :: f in fs ==> |f| < FRAME_LIMIT
    requires forall g :: g in gs ==> |g| < FRAME_LIMIT
    requires Frames(fs) == Frames(gs)
    ensures fs == gs
  {
    if fs != [] {
      FrameSplits(fs[0], gs[0], Frames(fs[1..]), Frames(gs[1..]));
      FramesInjective(fs[1..], gs[1..]);
      assert fs == [fs[0]] + fs[1..] && gs == [gs[0]] + gs[1..];
    }
  }

  // ---------------------------------------------------------------------------
  // Associated data

  datatype Provider = OpenAI | Anthropic | Google | DashScope | DeepSeek | MiniMax

  predicate IsAscii(s: string) {
    forall i :: 0 <= i < |s| ==> s[i] < 128 as char
  }

  function Name(p: Provider): (r: string)
    ensures IsAscii(r) && |r| < 32
  {
    match p
    case OpenAI => "openai"
    case Anthropic => "anthropic"
    case Google => "google"
    case DashScope => "dashscope"
    case DeepSeek => "deepseek"
    case MiniMax => "minimax"
  }

  function Ascii(s: string): (r: Bytes)
    requires IsAscii(s)
    ensures |r| == |s|
    ensures forall i :: 0 <= i < |s| ==> r[i] == s[i] as nat
  {
    if s == [] then [] else Ascii(s[..|s| - 1]) + [s[|s| - 1] as nat]
  }

  /** The 128 bits of a configuration's identifier. */
  type ConfigId = n: nat | n < Power(16)

  datatype Context = Context(config: ConfigId, provider: Provider, revision: nat, keyVersion: nat)

  const DOMAIN := "agent-model-config:aes-256-gcm:v1"

  function DomainBytes(): (r: Bytes)
    ensures |r| == 33
  {
    Ascii(DOMAIN)
  }

  function Fields(c: Context): seq<Bytes> {
    [DomainBytes(),
     ToBytes(c.config, 16),
     Ascii(Name(c.provider)),
     PositiveIntegerBytes(c.revision),
     PositiveIntegerBytes(c.keyVersion)]
  }

  /** Integers of 2^32 bytes or more are beyond every column the service writes. */
  predicate Fits(c: Context) {
    ByteLength(c.revision) < FRAME_LIMIT && ByteLength(c.keyVersion) < FRAME_LIMIT
  }

  function AssociatedData(c: Context): Bytes
    requires Fits(c)
  {
    Frames(Fields(c))
  }

  lemma NameInjective(p: Provider, q: Provider)
    requires Ascii(Name(p)) == Ascii(Name(q))
    ensures p == q
  {
    assert |Name(p)| == |Name(q)|;
    assert forall i :: 0 <= i < |Name(p)| ==> Ascii(Name(p))[i] == Name(p)[i] as nat && Ascii(Name(q))[i] == Name(q)[i] as nat;
    assert Name(p)[0] as nat == Name(q)[0] as nat && Name(p)[1] as nat == Name(q)[1] as nat;
  }

  /** Different contexts never share their associated data. */
  lemma AssociatedDataInjective(c: Context, d: Context)
    requires Fits(c) && Fits(d) && AssociatedData(c) == AssociatedData(d)
    ensures c == d
  {
    FramesInjective(Fields(c), Fields(d));
    assert forall i :: 0 <= i < 5 ==> Fields(c)[i] == Fields(d)[i];
    BytesRoundTrip(c.config, 16);
    BytesRoundTrip(d.config, 16);
    assert Fields(c)[1] == Fields(d)[1];
    assert Fields(c)[2] == Fields(d)[2];
    NameInjective(c.provider, d.provider);
    assert Fields(c)[3] == Fields(d)[3] && Fields(c)[4] == Fields(d)[4];
    IntegerRoundTrip(c.revision);
    IntegerRoundTrip(d.revision);
    IntegerRoundTrip(c.keyVersion);
    IntegerRoundTrip(d.keyVersion);
  }

  // ---------------------------------------------------------------------------
  // Sealing and opening

  /** An ideal ciphertext: what decryption checks, and what it then yields. */
  datatype Ciphertext = Ciphertext(nonce: Bytes, data: Bytes, plaintext: string)

  datatype Sealed = Sealed(ciphertext: Ciphertext, nonce: Bytes, keyVersion: nat, lastFour: string)

  const KEY_VERSION: nat := 1
  const NONCE_BYTES: nat := 12
  const MIN_KEY: nat := 8
  const MAX_KEY: nat := 4096

  /** str.isspace on one character. */
  predicate IsSpace(c: char) {
    || 0x09 <= c as int <= 0x0D || 0x1C <= c as int <= 0x20 || c as int in {0x85, 0xA0, 0x1680}
    || 0x2000 <= c as int <= 0x200A || c as int in {0x2028, 0x2029, 0x202F, 0x205F, 0x3000}
  }

  predicate NoSpace(s: string) {
    forall i :: 0 <= i < |s| ==> !IsSpace(s[i])
  }

  predicate ValidSecret(s: string) {
    MIN_KEY <= |s| <= MAX_KEY && NoSpace(s)
  }

  function LastFour(s: string): string
    requires |s| >= 4
  {
    s[|s| - 4..]
  }

  predicate ValidContext(c: Context) {
    c.revision >= 1 && Fits(c)
  }

  function Encrypt(nonce: Bytes, data: Bytes, plaintext: string): Ciphertext {
    Ciphertext(nonce, data, plaintext)
  }

  function Decrypt(nonce: Bytes, data: Bytes, c: Ciphertext): Option<string> {
    if c.nonce == nonce && c.data == data then Some(c.plaintext) else None
  }

  /** None is ModelConfigCryptoError. */
  function Seal(config: ConfigId, provider: Provider, revision: nat, secret: string, nonce: Bytes): Option<Sealed> {
    var c := Context(config, provider, revision, KEY_VERSION);
    if !ValidContext(c) || !ValidSecret(secret) || |nonce| != NONCE_BYTES then None
    else Some(Sealed(Encrypt(nonce, AssociatedData(c), secret), nonce, KEY_VERSION, LastFour(secret)))
  }

  function Open(config: ConfigId, provider: Provider, revision: nat, sealed: Sealed): Option<string> {
    var c := Context(config, provider, revision, sealed.keyVersion);
    if sealed.keyVersion != KEY_VERSION || !ValidContext(c) then None
    else if |sealed.nonce| != NONCE_BYTES || |sealed.lastFour| != 4 || !NoSpace(sealed.lastFour) then None
    else match Decrypt(sealed.nonce, AssociatedData(c), sealed.ciphertext)
      case None => None
      case Some(plaintext) =>
        if ValidSecret(plaintext) && LastFour(plaintext) == sealed.lastFour then Some(plaintext) else None
  }

  /** A sealed key opens in its own context to exactly what was sealed, and in no other context at all. */
  lemma OpensInItsContextOnly(
    config: ConfigId, provider: Provider, revision: nat, secret: string, nonce: Bytes,
    config': ConfigId, provider': Provider, revision': nat)
    requires Seal(config, provider, revision, secret, nonce).Some?
    ensures Open(config', provider', revision', Seal(config, provider, revision, secret, nonce).value) ==
            if (config', provider', revision') == (config, provider, revision) then Some(secret) else None
  {
    var c, c' := Context(config, provider, revision, KEY_VERSION), Context(config', provider', revision', KEY_VERSION);
    hide AssociatedData, Fits;
    if ValidContext(c') && AssociatedData(c') == AssociatedData(c) {
      AssociatedDataInjective(c', c);
    }
    assert NoSpace(LastFour(secret));
  }

  /** Opening is the inverse of sealing: it yields a secret exactly if sealing that secret yields what was opened. */
  lemma OpensWhatIsSealed(config: ConfigId, provider: Provider, revision: nat, sealed: Sealed, secret: string)
    ensures Open(config, provider, revision, sealed) == Some(secret) <==>
            Seal(config, provider, revision, secret, sealed.nonce) == Some(sealed)
  {
    hide AssociatedData, Fits, IsSpace;
  }

  /** The 29 white space characters. */
  lemma SpaceCodePoints(c: char)
    ensures IsSpace(c) <==>
            c as int in {0x09, 0x0A, 0x0B, 0x0C, 0x0D, 0x1C, 0x1D, 0x1E, 0x1F, 0x20, 0x85, 0xA0, 0x1680,
                         0x2000, 0x2001, 0x2002, 0x2003, 0x2004, 0x2005, 0x2006, 0x2007, 0x2008, 0x2009, 0x200A,
                         0x2028, 0x2029, 0x202F, 0x205F, 0x3000}
  {
  }

  /** Sealing succeeds for keys of 8 to 4096 characters without white space under a nonce of twelve bytes. */
  lemma SealsExactly(config: ConfigId, provider: Provider, revision: nat, secret: string, nonce: Bytes)
    ensures Seal(config, provider, revision, secret, nonce).Some? <==>
            && revision >= 1 && Fits(Context(config, provider, revision, 1))
            && 8 <= |secret| <= 4096 && (forall i :: 0 <= i < |secret| ==> !IsSpace(secret[i]))
            && |nonce| == 12
    ensures Seal(config, provider, revision, secret, nonce).Some? ==>
              var sealed := Seal(config, provider, revision, secret, nonce).value;
              sealed.nonce == nonce && sealed.keyVersion == 1 && |sealed.lastFour| == 4
              && secret == secret[..|secret| - 4] + sealed.lastFour
  {
    hide AssociatedData, Fits, IsSpace;
  }

  // ---------------------------------------------------------------------------
  // Reading the associated data back

  /** Fields behind lengths of four bytes, up to the end of the data. */
  function ReadFrames(data: Bytes): Option<seq<Bytes>>
    decreases |data|
  {
    if data == [] then Some([])
    else if |data| < 4 || |data| - 4 < FromBytes(data[..4]) then None
    else
      var end := 4 + FromBytes(data[..4]);
      match ReadFrames(data[end..])
      case None => None
      case Some(fields) => Some([data[4..end]] + fields)
  }

  lemma {:induction false} FramesReadBack(fields: seq<Bytes>)
    requires forall f :: f in fields ==> |f| < FRAME_LIMIT
    ensures ReadFrames(Frames(fields)) == Some(fields)
  {
    if fields != [] {
      var f, rest := fields[0], Frames(fields[1..]);
      var data := Frame(f) + rest;
      LengthReadsBack(f);
      assert data[..4] == ToBytes(|f|, 4) && data[4..4 + |f|] == f && data[4 + |f|..] == rest;
      hide ToBytes, FromBytes;
      FramesReadBack(fields[1..]);
      assert fields == [f] + fields[1..];
    }
  }

  lemma LengthReadsBack(f: Bytes)
    requires |f| < FRAME_LIMIT
    ensures FromBytes(ToBytes(|f|, 4)) == |f|
  {
    assert Power(4) == FRAME_LIMIT by {
      assert Power(2) == 65536;
    }
    BytesRoundTrip(|f|, 4);
  }

  lemma {:induction false} FromBytesBelow(bytes: Bytes)
    ensures FromBytes(bytes) < Power(|bytes|)
  {
    if bytes != [] {
      FromBytesBelow(bytes[..|bytes| - 1]);
    }
  }

  /** A leading zero byte adds nothing. */
  lemma {:induction false} LeadingZero(bytes: Bytes)
    requires bytes != [] && bytes[0] == 0
    ensures FromBytes(bytes) == FromBytes(bytes[1..])
  {
    var n := |bytes| - 1;
    if n > 0 {
      LeadingZero(bytes[..n]);
      assert bytes[1..][..n - 1] == bytes[..n][1..];
    } else {
      assert bytes[..0] == [] && bytes[1..] == [];
    }
  }

  lemma {:induction false} BitLengthLeast(n: nat)
    requires n > 0
    ensures BitLength(n) > 0 && PowerOfTwo(BitLength(n) - 1) <= n
  {
    if n > 1 {
      BitLengthLeast(n / 2);
    }
  }

  predicate NoLeadingZero(bytes: Bytes) {
    |bytes| == 1 || (|bytes| > 1 && bytes[0] > 0)
  }

  /** The integer takes one byte, or begins with a byte that is not zero. */
  lemma IntegerMinimal(n: nat)
    ensures NoLeadingZero(PositiveIntegerBytes(n))
  {
    hide ToBytes, FromBytes;
    IntegerRoundTrip(n);
    var bytes := PositiveIntegerBytes(n);
    if |bytes| > 1 && bytes[0] == 0 {
      LeadingZero(bytes);
      FromBytesBelow(bytes[1..]);
      BitLengthLeast(n);
      PowerIsPowerOfTwo(|bytes| - 1);
      PowerOfTwoGrows(8 * (|bytes| - 1), BitLength(n) - 1);
    }
  }

  /** The bytes of a text in the Basic Latin block. */
  predicate IsText(bytes: Bytes, s: string) {
    |bytes| == |s| && forall i :: 0 <= i < |s| ==> bytes[i] == s[i] as nat
  }

  /**
   The associated data is the domain, the sixteen bytes of the identifier, the provider's name, and the
   revision and the key version as big-endian integers, each behind its length in four bytes.
   */
  lemma AssociatedDataReadsBack(c: Context)
    requires Fits(c)
    ensures
      var fields := ReadFrames(AssociatedData(c));
      && fields.Some? && |fields.value| == 5
      && IsText(fields.value[0], "agent-model-config:aes-256-gcm:v1")
      && |fields.value[1]| == 16 && FromBytes(fields.value[1]) == c.config
      && IsText(fields.value[2],
                match c.provider
                case OpenAI => "openai"
                case Anthropic => "anthropic"
                case Google => "google"
                case DashScope => "dashscope"
                case DeepSeek => "deepseek"
                case MiniMax => "minimax")
      && FromBytes(fields.value[3]) == c.revision && NoLeadingZero(fields.value[3])
      && FromBytes(fields.value[4]) == c.keyVersion && NoLeadingZero(fields.value[4])
  {
    hide ReadFrames, Frames, ToBytes, FromBytes, ByteLength;
    FramesReadBack(Fields(c));
    BytesRoundTrip(c.config, 16);
    IntegerRoundTrip(c.revision);
    IntegerRoundTrip(c.keyVersion);
    IntegerMinimal(c.revision);
    IntegerMinimal(c.keyVersion);
  }
}
