/** base58btc and the Ed25519 `did:key` names built on it. */
module Base58 {
  import opened Wrappers
  import opened Numerals

  type Byte = b: nat | b < 256

  const DIGITS := "123456789"
  const UPPER := "ABCDEFGH" + "JKLMN" + "PQRSTUVWXYZ"
  const LOWER := "abcdefghijk" + "mnopqrstuvwxyz"
  const ALPHABET: string := DIGITS + UPPER + LOWER

  const DID_PREFIX: string := "did:key:z"
  const ED25519_MULTICODEC: seq<Byte> := [0xed, 0x01]

  datatype CodecError = BadCharacter | BadKeyLength | NotDidKey | NotEd25519

  // ---------------------------------------------------------------- alphabet

  function Letter(d: nat): char
    requires d < 58
  {
    ALPHABET[d]
  }

  lemma DigitsAscend(i: nat)
    requires i + 1 < |DIGITS|
    ensures DIGITS[i] < DIGITS[i + 1]
  {
  }

  lemma UpperAscends(i: nat)
    requires i + 1 < |UPPER|
    ensures UPPER[i] < UPPER[i + 1]
  {
  }

  lemma LowerAscends(i: nat)
    requires i + 1 < |LOWER|
    ensures LOWER[i] < LOWER[i + 1]
  {
  }

  lemma AlphabetAscends(i: nat)
    requires i + 1 < 58
    ensures Letter(i) < Letter(i + 1)
  {
    if i < 8 {
      DigitsAscend(i);
    } else if 9 <= i < 32 {
      UpperAscends(i - 9);
    } else if 33 <= i {
      LowerAscends(i - 33);
    }
  }

  lemma {:induction false} AlphabetSorted(i: nat, j: nat)
    requires i < j < 58
    ensures Letter(i) < Letter(j)
    decreases j
  {
    hide Letter;
    AlphabetAscends(j - 1);
    if i < j - 1 {
      AlphabetSorted(i, j - 1);
    }
  }

  /** The position of a character in the alphabet, looking from `from` on. */
  function IndexFrom(c: char, from: nat): (r: Option<nat>)
    requires from <= 58
    ensures r.Some? ==> from <= r.value < 58 && Letter(r.value) == c
    ensures r.None? ==> forall i | from <= i < 58 :: Letter(i) != c
    decreases 58 - from
  {
    if from == 58 then None
    else if Letter(from) == c then Some(from)
    else IndexFrom(c, from + 1)
  }

  function Index(c: char): (r: Option<nat>)
    ensures r.Some? ==> r.value < 58 && Letter(r.value) == c
    ensures r.None? ==> forall i | 0 <= i < 58 :: Letter(i) != c
  {
    IndexFrom(c, 0)
  }

  lemma IndexOfDigit(d: nat)
    requires d < 58
    ensures Index(Letter(d)) == Some(d)
  {
    var i := Index(Letter(d)).value;
    if i < d {
      AlphabetSorted(i, d);
    } else if d < i {
      AlphabetSorted(d, i);
    }
  }

  ghost predicate InAlphabet(s: string) {
    forall i | 0 <= i < |s| :: Index(s[i]).Some?
  }

  function Spell(ds: seq<nat>): (s: string)
    requires AllDigits(ds, 58)
    ensures |s| == |ds| && forall i | 0 <= i < |s| :: s[i] == Letter(ds[i])
  {
    seq(|ds|, i requires 0 <= i < |ds| => Letter(ds[i]))
  }

  ghost function Read(s: string): (ds: seq<nat>)
    requires InAlphabet(s)
    ensures |ds| == |s| && AllDigits(ds, 58)
    ensures forall i | 0 <= i < |s| :: Letter(ds[i]) == s[i]
  {
    seq(|s|, i requires 0 <= i < |s| => Index(s[i]).value)
  }

  lemma ReadSpell(ds: seq<nat>)
    requires AllDigits(ds, 58)
    ensures InAlphabet(Spell(ds)) && Read(Spell(ds)) == ds
  {
    hide Letter, IndexFrom;
    forall i | 0 <= i < |ds|
      ensures Index(Spell(ds)[i]) == Some(ds[i])
    {
      IndexOfDigit(ds[i]);
    }
  }

  // ------------------------------------------------------- what the codec means

  function Ones(n: nat): (s: string)
    ensures |s| == n && forall i | 0 <= i < n :: s[i] == '1'
  {
    seq(n, _ => '1')
  }

  /** One '1' per leading zero byte, then the base-58 numeral of the bytes read as one number. */
  ghost function Encoded(input: seq<Byte>): string {
    Ones(Leading(input, 0)) + Spell(Minimal(Value(input, 256), 58))
  }

  /** One zero byte per leading '1', then the base-256 numeral of the number spelled. */
  ghost function Decoded(s: string): Result<seq<Byte>, CodecError> {
    if !InAlphabet(s) then Err(BadCharacter)
    else Ok(Zeros(Leading(s, '1')) + Minimal(Value(Read(s), 58), 256))
  }

  // --------------------------------------------------------------- the two loops

  lemma SpellCons(d: nat, ds: seq<nat>)
    requires d < 58 && AllDigits(ds, 58)
    ensures Spell([d] + ds) == [Letter(d)] + Spell(ds)
  {
  }

  method Base58Encode(input: seq<Byte>) returns (encoded: string)
    ensures encoded == Encoded(input)
  {
    if |input| == 0 {
      return "";
    }
    hide Value, Leading, Letter, Minimal, Spell;
    var numeric := Value(input, 256);
    ghost var whole := Minimal(numeric, 58);
    ghost var done: seq<nat> := [];
    encoded := "";
    while numeric > 0
      invariant AllDigits(done, 58) && encoded == Spell(done)
      invariant whole == Minimal(numeric, 58) + done
    {
      var remainder := numeric % 58;
      MinimalStep(numeric, 58, done);
      SpellCons(remainder, done);
      done := [remainder] + done;
      encoded := [Letter(remainder)] + encoded;
      numeric := numeric / 58;
    }
    var zeroes := 0;
    while zeroes < |input| && input[zeroes] == 0
      invariant zeroes <= |input| && forall i | 0 <= i < zeroes :: input[i] == 0
    {
      zeroes := zeroes + 1;
    }
    LeadingUnique(input, 0, zeroes);
    encoded := Ones(zeroes) + encoded;
  }

  /** Pairs of base-16 digits as bytes. */
  function Pair(hex: seq<nat>): (bs: seq<Byte>)
    requires AllDigits(hex, 16) && |hex| % 2 == 0
    ensures 2 * |bs| == |hex|
  {
    seq(|hex| / 2, i requires 0 <= i < |hex| / 2 => hex[2 * i] * 16 + hex[2 * i + 1])
  }

  lemma {:induction false} ValueOfPair(hex: seq<nat>)
    requires AllDigits(hex, 16) && |hex| % 2 == 0
    ensures Value(Pair(hex), 256) == Value(hex, 16)
    decreases |hex|
  {
    if hex != [] {
      var n := |hex|;
      var front := hex[..n - 2];
      ValueOfPair(front);
      assert Pair(hex) == Pair(front) + [hex[n - 2] * 16 + hex[n - 1]];
      ValueSnoc(Pair(front), hex[n - 2] * 16 + hex[n - 1], 256);
      ValueSnoc(front, hex[n - 2], 16);
      ValueSnoc(front + [hex[n - 2]], hex[n - 1], 16);
      assert hex == front + [hex[n - 2]] + [hex[n - 1]];
    }
  }

  /** An even number of hexadecimal digits, at most one of them a leading zero, gives minimal bytes. */
  lemma {:induction false} HexToBytes(numeric: nat, hex: seq<nat>)
    requires numeric > 0 && |hex| % 2 == 0
    requires hex == Minimal(numeric, 16) || hex == [0] + Minimal(numeric, 16)
    ensures AllDigits(hex, 16) && Pair(hex) == Minimal(numeric, 256)
  {
    hide Value, Minimal;
    ValueOfMinimal(numeric, 16);
    if hex != Minimal(numeric, 16) {
      ValueSkipsZeros(hex, 16, 1);
      assert hex[1..] == Minimal(numeric, 16);
    }
    ValueOfPair(hex);
    MinimalOfValue(Pair(hex), 256);
  }

  /** The number's hexadecimal text, padded to an even length and paired up. */
  method BytesOfNumber(numeric: nat) returns (bs: seq<Byte>)
    ensures bs == Minimal(numeric, 256)
  {
    if numeric == 0 {
      return [];
    }
    var hex := Minimal(numeric, 16);
    if |hex| % 2 == 1 {
      hex := [0] + hex;
    }
    HexToBytes(numeric, hex);
    bs := Pair(hex);
  }

  method Base58Decode(input: string) returns (r: Result<seq<Byte>, CodecError>)
    ensures r == Decoded(input)
  {
    hide Minimal, Leading, Index, Letter;
    var numeric: nat := 0;
    for i := 0 to |input|
      invariant InAlphabet(input[..i]) && numeric == Value(Read(input[..i]), 58)
    {
      var value := Index(input[i]);
      if value.None? {
        return Err(BadCharacter);
      }
      assert input[..i + 1] == input[..i] + [input[i]];
      assert Read(input[..i + 1]) == Read(input[..i]) + [value.value];
      ValueSnoc(Read(input[..i]), value.value, 58);
      numeric := numeric * 58 + value.value;
    }
    assert input[..|input|] == input;
    var decoded := BytesOfNumber(numeric);
    var zeroes := 0;
    while zeroes < |input| && input[zeroes] == '1'
      invariant zeroes <= |input| && forall i | 0 <= i < zeroes :: input[i] == '1'
    {
      zeroes := zeroes + 1;
    }
    LeadingUnique(input, '1', zeroes);
    assert Decoded(input).value == Zeros(zeroes) + decoded;
    r := Ok(Zeros(zeroes) + decoded);
  }

  // ------------------------------------------------------------ mutual inverses

  /** Padding a minimal numeral with zeros: the padding is exactly the leading zeros, and the value stays. */
  lemma {:induction false} Padded(ds: seq<nat>, n: nat, base: nat)
    requires base >= 2 && AllDigits(ds, base) && (ds != [] ==> ds[0] != 0)
    ensures Leading(Zeros(n) + ds, 0) == n
    ensures Value(Zeros(n) + ds, base) == Value(ds, base)
  {
    hide Value, Leading;
    var padded := Zeros(n) + ds;
    LeadingUnique(padded, 0, n);
    ValueSkipsZeros(padded, base, n);
    assert padded[n..] == ds;
  }

  lemma {:induction false} LeadingInStep(s: string)
    requires InAlphabet(s)
    ensures Leading(s, '1') == Leading(Read(s), 0)
  {
    var n := Leading(Read(s), 0);
    IndexOfDigit(0);
    forall i | 0 <= i < |s|
      ensures s[i] == '1' <==> Read(s)[i] == 0
    {
      IndexOfDigit(Read(s)[i]);
    }
    LeadingUnique(s, '1', n);
  }

  /** A numeral splits into its leading zeros and the minimal numeral of its value. */
  lemma {:induction false} Unpadded(ds: seq<nat>, base: nat)
    requires base >= 2 && AllDigits(ds, base)
    ensures ds == Zeros(Leading(ds, 0)) + Minimal(Value(ds, base), base)
  {
    hide Value, Minimal, Leading;
    var n := Leading(ds, 0);
    ValueSkipsZeros(ds, base, n);
    MinimalOfValue(ds[n..], base);
  }

  lemma SpellPadded(z: nat, tail: seq<nat>)
    requires AllDigits(tail, 58)
    ensures AllDigits(Zeros(z) + tail, 58) && Spell(Zeros(z) + tail) == Ones(z) + Spell(tail)
  {
    hide Index;
    assert Letter(0) == '1';
    hide Letter;
  }

  lemma DecodeInvertsEncode(input: seq<Byte>)
    ensures InAlphabet(Encoded(input))
    ensures Decoded(Encoded(input)) == Ok(input)
  {
    hide Value, Minimal, Leading, Spell, Read, Index, Zeros, Ones;
    var z, v := Leading(input, 0), Value(input, 256);
    var tail := Minimal(v, 58);
    SpellPadded(z, tail);
    ReadSpell(Zeros(z) + tail);
    Padded(tail, z, 58);
    ValueOfMinimal(v, 58);
    LeadingInStep(Encoded(input));
    Unpadded(input, 256);
  }

  lemma EncodeInvertsDecode(s: string)
    requires InAlphabet(s)
    ensures Decoded(s).Ok? && Encoded(Decoded(s).value) == s
  {
    hide Value, Minimal, Leading, Index, Zeros, Ones;
    var ds := Read(s);
    var z, v := Leading(ds, 0), Value(ds, 58);
    LeadingInStep(s);
    Padded(Minimal(v, 256), z, 256);
    ValueOfMinimal(v, 256);
    Unpadded(ds, 58);
    SpellPadded(z, Minimal(v, 58));
    assert s == Spell(ds);
  }

  // -------------------------------------------------------------------- did:key

  ghost predicate IsKey(key: seq<Byte>) {
    |key| == 32
  }

  ghost function DidOfKey(key: seq<Byte>): Result<string, CodecError> {
    if |key| != 32 then Err(BadKeyLength)
    else Ok(DID_PREFIX + Encoded(ED25519_MULTICODEC + key))
  }

  ghost function KeyOfDid(did: string): Result<seq<Byte>, CodecError> {
    if !(DID_PREFIX <= did) then Err(NotDidKey)
    else
      var decoded := Decoded(did[|DID_PREFIX|..]);
      if decoded.Err? then Err(decoded.error)
      else if |decoded.value| != 34 || decoded.value[..2] != ED25519_MULTICODEC then Err(NotEd25519)
      else Ok(decoded.value[2..])
  }

  method PublicKeyBytesToDid(key: seq<Byte>) returns (r: Result<string, CodecError>)
    ensures r == DidOfKey(key)
  {
    if |key| != 32 {
      return Err(BadKeyLength);
    }
    var encoded := Base58Encode(ED25519_MULTICODEC + key);
    r := Ok(DID_PREFIX + encoded);
  }

  method DidToPublicKeyBytes(did: string) returns (r: Result<seq<Byte>, CodecError>)
    ensures r == KeyOfDid(did)
  {
    if !(DID_PREFIX <= did) {
      return Err(NotDidKey);
    }
    var decoded := Base58Decode(did[|DID_PREFIX|..]);
    if decoded.Err? {
      return Err(decoded.error);
    }
    if |decoded.value| != 34 || decoded.value[..2] != ED25519_MULTICODEC {
      return Err(NotEd25519);
    }
    r := Ok(decoded.value[2..]);
  }

  lemma DidOfKeyIsAccepted(key: seq<Byte>)
    requires IsKey(key)
    ensures DidOfKey(key).Ok? && KeyOfDid(DidOfKey(key).value) == Ok(key)
  {
    var bytes := ED25519_MULTICODEC + key;
    var did := DidOfKey(key).value;
    assert did[|DID_PREFIX|..] == Encoded(bytes);
    DecodeInvertsEncode(bytes);
    assert bytes[..2] == ED25519_MULTICODEC && bytes[2..] == key;
  }

  lemma AcceptedDidIsDidOfKey(did: string)
    requires KeyOfDid(did).Ok?
    ensures IsKey(KeyOfDid(did).value) && DidOfKey(KeyOfDid(did).value) == Ok(did)
  {
    var tail := did[|DID_PREFIX|..];
    EncodeInvertsDecode(tail);
    var bytes := Decoded(tail).value;
    assert bytes == ED25519_MULTICODEC + bytes[2..];
    assert did == DID_PREFIX + tail;
  }

  /** Among accepted names, equal strings and equal keys are the same thing. */
  lemma DidEqualityIsKeyEquality(a: string, b: string)
    requires KeyOfDid(a).Ok? && KeyOfDid(b).Ok?
    ensures a == b <==> KeyOfDid(a).value == KeyOfDid(b).value
  {
    AcceptedDidIsDidOfKey(a);
    AcceptedDidIsDidOfKey(b);
  }
}
