/**
 * The zero-width steganographic codec (class `SafetyStego` of
 * safety_stego.py). A state object is serialised to text, every character
 * of that text becomes its 8-digit binary numeral, every digit becomes one
 * of two zero-width characters, and the resulting run is appended to the
 * visible text behind a zero-width header character. Decoding undoes each
 * step. The class holds no state, so every operation is a function here.
 */
module SafetyStego {
  import opened Base
  import opened JsonValues

  /** ZERO WIDTH SPACE: marks where the hidden payload starts. */
  const ZwHeader: char := '\U{200B}'
  /** ZERO WIDTH NON-JOINER: a hidden binary digit 0. */
  const Zw0: char := '\U{200C}'
  /** ZERO WIDTH JOINER: a hidden binary digit 1. */
  const Zw1: char := '\U{200D}'

  /** The three markers are pairwise distinct, so a decoder can tell them apart. */
  lemma MarkersDistinct()
    ensures ZwHeader != Zw0 && ZwHeader != Zw1 && Zw0 != Zw1
  {
  }

  // ------------------------------------------------------------------
  // Binary numerals
  // ------------------------------------------------------------------

  /** Every character is a binary digit '0' or '1'. */
  predicate IsBits(s: string) {
    forall i :: 0 <= i < |s| ==> s[i] == '0' || s[i] == '1'
  }

  /** Every character has a code point below 256 (a Latin-1 character). */
  predicate Below256(s: string) {
    forall i :: 0 <= i < |s| ==> s[i] as int < 256
  }

  function Pow2(k: nat): (r: nat)
    ensures r >= 1
  {
    if k == 0 then 1 else 2 * Pow2(k - 1)
  }

  /** The value of a binary numeral, most significant digit first (`int(b, 2)`). */
  function ParseBinary(b: string): (r: nat)
    requires IsBits(b)
    ensures r < Pow2(|b|)
  {
    if b == [] then 0
    else 2 * ParseBinary(b[..|b| - 1]) + (if b[|b| - 1] == '1' then 1 else 0)
  }

  /** The binary numeral of `n` without leading zeros (`format(n, "b")`). */
  function BinaryDigits(n: nat): (r: string)
    ensures IsBits(r) && |r| >= 1
    ensures ParseBinary(r) == n
  {
    if n < 2 then [if n == 0 then '0' else '1']
    else
      var high := BinaryDigits(n / 2);
      var r := high + [if n % 2 == 0 then '0' else '1'];
      assert r[..|r| - 1] == high;
      r
  }

  /** `k` zero digits. */
  function Zeros(k: nat): (r: string)
    ensures |r| == k && IsBits(r)
  {
    if k == 0 then [] else Zeros(k - 1) + ['0']
  }

  /**
   * `f"{ord(ch):08b}"`: the binary numeral of the code point, padded with
   * leading zeros to at least 8 digits; longer for code points of 256 and up.
   */
  function CharToBits(ch: char): (r: string)
    ensures IsBits(r) && |r| >= 8
    ensures ParseBinary(r) == ch as int
  {
    var digits := BinaryDigits(ch as nat);
    if |digits| < 8 then
      ParsePadded(8 - |digits|, digits);
      Zeros(8 - |digits|) + digits
    else digits
  }

  // ------------------------------------------------------------------
  // string_to_bits / bits_to_string
  // ------------------------------------------------------------------

  /** `string_to_bits`: the numerals of all characters, concatenated. */
  function StringToBits(s: string): (r: string)
    ensures IsBits(r)
    ensures |r| >= 8 * |s|
  {
    if s == [] then [] else CharToBits(s[0]) + StringToBits(s[1..])
  }

  /**
   * `bits_to_string`: every complete chunk of 8 digits becomes the character
   * with that code point; an incomplete trailing chunk is dropped.
   */
  function BitsToString(bits: string): (r: string)
    requires IsBits(bits)
    ensures |r| == |bits| / 8
    ensures Below256(r)
    ensures forall i :: 0 <= i < |r| ==> r[i] as int == ParseBinary(bits[8 * i..8 * i + 8])
  {
    if |bits| < 8 then []
    else
      var rest := BitsToString(bits[8..]);
      assert Pow2(8) == 256;
      var r := [ParseBinary(bits[..8]) as char] + rest;
      assert forall i :: 1 <= i < |r| ==> bits[8 * i..8 * i + 8] == bits[8..][8 * (i - 1)..8 * (i - 1) + 8];
      r
  }

  // ------------------------------------------------------------------
  // bits_to_zw / zw_to_bits
  // ------------------------------------------------------------------

  /** `bits_to_zw`: '1' becomes `Zw1`, every other character `Zw0`. */
  function BitsToZw(bits: string): (r: string)
    ensures |r| == |bits|
    ensures forall i :: 0 <= i < |r| ==> (r[i] == Zw1 <==> bits[i] == '1') && (r[i] == Zw0 || r[i] == Zw1)
  {
    if bits == [] then [] else [if bits[0] == '1' then Zw1 else Zw0] + BitsToZw(bits[1..])
  }

  /** `zw_to_bits`: keep only the two digit markers and read them back as digits. */
  function ZwToBits(payload: string): (r: string)
    ensures IsBits(r)
    ensures |r| <= |payload|
  {
    if payload == [] then []
    else
      (if payload[0] == Zw1 then "1" else if payload[0] == Zw0 then "0" else "")
      + ZwToBits(payload[1..])
  }

  // ------------------------------------------------------------------
  // embed / extract
  // ------------------------------------------------------------------

  /** The zero-width run that carries `serialized`. */
  function Hidden(serialized: string): (r: string)
    ensures forall i :: 0 <= i < |r| ==> r[i] == Zw0 || r[i] == Zw1
  {
    BitsToZw(StringToBits(serialized))
  }

  /** `embed`: the visible text, then the header, then the hidden state. */
  function Embed(json: JsonLib, visible: string, state: Json): (r: string)
    ensures |r| > |visible| && r[..|visible|] == visible && r[|visible|] == ZwHeader
    ensures forall i :: |visible| < i < |r| ==> r[i] == Zw0 || r[i] == Zw1
  {
    var r := visible + [ZwHeader] + Hidden(json.dumps(state));
    assert r[..|visible|] == visible;
    r
  }

  /** The position of the first occurrence of `c` in `s`, if any. */
  function FirstIndex(s: string, c: char): (r: Option<nat>)
    ensures r.None? <==> c !in s
    ensures r.Some? ==> r.value < |s| && s[r.value] == c && c !in s[..r.value]
  {
    if s == [] then None
    else if s[0] == c then Some(0)
    else
      match FirstIndex(s[1..], c)
      case None => None
      case Some(i) =>
        assert s[..i + 1] == [s[0]] + s[1..][..i];
        Some(i + 1)
  }

  /**
   * `extract`: nothing without a header; otherwise decode what follows the
   * first header, skipping every character that is not a digit marker.
   */
  function Extract(json: JsonLib, text: string): (r: Option<Json>)
    ensures ZwHeader !in text ==> r == None
  {
    match FirstIndex(text, ZwHeader)
    case None => None
    case Some(i) => json.loads(BitsToString(ZwToBits(text[i + 1..])))
  }

  // ------------------------------------------------------------------
  // Laws of the bit layer
  // ------------------------------------------------------------------

  lemma {:induction false} ParseZeros(k: nat)
    ensures ParseBinary(Zeros(k)) == 0
  {
    if k > 0 {
      assert Zeros(k)[..k - 1] == Zeros(k - 1);
      ParseZeros(k - 1);
    }
  }

  /** Leading zeros do not change the value of a numeral. */
  lemma {:induction false} ParsePadded(k: nat, d: string)
    requires IsBits(d)
    ensures IsBits(Zeros(k) + d) && ParseBinary(Zeros(k) + d) == ParseBinary(d)
  {
    var z := Zeros(k) + d;
    if d == [] {
      assert z == Zeros(k);
      ParseZeros(k);
    } else {
      assert z[..|z| - 1] == Zeros(k) + d[..|d| - 1];
      ParsePadded(k, d[..|d| - 1]);
    }
  }

  /** A number below 2^k has at most k binary digits. */
  lemma {:induction false} BinaryDigitsLength(n: nat, k: nat)
    requires k >= 1 && n < Pow2(k)
    ensures |BinaryDigits(n)| <= k
  {
    if n >= 2 {
      BinaryDigitsLength(n / 2, k - 1);
    }
  }

  /** A character below 256 becomes exactly 8 digits that read back as its code point. */
  lemma CharToBitsOfByte(ch: char)
    requires ch as int < 256
    ensures |CharToBits(ch)| == 8 && ParseBinary(CharToBits(ch)) == ch as int
  {
    var digits := BinaryDigits(ch as nat);
    assert Pow2(8) == 256;
    BinaryDigitsLength(ch as nat, 8);
  }

  /** `string_to_bits` emits exactly 8 digits per character below 256. */
  lemma {:induction false} StringToBitsLength(s: string)
    requires Below256(s)
    ensures |StringToBits(s)| == 8 * |s|
  {
    if s != [] {
      CharToBitsOfByte(s[0]);
      StringToBitsLength(s[1..]);
    }
  }

  /** A full leading chunk becomes the first character; the rest decodes on its own. */
  lemma BitsToStringChunk(chunk: string, rest: string)
    requires IsBits(chunk) && IsBits(rest) && |chunk| == 8
    ensures IsBits(chunk + rest)
    ensures |BitsToString(chunk + rest)| >= 1
    ensures BitsToString(chunk + rest)[0] as int == ParseBinary(chunk)
    ensures BitsToString(chunk + rest)[1..] == BitsToString(rest)
  {
  }

  /** `bits_to_string` inverts `string_to_bits` on text whose code points are below 256. */
  lemma {:induction false} BitsRoundTrip(s: string)
    requires Below256(s)
    ensures BitsToString(StringToBits(s)) == s
  {
    if s != [] {
      var head, tail := CharToBits(s[0]), StringToBits(s[1..]);
      CharToBitsOfByte(s[0]);
      assert StringToBits(s) == head + tail;
      BitsToStringChunk(head, tail);
      BitsRoundTrip(s[1..]);
      var r := BitsToString(head + tail);
      assert r[0] == s[0];
      assert r == [r[0]] + r[1..];
    }
  }

  /** An incomplete trailing chunk of fewer than 8 digits is silently dropped. */
  lemma {:induction false} BitsToStringDropsTail(bits: string, tail: string)
    requires IsBits(bits) && IsBits(tail) && |bits| % 8 == 0 && |tail| < 8
    ensures BitsToString(bits + tail) == BitsToString(bits)
  {
    if |bits| == 0 {
      assert bits + tail == tail;
    } else {
      assert (bits + tail)[..8] == bits[..8];
      assert (bits + tail)[8..] == bits[8..] + tail;
      BitsToStringDropsTail(bits[8..], tail);
    }
  }

  /** `zw_to_bits` inverts `bits_to_zw` on binary digits. */
  lemma {:induction false} ZwRoundTrip(bits: string)
    requires IsBits(bits)
    ensures ZwToBits(BitsToZw(bits)) == bits
  {
    MarkersDistinct();
    if bits != [] {
      var zw := BitsToZw(bits);
      assert zw[1..] == BitsToZw(bits[1..]);
      ZwRoundTrip(bits[1..]);
    }
  }

  /** Decoding a concatenation decodes each part. */
  lemma {:induction false} ZwToBitsConcat(a: string, b: string)
    ensures ZwToBits(a + b) == ZwToBits(a) + ZwToBits(b)
  {
    if a != [] {
      assert (a + b)[1..] == a[1..] + b;
      ZwToBitsConcat(a[1..], b);
    } else {
      assert a + b == b;
    }
  }

  /** Text without digit markers decodes to no digits at all. */
  lemma {:induction false} ZwToBitsForeign(f: string)
    requires Zw0 !in f && Zw1 !in f
    ensures ZwToBits(f) == []
  {
    if f != [] {
      assert f[0] in f;
      ZwToBitsForeign(f[1..]);
    }
  }

  /** Inserting characters other than the digit markers does not change the decoded digits. */
  lemma IgnoresForeign(a: string, f: string, b: string)
    requires Zw0 !in f && Zw1 !in f
    ensures ZwToBits(a + f + b) == ZwToBits(a + b)
  {
    ZwToBitsConcat(a + f, b);
    ZwToBitsConcat(a, f);
    ZwToBitsConcat(a, b);
    ZwToBitsForeign(f);
  }

  /** The first `c` of `t + [c] + rest` is the one after `t` when `t` has none. */
  lemma FirstIndexAfter(t: string, c: char, rest: string)
    requires c !in t
    ensures FirstIndex(t + [c] + rest, c) == Some(|t|)
  {
    var s := t + [c] + rest;
    assert s[|t|] == c;
    assert s[..|t|] == t;
  }

  /**
   * Whatever follows a first header decodes as the serialised text it
   * spells, whoever wrote it: the channel carries no integrity check, so a
   * hand-crafted run is accepted exactly like one produced by `Embed`.
   */
  lemma ExtractHidden(json: JsonLib, visible: string, serialized: string)
    requires ZwHeader !in visible
    requires Below256(serialized)
    ensures Extract(json, visible + [ZwHeader] + Hidden(serialized)) == json.loads(serialized)
  {
    var text := visible + [ZwHeader] + Hidden(serialized);
    FirstIndexAfter(visible, ZwHeader, Hidden(serialized));
    assert text[|visible| + 1..] == Hidden(serialized);
    ZwRoundTrip(StringToBits(serialized));
    BitsRoundTrip(serialized);
  }

  /**
   * `extract(embed(t, s))` is `deserialize(serialize(s))` when the visible
   * text has no header of its own and the serialisation is below 256.
   */
  lemma ExtractEmbed(json: JsonLib, visible: string, state: Json)
    requires ZwHeader !in visible
    requires Below256(json.dumps(state))
    ensures Extract(json, Embed(json, visible, state)) == json.loads(json.dumps(state))
  {
    ExtractHidden(json, visible, json.dumps(state));
  }

  /** The hidden run of `Embed` is 8 digit markers per serialised character. */
  lemma EmbedLength(json: JsonLib, visible: string, state: Json)
    requires Below256(json.dumps(state))
    ensures |Embed(json, visible, state)| == |visible| + 1 + 8 * |json.dumps(state)|
  {
    StringToBitsLength(json.dumps(state));
  }
}
