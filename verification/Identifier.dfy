/**
 * Typed identifiers (kernel/id.go): the text form of section 3 of RFC 4122 and
 * the version and variant bits of its section 4.4. Text is a sequence of bytes,
 * as in kernel/id.go; a byte above 127 is never lower-cased into an accepted
 * one, so only ASCII letters need a case mapping.
 */
module Identifier {
  import opened Wrappers

  newtype byte = x: int | 0 <= x < 256

  type Bytes = seq<byte>

  const DASH: byte := 45

  function HexDigit(nibble: byte): byte
    requires nibble < 16
  {
    if nibble < 10 then 48 + nibble else 87 + nibble
  }

  function HexValue(c: byte): byte
    requires IsHex(c)
  {
    if c < 58 then c - 48 else c - 87
  }

  predicate IsHex(c: byte) { 48 <= c <= 57 || 97 <= c <= 102 }

  function LowerByte(c: byte): byte { if 65 <= c <= 90 then c + 32 else c }

  function Lower(s: Bytes): Bytes {
    seq(|s|, i requires 0 <= i < |s| => LowerByte(s[i]))
  }

  predicate IsDash(p: nat) { p in {8, 13, 18, 23} }

  /** Which of the 32 hexadecimal digits stands at text position p. */
  function DigitAt(p: nat): nat
    requires p < 36 && !IsDash(p)
    ensures DigitAt(p) < 32
  {
    if p < 8 then p else if p < 13 then p - 1 else if p < 18 then p - 2 else if p < 23 then p - 3 else p - 4
  }

  function Nibble(b: Bytes, k: nat): byte
    requires k < 2 * |b|
  {
    if k % 2 == 0 then b[k / 2] / 16 else b[k / 2] % 16
  }

  /** The character of the text form at position p. */
  function TextAt(b: Bytes, p: nat): byte
    requires |b| == 16 && p < 36
  {
    if IsDash(p) then DASH else HexDigit(Nibble(b, DigitAt(p)))
  }

  function Text(b: Bytes): Bytes
    requires |b| == 16
  {
    seq(36, p requires 0 <= p < 36 => TextAt(b, p))
  }

  /** The canonical lower-case form that identifiers carry. */
  predicate Canonical(s: Bytes) {
    |s| == 36 && forall p :: 0 <= p < 36 ==> if IsDash(p) then s[p] == DASH else IsHex(s[p])
  }

  function Parsed(s: Bytes): Option<Bytes> {
    if Canonical(Lower(s)) then Some(Lower(s)) else None
  }

  /** The position of digit k in the text form. */
  function PlaceOf(k: nat): nat
    requires k < 32
    ensures PlaceOf(k) < 36 && !IsDash(PlaceOf(k)) && DigitAt(PlaceOf(k)) == k
  {
    if k < 8 then k else if k < 12 then k + 1 else if k < 16 then k + 2 else if k < 20 then k + 3 else k + 4
  }

  /** The 16 bytes a canonical text denotes. */
  function Value(s: Bytes): (b: Bytes)
    requires Canonical(s)
    ensures |b| == 16
  {
    seq(16, i requires 0 <= i < 16 => 16 * HexValue(s[PlaceOf(2 * i)]) + HexValue(s[PlaceOf(2 * i + 1)]))
  }

  // ---- Laws ------------------------------------------------------------

  /** Printing and parsing: for every 16 bytes the printed text parses to itself. */
  lemma ParseOfFormat(b: Bytes)
    requires |b| == 16
    ensures Parsed(Text(b)) == Some(Text(b))
  {
    assert Lower(Text(b)) == Text(b);
  }

  const HEX := "0123456789abcdef"

  /** The text form, byte by byte: two digits each, the high one first, and dashes after 4, 6, 8 and 10 bytes. */
  lemma FormatLaw(b: Bytes, i: nat)
    requires |b| == 16 && i < 16
    ensures Text(b)[8] == 45 && Text(b)[13] == 45 && Text(b)[18] == 45 && Text(b)[23] == 45
    ensures var p := 2 * i + (if i < 4 then 0 else if i < 6 then 1 else if i < 8 then 2 else if i < 10 then 3 else 4);
      && Text(b)[p] as int == HEX[b[i] as int / 16] as int
      && Text(b)[p + 1] as int == HEX[b[i] as int % 16] as int
  {
    DigitLaw(b[i] / 16);
    DigitLaw(b[i] % 16);
    assert (2 * i) / 2 == i && (2 * i + 1) / 2 == i;
  }

  lemma DigitLaw(nibble: byte)
    requires nibble < 16
    ensures HexDigit(nibble) as int == HEX[nibble as int] as int
  {
  }

  lemma NibbleOfValue(s: Bytes, k: nat)
    requires Canonical(s) && k < 32
    ensures Nibble(Value(s), k) == HexValue(s[PlaceOf(k)])
  {
    var i := k / 2;
    var hi, lo := HexValue(s[PlaceOf(2 * i)]), HexValue(s[PlaceOf(2 * i + 1)]);
    assert Value(s)[i] == 16 * hi + lo;
    assert (16 * hi + lo) / 16 == hi && (16 * hi + lo) % 16 == lo;
    assert k == 2 * i || k == 2 * i + 1;
  }

  lemma FormatOfValue(s: Bytes)
    requires Canonical(s)
    ensures Text(Value(s)) == s
  {
    forall p | 0 <= p < 36 ensures TextAt(Value(s), p) == s[p] {
      if !IsDash(p) {
        var k := DigitAt(p);
        assert PlaceOf(k) == p;
        NibbleOfValue(s, k);
      }
    }
  }

  lemma FormatInjective(b: Bytes, c: Bytes)
    requires |b| == 16 && |c| == 16 && Text(b) == Text(c)
    ensures b == c
  {
    forall i | 0 <= i < 16 ensures b[i] == c[i] {
      assert Text(b)[PlaceOf(2 * i)] == Text(c)[PlaceOf(2 * i)];
      assert Text(b)[PlaceOf(2 * i + 1)] == Text(c)[PlaceOf(2 * i + 1)];
      assert (2 * i) / 2 == i && (2 * i + 1) / 2 == i;
      assert b[i] == b[i] / 16 * 16 + b[i] % 16;
      assert c[i] == c[i] / 16 * 16 + c[i] % 16;
    }
  }

  /** ParseID accepts exactly the printed texts, up to the case of letters. */
  lemma AcceptsExactlyFormats(s: Bytes)
    ensures Parsed(s).Some? <==> exists b: Bytes :: |b| == 16 && Text(b) == Lower(s)
  {
    if Parsed(s).Some? {
      FormatOfValue(Lower(s));
      assert Text(Value(Lower(s))) == Lower(s);
    }
    if b: Bytes :| |b| == 16 && Text(b) == Lower(s) {
      assert Canonical(Text(b));
    }
  }

  /** Parsing ignores case, and parsing what was accepted changes nothing. */
  lemma ParseNormalizes(s: Bytes, t: Bytes)
    ensures Lower(s) == Lower(t) ==> Parsed(s) == Parsed(t)
    ensures Parsed(s).Some? ==> Parsed(Parsed(s).value) == Parsed(s)
  {
    assert Lower(Lower(s)) == Lower(s);
  }

  // ---- The operations --------------------------------------------------

  method ParseID(text: Bytes) returns (r: Option<Bytes>)
    ensures r == Parsed(text)
  {
    if |text| != 36 {
      return None;
    }
    var s := Lower(text);
    for i := 0 to 36
      invariant forall p :: 0 <= p < i ==> if IsDash(p) then s[p] == DASH else IsHex(s[p])
    {
      if i == 8 || i == 13 || i == 18 || i == 23 {
        if s[i] != DASH {
          return None;
        }
      } else if (s[i] < 48 || s[i] > 57) && (s[i] < 97 || s[i] > 102) {
        return None;
      }
    }
    return Some(s);
  }

  /** hex.Encode of b[lo..hi] into dst from position `at` on. */
  method HexEncode(dst: array<byte>, at: nat, b: array<byte>, lo: nat, hi: nat)
    requires b != dst && lo <= hi <= b.Length && at + 2 * (hi - lo) <= dst.Length
    modifies dst
    ensures forall p :: at <= p < at + 2 * (hi - lo) ==> dst[p] == HexDigit(Nibble(b[..], 2 * lo + p - at))
    ensures forall p :: 0 <= p < dst.Length && !(at <= p < at + 2 * (hi - lo)) ==> dst[p] == old(dst[p])
  {
    for i := lo to hi
      invariant forall p :: at <= p < at + 2 * (i - lo) ==> dst[p] == HexDigit(Nibble(b[..], 2 * lo + p - at))
      invariant forall p :: 0 <= p < dst.Length && !(at <= p < at + 2 * (i - lo)) ==> dst[p] == old(dst[p])
    {
      var k := 2 * (i - lo);
      dst[at + k] := HexDigit(b[i] / 16);
      dst[at + k + 1] := HexDigit(b[i] % 16);
      assert (2 * lo + k) / 2 == i && (2 * lo + k + 1) / 2 == i;
    }
  }

  method FormatUUID(b: array<byte>) returns (text: Bytes)
    requires b.Length == 16
    ensures text == Text(b[..])
  {
    var dst := new byte[36](_ => 0);
    HexEncode(dst, 0, b, 0, 4);
    dst[8] := DASH;
    HexEncode(dst, 9, b, 4, 6);
    dst[13] := DASH;
    HexEncode(dst, 14, b, 6, 8);
    dst[18] := DASH;
    HexEncode(dst, 19, b, 8, 10);
    dst[23] := DASH;
    HexEncode(dst, 24, b, 10, 16);
    text := dst[..];
  }

  /** The bytes with the version and variant bits set. */
  function Stamped(b: seq<byte>): seq<byte>
    requires |b| == 16
  {
    b[6 := b[6] % 16 + 0x40][8 := b[8] % 64 + 0x80]
  }

  lemma StampedDigit(b: seq<byte>, p: nat)
    requires |b| == 16 && p < 36 && !IsDash(p) && p != 14 && p != 19
    ensures Nibble(Stamped(b), DigitAt(p)) == Nibble(b, DigitAt(p))
  {
  }

  lemma StampedText(b: seq<byte>)
    requires |b| == 16
    ensures Text(Stamped(b))[14] == HexDigit(4)
    ensures Text(Stamped(b))[19] == HexDigit(8 + b[8] / 16 % 4) && Text(Stamped(b))[19] in {56, 57, 97, 98}
    ensures forall p :: 0 <= p < 36 && p != 14 && p != 19 ==> Text(Stamped(b))[p] == TextAt(b, p)
  {
    VariantBits(b[8]);
    forall p | 0 <= p < 36 && p != 14 && p != 19 ensures Text(Stamped(b))[p] == TextAt(b, p) {
      if !IsDash(p) {
        StampedDigit(b, p);
      }
    }
  }

  lemma VariantBits(x: byte)
    ensures (x % 64 + 0x80) / 16 == 8 + x / 16 % 4
  {
  }

  /**
   * A new identifier from 16 random bytes: accepted by ParseID, version digit 4,
   * a variant digit 8, 9, a or b that keeps two random bits, and otherwise the
   * text of the random bytes.
   */
  method NewID(random: array<byte>) returns (id: Bytes)
    requires random.Length == 16
    modifies random
    ensures Parsed(id) == Some(id)
    ensures id[14] == HexDigit(4) && id[19] == HexDigit(8 + old(random[8]) / 16 % 4) && id[19] in {56, 57, 97, 98}
    ensures forall p :: 0 <= p < 36 && p != 14 && p != 19 ==> id[p] == TextAt(old(random[..]), p)
  {
    ghost var given := random[..];
    random[6] := random[6] % 16 + 0x40;
    random[8] := random[8] % 64 + 0x80;
    assert random[..] == Stamped(given);
    id := FormatUUID(random);
    ParseOfFormat(random[..]);
    StampedText(given);
  }
}
