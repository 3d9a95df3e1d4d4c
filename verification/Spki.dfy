/**
 * services/signer-service/src/keys/derive-address.ts and local-key-source.ts: building a
 * SubjectPublicKeyInfo and walking one to its uncompressed point. Both files repeat the
 * length codec of der.ts byte for byte, so that codec is used here.
 */
module Spki {
  import opened Wrappers
  import opened Bytes
  import opened Der

  const BIT_STRING_TAG: byte := 0x03
  const OID_EC_PUBLIC_KEY: seq<byte> := [0x06, 0x07, 0x2a, 0x86, 0x48, 0xce, 0x3d, 0x02, 0x01]
  const OID_SECP256K1: seq<byte> := [0x06, 0x05, 0x2b, 0x81, 0x04, 0x00, 0x0a]

  predicate IsUncompressedPoint(point: seq<byte>) {
    |point| == 65 && point[0] == 0x04
  }

  /** `Uint8Array.slice`: bounds beyond the end are clamped, and an inverted range is empty. */
  function Slice(d: seq<byte>, from: nat, to: nat): seq<byte> {
    var end := if to < |d| then to else |d|;
    if from <= end then d[from..end] else []
  }

  /** Where the walk's three headers end, the lengths they announce, and `k`, the cursor past the second. */
  datatype Places = Places(a: nat, outer: nat, b: nat, algorithm: nat, k: nat, e: nat, bits: nat)

  predicate Walk(d: seq<byte>, w: Places) {
    && Header(d, 0, SEQUENCE_TAG, w.a, w.outer)
    && Header(d, w.a, SEQUENCE_TAG, w.b, w.algorithm)
    && w.k == w.b + w.algorithm
    && Header(d, w.k, BIT_STRING_TAG, w.e, w.bits)
  }

  predicate Yields(d: seq<byte>, w: Places, point: seq<byte>) {
    Walk(d, w) && Holds(d, w.e, w.bits, point)
  }

  /** The BIT STRING content at `e` is a zero byte and then `point`. */
  predicate Holds(d: seq<byte>, e: nat, bits: nat, point: seq<byte>) {
    e < |d| && d[e] == 0x00 && IsUncompressedPoint(point) && point == Slice(d, e + 1, e + bits)
  }

  /** `point` is what the walk yields. */
  ghost predicate Extracts(d: seq<byte>, point: seq<byte>) {
    exists w :: Yields(d, w, point)
  }

  lemma WalkIsUnique(d: seq<byte>, w: Places, w': Places)
    requires Walk(d, w) && Walk(d, w')
    ensures w == w'
  {
    HeadersAreSelfDelimiting(d, 0, SEQUENCE_TAG, w.a, w'.a, w.outer, w'.outer);
    HeadersAreSelfDelimiting(d, w.a, SEQUENCE_TAG, w.b, w'.b, w.algorithm, w'.algorithm);
    HeadersAreSelfDelimiting(d, w.k, BIT_STRING_TAG, w.e, w'.e, w.bits, w'.bits);
  }

  lemma YieldIsUnique(d: seq<byte>, w: Places, w': Places, p: seq<byte>, q: seq<byte>)
    requires Yields(d, w, p) && Yields(d, w', q)
    ensures p == q
  {
    WalkIsUnique(d, w, w');
  }

  lemma ExtractionIsUnique(d: seq<byte>, p: seq<byte>, q: seq<byte>)
    requires Extracts(d, p) && Extracts(d, q)
    ensures p == q
  {
    var w :| Yields(d, w, p);
    var w' :| Yields(d, w', q);
    YieldIsUnique(d, w, w', p, q);
  }

  // ---- The encoding ------------------------------------------------------------------

  /** The key encoding with any algorithm identifier content. */
  function SpkiOf(algorithm: seq<byte>, point: seq<byte>): seq<byte>
    requires IsUncompressedPoint(point) && |algorithm| < WORD - 100
  {
    Tlv(SEQUENCE_TAG, SpkiContent(algorithm, point))
  }

  function SpkiContent(algorithm: seq<byte>, point: seq<byte>): (content: seq<byte>)
    requires IsUncompressedPoint(point) && |algorithm| < WORD - 100
    ensures |content| < WORD
  {
    LengthFits(|algorithm|);
    Tlv(SEQUENCE_TAG, algorithm) + Tlv(BIT_STRING_TAG, [0x00] + point)
  }

  lemma HeaderPlace(d: seq<byte>, x: seq<byte>, tag: byte, content: seq<byte>, z: seq<byte>, off: nat, m: nat)
    requires |content| < WORD && d == x + Tlv(tag, content) + z
    requires off == |x| && m == |x| + 1 + |EncodedLength(|content|)|
    ensures Header(d, off, tag, m, |content|) && d[m..m + |content|] == content
  {
    var form := EncodedLength(|content|);
    assert |form| > 0;
    TlvPlace(d, x, tag, form, content, z);
    EncodedLengthIsLength(|content|);
  }

  /** Extraction gives back the encoded point, whatever the algorithm identifier holds. */
  lemma SpkiRoundTrip(algorithm: seq<byte>, point: seq<byte>)
    requires IsUncompressedPoint(point) && |algorithm| < WORD - 100
    ensures Extracts(SpkiOf(algorithm, point), point)
  {
    var d, content := SpkiOf(algorithm, point), SpkiContent(algorithm, point);
    var first, second := Tlv(SEQUENCE_TAG, algorithm), Tlv(BIT_STRING_TAG, [0x00] + point);
    var x := [SEQUENCE_TAG] + EncodedLength(|content|);
    Reassociate(x, first, second);
    var a, b := |x|, |x| + 1 + |EncodedLength(|algorithm|)|;
    var k, e := |x + first|, |x + first| + 2;
    assert EncodedLength(66) == [66];
    var w := Places(a, |content|, b, |algorithm|, k, e, 66);
    HeaderPlace(d, [], SEQUENCE_TAG, content, [], 0, w.a);
    HeaderPlace(d, x, SEQUENCE_TAG, algorithm, second, w.a, w.b);
    HeaderPlace(d, x + first, BIT_STRING_TAG, [0x00] + point, [], w.k, w.e);
    PointPlace(d, e, point);
    WalkFound(d, w, point);
  }

  lemma WalkFound(d: seq<byte>, w: Places, point: seq<byte>)
    requires Walk(d, w) && Holds(d, w.e, w.bits, point)
    ensures Extracts(d, point)
  {
    assert Yields(d, w, point);
  }

  lemma PointPlace(d: seq<byte>, e: nat, point: seq<byte>)
    requires IsUncompressedPoint(point) && |d| == e + 66 && d[e..e + 66] == [0x00] + point
    ensures Holds(d, e, 66, point)
  {
    assert d[e] == d[e..e + 66][0];
    assert d[e + 1..] == d[e..e + 66][1..];
  }

  /**
   * The walk checks neither the outer length nor that the BIT STRING's length fits: a key
   * whose last header promises more bytes than there are still yields its point.
   */
  lemma OverlongBitStringIsAccepted(point: seq<byte>)
    requires IsUncompressedPoint(point)
    ensures Extracts([0x30, 0x00, 0x30, 0x00, 0x03, 0x7f, 0x00] + point, point)
  {
    var d := [0x30, 0x00, 0x30, 0x00, 0x03, 0x7f, 0x00] + point;
    assert d[1..2] == [0x00] && d[3..4] == [0x00] && d[5..6] == [0x7f];
    assert d[7..] == point;
    assert Yields(d, Places(2, 0, 4, 0, 4, 6, 0x7f), point);
  }

  lemma NothingToWalk(d: seq<byte>)
    requires forall w :: !Walk(d, w)
    ensures forall p :: !Extracts(d, p)
  {
  }

  /** Once three headers are read, what lies behind them decides the extraction. */
  lemma WalkDecides(d: seq<byte>, w: Places)
    requires Walk(d, w)
    ensures forall p :: Extracts(d, p) <==> Holds(d, w.e, w.bits, p)
  {
    forall p
      ensures Extracts(d, p) <==> Holds(d, w.e, w.bits, p)
    {
      if Extracts(d, p) {
        var w' :| Yields(d, w', p);
        WalkIsUnique(d, w, w');
      } else if Holds(d, w.e, w.bits, p) {
        WalkFound(d, w, p);
      }
    }
  }

  /** A header already read is the one every walk goes through. */
  lemma HeadersRead(d: seq<byte>, a: nat, outer: nat)
    requires Header(d, 0, SEQUENCE_TAG, a, outer)
    ensures forall w | Walk(d, w) :: w.a == a
  {
    forall w | Walk(d, w)
      ensures w.a == a
    {
      HeadersAreSelfDelimiting(d, 0, SEQUENCE_TAG, a, w.a, outer, w.outer);
    }
  }

  lemma TwoHeadersRead(d: seq<byte>, a: nat, outer: nat, b: nat, algorithm: nat)
    requires Header(d, 0, SEQUENCE_TAG, a, outer) && Header(d, a, SEQUENCE_TAG, b, algorithm)
    ensures forall w | Walk(d, w) :: w.b == b && w.algorithm == algorithm
  {
    HeadersRead(d, a, outer);
    forall w | Walk(d, w)
      ensures w.b == b && w.algorithm == algorithm
    {
      HeadersAreSelfDelimiting(d, a, SEQUENCE_TAG, b, w.b, algorithm, w.algorithm);
    }
  }

  // ---- The source's procedures ---------------------------------------------------------

  /** local-key-source.ts buildSpkiDer. */
  method BuildSpkiDer(point: seq<byte>) returns (result: Result<seq<byte>>)
    ensures result.Ok? <==> IsUncompressedPoint(point)
    ensures result.Ok? ==> result.value == SpkiOf(OID_EC_PUBLIC_KEY + OID_SECP256K1, point)
  {
    if |point| != 65 || point[0] != 0x04 {
      return Err("uncompressed point must be 65 bytes starting with 0x04");
    }
    var algorithmLength := EncodeLength(|OID_EC_PUBLIC_KEY| + |OID_SECP256K1|);
    var algorithm := [SEQUENCE_TAG] + algorithmLength + OID_EC_PUBLIC_KEY + OID_SECP256K1;
    var bitStringContent := new byte[1 + |point|](_ => 0);
    forall i | 0 <= i < |point| {
      bitStringContent[i + 1] := point[i];
    }
    assert bitStringContent[..] == [0x00] + point;
    var bitLength := EncodeLength(bitStringContent.Length);
    var bitString := [BIT_STRING_TAG] + bitLength + bitStringContent[..];
    var inner := new byte[|algorithm| + |bitString|];
    forall i | 0 <= i < |algorithm| {
      inner[i] := algorithm[i];
    }
    forall i | 0 <= i < |bitString| {
      inner[|algorithm| + i] := bitString[i];
    }
    var content := inner[..];
    assert content == algorithm + bitString;
    assert algorithm == Tlv(SEQUENCE_TAG, OID_EC_PUBLIC_KEY + OID_SECP256K1);
    var length := EncodeLength(inner.Length);
    return Ok([SEQUENCE_TAG] + length + content);
  }

  /** derive-address.ts extractUncompressedPoint: total, and exactly the walk. */
  method ExtractUncompressedPoint(spki: seq<byte>) returns (result: Result<seq<byte>>)
    ensures result.Ok? ==> Extracts(spki, result.value)
    ensures result.Err? ==> forall point :: !Extracts(spki, point)
  {
    var outer := ReadHeader(spki, 0, SEQUENCE_TAG);
    if outer.Err? {
      NothingToWalk(spki);
      return Err(outer.code);
    }
    var (outerLength, a) := outer.value;
    HeadersRead(spki, a, outerLength);
    var algorithm := ReadHeader(spki, a, SEQUENCE_TAG);
    if algorithm.Err? {
      NothingToWalk(spki);
      return Err(algorithm.code);
    }
    var (algorithmLength, b) := algorithm.value;
    TwoHeadersRead(spki, a, outerLength, b, algorithmLength);
    var cursor := b + algorithmLength;
    var bitString := ReadHeader(spki, cursor, BIT_STRING_TAG);
    if bitString.Err? {
      NothingToWalk(spki);
      return Err(bitString.code);
    }
    var (bits, contentStart) := bitString.value;
    WalkDecides(spki, Places(a, outerLength, b, algorithmLength, cursor, contentStart, bits));
    if contentStart >= |spki| || spki[contentStart] != 0x00 {
      return Err("non-zero unused-bits count");
    }
    var point := Slice(spki, contentStart + 1, contentStart + bits);
    if |point| != 65 || point[0] != 0x04 {
      return Err("not a 65-byte uncompressed point");
    }
    return Ok(point);
  }
}
