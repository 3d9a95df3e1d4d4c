/**
 * services/signer-service/src/keys/der.ts: the hand-written DER codec for ECDSA signatures.
 * `Accepts` is the declarative grammar of what the parser takes; `EncodedSignature` is the
 * encoder's output as a value. The methods are the source's loops, proved against them.
 */
module Der {
  import opened Wrappers
  import opened Bytes

  const ORDER: nat := 0xfffffffffffffffffffffffffffffffebaaedce6af48a03bbfd25e8cd0364141
  const HALF_ORDER: nat := ORDER / 2
  const INTEGER_TAG: byte := 0x02
  const SEQUENCE_TAG: byte := 0x30
  const WORD: nat := 0x1_0000_0000

  datatype Scalars = Scalars(r: nat, s: nat)

  predicate IsScalar(v: int) {
    0 < v < ORDER
  }

  // ---- The grammar -----------------------------------------------------------------

  /** `b` is a definite length form for `n`: one byte, or a count byte and 1..4 more. */
  predicate IsLength(b: seq<byte>, n: nat) {
    |b| > 0 &&
    if b[0] < 0x80 then |b| == 1 && b[0] == n
    else 1 <= b[0] - 0x80 <= 4 && |b| == 1 + b[0] - 0x80 && BigEndian(b[1..]) == n
  }

  /** A tag and a length form, from `off` up to the content at `m`, announcing `n` bytes. */
  predicate Header(d: seq<byte>, off: nat, tag: byte, m: nat, n: nat) {
    off + 1 < m <= |d| && d[off] == tag && IsLength(d[off + 1..m], n)
  }

  /** The bytes from `off` to `next` are a non-negative INTEGER of value `v`, `m` its content. */
  predicate IntegerSplit(d: seq<byte>, off: nat, m: nat, next: nat, v: nat) {
    && m < next <= |d|
    && Header(d, off, INTEGER_TAG, m, next - m)
    && d[m] < 0x80
    && BigEndian(d[m..next]) == v
  }

  ghost predicate IsInteger(d: seq<byte>, off: nat, next: nat, v: nat) {
    exists m: nat :: IntegerSplit(d, off, m, next, v)
  }

  /** `c` starts the two INTEGERs and `m` the second one. */
  ghost predicate SignatureSplit(d: seq<byte>, c: nat, m: nat, r: nat, s: nat) {
    && c <= m <= |d|
    && Header(d, 0, SEQUENCE_TAG, c, |d| - c)
    && IsInteger(d, c, m, r)
    && IsInteger(d, m, |d|, s)
  }

  /** SEQUENCE { INTEGER r, INTEGER s } with nothing after it and both scalars in range. */
  ghost predicate Accepts(d: seq<byte>, r: nat, s: nat) {
    IsScalar(r) && IsScalar(s) && exists c: nat, m: nat :: SignatureSplit(d, c, m, r, s)
  }

  // ---- The encoder as a value ------------------------------------------------------

  function EncodedLength(n: nat): seq<byte>
    requires n < WORD
  {
    if n < 0x80 then [n] else
      LengthFits(n);
      [0x80 + |ToBytes(n)|] + ToBytes(n)
  }

  lemma LengthFits(n: nat)
    requires n < WORD
    ensures |ToBytes(n)| <= 4
  {
    assert Pow256(4) == WORD;
    LengthBound(n, 4);
  }

  function IntegerContent(v: nat): (c: seq<byte>)
    ensures |c| > 0
  {
    var b := ToBytes(v);
    BytesSpellTheNumber(v);
    if v == 0 then [0] else if b[0] >= 0x80 then [0] + b else b
  }

  function Tlv(tag: byte, content: seq<byte>): seq<byte>
    requires |content| < WORD
  {
    [tag] + EncodedLength(|content|) + content
  }

  function EncodedInteger(v: nat): (d: seq<byte>)
    requires IsScalar(v)
    ensures 3 <= |d| <= 35
  {
    ScalarSize(v);
    Tlv(INTEGER_TAG, IntegerContent(v))
  }

  function EncodedSignature(r: nat, s: nat): (d: seq<byte>)
    requires IsScalar(r) && IsScalar(s)
    ensures 8 <= |d| <= 72
  {
    Tlv(SEQUENCE_TAG, EncodedInteger(r) + EncodedInteger(s))
  }

  /** A scalar takes at most 32 bytes and a sign byte. */
  lemma ScalarSize(v: nat)
    requires IsScalar(v)
    ensures 1 <= |IntegerContent(v)| <= 33
  {
    assert Pow256(8) == 0x1_0000_0000_0000_0000;
    Pow256Adds(8, 8);
    Pow256Adds(16, 16);
    assert v < Pow256(32);
    LengthBound(v, 32);
  }

  lemma {:induction false} Pow256Adds(a: nat, b: nat)
    ensures Pow256(a + b) == Pow256(a) * Pow256(b)
  {
    if a > 0 {
      Pow256Adds(a - 1, b);
      assert Pow256(a) * Pow256(b) == 256 * (Pow256(a - 1) * Pow256(b));
    }
  }

  // ---- Reading is unambiguous ------------------------------------------------------

  lemma LengthFormsAreSelfDelimiting(d: seq<byte>, off: nat, a: nat, b: nat, x: nat, y: nat)
    requires off <= a <= |d| && off <= b <= |d|
    requires IsLength(d[off..a], x) && IsLength(d[off..b], y)
    ensures a == b && x == y
  {
    assert d[off..a][0] == d[off] == d[off..b][0];
  }

  lemma HeadersAreSelfDelimiting(d: seq<byte>, off: nat, tag: byte, a: nat, b: nat, x: nat, y: nat)
    requires Header(d, off, tag, a, x) && Header(d, off, tag, b, y)
    ensures a == b && x == y
  {
    LengthFormsAreSelfDelimiting(d, off + 1, a, b, x, y);
  }

  lemma IntegersAreSelfDelimiting(d: seq<byte>, off: nat, a: nat, b: nat, x: nat, y: nat)
    requires IsInteger(d, off, a, x) && IsInteger(d, off, b, y)
    ensures a == b && x == y
  {
    var m: nat :| IntegerSplit(d, off, m, a, x);
    var n: nat :| IntegerSplit(d, off, n, b, y);
    HeadersAreSelfDelimiting(d, off, INTEGER_TAG, m, n, a - m, b - n);
  }

  /** No byte string is accepted as two different signatures. */
  lemma ReadingIsUnique(d: seq<byte>, r: nat, s: nat, r': nat, s': nat)
    requires Accepts(d, r, s) && Accepts(d, r', s')
    ensures r == r' && s == s'
  {
    var c: nat, m: nat :| SignatureSplit(d, c, m, r, s);
    var c': nat, m': nat :| SignatureSplit(d, c', m', r', s');
    HeadersAreSelfDelimiting(d, 0, SEQUENCE_TAG, c, c', |d| - c, |d| - c');
    IntegersAreSelfDelimiting(d, c, m, m', r, r');
    IntegersAreSelfDelimiting(d, m, |d|, |d|, s, s');
  }

  // ---- Round trip ------------------------------------------------------------------

  lemma EncodedLengthIsLength(n: nat)
    requires n < WORD
    ensures IsLength(EncodedLength(n), n)
  {
    if n >= 0x80 {
      LengthFits(n);
      BytesSpellTheNumber(n);
      assert EncodedLength(n)[1..] == ToBytes(n);
    }
  }

  lemma ContentSpellsTheInteger(v: nat)
    ensures BigEndian(IntegerContent(v)) == v && IntegerContent(v)[0] < 0x80
  {
    BytesSpellTheNumber(v);
    var b := ToBytes(v);
    if v == 0 {
      OneMoreByte([], 0);
      assert [] + [0] == IntegerContent(0);
    } else if b[0] >= 0x80 {
      ZeroPrefix(b);
    }
  }

  lemma {:induction false} ZeroPrefix(b: seq<byte>)
    ensures BigEndian([0] + b) == BigEndian(b)
  {
    if b == [] {
      OneMoreByte([], 0);
      assert [0] + b == [] + [0];
    } else {
      var front, x := b[..|b| - 1], b[|b| - 1];
      ZeroPrefix(front);
      OneMoreByte(front, x);
      OneMoreByte([0] + front, x);
      assert b == front + [x] && [0] + b == [0] + front + [x];
    }
  }

  /** An encoded INTEGER inside a larger buffer reads as its value. */
  lemma EncodedIntegerReads(d: seq<byte>, x: seq<byte>, v: nat, z: seq<byte>, next: nat)
    requires IsScalar(v) && d == x + EncodedInteger(v) + z && next == |x| + |EncodedInteger(v)|
    ensures IsInteger(d, |x|, next, v)
  {
    var c := IntegerContent(v);
    ScalarSize(v);
    var form := EncodedLength(|c|);
    EncodedLengthIsLength(|c|);
    ContentSpellsTheInteger(v);
    TlvPlace(d, x, INTEGER_TAG, form, c, z);
    assert IntegerSplit(d, |x|, |x| + 1 + |form|, next, v);
  }

  /** parse(encode(r, s)) = (r, s), for every pair of scalars. */
  lemma RoundTrip(r: nat, s: nat)
    requires IsScalar(r) && IsScalar(s)
    ensures Accepts(EncodedSignature(r, s), r, s)
  {
    var a, b, d := EncodedInteger(r), EncodedInteger(s), EncodedSignature(r, s);
    var form := EncodedLength(|a + b|);
    var x := [SEQUENCE_TAG] + form;
    EncodedLengthIsLength(|a + b|);
    Reassociate(x, a, b);
    EncodedIntegerReads(d, x, r, b, |x + a|);
    EncodedIntegerReads(d, x + a, s, [], |d|);
    TlvPlace(d, [], SEQUENCE_TAG, form, a + b, []);
    SplitFound(d, |x|, |x + a|, r, s);
  }

  lemma SplitFound(d: seq<byte>, c: nat, m: nat, r: nat, s: nat)
    requires IsScalar(r) && IsScalar(s)
    requires c <= m <= |d| && Header(d, 0, SEQUENCE_TAG, c, |d| - c)
    requires IsInteger(d, c, m, r) && IsInteger(d, m, |d|, s)
    ensures Accepts(d, r, s)
  {
    assert SignatureSplit(d, c, m, r, s);
  }

  lemma Reassociate(x: seq<byte>, a: seq<byte>, b: seq<byte>)
    ensures x + (a + b) == x + a + b == x + a + b + [] == [] + (x + (a + b)) + []
  {
  }

  // ---- The encoder gives the unique shortest accepted form ---------------------------

  lemma ShortestLength(b: seq<byte>, n: nat)
    requires IsLength(b, n)
    ensures n < WORD
    ensures |EncodedLength(n)| <= |b|
    ensures |EncodedLength(n)| == |b| ==> b == EncodedLength(n)
  {
    if b[0] >= 0x80 {
      SpellingIsPadding(b[1..]);
      ValueBound(b[1..]);
      assert Pow256(4) == WORD && Pow256(3) < WORD && Pow256(2) < WORD && Pow256(1) < WORD;
      if n >= 0x80 && |EncodedLength(n)| == |b| {
        assert b == [b[0]] + b[1..];
        assert Zeros(0) + ToBytes(n) == ToBytes(n);
      } else if n < 0x80 {
        assert |EncodedLength(n)| < |b|;
      }
    }
  }

  lemma ShortestContent(c: seq<byte>)
    requires c != [] && c[0] < 0x80
    ensures var least := IntegerContent(BigEndian(c));
            |least| <= |c| && (|least| == |c| ==> least == c)
  {
    var v := BigEndian(c);
    SpellingIsPadding(c);
    BytesSpellTheNumber(v);
    var pad := |c| - |ToBytes(v)|;
    if pad == 0 {
      assert c == ToBytes(v);
    } else if pad == 1 {
      assert Zeros(1) == [0];
    }
  }

  /** A length form and a content no shorter than `least` take no less room than its TLV. */
  lemma ShortestTlv(tag: byte, form: seq<byte>, c: seq<byte>, least: seq<byte>)
    requires IsLength(form, |c|) && |least| <= |c| < WORD
    ensures |Tlv(tag, least)| <= 1 + |form| + |c|
    ensures |Tlv(tag, least)| == 1 + |form| + |c| ==> |least| == |c| && form == EncodedLength(|c|)
  {
    ShortestLength(form, |c|);
    LongerNumbersNeedMoreBytes(|least|, |c|);
    BytesSpellTheNumber(|c|);
  }

  lemma ShortestInteger(d: seq<byte>, off: nat, next: nat, v: nat)
    requires IsScalar(v) && IsInteger(d, off, next, v)
    ensures off < next <= |d|
    ensures |EncodedInteger(v)| <= next - off
    ensures |EncodedInteger(v)| == next - off ==> d[off..next] == EncodedInteger(v)
  {
    var m: nat :| IntegerSplit(d, off, m, next, v);
    var form, c := d[off + 1..m], d[m..next];
    ShortestContent(c);
    ShortestLength(form, |c|);
    ShortestTlv(INTEGER_TAG, form, c, IntegerContent(v));
    CutInThree(d, off, m, next);
  }

  /** Every accepted string is at least as long as the encoder's, and no other is as short. */
  lemma EncoderIsUniqueShortest(d: seq<byte>, r: nat, s: nat)
    requires Accepts(d, r, s)
    ensures |EncodedSignature(r, s)| <= |d|
    ensures |EncodedSignature(r, s)| == |d| ==> d == EncodedSignature(r, s)
  {
    var c: nat, m: nat :| SignatureSplit(d, c, m, r, s);
    ShortestInteger(d, c, m, r);
    ShortestInteger(d, m, |d|, s);
    var form, content, least := d[1..c], d[c..], EncodedInteger(r) + EncodedInteger(s);
    ShortestLength(form, |content|);
    ShortestTlv(SEQUENCE_TAG, form, content, least);
    CutInTwo(d, c, m);
    CutInThree(d, 0, c, |d|);
    assert d[0..|d|] == d && d[c..|d|] == content;
  }

  /** Decoding then encoding is not the identity: a padded INTEGER is accepted too. */
  lemma NonMinimalFormsAreAccepted()
    ensures Accepts([0x30, 7, 2, 2, 0, 1, 2, 1, 1], 1, 1)
    ensures EncodedSignature(1, 1) != [0x30, 7, 2, 2, 0, 1, 2, 1, 1]
  {
    var d: seq<byte> := [0x30, 7, 2, 2, 0, 1, 2, 1, 1];
    SmallNumbers();
    assert d[4..6] == [0, 1] && d[8..9] == [1];
    assert d[1..2] == [7] && d[3..4] == [2] && d[7..8] == [1];
    assert IntegerSplit(d, 2, 4, 6, 1);
    assert IntegerSplit(d, 6, 8, 9, 1);
    assert SignatureSplit(d, 2, 6, 1, 1);
    assert IntegerContent(1) == [1];
    assert EncodedInteger(1) == [2, 1, 1];
    assert EncodedSignature(1, 1)[1] == 6;
  }

  lemma SmallNumbers()
    ensures ToBytes(1) == [1] && BigEndian([1]) == 1 && BigEndian([0, 1]) == 1
  {
    OneMoreByte([], 0);
    OneMoreByte([], 1);
    OneMoreByte([0], 1);
    assert [] + [0] == [0] && [] + [1] == [1] && [0] + [1] == [0, 1];
  }

  // ---- The source's loops ------------------------------------------------------------

  lemma LengthByDigits(length: nat, high: nat)
    requires length >= 0x80 && high == length % WORD / 256
    ensures |ToBytes(high)| <= 3
    ensures length < WORD ==>
              var digits := ToBytes(high) + [length % 256];
              EncodedLength(length) == [0x80 + |digits|] + digits
  {
    assert Pow256(3) == 0x100_0000;
    LengthBound(high, 3);
  }

  /** der.ts encodeLength; `>>>= 8` first truncates to 32 bits. */
  method EncodeLength(length: nat) returns (b: seq<byte>)
    ensures length < 0x80 ==> b == [length]
    ensures length >= 0x80 ==>
              var rest := ToBytes(length % WORD / 256) + [length % 256];
              |rest| <= 4 && b == [0x80 + |rest|] + rest
    ensures length < WORD ==> b == EncodedLength(length)
  {
    if length < 0x80 {
      return [length];
    }
    var bytes: seq<byte> := [length % 256];
    var remaining: nat := length % WORD / 256;
    ghost var whole := remaining;
    while remaining > 0
      invariant remaining < WORD
      invariant ToBytes(whole) + [length % 256] == ToBytes(remaining) + bytes
    {
      assert ToBytes(remaining) == ToBytes(remaining / 256) + [remaining % 256];
      bytes := [remaining % 256] + bytes;
      remaining := remaining % WORD / 256;
    }
    LengthByDigits(length, whole);
    return [0x80 + |bytes|] + bytes;
  }

  /** der.ts readLength. */
  method ReadLength(der: seq<byte>, offset: nat) returns (result: Result<(nat, nat)>)
    ensures result.Ok? ==> var (length, next) := result.value;
                           offset < next <= |der| && IsLength(der[offset..next], length)
    ensures result.Err? ==> forall next, n :: offset <= next <= |der| ==> !IsLength(der[offset..next], n)
  {
    if offset >= |der| {
      return Err("truncated: missing length");
    }
    var first := der[offset];
    if first < 0x80 {
      return Ok((first as nat, offset + 1));
    }
    var count := first - 0x80;
    if count == 0 {
      return Err("indefinite length");
    }
    if count > 4 {
      return Err("length too large");
    }
    var length: nat := 0;
    for i := 0 to count
      invariant offset + 1 + i <= |der|
      invariant length == BigEndian(der[offset + 1..offset + 1 + i])
    {
      if offset + 1 + i >= |der| {
        return Err("truncated: length");
      }
      assert der[offset + 1..offset + 2 + i] == der[offset + 1..offset + 1 + i] + [der[offset + 1 + i]];
      OneMoreByte(der[offset + 1..offset + 1 + i], der[offset + 1 + i]);
      length := length * 256 + der[offset + 1 + i];
    }
    assert der[offset..offset + 1 + count][1..] == der[offset + 1..offset + 1 + count];
    return Ok((length, offset + 1 + count));
  }

  /** The tag test and the length read that follows it wherever a TLV is opened. */
  method ReadHeader(der: seq<byte>, offset: nat, tag: byte) returns (result: Result<(nat, nat)>)
    ensures result.Ok? ==> Header(der, offset, tag, result.value.1, result.value.0)
    ensures result.Err? ==> forall m, n :: !Header(der, offset, tag, m, n)
  {
    if offset >= |der| || der[offset] != tag {
      return Err("tag missing");
    }
    result := ReadLength(der, offset + 1);
  }

  /** der.ts toDerInteger: hexadecimal text, two digits to a byte, then the sign byte. */
  method ToDerInteger(value: nat) returns (b: seq<byte>)
    ensures b == IntegerContent(value)
  {
    if value == 0 {
      return [0x00];
    }
    var padded := EvenHex(value);
    ghost var digits := ToBytes(value);
    HexPairsAreBytes(value);
    var bytes := new byte[|padded| / 2];
    for i := 0 to bytes.Length
      invariant forall k :: 0 <= k < i ==> bytes[k] == digits[k]
    {
      bytes[i] := HexValue(padded[2 * i]) * 16 + HexValue(padded[2 * i + 1]);
    }
    assert bytes[..] == digits;
    if bytes[0] >= 0x80 {
      var out := new byte[bytes.Length + 1](_ => 0);
      forall k | 0 <= k < bytes.Length {
        out[k + 1] := bytes[k];
      }
      assert out[..] == [0] + bytes[..];
      return out[..];
    }
    return bytes[..];
  }

  /** der.ts encodeSignatureDer. */
  method EncodeSignatureDer(r: int, s: int) returns (result: Result<seq<byte>>)
    ensures result.Ok? <==> IsScalar(r) && IsScalar(s)
    ensures result.Ok? ==> result.value == EncodedSignature(r, s)
  {
    if !IsScalar(r) || !IsScalar(s) {
      return Err("out of range 1..n-1");
    }
    var rContent := ToDerInteger(r);
    ScalarSize(r);
    var rLength := EncodeLength(|rContent|);
    var sContent := ToDerInteger(s);
    ScalarSize(s);
    var sLength := EncodeLength(|sContent|);
    var rBytes := [INTEGER_TAG] + rLength + rContent;
    var sBytes := [INTEGER_TAG] + sLength + sContent;
    var inner := new byte[|rBytes| + |sBytes|];
    forall i | 0 <= i < |rBytes| {
      inner[i] := rBytes[i];
    }
    forall i | 0 <= i < |sBytes| {
      inner[|rBytes| + i] := sBytes[i];
    }
    assert inner[..] == rBytes + sBytes;
    var length := EncodeLength(inner.Length);
    return Ok([SEQUENCE_TAG] + length + inner[..]);
  }

  /** The closure readInteger of der.ts parseSignatureDer. */
  method ReadInteger(der: seq<byte>, offset: nat) returns (result: Result<(nat, nat)>)
    ensures result.Ok? ==> IsInteger(der, offset, result.value.1, result.value.0)
    ensures result.Err? ==> forall next, v :: !IsInteger(der, offset, next, v)
  {
    var read := ReadHeader(der, offset, INTEGER_TAG);
    if read.Err? {
      return Err(read.code);
    }
    var (length, next) := read.value;
    forall m: nat, end: nat, v: nat | IntegerSplit(der, offset, m, end, v)
      ensures m == next && end == next + length
    {
      HeadersAreSelfDelimiting(der, offset, INTEGER_TAG, next, m, length, end - m);
    }
    if length == 0 {
      return Err("INTEGER is empty");
    }
    var content := if next + length <= |der| then der[next..next + length] else der[next..];
    if |content| != length {
      return Err("INTEGER truncated");
    }
    if content[0] >= 0x80 {
      return Err("INTEGER is negative");
    }
    var value: nat := 0;
    for i := 0 to |content|
      invariant value == Prefix(content, i)
    {
      value := value * 256 + content[i];
    }
    assert IntegerSplit(der, offset, next, next + length, value);
    return Ok((value, next + length));
  }

  /** der.ts parseSignatureDer: total, and exactly the grammar. */
  method ParseSignatureDer(der: seq<byte>) returns (result: Result<Scalars>)
    ensures result.Ok? ==> Accepts(der, result.value.r, result.value.s)
    ensures result.Err? ==> forall r, s :: !Accepts(der, r, s)
  {
    var header := ReadHeader(der, 0, SEQUENCE_TAG);
    if header.Err? {
      return Err(header.code);
    }
    var (seqLength, c) := header.value;
    forall c': nat, m: nat, r: nat, s: nat | SignatureSplit(der, c', m, r, s)
      ensures c' == c && |der| == c + seqLength
    {
      HeadersAreSelfDelimiting(der, 0, SEQUENCE_TAG, c, c', seqLength, |der| - c');
    }
    if c + seqLength != |der| {
      return Err("length mismatch");
    }
    var first := ReadInteger(der, c);
    if first.Err? {
      return Err(first.code);
    }
    var (r, afterR) := first.value;
    var second := ReadInteger(der, afterR);
    forall m: nat, r': nat, s': nat | SignatureSplit(der, c, m, r', s')
      ensures m == afterR && r' == r && second.Ok? && second.value == (s', |der|)
    {
      IntegersAreSelfDelimiting(der, c, m, afterR, r', r);
      if second.Ok? {
        IntegersAreSelfDelimiting(der, m, |der|, second.value.1, s', second.value.0);
      }
    }
    if second.Err? {
      return Err(second.code);
    }
    var (s, afterS) := second.value;
    if afterS != c + seqLength {
      return Err("trailing bytes");
    }
    assert SignatureSplit(der, c, afterR, r, s);
    if !IsScalar(r) || !IsScalar(s) {
      return Err("out of range 1..n-1");
    }
    return Ok(Scalars(r, s));
  }
}
