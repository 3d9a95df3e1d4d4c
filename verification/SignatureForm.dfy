/**
 * services/signer-service/src/sign/pipeline.ts with normaliseS of keys/der.ts: from the key
 * source's DER answer to the emitted signature. Curve recovery is a parameter: for each
 * recovery id, the address it recovers to, or nothing when the id is impossible.
 */
module SignatureForm {
  import opened Wrappers
  import opened Bytes
  import opened Der

  /** The response fields: `v` is 27 or 28, `r` and `s` are 0x-prefixed hexadecimal. */
  datatype SignatureParts = SignatureParts(v: nat, r: string, s: string)

  predicate IsHighS(s: nat) {
    s > HALF_ORDER
  }

  function NormaliseS(s: nat): nat
    requires IsScalar(s)
  {
    if IsHighS(s) then ORDER - s else s
  }

  /** The emitted s is the one of s and n - s in the lower half, however it arrived. */
  lemma LowSIsCanonical(s: nat)
    requires IsScalar(s)
    ensures 1 <= NormaliseS(s) <= HALF_ORDER
    ensures NormaliseS(s) == s || NormaliseS(s) == ORDER - s
    ensures NormaliseS(ORDER - s) == NormaliseS(s) == NormaliseS(NormaliseS(s))
    ensures NormaliseS(s) == s <==> s <= HALF_ORDER
  {
  }

  function ToBigIntHex(value: nat): (hex: string)
    ensures |hex| % 2 == 0 && |hex| >= 4 && hex[..2] == "0x" && IsHex(hex[2..])
  {
    "0x" + EvenHex(value)
  }

  /** `padStart(width, "0")` of a number's hexadecimal text. */
  function PaddedHex(value: nat, width: nat): (hex: string)
    ensures IsHex(hex) && |hex| >= width
  {
    var text := HexText(value);
    if |text| < width then ZeroText(width - |text|) + text else text
  }

  predicate WellFormed(parts: SignatureParts) {
    |parts.r| >= 2 && |parts.s| >= 2 && IsHex(parts.r[2..]) && IsHex(parts.s[2..])
  }

  function PackSignature65(parts: SignatureParts): string
    requires WellFormed(parts)
  {
    "0x" + PaddedHex(FromHex(parts.r[2..]), 64) + PaddedHex(FromHex(parts.s[2..]), 64) + PaddedHex(parts.v, 2)
  }

  lemma HexFieldReadsBack(value: nat)
    ensures FromHex(ToBigIntHex(value)[2..]) == value
  {
    HexReadsBack(value);
    LeadingZerosReadAway(1, HexText(value));
    assert ToBigIntHex(value)[2..] == EvenHex(value);
    assert ZeroText(1) == "0";
  }

  lemma PaddedHexReadsBack(value: nat, width: nat)
    requires width > 0 && value < Pow16(width)
    ensures |PaddedHex(value, width)| == width && FromHex(PaddedHex(value, width)) == value
  {
    HexReadsBack(value);
    HexLength(value, width);
    var text := HexText(value);
    if |text| < width {
      LeadingZerosReadAway(width - |text|, text);
    }
  }

  lemma {:induction false} Pow16Adds(a: nat, b: nat)
    ensures Pow16(a + b) == Pow16(a) * Pow16(b)
  {
    if a > 0 {
      Pow16Adds(a - 1, b);
      assert Pow16(a) * Pow16(b) == 16 * (Pow16(a - 1) * Pow16(b));
    }
  }

  lemma ScalarsFitInWords(v: nat)
    requires v < ORDER
    ensures v < Pow16(64)
  {
    assert Pow16(8) == WORD;
    Pow16Adds(8, 8);
    Pow16Adds(16, 16);
    Pow16Adds(32, 32);
  }

  /** The packed string splits at fixed places into the very numbers the fields spell. */
  lemma PackingSplitsBack(v: nat, r: nat, s: nat)
    requires v == 27 || v == 28
    requires IsScalar(r) && IsScalar(s)
    ensures var packed := PackSignature65(SignatureParts(v, ToBigIntHex(r), ToBigIntHex(s)));
            && |packed| == 2 + 2 * 65 && IsHex(packed[2..66]) && IsHex(packed[66..130]) && IsHex(packed[130..])
            && FromHex(packed[2..66]) == r && FromHex(packed[66..130]) == s && FromHex(packed[130..]) == v
  {
    HexFieldReadsBack(r);
    HexFieldReadsBack(s);
    ScalarsFitInWords(r);
    ScalarsFitInWords(s);
    PaddedHexReadsBack(r, 64);
    PaddedHexReadsBack(s, 64);
    assert Pow16(2) == 256;
    PaddedHexReadsBack(v, 2);
    FieldPlaces("0x", PaddedHex(r, 64), PaddedHex(s, 64), PaddedHex(v, 2));
  }

  lemma FieldPlaces(prefix: string, r: string, s: string, v: string)
    requires |prefix| == 2 && |r| == |s| == 64
    ensures var packed := prefix + r + s + v;
            packed[2..66] == r && packed[66..130] == s && packed[130..] == v
  {
  }

  /** pipeline.ts recoverV: the parity of the first recovery id that yields the address. */
  method RecoverV(recovers: int -> Option<string>, expected: string) returns (result: Result<nat>)
    ensures result.Ok? ==> exists id :: 0 <= id < 4 && recovers(id) == Some(expected)
                                        && result.value == 27 + id % 2
                                        && forall j :: 0 <= j < id ==> recovers(j) != Some(expected)
    ensures result.Err? ==> forall id :: 0 <= id < 4 ==> recovers(id) != Some(expected)
  {
    for id := 0 to 4
      invariant forall j :: 0 <= j < id ==> recovers(j) != Some(expected)
    {
      if recovers(id) == Some(expected) {
        return Ok(27 + id % 2);
      }
    }
    return Err("signature recovery failed");
  }

  /** The fields emitted for (r, s): r kept, s made low, v the parity of a recovering id. */
  ghost predicate Emits(r: nat, s: nat, recovers: (nat, nat, int) -> Option<string>, derived: string,
                        parts: SignatureParts)
  {
    && IsScalar(r) && IsScalar(s)
    && parts.r == ToBigIntHex(r) && parts.s == ToBigIntHex(NormaliseS(s))
    && exists id :: 0 <= id < 4 && recovers(r, NormaliseS(s), id) == Some(derived) && parts.v == 27 + id % 2
  }

  /**
   * pipeline.ts signDigestWithKeySource: an answer is emitted exactly when the grammar accepts
   * it and some recovery id yields the derived address.
   */
  method EmitSignature(der: seq<byte>, recovers: (nat, nat, int) -> Option<string>, derived: string)
    returns (result: Result<(SignatureParts, string)>)
    ensures result.Ok? ==>
              exists r, s :: Accepts(der, r, s) && Emits(r, s, recovers, derived, result.value.0)
                             && result.value.1 == PackSignature65(result.value.0)
    ensures result.Err? ==>
              forall r, s, parts :: Accepts(der, r, s) ==> !Emits(r, s, recovers, derived, parts)
  {
    var parsed := ParseSignatureDer(der);
    if parsed.Err? {
      return Err(parsed.code);
    }
    var r, s := parsed.value.r, NormaliseS(parsed.value.s);
    forall r', s' | Accepts(der, r', s')
      ensures r' == r && NormaliseS(s') == s
    {
      ReadingIsUnique(der, r, parsed.value.s, r', s');
    }
    var recover := (id: int) => recovers(r, s, id);
    var v := RecoverV(recover, derived);
    if v.Err? {
      forall id | 0 <= id < 4
        ensures recovers(r, s, id) != Some(derived)
      {
        assert recover(id) != Some(derived);
      }
      return Err(v.code);
    }
    var parts := SignatureParts(v.value, ToBigIntHex(r), ToBigIntHex(s));
    assert Emits(r, parsed.value.s, recovers, derived, parts);
    return Ok((parts, PackSignature65(parts)));
  }
}
