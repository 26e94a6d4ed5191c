// The gNB-ID codec of section 9.3.1.6 of 3GPP TS 38.413: identifiers of 22 to 32 bits as
// left-aligned, big-endian bit strings (src/util/conversions.c).
module GnbId {
  import opened Ids

  /** `unused` of the 32 bits do not belong to the identifier. */
  datatype GnbIdentifier = GnbIdentifier(nbId: bv32, unused: bv8)

  /** `bitsUnused` counts the padding bits at the end of the last byte. */
  datatype BitString = BitString(buf: seq<bv8>, bitsUnused: bv8)

  /** What the encoder asserts: 22 to 32 bits, and the identifier fits in them. */
  predicate IsGnbId(id: GnbIdentifier) {
    id.unused < 11 && (id.unused == 0 || id.nbId >> (32 - id.unused) == 0)
  }

  /** What the decoder asserts: 3 or 4 bytes, at least 22 bits. */
  predicate IsGnbString(s: BitString) {
    (|s.buf| == 3 && s.bitsUnused < 3) || (|s.buf| == 4 && s.bitsUnused < 8)
  }

  /** The padding of the last byte is zero. */
  predicate ZeroPadded(s: BitString)
    requires IsGnbString(s)
  {
    s.buf[|s.buf| - 1] << (8 - s.bitsUnused) == 0 || s.bitsUnused == 0
  }

  function LowByte(w: bv32): bv8 {
    (w & 0xFF) as bv8
  }

  function CpGnbIdToBitString(id: GnbIdentifier): (r: Option<BitString>)
    ensures r.Some? <==> IsGnbId(id)
  {
    if !IsGnbId(id) then None
    else if id.unused > 7 then
      var u := id.unused - 8;
      var m: bv8 := 0xFF >> u;
      Some(BitString([LowByte(id.nbId >> (16 - u)), LowByte(id.nbId >> (8 - u)),
                      LowByte(id.nbId & (m as bv32)) << u], id.unused % 8))
    else
      var u := id.unused;
      var m: bv8 := 0xFF >> u;
      Some(BitString([LowByte(id.nbId >> (24 - u)), LowByte(id.nbId >> (16 - u)), LowByte(id.nbId >> (8 - u)),
                      LowByte(id.nbId & (m as bv32)) << u], id.unused % 8))
  }

  function CpBitStringToGnbId(s: BitString): (r: Option<GnbIdentifier>)
    ensures r.Some? <==> IsGnbString(s)
  {
    if !IsGnbString(s) then None
    else if |s.buf| == 3 then
      var b0 := (s.buf[0] as bv32) << (16 - s.bitsUnused);
      var b1 := (s.buf[1] as bv32) << (8 - s.bitsUnused);
      var b2 := (s.buf[2] as bv32) >> s.bitsUnused;
      Some(GnbIdentifier(b0 | b1 | b2, s.bitsUnused + 8))
    else
      var b0 := (s.buf[0] as bv32) << (24 - s.bitsUnused);
      var b1 := (s.buf[1] as bv32) << (16 - s.bitsUnused);
      var b2 := (s.buf[2] as bv32) << (8 - s.bitsUnused);
      var b3 := (s.buf[3] as bv32) >> s.bitsUnused;
      Some(GnbIdentifier(b0 | b1 | b2 | b3, s.bitsUnused))
  }

  /** The bytes read as a big-endian word, padded with zero bytes to 32 bits. */
  function AsWord(buf: seq<bv8>): bv32
    requires |buf| == 3 || |buf| == 4
  {
    ((buf[0] as bv32) << 24) | ((buf[1] as bv32) << 16) | ((buf[2] as bv32) << 8)
    | (if |buf| == 4 then buf[3] as bv32 else 0)
  }

  // ------------------------------------------------------------ shifts and bytes

  /** What the decoder makes of the four bytes the encoder wrote. */
  function FourBytesRead(x: bv32, u: bv8): bv32
    requires u < 8
  {
    var m: bv8 := 0xFF >> u;
    ((LowByte(x >> (24 - u)) as bv32) << (24 - u)) | ((LowByte(x >> (16 - u)) as bv32) << (16 - u))
    | ((LowByte(x >> (8 - u)) as bv32) << (8 - u)) | (((LowByte(x & (m as bv32)) << u) as bv32) >> u)
  }

  lemma FewUnusedAndBack(x: bv32, u: bv8)
    requires u < 4 && (u == 0 || x >> (32 - u) == 0)
    ensures FourBytesRead(x, u) == x
  {
  }

  lemma MoreUnusedAndBack(x: bv32, u: bv8)
    requires 4 <= u < 8 && x >> (32 - u) == 0
    ensures FourBytesRead(x, u) == x
  {
  }

  lemma ThreeBytesAndBack(x: bv32, u: bv8)
    requires u < 3 && x >> (24 - u) == 0
    ensures var m: bv8 := 0xFF >> u;
            ((LowByte(x >> (16 - u)) as bv32) << (16 - u)) | ((LowByte(x >> (8 - u)) as bv32) << (8 - u))
            | (((LowByte(x & (m as bv32)) << u) as bv32) >> u) == x
  {
  }

  lemma FourBytesAsWord(x: bv32, u: bv8)
    requires u < 8 && (u == 0 || x >> (32 - u) == 0)
    ensures var m: bv8 := 0xFF >> u;
            ((LowByte(x >> (24 - u)) as bv32) << 24) | ((LowByte(x >> (16 - u)) as bv32) << 16)
            | ((LowByte(x >> (8 - u)) as bv32) << 8) | ((LowByte(x & (m as bv32)) << u) as bv32) == x << u
  {
  }

  lemma ThreeBytesAsWord(x: bv32, unused: bv8)
    requires 7 < unused < 11 && x >> (32 - unused) == 0
    ensures var u := unused - 8;
            var m: bv8 := 0xFF >> u;
            ((LowByte(x >> (16 - u)) as bv32) << 24) | ((LowByte(x >> (8 - u)) as bv32) << 16)
            | (((LowByte(x & (m as bv32)) << u) as bv32) << 8) | (0 as bv32) == x << unused
  {
  }

  lemma WordAndItsFourBytes(a: bv8, b: bv8, c: bv8, d: bv8, u: bv8)
    requires u < 8
    ensures u % 8 == u
    ensures var m: bv8 := 0xFF >> u;
            var y := ((a as bv32) << (24 - u)) | ((b as bv32) << (16 - u)) | ((c as bv32) << (8 - u))
                     | ((d as bv32) >> u);
            && (u == 0 || y >> (32 - u) == 0)
            && LowByte(y >> (24 - u)) == a && LowByte(y >> (16 - u)) == b && LowByte(y >> (8 - u)) == c
            && LowByte(y & (m as bv32)) << u == (d >> u) << u
  {
  }

  lemma WordAndItsThreeBytes(a: bv8, b: bv8, c: bv8, u: bv8)
    requires u < 3
    ensures var y := ((a as bv32) << (16 - u)) | ((b as bv32) << (8 - u)) | ((c as bv32) >> u);
            var unused := u + 8;
            var v := unused - 8;
            var m: bv8 := 0xFF >> v;
            && 7 < unused < 11 && unused % 8 == u && y >> (32 - unused) == 0
            && LowByte(y >> (16 - v)) == a && LowByte(y >> (8 - v)) == b
            && LowByte(y & (m as bv32)) << v == (c >> u) << u
  {
  }

  lemma PaddingIsDropped(d: bv8, u: bv8)
    requires u < 8
    ensures (d >> u) << u == d <==> d << (8 - u) == 0 || u == 0
  {
  }

  // ------------------------------------------------------------ what is accepted

  /** Identifiers of at least 22 bits that lose nothing when shifted up to the top of the word. */
  lemma EncoderAccepts(x: bv32, u: bv8)
    ensures IsGnbId(GnbIdentifier(x, u)) <==> u <= 10 && (x << u) >> u == x
  {
    ShiftedUpAndBack(x, u);
  }

  lemma ShiftedUpAndBack(x: bv32, u: bv8)
    ensures u < 11 && (u == 0 || x >> (32 - u) == 0) <==> u <= 10 && (x << u) >> u == x
  {
  }

  /** Strings of 22 to 32 bits whose padding is less than a byte. */
  lemma DecoderAccepts(s: BitString)
    ensures CpBitStringToGnbId(s).Some? <==> s.bitsUnused < 8 && 22 <= 8 * |s.buf| - s.bitsUnused as int <= 32
  {
  }

  // ------------------------------------------------------------ round trips

  /** Decoding undoes encoding, for every identifier the encoder accepts. */
  lemma DecodeEncode(id: GnbIdentifier)
    requires IsGnbId(id)
    ensures var s := CpGnbIdToBitString(id).value; IsGnbString(s) && CpBitStringToGnbId(s) == Some(id)
  {
    if id.unused > 7 {
      ThreeBytesAndBack(id.nbId, id.unused - 8);
    } else if id.unused < 4 {
      FewUnusedAndBack(id.nbId, id.unused);
    } else {
      MoreUnusedAndBack(id.nbId, id.unused);
    }
  }

  /** The string read as a number is the identifier times two to the unused bits: the
      identifier shifted up to the top bit, with zeros below; DecodeEncode says that no bit is
      lost above. */
  lemma EncodedIsLeftAligned(id: GnbIdentifier)
    requires IsGnbId(id)
    ensures AsWord(CpGnbIdToBitString(id).value.buf) == id.nbId << id.unused
  {
    if id.unused > 7 {
      ThreeBytesAsWord(id.nbId, id.unused);
    } else {
      FourBytesAsWord(id.nbId, id.unused);
    }
  }

  /** The string with zeros in place of its padding. */
  function Repadded(s: BitString): BitString
    requires IsGnbString(s)
  {
    var u := s.bitsUnused;
    if |s.buf| == 3 then BitString([s.buf[0], s.buf[1], (s.buf[2] >> u) << u], u)
    else BitString([s.buf[0], s.buf[1], s.buf[2], (s.buf[3] >> u) << u], u)
  }

  lemma EncodeDecodeShort(a: bv8, b: bv8, c: bv8, u: bv8)
    requires u < 3
    ensures var id := CpBitStringToGnbId(BitString([a, b, c], u)).value;
            IsGnbId(id) && CpGnbIdToBitString(id) == Some(BitString([a, b, (c >> u) << u], u))
  {
    WordAndItsThreeBytes(a, b, c, u);
  }

  lemma EncodeDecodeLong(a: bv8, b: bv8, c: bv8, d: bv8, u: bv8)
    requires u < 8
    ensures var id := CpBitStringToGnbId(BitString([a, b, c, d], u)).value;
            IsGnbId(id) && CpGnbIdToBitString(id) == Some(BitString([a, b, c, (d >> u) << u], u))
  {
    WordAndItsFourBytes(a, b, c, d, u);
  }

  /** Encoding undoes decoding up to the padding, which comes back as zeros. */
  lemma EncodeDecode(s: BitString)
    requires IsGnbString(s)
    ensures var id := CpBitStringToGnbId(s).value; IsGnbId(id) && CpGnbIdToBitString(id) == Some(Repadded(s))
  {
    if |s.buf| == 3 {
      assert s == BitString([s.buf[0], s.buf[1], s.buf[2]], s.bitsUnused);
      EncodeDecodeShort(s.buf[0], s.buf[1], s.buf[2], s.bitsUnused);
    } else {
      assert s == BitString([s.buf[0], s.buf[1], s.buf[2], s.buf[3]], s.bitsUnused);
      EncodeDecodeLong(s.buf[0], s.buf[1], s.buf[2], s.buf[3], s.bitsUnused);
    }
  }

  lemma RepaddedIff(s: BitString)
    requires IsGnbString(s)
    ensures Repadded(s) == s <==> ZeroPadded(s)
  {
    var last := |s.buf| - 1;
    PaddingIsDropped(s.buf[last], s.bitsUnused);
    assert Repadded(s).buf[last] == (s.buf[last] >> s.bitsUnused) << s.bitsUnused;
  }

  /** So it is the identity exactly on the zero-padded strings. */
  lemma EncodeDecodeIffPadded(s: BitString)
    requires IsGnbString(s)
    ensures CpGnbIdToBitString(CpBitStringToGnbId(s).value) == Some(s) <==> ZeroPadded(s)
  {
    EncodeDecode(s);
    RepaddedIff(s);
  }

  /** An encoded identifier is always zero padded. */
  lemma EncodedIsZeroPadded(id: GnbIdentifier)
    requires IsGnbId(id)
    ensures IsGnbString(CpGnbIdToBitString(id).value) && ZeroPadded(CpGnbIdToBitString(id).value)
  {
    DecodeEncode(id);
    EncodeDecodeIffPadded(CpGnbIdToBitString(id).value);
  }

  /** The encoder reaches exactly the zero-padded strings, each from one identifier: the codec
      is a bijection between those and the identifiers of 22 to 32 bits. */
  lemma EncodedStrings(s: BitString)
    ensures (exists id :: IsGnbId(id) && CpGnbIdToBitString(id) == Some(s)) <==> IsGnbString(s) && ZeroPadded(s)
    ensures forall id, other ::
              CpGnbIdToBitString(id) == Some(s) && CpGnbIdToBitString(other) == Some(s) ==> id == other
  {
    forall id | CpGnbIdToBitString(id) == Some(s)
      ensures IsGnbString(s) && ZeroPadded(s) && CpBitStringToGnbId(s) == Some(id)
    {
      DecodeEncode(id);
      EncodedIsZeroPadded(id);
    }
    if IsGnbString(s) && ZeroPadded(s) {
      EncodeDecode(s);
      RepaddedIff(s);
    }
  }
}
