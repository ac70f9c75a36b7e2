/** The integer side of the shared-exponent colour packing done by the
    shaders: the exponent choice, the field layout of the 32-bit word and its
    inverse. The skybox writes such words into R32_UINT storage images and
    samples them through VK_FORMAT_E5B9G9R9_UFLOAT_PACK32 views, so the
    layout must be the one that format defines (Formats chapter of the
    Vulkan specification): R in bits 0..8, G in 9..17, B in 18..26 and the
    exponent in 27..31. The float arithmetic around it (calcColor, exp2, the
    clamp itself) is abstracted: the channels arrive as the u32 values
    calcColor produced, and floor(log2 maxChannel) as an integer. */
module SharedExponent {

  type Word = bv32

  const MANTISSA_MASK: Word := 0x1FF
  /** The clamp bound 16384 is 2^14, so floor(log2 maxChannel) <= 14. */
  const MAX_CHANNEL_LOG2: int := 14

  /** The biased exponent max(-16, floor(log2 maxChannel)) + 16. A zero
      maximum (log2 = -inf) is any logarithm at or below -16. */
  function BiasedExponent(floorLog2Max: int): (e: int)
    requires floorLog2Max <= MAX_CHANNEL_LOG2
    ensures 0 <= e <= 30
    ensures floorLog2Max <= -16 ==> e == 0
    ensures floorLog2Max >= -16 ==> e - 16 == floorLog2Max
  {
    (if floorLog2Max < -16 then -16 else floorLog2Max) + 16
  }

  /** The exponent after the bump: one more when the maximum channel rounds
      to 512 (a mantissa overflow) at the first exponent. */
  function BumpedExponent(e: int, roundedMax: nat): (e': int)
  {
    if roundedMax == 512 then e + 1 else e
  }

  /** The bump raises the exponent by exactly one iff the maximum rounds to
      512, and the result still fits the 5-bit field. */
  lemma ExponentFitsField(floorLog2Max: int, roundedMax: nat)
    requires floorLog2Max <= MAX_CHANNEL_LOG2
    ensures var e := BiasedExponent(floorLog2Max);
      && (BumpedExponent(e, roundedMax) == e + 1 <==> roundedMax == 512)
      && (BumpedExponent(e, roundedMax) == e <==> roundedMax != 512)
      && 0 <= BumpedExponent(e, roundedMax) < 32
  {
  }

  /** packe5bgr9's field assembly: each channel is masked to 9 bits before
      it is shifted, then (exp << 27) | (b << 18) | (g << 9) | r. */
  function Pack(exp: Word, r: Word, g: Word, b: Word): Word
  {
    (exp << 27) | ((b & MANTISSA_MASK) << 18) | ((g & MANTISSA_MASK) << 9) | (r & MANTISSA_MASK)
  }

  datatype Fields = Fields(exp: Word, r: Word, g: Word, b: Word)

  /** unpacke5bgr9's field extraction: exp = bits 27..31, r = 0..8,
      g = 9..17, b = 18..26. */
  function Unpack(w: Word): (f: Fields)
    ensures f.exp < 32 && f.r < 512 && f.g < 512 && f.b < 512
  {
    Fields(w >> 27, w & MANTISSA_MASK, (w >> 9) & MANTISSA_MASK, (w >> 18) & MANTISSA_MASK)
  }

  /** The VK_FORMAT_E5B9G9R9_UFLOAT_PACK32 word with these fields, written
      positionally (exponent weight 2^27, B 2^18, G 2^9, R 1) rather than
      with shifts and masks. */
  function E5B9G9R9Word(exp: Word, b: Word, g: Word, r: Word): Word
    requires exp < 32 && b < 512 && g < 512 && r < 512
  {
    exp * 0x800_0000 + b * 0x4_0000 + g * 0x200 + r
  }

  /** The shader's word has the Vulkan format's layout. */
  lemma PackIsE5B9G9R9(exp: Word, r: Word, g: Word, b: Word)
    requires exp < 32 && r < 512 && g < 512 && b < 512
    ensures Pack(exp, r, g, b) == E5B9G9R9Word(exp, b, g, r)
  {
  }

  /** Unpack inverts the layout: a valid exponent comes back unchanged, and
      each channel comes back as its low 9 bits whatever its size. */
  lemma UnpackPack(exp: Word, r: Word, g: Word, b: Word)
    requires exp < 32
    ensures Unpack(Pack(exp, r, g, b)) == Fields(exp, r & MANTISSA_MASK, g & MANTISSA_MASK, b & MANTISSA_MASK)
  {
  }

  /** And Pack inverts Unpack: every word is the packing of its own fields. */
  lemma PackUnpack(w: Word)
    ensures var f := Unpack(w); Pack(f.exp, f.r, f.g, f.b) == w
  {
  }

  /** Masking keeps the fields apart: however large a channel value is, it
      can neither change the exponent nor another channel. */
  lemma ChannelsCannotOverlap(exp: Word, r: Word, g: Word, b: Word, r': Word, g': Word, b': Word)
    requires exp < 32
    requires r & MANTISSA_MASK == r' & MANTISSA_MASK
    ensures Unpack(Pack(exp, r, g, b)).exp == exp
    ensures Unpack(Pack(exp, r, g, b)).r == Unpack(Pack(exp, r', g', b')).r
  {
    UnpackPack(exp, r, g, b);
    UnpackPack(exp, r', g', b');
  }

  /** The whole integer path of packe5bgr9: the exponent it computes is the
      exponent the word carries. */
  lemma PackedExponentRecovered(floorLog2Max: int, roundedMax: nat, r: Word, g: Word, b: Word)
    requires floorLog2Max <= MAX_CHANNEL_LOG2
    ensures var e := BumpedExponent(BiasedExponent(floorLog2Max), roundedMax);
      0 <= e < 32 && Unpack(Pack(e as Word, r, g, b)).exp as int == e
  {
    ExponentFitsField(floorLog2Max, roundedMax);
    var e := BumpedExponent(BiasedExponent(floorLog2Max), roundedMax);
    var ew := e as Word;
    SmallWord(e);
    UnpackPack(ew, r, g, b);
  }

  /** A 5-bit exponent survives the trip through a word. */
  lemma SmallWord(e: int)
    requires 0 <= e < 32
    ensures (e as Word) as int == e
  {
    var w := e as bv5;
    assert w as int == e;
    assert (w as Word) as int == e;
    assert w as Word == e as Word;
  }
}
