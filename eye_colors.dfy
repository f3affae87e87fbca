/**
 * The pure colour arithmetic of lib/EyeAnimation/EyeAnimation.cpp: packing
 * three 8-bit channels into a 0x00RRGGBB word, taking a word apart again,
 * scaling it by a brightness, and the eye's colour wheel.
 *
 * The source packs with `(r << 16) | (g << 8) | b`; the channels occupy
 * disjoint bits, so the model writes the same value as a sum (lemma
 * PackIsBitwiseOr shows the two agree).
 */
module EyeColors {
  import opened Arduino

  const CHANNEL: int := 0x100
  const COLOR_24: int := 0x100_0000

  /** `((uint32_t)r << 16) | ((uint32_t)g << 8) | b`. */
  function Pack(r: u8, g: u8, b: u8): (c: u32)
    ensures c < COLOR_24
  {
    r * 0x1_0000 + g * 0x100 + b
  }

  /** Bits 16-23: `(c >> 16) & 0xFF`; for a 24-bit colour, everything above bit 16. */
  function Red(c: u32): (r: u8)
    ensures c < COLOR_24 ==> r == c / 0x1_0000
  {
    (c / 0x1_0000) % CHANNEL
  }

  /** Bits 8-15: `(c >> 8) & 0xFF`; with the blue byte, the low 16 bits. */
  function Green(c: u32): (g: u8)
    ensures c % 0x1_0000 == g * 0x100 + Blue(c)
  {
    (c / 0x100) % CHANNEL
  }

  /** Bits 0-7: `c & 0xFF`, the byte congruent to the colour modulo 256. */
  function Blue(c: u32): (b: u8)
    ensures (c - b) % CHANNEL == 0
  {
    c % CHANNEL
  }

  /** Unpacking a packed colour gives back each channel. */
  lemma UnpackPack(r: u8, g: u8, b: u8)
    ensures Red(Pack(r, g, b)) == r
    ensures Green(Pack(r, g, b)) == g
    ensures Blue(Pack(r, g, b)) == b
  {
    var c := Pack(r, g, b);
    assert c / 0x100 == r * 0x100 + g;
    assert c / 0x1_0000 == r;
  }

  /** Packing the channels of a 24-bit colour gives back the colour. */
  lemma PackUnpack(c: u32)
    requires c < COLOR_24
    ensures Pack(Red(c), Green(c), Blue(c)) == c
  {
    assert c / 0x1_0000 < CHANNEL;
    assert c == (c / 0x100) * 0x100 + c % 0x100;
    assert c / 0x100 == (c / 0x1_0000) * 0x100 + (c / 0x100) % 0x100;
  }

  /**
   * On 32-bit words holding bytes, the OR of the shifted channels equals
   * their weighted sum, which is the sum that Pack computes.
   */
  lemma PackIsBitwiseOr(r: bv32, g: bv32, b: bv32)
    requires r < 0x100 && g < 0x100 && b < 0x100
    ensures (r << 16) | (g << 8) | b == r * 0x1_0000 + g * 0x100 + b
    ensures r * 0x1_0000 + g * 0x100 + b < 0x100_0000
  {
  }

  /** One channel scaled by a brightness: `(c * brightness) >> 8`. */
  function ScaleChannel(c: u8, brightness: u8): (s: u8)
    ensures s <= c
    ensures c > 0 ==> s < c
  {
    ScaleBelow(c, brightness);
    c * brightness / 0x100
  }

  /** `(c * b) / 256` stays below a nonzero channel `c`. */
  lemma ScaleBelow(c: u8, b: u8)
    ensures 0 <= c * b / 0x100 <= c
    ensures c > 0 ==> c * b / 0x100 < c
  {
    var p := c * b;
    assert 0 <= c * (0xFF - b);
    assert 0 <= p <= c * 0xFF;
    var q := p / 0x100;
    assert q * 0x100 <= p;
  }

  /**
   * The colour that setPixelColorWithBrightness writes: at brightness 255
   * the colour passes unchanged (all 32 bits of it); otherwise each channel
   * of the low 24 bits is scaled and repacked.
   */
  function ScaleColor(color: u32, brightness: u8): (r: u32)
    ensures brightness == 0xFF ==> r == color
    ensures brightness != 0xFF ==> r < COLOR_24
    ensures brightness != 0xFF ==>
              && Red(r) == ScaleChannel(Red(color), brightness)
              && Green(r) == ScaleChannel(Green(color), brightness)
              && Blue(r) == ScaleChannel(Blue(color), brightness)
    ensures brightness != 0xFF ==>
              Red(r) <= Red(color) && Green(r) <= Green(color) && Blue(r) <= Blue(color)
  {
    if brightness == 0xFF then color
    else
      var s := Pack(ScaleChannel(Red(color), brightness),
                    ScaleChannel(Green(color), brightness),
                    ScaleChannel(Blue(color), brightness));
      UnpackPack(ScaleChannel(Red(color), brightness),
                 ScaleChannel(Green(color), brightness),
                 ScaleChannel(Blue(color), brightness));
      s
  }

  /**
   * The pass-through at 255 is not the formula at 255: the formula would
   * dim every nonzero channel by one step, so full brightness is exact only
   * because of the special case.
   */
  lemma FullBrightnessFormulaDims(c: u8)
    requires c > 0
    ensures ScaleChannel(c, 0xFF) == c - 1
  {
  }

  /** Scaling by 0 turns every colour off. */
  lemma ZeroBrightnessIsBlack(color: u32)
    ensures ScaleColor(color, 0) == 0
  {
  }

  /** A wheel colour: channels sum to 255 and at least one of them is off. */
  ghost predicate WheelColor(c: u32)
  {
    c < COLOR_24
    && Red(c) + Green(c) + Blue(c) == 0xFF
    && (Red(c) == 0 || Green(c) == 0 || Blue(c) == 0)
  }

  /** EyeAnimation::wheel: position 0 is red, then the colours run through green and blue. */
  function Wheel(pos: u8): (c: u32)
    ensures WheelColor(c)
  {
    var p := 0xFF - pos;
    if p < 85 then
      UnpackPack(0xFF - p * 3, 0, p * 3);
      Pack(0xFF - p * 3, 0, p * 3)
    else if p < 170 then
      var q := p - 85;
      UnpackPack(0, q * 3, 0xFF - q * 3);
      Pack(0, q * 3, 0xFF - q * 3)
    else
      var q := p - 170;
      UnpackPack(q * 3, 0xFF - q * 3, 0);
      Pack(q * 3, 0xFF - q * 3, 0)
  }

  /**
   * The wheel position of pixel `i` of a strip of `n`, as both rainbow
   * effects compute it: `(index + i * 256 / n) % 256`.
   */
  function RainbowOffset(index: u16, i: nat, n: nat): (pos: u8)
    requires i < n
    ensures i == 0 ==> pos == index % 256
  {
    (index + i * 256 / n) % 256
  }

  /** Advancing the rainbow index by one moves every pixel one position along the wheel. */
  lemma RainbowOffsetStep(index: u8, n: nat, i: nat)
    requires i < n
    ensures RainbowOffset((index + 1) % 256, i, n) == (RainbowOffset(index, i, n) + 1) % 256
  {
    var q := i * 256 / n;
    assert RainbowOffset((index + 1) % 256, i, n) == ((index + 1) % 256 + q) % 256;
    assert RainbowOffset(index, i, n) == (index + q) % 256;
    ModStepCommutes(index, q);
  }

  lemma ModStepCommutes(a: int, b: int)
    ensures ((a + 1) % 256 + b) % 256 == ((a + b) % 256 + 1) % 256
  {
    assert (a + 1) % 256 + b == (a + 1 + b) - 256 * ((a + 1) / 256);
    assert (a + b) % 256 + 1 == (a + 1 + b) - 256 * ((a + b) / 256);
    ModMultiple(a + 1 + b, (a + 1) / 256);
    ModMultiple(a + 1 + b, (a + b) / 256);
  }

  lemma ModMultiple(x: int, k: int)
    ensures (x - 256 * k) % 256 == x % 256
  {
  }
}
