/**
 * Object identifiers as RGBA colours, for colour-ID picking.
 *
 * The picking window calls GetRGBA (identifier to colour) and GetIntFromRGBA
 * (colour to unsigned key); their definitions are not part of this model.
 * They are modelled here as the plain split of a 32-bit unsigned value into
 * four 8-bit channels (red = lowest byte, alpha = highest byte) and its
 * reassembly.  Everything the model proves about picking rests on that
 * assumption through the round-trip lemmas below.
 *
 * The module also models how a float colour channel in [0, 1] reaches an
 * 8-bit framebuffer (the unsigned-normalised conversion, round to nearest),
 * in exact real arithmetic.
 */
module ColorCodec {
  import opened CInt

  type Byte = x: int | 0 <= x < 0x100

  /** An 8-bit-per-channel colour, as read back with GL_RGBA / GL_UNSIGNED_BYTE. */
  datatype Rgba = Rgba(r: Byte, g: Byte, b: Byte, a: Byte)

  /** A colour with float channels, as passed to glClearColor or to a vec4 uniform. */
  datatype Color4 = Color4(r: real, g: real, b: real, a: real)

  /** The clear colour (1, 1, 1, 1) used for the identification pass. */
  const WhiteClear := Color4(1.0, 1.0, 1.0, 1.0)

  /** The pixel value of the cleared background. */
  const White := Rgba(0xFF, 0xFF, 0xFF, 0xFF)

  /** Identifier to colour (GetRGBA, assumed): byte 0 in red up to byte 3 in alpha. */
  function GetRgba(id: Uint32): Rgba
  {
    Rgba(id % 0x100, id / 0x100 % 0x100, id / 0x1_0000 % 0x100, id / 0x100_0000)
  }

  /** Colour to key (GetIntFromRGBA, assumed): the four channels reassembled. */
  function GetIntFromRgba(c: Rgba): Uint32
  {
    c.r + 0x100 * c.g + 0x1_0000 * c.b + 0x100_0000 * c.a
  }

  /** Decoding an encoded identifier gives the identifier back. */
  lemma DecodeEncode(id: Uint32)
    ensures GetIntFromRgba(GetRgba(id)) == id
  {
    var q1 := id / 0x100;
    var q2 := q1 / 0x100;
    var q3 := q2 / 0x100;
    assert id == id % 0x100 + 0x100 * q1;
    assert q1 == q1 % 0x100 + 0x100 * q2;
    assert q2 == q2 % 0x100 + 0x100 * q3;
    assert q2 == id / 0x1_0000;
    assert q3 == id / 0x100_0000;
  }

  /** Encoding a decoded key gives the colour back: no colour is lost. */
  lemma EncodeDecode(c: Rgba)
    ensures GetRgba(GetIntFromRgba(c)) == c
  {
    var key := GetIntFromRgba(c);
    var q1 := c.g + 0x100 * c.b + 0x1_0000 * c.a;
    var q2 := c.b + 0x100 * c.a;
    assert key == c.r + 0x100 * q1;
    assert key / 0x100 == q1 && key % 0x100 == c.r;
    assert q1 == c.g + 0x100 * q2;
    assert q1 / 0x100 == q2 && q1 % 0x100 == c.g;
    assert q2 / 0x100 == c.a && q2 % 0x100 == c.b;
    assert key / 0x1_0000 == q2;
    assert key / 0x100_0000 == c.a;
  }

  /** Distinct identifiers get distinct colours. */
  lemma EncodeInjective(i: Uint32, j: Uint32)
    ensures GetRgba(i) == GetRgba(j) <==> i == j
  {
    DecodeEncode(i);
    DecodeEncode(j);
  }

  /** Only the largest 32-bit identifier is coded as the white background. */
  lemma WhiteIsOnlyMaxKey(id: Uint32)
    ensures GetIntFromRgba(White) == MaxUint32
    ensures GetRgba(id) == White <==> id == MaxUint32
  {
    EncodeDecode(White);
    DecodeEncode(id);
  }

  /** Float channel in [0, 1] to the 8-bit value the framebuffer stores (round to nearest, clamped). */
  function UnormToByte(f: real): (b: Byte)
    ensures 0.0 < f < 1.0 ==> (b as real) - 0.5 <= f * 255.0 < (b as real) + 0.5
  {
    if f <= 0.0 then 0
    else if f >= 1.0 then 0xFF
    else
      var n := (f * 255.0 + 0.5).Floor;
      assert 0 <= n <= 0xFF;
      n
  }

  /** 8-bit channel to the float handed to the shader (`channel / 255.0`). */
  function ByteToUnorm(b: Byte): (f: real)
    ensures 0.0 <= f <= 1.0
  {
    b as real / 255.0
  }

  function ToColor4(c: Rgba): Color4
  {
    Color4(ByteToUnorm(c.r), ByteToUnorm(c.g), ByteToUnorm(c.b), ByteToUnorm(c.a))
  }

  /** What the framebuffer holds after a flat fragment of colour `c` is written without blending. */
  function Quantize(c: Color4): Rgba
  {
    Rgba(UnormToByte(c.r), UnormToByte(c.g), UnormToByte(c.b), UnormToByte(c.a))
  }

  /** A byte survives the trip to a float channel and back to the framebuffer exactly. */
  lemma ChannelRoundTrip(b: Byte)
    ensures UnormToByte(ByteToUnorm(b)) == b
  {
    var f := ByteToUnorm(b);
    if 0.0 < f < 1.0 {
      assert f * 255.0 == b as real;
      assert (f * 255.0 + 0.5).Floor == b;
    }
  }

  /** A colour sent as float uniform reads back as the same 8-bit colour. */
  lemma QuantizeToColor4(c: Rgba)
    ensures Quantize(ToColor4(c)) == c
  {
    ChannelRoundTrip(c.r);
    ChannelRoundTrip(c.g);
    ChannelRoundTrip(c.b);
    ChannelRoundTrip(c.a);
  }

  /** The white clear colour reads back as the all-255 pixel. */
  lemma QuantizeWhite()
    ensures Quantize(WhiteClear) == White
  {
  }
}
