/** wcore's `Color`: four `f32` components, normally in [0, 1], built from
    raw components, from bytes or from packed hexadecimal. */
module Colors {
  import opened Wrappers
  import opened Vectors

  datatype Color = Color(r: real, g: real, b: real, a: real)

  /** A `u8`. */
  type Byte = x: int | 0 <= x < 256

  /** Every component in [0, 1]. */
  predicate Normalized(c: Color) {
    0.0 <= c.r <= 1.0 && 0.0 <= c.g <= 1.0 && 0.0 <= c.b <= 1.0 && 0.0 <= c.a <= 1.0
  }

  /** `byte as f32 / 255.0`. */
  function Unit(x: Byte): (v: real)
    ensures 0.0 <= v <= 1.0
    ensures v * 255.0 == x as real
  {
    x as real / 255.0
  }

  /** `Color::new`: the components, stored unchanged. */
  function New(r: real, g: real, b: real, a: real): (c: Color)
    ensures c.r == r && c.g == g && c.b == b && c.a == a
  {
    Color(r, g, b, a)
  }

  function FromRgba(r: Byte, g: Byte, b: Byte, a: Byte): (c: Color)
    ensures Normalized(c)
    ensures c.r * 255.0 == r as real && c.g * 255.0 == g as real
    ensures c.b * 255.0 == b as real && c.a * 255.0 == a as real
  {
    Color(Unit(r), Unit(g), Unit(b), Unit(a))
  }

  /** `Color::from_rgb`: opaque, otherwise as `from_rgba`. */
  function FromRgb(r: Byte, g: Byte, b: Byte): (c: Color)
    ensures Normalized(c) && c.a == 1.0
    ensures c == FromRgba(r, g, b, 255)
  {
    Color(Unit(r), Unit(g), Unit(b), 1.0)
  }

  function Pow2(n: nat): (p: nat)
    ensures p >= 1
  {
    if n == 0 then 1 else 2 * Pow2(n - 1)
  }

  /** `(v >> shift) & 255` of a `u32`: a right shift is a division by a
      power of two, and the mask keeps the remainder modulo 256. */
  function ByteAt(v: U32, shift: nat): (x: Byte)
    requires shift < 32
  {
    (v / Pow2(shift)) % 256
  }

  /** `Color::from_hex`, format `0xRRGGBB`. */
  function FromHex(v: U32): (c: Color)
    ensures Normalized(c) && c.a == 1.0
  {
    Color(Unit(ByteAt(v, 16)), Unit(ByteAt(v, 8)), Unit(ByteAt(v, 0)), 1.0)
  }

  /** `Color::from_hex_alpha`, documented as format `0xRRGGBBAA`, as written:
      red is read from `v >> 25`. */
  function FromHexAlpha(v: U32): (c: Color)
    ensures Normalized(c)
  {
    Color(Unit(ByteAt(v, 25)), Unit(ByteAt(v, 16)), Unit(ByteAt(v, 8)), Unit(ByteAt(v, 0)))
  }

  /** `from_hex_alpha` as its format comment describes it: red from `v >> 24`. */
  function FromHexAlphaIntended(v: U32): Color {
    Color(Unit(ByteAt(v, 24)), Unit(ByteAt(v, 16)), Unit(ByteAt(v, 8)), Unit(ByteAt(v, 0)))
  }

  /** `impl From<Color> for Vector4<f32>`. */
  function ToVector4(c: Color): (v: Vector4)
    ensures v.x == c.r && v.y == c.g && v.z == c.b && v.w == c.a
  {
    Vector4(c.r, c.g, c.b, c.a)
  }

  /** `0xRRGGBBAA` from its four bytes. */
  function PackRgba(r: Byte, g: Byte, b: Byte, a: Byte): U32 {
    r * 0x100_0000 + g * 0x1_0000 + b * 0x100 + a
  }

  // ---------------------------------------------------------------------
  // Properties

  lemma Pow2Values()
    ensures Pow2(0) == 1 && Pow2(8) == 0x100 && Pow2(16) == 0x1_0000
    ensures Pow2(24) == 0x100_0000 && Pow2(25) == 0x200_0000
  {
    assert Pow2(8) == 0x100 by {
      assert Pow2(4) == 16;
    }
    assert Pow2(16) == 0x1_0000 by {
      assert Pow2(12) == 0x1000;
    }
    assert Pow2(24) == 0x100_0000 by {
      assert Pow2(20) == 0x10_0000;
    }
  }

  /** Euclidean division is determined by quotient and remainder. */
  lemma DivMod(x: int, d: int, q: int, r: int)
    requires d > 0 && 0 <= r < d && x == q * d + r
    ensures x / d == q && x % d == r
  {
    var q', r' := x / d, x % d;
    assert x == q' * d + r';
    assert (q - q') * d == r' - r;
    if q > q' {
      MulAtLeast(q - q', d);
    } else if q < q' {
      MulAtLeast(q' - q, d);
    }
  }

  lemma MulAtLeast(k: int, d: int)
    requires k >= 1 && d > 0
    ensures k * d >= d
  {
  }

  /** Byte `k` (shift `8 * k`) of `h * 2^24 + w` is byte `k` of `w`, for `k < 3`. */
  lemma LowBytesIgnoreHigh(h: nat, w: nat, d: nat)
    requires w < 0x100_0000 && (d == 1 || d == 0x100 || d == 0x1_0000)
    ensures ((h * 0x100_0000 + w) / d) % 256 == (w / d) % 256
  {
    var k := 0x100_0000 / d;
    assert k * d == 0x100_0000;
    DivMod(h * 0x100_0000 + w, d, h * k + w / d, w % d);
    assert (w / d) < k;
    DivMod(h * k + w / d, 256, h * (k / 256) + (w / d) / 256, (w / d) % 256);
    DivMod(w / d, 256, (w / d) / 256, (w / d) % 256);
  }

  /** `from_hex` is `from_rgb` of bytes 2, 1 and 0, and ignores bits 24 to 31. */
  lemma FromHexIsFromRgb(v: U32)
    ensures FromHex(v) == FromRgb((v / 0x1_0000) % 256, (v / 0x100) % 256, v % 256)
    ensures FromHex(v) == FromHex(v % 0x100_0000)
  {
    Pow2Values();
    var h, w := v / 0x100_0000, v % 0x100_0000;
    assert v == h * 0x100_0000 + w;
    LowBytesIgnoreHigh(h, w, 1);
    LowBytesIgnoreHigh(h, w, 0x100);
    LowBytesIgnoreHigh(h, w, 0x1_0000);
  }

  /** As written, `from_hex_alpha` never yields a red above 127/255. */
  lemma FromHexAlphaRedBound(v: U32)
    ensures FromHexAlpha(v).r * 255.0 <= 127.0
  {
    Pow2Values();
    assert v / 0x200_0000 < 128;
  }

  /** The packed colour 0xFF0000FF (opaque full red) comes out with red
      127/255 from `from_hex_alpha` as written. */
  lemma FromHexAlphaLosesRed()
    ensures FromHexAlpha(PackRgba(255, 0, 0, 255)) != FromRgba(255, 0, 0, 255)
  {
    FromHexAlphaRedBound(PackRgba(255, 0, 0, 255));
  }

  /** Each byte of a packed colour is read back at its shift. */
  lemma {:induction false} PackedBytes(r: Byte, g: Byte, b: Byte, a: Byte)
    ensures var v := PackRgba(r, g, b, a);
      ByteAt(v, 24) == r && ByteAt(v, 16) == g && ByteAt(v, 8) == b && ByteAt(v, 0) == a
  {
    Pow2Values();
    var v := PackRgba(r, g, b, a);
    PackedHigh(r, g, b, a);
    assert v == r * 0x100_0000 + (g * 0x1_0000 + b * 0x100 + a);
    LowBytesIgnoreHigh(r, g * 0x1_0000 + b * 0x100 + a, 1);
    LowBytesIgnoreHigh(r, g * 0x1_0000 + b * 0x100 + a, 0x100);
    LowBytesIgnoreHigh(r, g * 0x1_0000 + b * 0x100 + a, 0x1_0000);
    DivMod(g * 0x1_0000 + b * 0x100 + a, 0x1_0000, g, b * 0x100 + a);
    DivMod(g, 256, 0, g);
    DivMod(g * 0x1_0000 + b * 0x100 + a, 0x100, g * 0x100 + b, a);
    DivMod(g * 0x100 + b, 256, g, b);
    DivMod(g * 0x1_0000 + b * 0x100 + a, 1, g * 0x1_0000 + b * 0x100 + a, 0);
    DivMod(g * 0x1_0000 + b * 0x100 + a, 256, g * 0x100 + b, a);
  }

  /** The red byte sits above bit 24. */
  lemma {:induction false} PackedHigh(r: Byte, g: Byte, b: Byte, a: Byte)
    ensures ByteAt(PackRgba(r, g, b, a), 24) == r
  {
    Pow2Values();
    DivMod(PackRgba(r, g, b, a), 0x100_0000, r, g * 0x1_0000 + b * 0x100 + a);
    DivMod(r, 256, 0, r);
  }

  /** The intended `from_hex_alpha` recovers the four bytes it was packed from. */
  lemma FromHexAlphaIntendedRoundTrip(r: Byte, g: Byte, b: Byte, a: Byte)
    ensures FromHexAlphaIntended(PackRgba(r, g, b, a)) == FromRgba(r, g, b, a)
  {
    PackedBytes(r, g, b, a);
  }
}
