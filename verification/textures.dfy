/**
 * Texture resources and their memory estimate (Plywood.Graphics.Core/PwTexture.cs).
 *
 * Sizes are unbounded integers: the 32-bit overflow of the C# sum is not
 * modelled.  The shift `Width >> mip` is modelled exactly, including C#'s
 * masking of the shift count to its low five bits.
 */
module Textures {

  type TextureId = nat

  datatype TextureFormat = RGBA8 | RGB8 | Depth32Float | Depth24Stencil8

  /** The [Flags] usage enum: ShaderRead = 1, RenderTarget = 2, DepthStencil = 4. */
  datatype TextureUsage = TextureUsage(shaderRead: bool, renderTarget: bool, depthStencil: bool)

  const ShaderReadOnly := TextureUsage(true, false, false)

  datatype Texture = Texture(
    id: TextureId,
    width: int,
    height: int,
    format: TextureFormat,
    mipLevels: int,
    usage: TextureUsage)

  /** A texture as the constructor leaves it: one mip level, shader-read usage. */
  function NewTexture(id: TextureId, width: int, height: int, format: TextureFormat): (t: Texture)
    ensures t.id == id && t.width == width && t.height == height && t.format == format
    ensures t.mipLevels == 1 && t.usage == ShaderReadOnly
  {
    Texture(id, width, height, format, 1, ShaderReadOnly)
  }

  /** Bytes per pixel: three for RGB8, four for every other format. */
  function BytesPerPixel(f: TextureFormat): (b: nat)
    ensures b == 3 <==> f == RGB8
    ensures b == 3 || b == 4
  {
    match f
    case RGBA8 => 4
    case RGB8 => 3
    case Depth32Float => 4
    case Depth24Stencil8 => 4
  }

  function Pow2(n: nat): (r: nat)
    ensures r >= 1
  {
    if n == 0 then 1 else 2 * Pow2(n - 1)
  }

  /** `x >> n` on a 32-bit int: floor division by 2^(n mod 32). */
  function ShiftRight(x: int, n: nat): int {
    x / Pow2(n % 32)
  }

  /** The extent of one mip level along one axis, never below one texel. */
  function MipExtent(x: int, mip: nat): (r: int)
    ensures r >= 1
  {
    var s := ShiftRight(x, mip);
    if s >= 1 then s else 1
  }

  function MipBytes(t: Texture, mip: nat): int {
    MipExtent(t.width, mip) * MipExtent(t.height, mip) * BytesPerPixel(t.format)
  }

  /** Reference definition: the bytes of mip levels 0 .. levels-1. */
  function MipChainBytes(t: Texture, levels: nat): int {
    if levels == 0 then 0 else MipChainBytes(t, levels - 1) + MipBytes(t, levels - 1)
  }

  /** The number of iterations of the source loop `for (mip = 0; mip < MipLevels; mip++)`. */
  function LevelCount(t: Texture): nat {
    if t.mipLevels > 0 then t.mipLevels else 0
  }

  /** Memory usage as the source computes it, level by level. */
  method CalculateMemoryUsage(t: Texture) returns (total: int)
    ensures total == MipChainBytes(t, LevelCount(t))
    ensures total >= LevelCount(t) * BytesPerPixel(t.format)
  {
    var bytesPerPixel := BytesPerPixel(t.format);
    total := 0;
    var mip := 0;
    while mip < t.mipLevels
      invariant 0 <= mip <= LevelCount(t)
      invariant total == MipChainBytes(t, mip)
    {
      var mipWidth := MipExtent(t.width, mip);
      var mipHeight := MipExtent(t.height, mip);
      total := total + mipWidth * mipHeight * bytesPerPixel;
      mip := mip + 1;
    }
    MipChainLowerBound(t, LevelCount(t));
  }

  /** Every level contributes at least one texel's worth of bytes. */
  lemma MipBytesAtLeastOnePixel(t: Texture, mip: nat)
    ensures MipBytes(t, mip) >= BytesPerPixel(t.format)
  {
    var w := MipExtent(t.width, mip);
    var h := MipExtent(t.height, mip);
    var b := BytesPerPixel(t.format);
    assert w * h >= 1 by {
      assert w * h >= 1 * h;
    }
    assert w * h * b >= 1 * b;
  }

  lemma {:induction false} MipChainLowerBound(t: Texture, levels: nat)
    ensures MipChainBytes(t, levels) >= levels * BytesPerPixel(t.format)
  {
    if levels > 0 {
      MipChainLowerBound(t, levels - 1);
      MipBytesAtLeastOnePixel(t, levels - 1);
      var b := BytesPerPixel(t.format);
      assert levels * b == (levels - 1) * b + b;
    }
  }

  /** Adding a mip level strictly increases the total. */
  lemma MipChainGrows(t: Texture, levels: nat)
    ensures MipChainBytes(t, levels + 1) > MipChainBytes(t, levels)
  {
    MipBytesAtLeastOnePixel(t, levels);
  }

  /** A freshly constructed texture of positive extent uses width * height * bpp bytes. */
  lemma FreshTextureUsage(id: TextureId, width: int, height: int, format: TextureFormat)
    requires width >= 1 && height >= 1
    ensures MipChainBytes(NewTexture(id, width, height, format), LevelCount(NewTexture(id, width, height, format)))
         == width * height * BytesPerPixel(format)
  {
    var t := NewTexture(id, width, height, format);
    assert Pow2(0) == 1;
    assert MipExtent(width, 0) == width;
    assert MipExtent(height, 0) == height;
    assert MipChainBytes(t, 1) == MipChainBytes(t, 0) + MipBytes(t, 0);
  }
}
