/**
 * The renderer of the ray tracer (`raytracer_renderer`).  In this snapshot
 * `renderer_draw` does not trace rays: it fills the canvas with a
 * horizontal ramp from the start colour `0x0000FF` towards the end colour
 * `0xFF00FF`, one `canvas_put_pixel` per pixel.
 *
 * `float` arithmetic is modelled by exact `real` arithmetic and the `(i16)`
 * casts by truncation toward zero.
 */
module Renderer {
  import opened CTypes
  import opened Canvas

  const START_COLOR: Color32 := 0xFF
  const END_COLOR: Color32 := 0xFF00FF

  /** The byte of `color` that starts at bit `shift`: `(color >> shift) & 0xFF`. */
  function Channel(color: Color32, shift: nat): bv8
    requires shift < 32
  {
    ((color >> shift) & 0xFF) as bv8
  }

  /** `dR`, `dG`, `dB`: the differences between the end and the start colour. */
  function DeltaR(): int { Channel(END_COLOR, 16) as int - Channel(START_COLOR, 16) as int }
  function DeltaG(): int { Channel(END_COLOR, 8) as int - Channel(START_COLOR, 8) as int }
  function DeltaB(): int { Channel(END_COLOR, 0) as int - Channel(START_COLOR, 0) as int }

  /** Only red changes along the ramp, over the whole byte range. */
  lemma Deltas()
    ensures DeltaR() == 255 && DeltaG() == 0 && DeltaB() == 0
    ensures Channel(START_COLOR, 16) == 0 && Channel(START_COLOR, 8) == 0
    ensures Channel(START_COLOR, 0) == 0xFF
  {
  }

  /** `horiPerc`: the fraction `(x + 1) / width` of the row covered at column `x`. */
  function HorizontalFraction(x: int, width: int): (p: real)
    requires 0 <= x < width
    ensures 0.0 < p <= 1.0
    ensures x == width - 1 ==> p == 1.0
  {
    FractionBounds(x + 1, width);
    (x + 1) as real / width as real
  }

  lemma FractionBounds(n: int, d: int)
    requires 0 < n <= d
    ensures 0.0 < n as real / d as real <= 1.0
    ensures n == d ==> n as real / d as real == 1.0
  {
    var q := n as real / d as real;
    assert q * d as real == n as real;
  }

  /** The red byte at column `x`: the start red plus `(i16)(dR * horiPerc)`. */
  function Red(x: int, width: int): (r: int)
    requires 0 <= x < width
    ensures 0 <= r <= 255
    ensures x == width - 1 ==> r == 255
  {
    Deltas();
    Channel(START_COLOR, 16) as int + Trunc(DeltaR() as real * HorizontalFraction(x, width))
  }

  /** The green byte at column `x`: the start green plus `(i16)(horiPerc * dG)`. */
  function Green(x: int, width: int): (g: int)
    requires 0 <= x < width
    ensures g == 0
  {
    Deltas();
    TruncOfIntegral(0);
    Channel(START_COLOR, 8) as int + Trunc(HorizontalFraction(x, width) * DeltaG() as real)
  }

  /** The blue byte at column `x`: the start blue plus `(i16)(horiPerc * dB)`. */
  function Blue(x: int, width: int): (b: int)
    requires 0 <= x < width
    ensures b == 255
  {
    Deltas();
    TruncOfIntegral(0);
    Channel(START_COLOR, 0) as int + Trunc(HorizontalFraction(x, width) * DeltaB() as real)
  }

  /** The byte holding a value that fits in one byte (built by counting up, so it has no cast from `int`). */
  function ToByte(n: int): (b: bv8)
    requires 0 <= n < 256
    ensures b as int == n
  {
    if n == 0 then 0 else ToByte(n - 1) + 1
  }

  /** The `(u32)` cast of a value that fits in one byte. */
  function Byte(n: int): Color32
    requires 0 <= n < 256
  {
    ToByte(n) as bv32
  }

  /** `((u32)r << 16) | ((u32)g << 8) | (u32)b`: three bytes packed as `0xRRGGBB`. */
  function Pack(r: int, g: int, b: int): Color32
    requires 0 <= r < 256 && 0 <= g < 256 && 0 <= b < 256
  {
    (Byte(r) << 16) | (Byte(g) << 8) | Byte(b)
  }

  /** Packing puts each byte in its own channel and sets nothing above bit 23. */
  lemma PackChannels(r: int, g: int, b: int)
    requires 0 <= r < 256 && 0 <= g < 256 && 0 <= b < 256
    ensures Channel(Pack(r, g, b), 16) as int == r
    ensures Channel(Pack(r, g, b), 8) as int == g
    ensures Channel(Pack(r, g, b), 0) as int == b
    ensures Pack(r, g, b) <= 0xFFFFFF
  {
    PackBytes(ToByte(r), ToByte(g), ToByte(b));
  }

  lemma PackBytes(r: bv8, g: bv8, b: bv8)
    ensures Channel(((r as bv32) << 16) | ((g as bv32) << 8) | (b as bv32), 16) == r
    ensures Channel(((r as bv32) << 16) | ((g as bv32) << 8) | (b as bv32), 8) == g
    ensures Channel(((r as bv32) << 16) | ((g as bv32) << 8) | (b as bv32), 0) == b
    ensures ((r as bv32) << 16) | ((g as bv32) << 8) | (b as bv32) <= 0xFFFFFF
  {
  }

  /** A colour with nothing above bit 23 is determined by its three channels. */
  lemma ChannelsDetermine(u: Color32, v: Color32)
    requires u <= 0xFFFFFF && v <= 0xFFFFFF
    requires Channel(u, 16) == Channel(v, 16) && Channel(u, 8) == Channel(v, 8)
    requires Channel(u, 0) == Channel(v, 0)
    ensures u == v
  {
  }

  /** The value `renderer_draw` writes at column `x` of a row `width` wide. */
  function RampColor(x: int, width: int): (c: Color32)
    requires 0 <= x < width
    ensures c <= 0xFFFFFF
  {
    PackChannels(Red(x, width), Green(x, width), Blue(x, width));
    Pack(Red(x, width), Green(x, width), Blue(x, width))
  }

  /**
   * Every ramp pixel has red byte `Red(x, width)`, green byte 0 and blue
   * byte `0xFF`, and no bits above the low 24.
   */
  lemma RampColorChannels(x: int, width: int)
    requires 0 <= x < width
    ensures Channel(RampColor(x, width), 16) as int == Red(x, width)
    ensures Channel(RampColor(x, width), 8) == 0
    ensures Channel(RampColor(x, width), 0) == 0xFF
    ensures RampColor(x, width) <= 0xFFFFFF
  {
    var r, g, b := Red(x, width), Green(x, width), Blue(x, width);
    PackChannels(r, g, b);
  }

  /** The last column of every row gets exactly the end colour `0xFF00FF`. */
  lemma RampEndsAtEndColor(width: int)
    requires 0 < width
    ensures RampColor(width - 1, width) == END_COLOR
  {
    assert Red(width - 1, width) == 255;
    PackChannels(255, 0, 255);
    ChannelsDetermine(RampColor(width - 1, width), END_COLOR);
  }

  class RaytracerRenderer {
    const canvas: RaytracerCanvas

    /** `renderer_init`: a renderer that draws into `canvas`. */
    constructor Init(canvas: RaytracerCanvas)
      ensures this.canvas == canvas
    {
      this.canvas := canvas;
    }

    /**
     * `renderer_draw`: writes the ramp colour of its column into every
     * pixel of the canvas, so every row comes out the same.  The canvas is
     * marked dirty iff it was already or it has a pixel.
     */
    method Draw()
      requires canvas.Valid()
      modifies canvas, canvas.buffer
      ensures forall px, py :: 0 <= px < canvas.width && 0 <= py < canvas.height ==>
        canvas.Pixel(px, py) == RampColor(px, canvas.width)
      ensures canvas.isDirty == (old(canvas.isDirty) || (0 < canvas.width && 0 < canvas.height))
      ensures canvas.blits == old(canvas.blits)
    {
      var width := canvas.GetWidth();
      var height := canvas.GetHeight();
      var y := 0;
      while y < height
        invariant 0 <= y && (y <= height || y == 0)
        invariant forall px, py :: 0 <= px < width && 0 <= py < height ==>
          canvas.Pixel(px, py) == if py < y then RampColor(px, width) else old(canvas.Pixel(px, py))
        invariant canvas.isDirty == (old(canvas.isDirty) || (0 < width && 0 < y))
        invariant canvas.blits == old(canvas.blits)
      {
        var x := 0;
        while x < width
          invariant 0 <= x && (x <= width || x == 0)
          invariant forall px, py :: 0 <= px < width && 0 <= py < height ==>
            canvas.Pixel(px, py)
              == if py < y || (py == y && px < x) then RampColor(px, width)
                 else old(canvas.Pixel(px, py))
          invariant canvas.isDirty == (old(canvas.isDirty) || (0 < width && 0 < y) || 0 < x)
          invariant canvas.blits == old(canvas.blits)
        {
          canvas.PutPixel(x, y, RampColor(x, width));
          x := x + 1;
        }
        y := y + 1;
      }
    }
  }
}
