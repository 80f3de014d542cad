/**
 * The frame buffer of the ray tracer (`raytracer_canvas`): a row-major
 * buffer of `width * height` packed pixels, written in place, a dirty flag
 * that writers set and `canvas_flip` clears, and the horizontal strips that
 * `canvas_flip` sends to the display.
 *
 * The X11 display, window, pixmap and image are not modelled.  Each
 * `XPutImage` request that `canvas_flip` issues is recorded, in order, as a
 * `Blit` in the `blits` log.
 */
module Canvas {
  import opened CTypes

  /** `CANVAS_INTERVAL`: the height of the strips `canvas_flip` sends. */
  const INTERVAL: int := 20

  /** One `XPutImage` request: `rowCount` full-width rows from row `startRow`. */
  datatype Blit = Blit(startRow: int, rowCount: int)

  /**
   * The buffer index `width * y + x` of pixel `(x, y)` in a row-major buffer
   * `width` wide: pixel `x` of row 0, plus one `width` for every row above
   * row `y`.  `IndexIsProduct` states that it is the product form.
   */
  function Index(width: int, x: int, y: nat): int {
    if y == 0 then x else Index(width, x, y - 1) + width
  }

  lemma {:induction false} IndexIsProduct(width: int, x: int, y: nat)
    ensures Index(width, x, y) == width * y + x
  {
    if y > 0 {
      IndexIsProduct(width, x, y - 1);
    }
  }

  /** Pixel `(x, y)` is `x` entries after the start of row `y`. */
  lemma {:induction false} IndexRowStart(width: int, x: int, y: nat)
    ensures Index(width, 0, y) + x == Index(width, x, y)
  {
    if y > 0 {
      IndexRowStart(width, x, y - 1);
    }
  }

  /** Row `y` ends no later than row `y2` starts. */
  lemma {:induction false} RowBound(width: int, y: nat, y2: nat)
    requires y < y2 && 0 <= width
    ensures Index(width, 0, y) + width <= Index(width, 0, y2)
    decreases y2 - y
  {
    if y + 1 < y2 {
      RowBound(width, y + 1, y2);
    }
  }

  /** Distinct pixels of a canvas have distinct buffer indices. */
  lemma IndexInjective(width: int, height: int, x1: int, y1: nat, x2: int, y2: nat)
    requires 0 <= x1 < width && y1 < height && 0 <= x2 < width && y2 < height
    ensures Index(width, x1, y1) == Index(width, x2, y2) <==> x1 == x2 && y1 == y2
  {
    IndexRowStart(width, x1, y1);
    IndexRowStart(width, x2, y2);
    if y1 < y2 {
      RowBound(width, y1, y2);
    } else if y2 < y1 {
      RowBound(width, y2, y1);
    }
  }

  /** Every pixel of a canvas has an index inside the buffer. */
  lemma IndexInRange(width: int, height: nat, x: int, y: nat)
    requires 0 <= x < width && y < height
    ensures 0 <= Index(width, x, y) < width * height
  {
    IndexRowStart(width, x, y);
    IndexRowStart(width, 0, y);
    RowBound(width, y, height);
    if y > 0 {
      RowBound(width, 0, y);
    }
    IndexIsProduct(width, 0, height);
  }

  lemma MulStep(w: int, a: int)
    ensures w * (a + 1) == w * a + w
  {
  }

  lemma {:induction false} MulIncreasing(w: int, a: int, b: int)
    requires 0 <= w && a <= b
    ensures w * a <= w * b
    decreases b - a
  {
    if a < b {
      MulIncreasing(w, a + 1, b);
      MulStep(w, a);
    }
  }

  /** Every buffer index is the index of a pixel of the canvas. */
  lemma IndexCovers(width: int, height: nat, i: int)
    requires 0 <= width
    requires 0 <= i < width * height
    ensures 0 < width && 0 <= i % width < width && 0 <= i / width < height
    ensures Index(width, i % width, i / width) == i
  {
    if width == 0 {
      assert false;
    }
    var q, r := i / width, i % width;
    assert i == width * q + r && 0 <= r < width;
    if q >= height {
      MulIncreasing(width, height, q);
    }
    IndexIsProduct(width, r, q);
  }

  /** Whether pixel `(px, py)` lies in the `w` by `h` rectangle at `(x, y)`. */
  predicate InRect(px: int, py: int, x: int, y: int, w: int, h: int) {
    x <= px < x + w && y <= py < y + h
  }

  /** The number of strip start rows `0, INTERVAL, 2 * INTERVAL, ...` below `height`. */
  function StripCount(height: int): (n: nat)
    ensures INTERVAL * n >= height
    ensures n > 0 ==> INTERVAL * (n - 1) < height
  {
    if height <= 0 then 0 else (height + INTERVAL - 1) / INTERVAL
  }

  /** The first `n` full-height strip requests of `canvas_flip`. */
  function StripsUpTo(n: nat): (s: seq<Blit>)
    ensures |s| == n
    ensures forall k :: 0 <= k < n ==> s[k] == Blit(INTERVAL * k, INTERVAL)
  {
    seq(n, k => Blit(INTERVAL * k, INTERVAL))
  }

  /** The requests of the loop in `canvas_flip`: one strip per start row below `height`. */
  function Strips(height: int): seq<Blit> {
    StripsUpTo(StripCount(height))
  }

  /** The whole request sequence of `canvas_flip` on a dirty canvas. */
  function FlipSchedule(height: int): (s: seq<Blit>)
    ensures |s| == StripCount(height) + if height % INTERVAL > 0 then 1 else 0
    ensures forall k :: 0 <= k < StripCount(height) ==> s[k] == Blit(INTERVAL * k, INTERVAL)
  {
    var modInterval := height % INTERVAL;
    Strips(height) + if modInterval > 0 then [Blit(height - modInterval - 1, modInterval)] else []
  }

  class RaytracerCanvas {
    const width: int
    const height: int
    /** `buffer.size`: the byte size of the buffer, four bytes per pixel. */
    const size: int
    const buffer: array<Color32>
    var isDirty: bool
    /** The display requests issued so far, oldest first. */
    var blits: seq<Blit>

    ghost predicate Valid() {
      0 <= width && 0 <= height && buffer.Length == width * height
    }

    /** The colour the buffer holds for pixel `(px, py)`. */
    ghost function Pixel(px: int, py: int): Color32
      reads buffer
      requires Valid() && 0 <= px < width && 0 <= py < height
    {
      IndexInRange(width, height, px, py);
      buffer[Index(width, px, py)]
    }

    /** `canvas_create`, without its X11 work: a zeroed buffer, marked dirty. */
    constructor Create(width: int, height: int)
      requires 0 <= width && 0 <= height
      ensures this.width == width && this.height == height
      ensures Valid() && fresh(buffer)
      ensures forall i :: 0 <= i < buffer.Length ==> buffer[i] == 0
      ensures size == width * height * 4
      ensures isDirty && blits == []
    {
      MulIncreasing(width, 0, height);
      this.width := width;
      this.height := height;
      isDirty := true;
      size := width * height * 4;
      buffer := new Color32[width * height](_ => 0);
      blits := [];
    }

    /** `canvas_put_pixel`: writes `c` at pixel `(x, y)` and no other. */
    method PutPixel(x: int, y: int, c: Color32)
      requires Valid()
      requires 0 <= x < width && 0 <= y < height
      modifies this, buffer
      ensures 0 <= Index(width, x, y) < buffer.Length
      ensures buffer[..] == old(buffer[..])[Index(width, x, y) := c]
      ensures forall px, py :: 0 <= px < width && 0 <= py < height ==>
        Pixel(px, py) == if px == x && py == y then c else old(Pixel(px, py))
      ensures isDirty && blits == old(blits)
    {
      IndexInRange(width, height, x, y);
      buffer[Index(width, x, y)] := c;
      isDirty := true;
      forall px, py | 0 <= px < width && 0 <= py < height
        ensures Pixel(px, py) == if px == x && py == y then c else old(Pixel(px, py))
      {
        IndexInRange(width, height, px, py);
        IndexInjective(width, height, px, py, x, y);
      }
    }

    /**
     * `canvas_put_square`: writes `c` at every pixel of the `w` by `h`
     * rectangle at `(x, y)` and no other; an empty rectangle writes nothing.
     * The canvas is marked dirty either way.
     */
    method PutSquare(x: int, y: int, w: int, h: int, c: Color32)
      requires Valid()
      requires 0 < w && 0 < h ==> 0 <= x && x + w <= width && 0 <= y && y + h <= height
      modifies this, buffer
      ensures forall px, py :: 0 <= px < width && 0 <= py < height ==>
        Pixel(px, py) == if InRect(px, py, x, y, w, h) then c else old(Pixel(px, py))
      ensures isDirty && blits == old(blits)
    {
      var maxX := x + w - 1;
      var maxY := y + h - 1;
      var row := y;
      while row <= maxY
        invariant y <= row && (row == y || row <= maxY + 1)
        invariant forall px, py :: 0 <= px < width && 0 <= py < height ==>
          Pixel(px, py) == if InRect(px, py, x, y, w, row - y) then c else old(Pixel(px, py))
        invariant blits == old(blits)
        decreases maxY - row
      {
        var col := x;
        while col <= maxX
          invariant x <= col && (col == x || col <= maxX + 1)
          invariant forall px, py :: 0 <= px < width && 0 <= py < height ==>
            Pixel(px, py)
              == if InRect(px, py, x, y, w, row - y) || (py == row && x <= px < col) then c
                 else old(Pixel(px, py))
          invariant blits == old(blits)
          decreases maxX - col
        {
          PutCell(col, row, c);
          col := col + 1;
        }
        row := row + 1;
      }
      isDirty := true;
    }

    /** The buffer write in the inner loop of `canvas_put_square`. */
    method PutCell(x: int, y: int, c: Color32)
      requires Valid()
      requires 0 <= x < width && 0 <= y < height
      modifies buffer
      ensures forall px, py :: 0 <= px < width && 0 <= py < height ==>
        Pixel(px, py) == if px == x && py == y then c else old(Pixel(px, py))
    {
      IndexInRange(width, height, x, y);
      buffer[Index(width, x, y)] := c;
      forall px, py | 0 <= px < width && 0 <= py < height
        ensures Pixel(px, py) == if px == x && py == y then c else old(Pixel(px, py))
      {
        IndexInRange(width, height, px, py);
        IndexInjective(width, height, px, py, x, y);
      }
    }

    /** `canvas_get_width` */
    method GetWidth() returns (w: int)
      ensures w == width
    {
      w := width;
    }

    /** `canvas_get_height` */
    method GetHeight() returns (h: int)
      ensures h == height
    {
      h := height;
    }

    /** `canvas_get_buffer`: hands out the buffer, so the canvas is marked dirty. */
    method GetBuffer() returns (b: array<Color32>)
      modifies this
      ensures b == buffer && isDirty && blits == old(blits)
    {
      isDirty := true;
      b := buffer;
    }

    /**
     * `canvas_flip`: on a dirty canvas, requests the strips of
     * `FlipSchedule(height)` in order and clears the flag; on a clean
     * canvas, does nothing.
     */
    method Flip()
      requires Valid()
      modifies this
      ensures old(isDirty) ==> !isDirty && blits == old(blits) + FlipSchedule(height)
      ensures !old(isDirty) ==> !isDirty && blits == old(blits)
    {
      if isDirty {
        var i := 0;
        ghost var k := 0;
        while i < height
          invariant 0 <= k <= StripCount(height) && i == INTERVAL * k
          invariant blits == old(blits) + StripsUpTo(k)
        {
          blits := blits + [Blit(i, INTERVAL)];
          i := i + INTERVAL;
          k := k + 1;
        }
        var modInterval := height % INTERVAL;
        if modInterval > 0 {
          var startHeight := height - modInterval - 1;
          blits := blits + [Blit(startHeight, modInterval)];
        }
        isDirty := false;
      }
    }
  }

  // ---------------------------------------------------------------------
  // Properties of the strip schedule
  // ---------------------------------------------------------------------

  /**
   * The loop of `canvas_flip` requests one full strip for every start row
   * `0, INTERVAL, 2 * INTERVAL, ...` below `height`, in increasing order, and
   * for no other row.
   */
  lemma StripsAreMultiplesBelowHeight(height: int)
    ensures forall k :: 0 <= k < |Strips(height)| ==>
      Strips(height)[k] == Blit(INTERVAL * k, INTERVAL) && INTERVAL * k < height
    ensures forall s :: 0 <= s < height && s % INTERVAL == 0 ==>
      s / INTERVAL < |Strips(height)| && Strips(height)[s / INTERVAL].startRow == s
  {
  }

  /**
   * After the strips comes one more request iff `height` is not a multiple
   * of `INTERVAL`: `height % INTERVAL` rows starting `height % INTERVAL + 1`
   * rows above the bottom.
   */
  lemma FlipScheduleRemainder(height: int)
    ensures height % INTERVAL == 0 ==> FlipSchedule(height) == Strips(height)
    ensures height % INTERVAL > 0 ==>
      |FlipSchedule(height)| == |Strips(height)| + 1 &&
      FlipSchedule(height)[..|Strips(height)|] == Strips(height) &&
      FlipSchedule(height)[|Strips(height)|]
        == Blit(height - height % INTERVAL - 1, height % INTERVAL)
  {
  }

  /**
   * As written, the schedule overshoots: when `height` is not a multiple of
   * `INTERVAL` the last full strip already runs past the bottom row, and the
   * extra request ends one row short of the bottom.  For a canvas lower than
   * one strip, that extra request starts at row -1.
   */
  lemma FlipScheduleOvershoots(height: int)
    requires 0 < height && height % INTERVAL > 0
    ensures Strips(height)[|Strips(height)| - 1].startRow + INTERVAL > height
    ensures FlipSchedule(height)[|Strips(height)|].startRow
          + FlipSchedule(height)[|Strips(height)|].rowCount == height - 1
    ensures height < INTERVAL ==>
      FlipSchedule(height) == [Blit(0, INTERVAL), Blit(-1, height)]
  {
    FlipScheduleRemainder(height);
  }
}
