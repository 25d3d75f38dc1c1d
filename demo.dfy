/**
 * The demo program: a draw hook that fills the frame with a scrolling
 * pattern of 16-pixel bands, in a colour that shows whether the window is
 * activated or being resized, and the window size it asks for.
 *
 * The frame is the mapping the window hands to the hook, seen as an array
 * of 32-bit XRGB pixels. The hook's `static int i` frame counter is the
 * field of a `Renderer`.
 */
module Demo {
  import opened Os
  import opened Bits
  import opened Wayland

  /** The light pixel of the pattern. */
  const Background: bv32 := 0xFFEE_EEEE

  /** The dark pixel: grey, with full blue while resizing and full red while activated. */
  function Colour(cfg: Config): (c: bv32)
    ensures c & 0xFF == (if cfg.isResizing then 0xFF else 0x66)
    ensures (c >> 16) & 0xFF == (if cfg.isActivated then 0xFF else 0x66)
    ensures c & 0xFF00_FF00 == 0xFF00_6600
  {
    var c: bv32 := 0xFF66_6666;
    var c := if cfg.isResizing then c | 0x0000_00FF else c;
    if cfg.isActivated then c | 0x00FF_0000 else c
  }

  /** The two pixels of the pattern always differ. */
  lemma ColourIsNotBackground(cfg: Config)
    ensures Colour(cfg) != Background
  {
    var c := Colour(cfg);
    assert c & 0xFF00_FF00 != Background & 0xFF00_FF00;
  }

  /** Pixel (x, y) of frame i: `(i + x + (y / 16) * 16) % 32 < 16` picks the colour. */
  function Pixel(i: nat, x: nat, y: nat, colour: bv32): bv32
  {
    if (i + x + (y / 16) * 16) % 32 < 16 then colour else Background
  }

  /** The pattern repeats every 32 columns. */
  lemma PixelPeriodic(i: nat, x: nat, y: nat, colour: bv32)
    ensures Pixel(i, x + 32, y, colour) == Pixel(i, x, y, colour)
  {
    var n := i + x + (y / 16) * 16;
    ModUnique(n + 32, 32, n / 32 + 1, n % 32);
  }

  /** Rows within the same band of 16 are the same. */
  lemma PixelBand(i: nat, x: nat, y: nat, y': nat, colour: bv32)
    requires y / 16 == y' / 16
    ensures Pixel(i, x, y, colour) == Pixel(i, x, y', colour)
  {
  }

  /** The next band down is the other pixel: the pattern is a checkerboard
      of 16-by-16 squares. */
  lemma PixelChecker(i: nat, x: nat, y: nat, colour: bv32)
    requires colour != Background
    ensures Pixel(i, x, y + 16, colour) != Pixel(i, x, y, colour)
  {
    var n := i + x + (y / 16) * 16;
    ModUnique(y + 16, 16, y / 16 + 1, y % 16);
    assert i + x + ((y + 16) / 16) * 16 == n + 16;
    var q, r := n / 32, n % 32;
    if r < 16 {
      ModUnique(n + 16, 32, q, r + 16);
    } else {
      ModUnique(n + 16, 32, q + 1, r - 16);
    }
  }

  /** From one frame to the next the pattern moves one pixel to the left. */
  lemma PixelScrolls(i: nat, x: nat, y: nat, colour: bv32)
    ensures Pixel(i + 1, x, y, colour) == Pixel(i, x + 1, y, colour)
  {
  }

  /** Row y of frame i. */
  function Row(i: nat, width: nat, y: nat, colour: bv32): (r: seq<bv32>)
    ensures |r| == width
  {
    seq(width, x requires 0 <= x < width => Pixel(i, x, y, colour))
  }

  /** The frame a draw produces: its rows one after the other. */
  function Frame(i: nat, width: nat, height: nat, colour: bv32): (f: seq<bv32>)
    ensures |f| == width * height
    decreases height
  {
    if height == 0 then []
    else
      var rows := Frame(i, width, height - 1, colour);
      assert |rows| + width == width * height;
      rows + Row(i, width, height - 1, colour)
  }

  /** Index y * width + x of a frame holds pixel (x, y). */
  lemma {:induction false} FrameAt(i: nat, width: nat, height: nat, colour: bv32, x: nat, y: nat)
    requires x < width && y < height
    ensures y * width + x < width * height
    ensures Frame(i, width, height, colour)[y * width + x] == Pixel(i, x, y, colour)
    decreases height
  {
    RowEnd(width, height, y);
    var rows := Frame(i, width, height - 1, colour);
    if y == height - 1 {
      assert |rows| == y * width;
    } else {
      FrameAt(i, width, height - 1, colour, x, y);
    }
  }

  /** Row y ends where row y + 1 starts, within the frame. */
  lemma RowEnd(width: nat, height: nat, y: nat)
    requires y < height
    ensures y * width + width == (y + 1) * width <= width * height
  {
    MulMonotone(width, y + 1, height);
  }

  /** The demo's draw hook with its frame counter. */
  class Renderer {
    /** `static int i` */
    var i: int

    /** The counter before the first frame. */
    constructor ()
      ensures i == 0
    {
      i := 0;
    }

    /** draw: count the frame, then fill every pixel of the width-by-height
        frame and nothing beyond it. The counter and the pixel arithmetic
        stay below 2^31 and the frame below 2^32 pixels, so nothing wraps. */
    method Draw(cfg: Config, data: array<bv32>)
      requires 0 <= i && i + 1 + cfg.width + cfg.height < 0x8000_0000
      requires cfg.width * cfg.height <= data.Length && cfg.width * cfg.height < 0x1_0000_0000
      modifies this, data
      ensures i == old(i) + 1
      ensures data[..cfg.width * cfg.height] == Frame(i, cfg.width, cfg.height, Colour(cfg))
      ensures data[cfg.width * cfg.height..] == old(data[cfg.width * cfg.height..])
    {
      var width: nat, height: nat := cfg.width, cfg.height;
      i := i + 1;
      var colour := Colour(cfg);
      var y: nat, row: nat := 0, 0;
      while y < height
        invariant 0 <= y <= height && i == old(i) + 1
        invariant row == y * width <= width * height
        invariant data[..row] == Frame(i, width, y, colour)
        invariant data[row..] == old(data[row..])
      {
        RowEnd(width, height, y);
        DrawRow(data, row, y, width, colour, i);
        assert data[..row + width] == data[..row] + data[row..row + width];
        assert old(data[row + width..]) == old(data[row..])[width..];
        y, row := y + 1, row + width;
      }
    }
  }

  /** The inner loop of draw: the pixels of row y at data[row..row + width]. */
  method DrawRow(data: array<bv32>, row: nat, y: nat, width: nat, colour: bv32, i: nat)
    requires row + width <= data.Length
    modifies data
    ensures data[row..row + width] == Row(i, width, y, colour)
    ensures data[..row] == old(data[..row]) && data[row + width..] == old(data[row + width..])
  {
    var x := 0;
    while x < width
      invariant 0 <= x <= width
      invariant forall k :: row <= k < row + x ==> data[k] == Pixel(i, k - row, y, colour)
      invariant forall k :: 0 <= k < data.Length && !(row <= k < row + x) ==> data[k] == old(data[k])
    {
      var pixel := if (i + x + (y / 16) * 16) % 32 < 16 then colour else Background;
      data[row + x] := pixel;
      x := x + 1;
    }
    assert data[row..row + width] == Row(i, width, y, colour);
  }

  /** The window size the demo asks for. */
  const DefaultConstraints := Constraints(800, 600)

  /** A compositor that leaves the size to the client gets an 800-by-600
      window, whose frame fits its buffer and whose buffer fits its pool. */
  lemma DefaultWindow(states: seq<U32>)
    ensures PendingConfig(0, 0, states, DefaultConstraints).width == 800
    ensures PendingConfig(0, 0, states, DefaultConstraints).height == 600
    ensures PageSizeOk(4096) && Fits(800, 600, 4096)
    ensures 4 * 800 * 600 <= BufferSize(800, 600, 4096)
  {
    DefaultGeometry();
    AlignedValue(1_920_000, 4096, 1_921_024);
  }
}
