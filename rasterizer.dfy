/** The pixel writer, class `Rasterizer`: a width x height colour grid
    addressed as buffer[x, y], with (0, 0) at the top left. The image
    object of the program is abstracted as this grid of colours, each an
    opaque string compared only for equality. */
module Raster {
  import opened Config
  import opened Bresenham

  /** The colour of a pixel nothing has been written to yet. */
  const Blank: Color := ""

  class Rasterizer {
    const width: nat
    const height: nat
    var buffer: array2<Color>

    ghost predicate Valid()
      reads this
    {
      buffer.Length0 == width && buffer.Length1 == height
    }

    predicate InBounds(x: int, y: int) {
      0 <= x < width && 0 <= y < height
    }

    /** A rasterizer over a fresh, blank width x height image (the program
        creates the image separately and attaches it with `set_buffer`). */
    constructor (width: nat, height: nat)
      ensures Valid() && fresh(buffer)
      ensures this.width == width && this.height == height
      ensures forall i, j :: 0 <= i < width && 0 <= j < height ==> buffer[i, j] == Blank
    {
      this.width := width;
      this.height := height;
      buffer := new Color[width, height]((i, j) => Blank);
    }

    /** Attaches another image of the same size. */
    method SetBuffer(image: array2<Color>)
      requires image.Length0 == width && image.Length1 == height
      modifies this
      ensures Valid() && buffer == image
    {
      buffer := image;
    }

    /** Paints the whole image with the background colour. In the program
        this does nothing while no image is attached; here an image is
        always attached. */
    method ClearScreen()
      requires Valid()
      modifies buffer
      ensures forall i, j :: InBounds(i, j) ==> buffer[i, j] == BgColor
    {
      forall i, j | 0 <= i < width && 0 <= j < height {
        buffer[i, j] := BgColor;
      }
    }

    /** Writes one pixel when (x, y) lies inside the image; otherwise does
        nothing. No other pixel changes. Unlike `ClearScreen`, the program
        does not check that an image is attached, so with none it raises. */
    method PutPixel(x: int, y: int, color: Color)
      requires Valid()
      modifies buffer
      ensures forall i, j :: InBounds(i, j) ==>
        buffer[i, j] == if i == x && j == y then color else old(buffer[i, j])
    {
      if 0 <= x < width && 0 <= y < height {
        buffer[x, y] := color;
      }
    }

    /** Draws the line from (x0, y0) to (x1, y1): exactly the in-bounds points
        of `LinePoints(x0, y0, x1, y1)` take the colour, every other pixel
        keeps its old value. */
    method DrawBresenhamLine(x0: int, y0: int, x1: int, y1: int, color: Color)
      requires Valid()
      modifies buffer
      ensures forall i, j :: InBounds(i, j) ==>
        buffer[i, j] == if (i, j) in LinePoints(x0, y0, x1, y1) then color else old(buffer[i, j])
    {
      var dx: int := Abs(x1 - x0);
      var dy: int := Abs(y1 - y0);
      var sx := if x0 < x1 then 1 else -1;
      var sy := if y0 < y1 then 1 else -1;
      var err := dx - dy;
      var x, y := x0, y0;
      ghost var l := Start(x0, y0, x1, y1);
      ghost var states := LineCursors(x0, y0, x1, y1);
      ghost var line := LinePoints(x0, y0, x1, y1);
      ghost var k := 0;
      LineCursorsChain(x0, y0, x1, y1);
      while true
        invariant 0 <= k < |states| && states[k] == Cursor(x, y, err)
        invariant forall i, j :: InBounds(i, j) ==>
          buffer[i, j] == if (i, j) in line[..k] then color else old(buffer[i, j])
        decreases |states| - k
      {
        PutPixel(x, y, color);
        assert line[..k + 1] == line[..k] + [(x, y)];
        if x == x1 && y == y1 {
          assert k == |states| - 1;
          assert line[..k + 1] == line;
          break;
        }
        ghost var c := Cursor(x, y, err);
        var e2 := 2 * err;
        if e2 > -dy {
          err := err - dy;
          x := x + sx;
        }
        if e2 < dx {
          err := err + dx;
          y := y + sy;
        }
        StepByCases(c, l, x, y, err);
        k := k + 1;
      }
    }

    /** Draws the 3 x 3 block centred on (x, y): exactly the in-bounds pixels
        within distance 1 of (x, y) in both axes take the colour. */
    method DrawThickPoint(x: int, y: int, color: Color)
      requires Valid()
      modifies buffer
      ensures forall i, j :: InBounds(i, j) ==>
        buffer[i, j] == if Abs(i - x) <= 1 && Abs(j - y) <= 1 then color else old(buffer[i, j])
    {
      for dx := -1 to 2
        invariant forall i, j :: InBounds(i, j) ==>
          buffer[i, j] == if x - 1 <= i < x + dx && Abs(j - y) <= 1 then color else old(buffer[i, j])
      {
        for dy := -1 to 2
          invariant forall i, j :: InBounds(i, j) ==>
            buffer[i, j] == if (x - 1 <= i < x + dx && Abs(j - y) <= 1) || (i == x + dx && y - 1 <= j < y + dy)
                            then color else old(buffer[i, j])
        {
          PutPixel(x + dx, y + dy, color);
        }
      }
    }
  }
}
