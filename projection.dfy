/** Perspective projection: `MathLib.project_3d_to_2d`. */
module Projection {
  import opened Wrappers
  import opened Config

  /** `t` is `r` truncated toward zero, as Python's `int()` does to a float. */
  predicate TruncatesTo(r: real, t: int) {
    if r >= 0.0 then 0 <= t && t as real <= r < t as real + 1.0
    else t <= 0 && t as real - 1.0 < r <= t as real
  }

  function Trunc(r: real): (t: int)
    ensures TruncatesTo(r, t)
  {
    if r >= 0.0 then r.Floor else -((-r).Floor)
  }

  /** Truncation has exactly one answer. */
  lemma TruncUnique(r: real, t: int, t': int)
    requires TruncatesTo(r, t) && TruncatesTo(r, t')
    ensures t == t'
  {
  }

  /** An integral real truncates to itself. */
  lemma TruncOfInt(n: int)
    ensures Trunc(n as real) == n
  {
    TruncUnique(n as real, Trunc(n as real), n);
  }

  /** Python's `n // 2`: for the positive divisor 2, Dafny's Euclidean
      division floors just as Python's does. */
  function Half(n: int): (h: int)
    ensures 2 * h <= n < 2 * h + 2
  {
    n / 2
  }

  /** The screen position of (x, y, z) in a width x height viewport, or None
      when the point is at or behind the camera plane (z + CameraDist <= 0). */
  function Project(x: real, y: real, z: real, width: int, height: int): (r: Option<Point>)
    ensures r.None? <==> z + CameraDist <= 0.0
    ensures r.Some? ==>
      TruncatesTo(x * (FocalLength / (z + CameraDist)) + Half(width) as real, r.value.0) &&
      TruncatesTo(y * (FocalLength / (z + CameraDist)) + Half(height) as real, r.value.1)
  {
    if z + CameraDist <= 0.0 then None
    else
      var scale := FocalLength / (z + CameraDist);
      var cx, cy := Half(width), Half(height);
      Some((Trunc(x * scale + cx as real), Trunc(y * scale + cy as real)))
  }

  /** A point on the camera's axis lands on the centre of the viewport. */
  lemma AxisToCentre(z: real, width: int, height: int)
    requires z + CameraDist > 0.0
    ensures Project(0.0, 0.0, z, width, height) == Some((Half(width), Half(height)))
  {
    TruncOfInt(Half(width));
    TruncOfInt(Half(height));
  }
}
