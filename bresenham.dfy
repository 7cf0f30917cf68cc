/** The integer line loop of `Rasterizer.draw_bresenham_line`, as a pure
    function from the line's endpoints to the sequence of points the loop
    plots, in order. */
module Bresenham {
  import opened Config

  function Abs(n: int): nat {
    if n < 0 then -n else n
  }

  /** The loop's fixed quantities: the end point, dx = |x1 - x0|,
      dy = |y1 - y0| and the step directions sx, sy. */
  datatype Setup = Setup(x1: int, y1: int, dx: int, dy: int, sx: int, sy: int)

  /** The loop's variables: the current point and the error term. */
  datatype Cursor = Cursor(x: int, y: int, err: int)

  function Start(x0: int, y0: int, x1: int, y1: int): Setup {
    Setup(x1, y1, Abs(x1 - x0), Abs(y1 - y0), if x0 < x1 then 1 else -1, if y0 < y1 then 1 else -1)
  }

  /** `v` has not passed `target` going in direction `s`. */
  predicate Heading(v: int, target: int, s: int) {
    (s == 1 && v <= target) || (s == -1 && target <= v)
  }

  /** The loop invariant: the cursor is still on its way to the end point,
      no further from it than the start was, and the error term equals
      dx - dy + dy * |x1 - x| - dx * |y1 - y|. */
  predicate OnTheWay(c: Cursor, l: Setup) {
    Heading(c.x, l.x1, l.sx) && Heading(c.y, l.y1, l.sy) &&
    Abs(l.x1 - c.x) <= l.dx && Abs(l.y1 - c.y) <= l.dy &&
    c.err == l.dx - l.dy + Times(l.dy, Abs(l.x1 - c.x)) - Times(l.dx, Abs(l.y1 - c.y))
  }

  predicate Arrived(c: Cursor, l: Setup) {
    c.x == l.x1 && c.y == l.y1
  }

  /** The distance left to the end point, |x1 - x| + |y1 - y|. */
  function Remaining(c: Cursor, l: Setup): nat {
    Abs(l.x1 - c.x) + Abs(l.y1 - c.y)
  }

  /** One pass of the loop body after the point is plotted. */
  function Step(c: Cursor, l: Setup): Cursor {
    var e2 := 2 * c.err;
    var x := if e2 > -l.dy then c.x + l.sx else c.x;
    var err := if e2 > -l.dy then c.err - l.dy else c.err;
    var y := if e2 < l.dx then c.y + l.sy else c.y;
    var err' := if e2 < l.dx then err + l.dx else err;
    Cursor(x, y, err')
  }

  /** The product a * n as repeated addition. */
  function Times(a: int, n: nat): int {
    if n == 0 then 0 else Times(a, n - 1) + a
  }

  lemma {:induction false} TimesIsProduct(a: int, n: nat)
    ensures Times(a, n) == a * n
  {
    if n > 0 {
      TimesIsProduct(a, n - 1);
    }
  }

  lemma {:induction false} AtLeastOnce(a: int, n: nat)
    requires a >= 0 && n >= 1
    ensures Times(a, n) >= a
  {
    if n > 1 {
      AtLeastOnce(a, n - 1);
    }
  }

  /** The loop body keeps the invariant and brings the cursor closer. */
  lemma StepKeepsOnTheWay(c: Cursor, l: Setup)
    requires OnTheWay(c, l) && !Arrived(c, l)
    ensures OnTheWay(Step(c, l), l)
    ensures Remaining(Step(c, l), l) < Remaining(c, l)
  {
    var u: int, v: int := Abs(l.x1 - c.x), Abs(l.y1 - c.y);
    var e2 := 2 * c.err;
    var xs, ys := e2 > -l.dy, e2 < l.dx;
    if xs && u == 0 {
      AtLeastOnce(l.dx, v);
      assert false;
    }
    if ys && v == 0 {
      AtLeastOnce(l.dy, u);
      assert false;
    }
    assert xs || ys;
    var n := Step(c, l);
    assert Abs(l.x1 - n.x) == if xs then u - 1 else u;
    assert Abs(l.y1 - n.y) == if ys then v - 1 else v;
  }


  /** The loop body's updates, written out case by case, are `Step`. */
  lemma StepByCases(c: Cursor, l: Setup, x: int, y: int, err: int)
    requires x == (if 2 * c.err > -l.dy then c.x + l.sx else c.x)
    requires y == (if 2 * c.err < l.dx then c.y + l.sy else c.y)
    requires err == c.err - (if 2 * c.err > -l.dy then l.dy else 0) + (if 2 * c.err < l.dx then l.dx else 0)
    ensures Step(c, l) == Cursor(x, y, err)
  {
  }

  /** The loop's states from cursor c on, ending at the end point. */
  function Cursors(c: Cursor, l: Setup): (cs: seq<Cursor>)
    requires OnTheWay(c, l)
    ensures |cs| >= 1 && cs[0] == c && Arrived(cs[|cs| - 1], l)
    decreases Remaining(c, l)
  {
    if Arrived(c, l) then [c]
    else
      StepKeepsOnTheWay(c, l);
      [c] + Cursors(Step(c, l), l)
  }

  /** Each state before the last is on its way and has not arrived, the
      next state is the loop body applied to it, and there are at most
      Remaining + 1 states. */
  lemma {:induction false} CursorsChain(c: Cursor, l: Setup)
    requires OnTheWay(c, l)
    ensures var cs := Cursors(c, l);
      forall k :: 0 <= k < |cs| ==> OnTheWay(cs[k], l) && (k < |cs| - 1 <==> !Arrived(cs[k], l))
    ensures var cs := Cursors(c, l);
      forall k :: 0 <= k < |cs| - 1 ==> cs[k + 1] == Step(cs[k], l)
    ensures |Cursors(c, l)| <= Remaining(c, l) + 1
    decreases Remaining(c, l)
  {
    if !Arrived(c, l) {
      StepKeepsOnTheWay(c, l);
      CursorsChain(Step(c, l), l);
      var cs, rest := Cursors(c, l), Cursors(Step(c, l), l);
      assert cs == [c] + rest;
      forall k | 0 < k < |cs|
        ensures cs[k] == rest[k - 1]
      {
      }
    }
  }

  /** The point each state plots. */
  function Points(cs: seq<Cursor>): seq<Point> {
    seq(|cs|, k requires 0 <= k < |cs| => (cs[k].x, cs[k].y))
  }

  function StartCursor(x0: int, y0: int, x1: int, y1: int): Cursor {
    Cursor(x0, y0, Abs(x1 - x0) - Abs(y1 - y0))
  }

  lemma StartOnTheWay(x0: int, y0: int, x1: int, y1: int)
    ensures OnTheWay(StartCursor(x0, y0, x1, y1), Start(x0, y0, x1, y1))
  {
    TimesIsProduct(Abs(y1 - y0), Abs(x1 - x0));
    TimesIsProduct(Abs(x1 - x0), Abs(y1 - y0));
  }

  /** The states `draw_bresenham_line(x0, y0, x1, y1)` passes through: the
      first is its starting state, the last is at (x1, y1). */
  function LineCursors(x0: int, y0: int, x1: int, y1: int): (cs: seq<Cursor>)
    ensures |cs| >= 1 && cs[0] == StartCursor(x0, y0, x1, y1)
    ensures Arrived(cs[|cs| - 1], Start(x0, y0, x1, y1))
  {
    StartOnTheWay(x0, y0, x1, y1);
    Cursors(StartCursor(x0, y0, x1, y1), Start(x0, y0, x1, y1))
  }

  /** The states of a line, stated for the drawing loop. */
  lemma LineCursorsChain(x0: int, y0: int, x1: int, y1: int)
    ensures var cs, l := LineCursors(x0, y0, x1, y1), Start(x0, y0, x1, y1);
      (forall k :: 0 <= k < |cs| - 1 ==> !Arrived(cs[k], l) && cs[k + 1] == Step(cs[k], l)) &&
      |cs| <= l.dx + l.dy + 1
  {
    StartOnTheWay(x0, y0, x1, y1);
    CursorsChain(StartCursor(x0, y0, x1, y1), Start(x0, y0, x1, y1));
  }

  /** Every point `draw_bresenham_line(x0, y0, x1, y1)` plots, in order: the
      first is (x0, y0) and the last is (x1, y1). */
  function LinePoints(x0: int, y0: int, x1: int, y1: int): (pts: seq<Point>)
    ensures |pts| >= 1 && pts[0] == (x0, y0) && pts[|pts| - 1] == (x1, y1)
  {
    Points(LineCursors(x0, y0, x1, y1))
  }

  /** q is p moved by 0 or s in x and by 0 or t in y, and not p itself: an
      8-connected step in the line's direction. */
  predicate StepsToward(p: Point, q: Point, s: int, t: int) {
    (q.0 == p.0 || q.0 == p.0 + s) && (q.1 == p.1 || q.1 == p.1 + t) && p != q
  }

  lemma StepMovesToward(c: Cursor, l: Setup)
    requires OnTheWay(c, l) && !Arrived(c, l)
    ensures StepsToward((c.x, c.y), (Step(c, l).x, Step(c, l).y), l.sx, l.sy)
  {
    StepKeepsOnTheWay(c, l);
  }

  /** Consecutive points of a line differ by at most 1 in each coordinate,
      x moves only in direction sx and y only in direction sy, no point
      repeats its predecessor, and there are at most dx + dy + 1 points. */
  lemma LineSteps(x0: int, y0: int, x1: int, y1: int)
    ensures var pts, l := LinePoints(x0, y0, x1, y1), Start(x0, y0, x1, y1);
      |pts| <= l.dx + l.dy + 1 &&
      forall i :: 0 <= i < |pts| - 1 ==> StepsToward(pts[i], pts[i + 1], l.sx, l.sy)
  {
    var cs, l := LineCursors(x0, y0, x1, y1), Start(x0, y0, x1, y1);
    StartOnTheWay(x0, y0, x1, y1);
    CursorsChain(StartCursor(x0, y0, x1, y1), l);
    var pts := LinePoints(x0, y0, x1, y1);
    forall i | 0 <= i < |pts| - 1
      ensures StepsToward(pts[i], pts[i + 1], l.sx, l.sy)
    {
      StepMovesToward(cs[i], l);
    }
  }

  /** A line whose two endpoints coincide plots exactly that one point. */
  lemma DegenerateLine(x: int, y: int)
    ensures LinePoints(x, y, x, y) == [(x, y)]
  {
  }

  /** The loop is not direction-symmetric: (0,0) to (2,1) plots (1,0), while
      (2,1) to (0,0) plots (1,1) instead. */
  lemma DirectionMatters()
    ensures LinePoints(0, 0, 2, 1) == [(0, 0), (1, 0), (2, 1)]
    ensures LinePoints(2, 1, 0, 0) == [(2, 1), (1, 1), (0, 0)]
  {
  }
}
