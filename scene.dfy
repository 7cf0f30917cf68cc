/** What `AppGUI.render_scene` draws for a given world: every vertex is
    projected, an edge becomes a line when both of its endpoints projected,
    and every projected vertex gets a marker. Edge indices follow Python
    list indexing: a negative index counts from the end, and one outside
    the list raises IndexError, which ends the frame. */
module Scene {
  import opened Wrappers
  import opened Config
  import opened Transform
  import opened Projection
  import opened World

  datatype Primitive = Segment(from: Point, to: Point) | Marker(at: Point)

  /** The outcome of one call: nothing happens when there are no vertices or
      no edges; otherwise the image is cleared and `prims` are drawn in
      order, or, when an edge index is out of range, the primitives before
      that edge are drawn and the call raises. */
  datatype Frame = Untouched | Drawn(prims: seq<Primitive>) | Aborted(drawn: seq<Primitive>, badEdge: nat)

  /** Python's `s[i]`: None where it raises IndexError. */
  function PyIndex<T>(s: seq<T>, i: int): (r: Option<T>)
    ensures r.Some? <==> -|s| <= i < |s|
  {
    if 0 <= i < |s| then Some(s[i])
    else if -|s| <= i < 0 then Some(s[|s| + i])
    else None
  }

  predicate EdgeInRange(points: seq<Option<Point>>, e: Edge) {
    -|points| <= e.0 < |points| && -|points| <= e.1 < |points|
  }

  /** The screen point of every vertex, None where it is clipped. */
  function ScreenPoints(vertices: seq<Vec4>): (points: seq<Option<Point>>)
    ensures |points| == |vertices|
    ensures forall i :: 0 <= i < |vertices| ==> (points[i].None? <==> vertices[i].z + CameraDist <= 0.0)
    ensures forall i :: 0 <= i < |vertices| ==>
      points[i] == Project(vertices[i].x, vertices[i].y, vertices[i].z, Width, Height)
  {
    seq(|vertices|, i requires 0 <= i < |vertices| =>
      Project(vertices[i].x, vertices[i].y, vertices[i].z, Width, Height))
  }

  /** The lines drawn for the edges, and the position of the edge that
      raised, if one did. */
  datatype Lines = Lines(drawn: seq<Primitive>, badEdge: Option<nat>)

  function EdgeLines(points: seq<Option<Point>>, edges: seq<Edge>): (r: Lines)
    ensures |r.drawn| <= |edges|
    ensures r.badEdge.None? <==> forall k :: 0 <= k < |edges| ==> EdgeInRange(points, edges[k])
    ensures r.badEdge.Some? ==> r.badEdge.value < |edges| && !EdgeInRange(points, edges[r.badEdge.value])
    decreases |edges|
  {
    if edges == [] then Lines([], None)
    else
      var p1, p2 := PyIndex(points, edges[0].0), PyIndex(points, edges[0].1);
      if p1.None? || p2.None? then Lines([], Some(0))
      else
        var rest := EdgeLines(points, edges[1..]);
        var here := if p1.value.Some? && p2.value.Some? then [Segment(p1.value.value, p2.value.value)] else [];
        Lines(here + rest.drawn, if rest.badEdge.Some? then Some(rest.badEdge.value + 1) else None)
  }

  /** A marker for every projected point, in order. */
  function Markers(points: seq<Option<Point>>): (ms: seq<Primitive>)
    ensures |ms| <= |points|
    ensures forall q :: q in ms ==> q.Marker?
    ensures forall p :: Marker(p) in ms <==> Some(p) in points
  {
    if points == [] then []
    else
      var rest := Markers(points[1..]);
      assert forall o :: o in points <==> o == points[0] || o in points[1..];
      if points[0].Some? then [Marker(points[0].value)] + rest else rest
  }

  function RenderScene(vertices: seq<Vec4>, edges: seq<Edge>): (f: Frame)
    ensures f.Untouched? <==> vertices == [] || edges == []
  {
    if vertices == [] || edges == [] then Untouched
    else
      var points := ScreenPoints(vertices);
      var lines := EdgeLines(points, edges);
      if lines.badEdge.Some? then Aborted(lines.drawn, lines.badEdge.value)
      else Drawn(lines.drawn + Markers(points))
  }

  /** With every index in range, no edge raises, and a line from a to b is
      drawn exactly when some edge's endpoints project to a and b. */
  lemma {:induction false} LineIffBothEndsProjected(points: seq<Option<Point>>, edges: seq<Edge>)
    requires forall k :: 0 <= k < |edges| ==> EdgeInRange(points, edges[k])
    ensures EdgeLines(points, edges).badEdge == None
    ensures forall q :: q in EdgeLines(points, edges).drawn ==> q.Segment?
    ensures forall a, b :: Segment(a, b) in EdgeLines(points, edges).drawn <==>
      exists k :: 0 <= k < |edges| &&
        PyIndex(points, edges[k].0) == Some(Some(a)) && PyIndex(points, edges[k].1) == Some(Some(b))
    decreases |edges|
  {
    if edges != [] {
      LineIffBothEndsProjected(points, edges[1..]);
      var r, rest := EdgeLines(points, edges), EdgeLines(points, edges[1..]);
      forall a, b
        ensures Segment(a, b) in r.drawn <==>
          exists k :: 0 <= k < |edges| &&
            PyIndex(points, edges[k].0) == Some(Some(a)) && PyIndex(points, edges[k].1) == Some(Some(b))
      {
        if exists k :: 0 <= k < |edges| &&
            PyIndex(points, edges[k].0) == Some(Some(a)) && PyIndex(points, edges[k].1) == Some(Some(b)) {
          var k :| 0 <= k < |edges| &&
            PyIndex(points, edges[k].0) == Some(Some(a)) && PyIndex(points, edges[k].1) == Some(Some(b));
          if k > 0 {
            assert edges[1..][k - 1] == edges[k];
          }
        }
        if Segment(a, b) in rest.drawn {
          var k :| 0 <= k < |edges| - 1 &&
            PyIndex(points, edges[1..][k].0) == Some(Some(a)) && PyIndex(points, edges[1..][k].1) == Some(Some(b));
          assert edges[k + 1] == edges[1..][k];
        }
      }
    }
  }

  /** The first edge with an index out of range ends the frame, after the
      lines of the edges before it. */
  lemma {:induction false} FirstBadEdgeAborts(points: seq<Option<Point>>, edges: seq<Edge>, k: nat)
    requires k < |edges| && !EdgeInRange(points, edges[k])
    requires forall j :: 0 <= j < k ==> EdgeInRange(points, edges[j])
    ensures EdgeLines(points, edges) == Lines(EdgeLines(points, edges[..k]).drawn, Some(k))
    decreases k
  {
    if k > 0 {
      FirstBadEdgeAborts(points, edges[1..], k - 1);
      assert edges[1..][..k - 1] == edges[..k][1..];
    }
  }

  /** When every vertex projects and every index is in range, each edge
      draws one line. */
  lemma {:induction false} AllProjectedAllDrawn(points: seq<Option<Point>>, edges: seq<Edge>)
    requires forall i :: 0 <= i < |points| ==> points[i].Some?
    requires forall k :: 0 <= k < |edges| ==> EdgeInRange(points, edges[k])
    ensures EdgeLines(points, edges) == Lines(EdgeLines(points, edges).drawn, None)
    ensures |EdgeLines(points, edges).drawn| == |edges|
    decreases |edges|
  {
    if edges != [] {
      AllProjectedAllDrawn(points, edges[1..]);
    }
  }

  lemma {:induction false} AllProjectedAllMarked(points: seq<Option<Point>>)
    requires forall i :: 0 <= i < |points| ==> points[i].Some?
    ensures |Markers(points)| == |points|
    decreases |points|
  {
    if points != [] {
      AllProjectedAllMarked(points[1..]);
    }
  }

  /** The cube the program writes as its default vertex file. */
  const CubeVertices: seq<Vec4> := [
    Vec4(-100.0, -100.0, -100.0, 1.0), Vec4(100.0, -100.0, -100.0, 1.0),
    Vec4(100.0, 100.0, -100.0, 1.0), Vec4(-100.0, 100.0, -100.0, 1.0),
    Vec4(-100.0, -100.0, 100.0, 1.0), Vec4(100.0, -100.0, 100.0, 1.0),
    Vec4(100.0, 100.0, 100.0, 1.0), Vec4(-100.0, 100.0, 100.0, 1.0)]

  /** The default edge file: the front face, the back face, and the four
      edges joining them. */
  const CubeEdges: seq<Edge> := [
    (0, 1), (1, 2), (2, 3), (3, 0), (4, 5), (5, 6), (6, 7), (7, 4), (0, 4), (1, 5), (2, 6), (3, 7)]

  /** The default cube is drawn in full: none of its vertices is clipped, so
      all 12 edges give lines and all 8 vertices give markers. */
  lemma CubeDrawnInFull()
    ensures RenderScene(CubeVertices, CubeEdges).Drawn?
    ensures |RenderScene(CubeVertices, CubeEdges).prims| == 20
  {
    var points := ScreenPoints(CubeVertices);
    forall i | 0 <= i < |points|
      ensures points[i].Some?
    {
      assert CubeVertices[i].z + CameraDist > 0.0;
    }
    AllProjectedAllDrawn(points, CubeEdges);
    AllProjectedAllMarked(points);
  }
}
