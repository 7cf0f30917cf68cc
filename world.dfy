/** The scene's data, class `World3D`: the vertex list, the edge list, the
    two loaders and `apply_transformation`. A source file is given as the
    sequence of its lines; turning a field into a number is the parameter
    `parseReal` (Python's `float`) or `parseInt` (Python's `int`), which
    answers None where Python raises ValueError. */
module World {
  import opened Wrappers
  import opened Transform
  import opened Text

  /** A pair of vertex indices. */
  type Edge = (int, int)

  /** Why a line was rejected: it has fewer fields than are read (IndexError)
      or a field is not a number (ValueError). */
  datatype Fault = MissingField | BadNumber

  /** The rejected line's position in the file, and why. */
  datatype LoadError = LoadError(line: nat, fault: Fault)

  /** Field k of a split line, converted by `parse`. */
  function Field<T>(fields: seq<string>, k: nat, parse: string -> Option<T>): (r: Result<T, Fault>)
    ensures r.Failure? <==> k >= |fields| || parse(fields[k]).None?
    ensures r.Success? ==> Some(r.value) == parse(fields[k])
  {
    if k >= |fields| then Failure(MissingField)
    else match parse(fields[k])
      case Some(v) => Success(v)
      case None => Failure(BadNumber)
  }

  /** One non-blank vertex line `x,y,z`: the first three fields as reals and
      w = 1; any further fields are ignored. */
  function ParseVertexLine(line: string, parseReal: string -> Option<real>): (r: Result<Vec4, Fault>)
    ensures var p := Split(Strip(line), ',');
      r.Success? <==> |p| >= 3 && parseReal(p[0]).Some? && parseReal(p[1]).Some? && parseReal(p[2]).Some?
    ensures var p := Split(Strip(line), ',');
      r.Success? ==> r.value == Vec4(parseReal(p[0]).value, parseReal(p[1]).value, parseReal(p[2]).value, 1.0)
  {
    var p := Split(Strip(line), ',');
    var x :- Field(p, 0, parseReal);
    var y :- Field(p, 1, parseReal);
    var z :- Field(p, 2, parseReal);
    Success(Vec4(x, y, z, 1.0))
  }

  /** One non-blank edge line `i,j`: the first two fields as integers; any
      further fields are ignored. */
  function ParseEdgeLine(line: string, parseInt: string -> Option<int>): (r: Result<Edge, Fault>)
    ensures var p := Split(Strip(line), ',');
      r.Success? <==> |p| >= 2 && parseInt(p[0]).Some? && parseInt(p[1]).Some?
    ensures var p := Split(Strip(line), ',');
      r.Success? ==> r.value == (parseInt(p[0]).value, parseInt(p[1]).value)
  {
    var p := Split(Strip(line), ',');
    var a :- Field(p, 0, parseInt);
    var b :- Field(p, 1, parseInt);
    Success((a, b))
  }

  /** The loaders' common loop as a function: blank lines are skipped, every
      other line is parsed in order, and the first line that fails decides
      the result. */
  function ParseAll<T>(lines: seq<string>, parseLine: string -> Result<T, Fault>): (r: Result<seq<T>, LoadError>)
    ensures r.Success? ==> |r.value| <= |lines|
    ensures r.Failure? ==>
      r.error.line < |lines| && !IsBlank(lines[r.error.line]) &&
      parseLine(lines[r.error.line]) == Failure(r.error.fault)
    decreases |lines|
  {
    if lines == [] then Success([])
    else
      var n := |lines| - 1;
      match ParseAll(lines[..n], parseLine)
      case Failure(e) => Failure(e)
      case Success(items) =>
        if IsBlank(lines[n]) then Success(items)
        else match parseLine(lines[n])
          case Failure(f) => Failure(LoadError(n, f))
          case Success(item) => Success(items + [item])
  }

  /** The non-blank lines, in order. */
  function NonBlank(lines: seq<string>): seq<string>
    decreases |lines|
  {
    if lines == [] then []
    else
      var n := |lines| - 1;
      NonBlank(lines[..n]) + (if IsBlank(lines[n]) then [] else [lines[n]])
  }

  /** Once a prefix of the file fails, the whole file fails with the same error. */
  lemma {:induction false} FailureStands<T>(lines: seq<string>, n: nat, parseLine: string -> Result<T, Fault>)
    requires n <= |lines| && ParseAll(lines[..n], parseLine).Failure?
    ensures ParseAll(lines, parseLine) == ParseAll(lines[..n], parseLine)
    decreases |lines| - n
  {
    if n < |lines| {
      assert lines[..n + 1][..n] == lines[..n];
      FailureStands(lines, n + 1, parseLine);
    } else {
      assert lines[..n] == lines;
    }
  }

  /** Every non-blank line among the first n parses. */
  predicate ParsesUpTo<T>(lines: seq<string>, n: nat, parseLine: string -> Result<T, Fault>)
    requires n <= |lines|
  {
    forall k :: 0 <= k < n && !IsBlank(lines[k]) ==> parseLine(lines[k]).Success?
  }

  /** A load succeeds exactly when every non-blank line parses. */
  lemma {:induction false} SucceedsIffAllParse<T>(lines: seq<string>, parseLine: string -> Result<T, Fault>)
    ensures ParseAll(lines, parseLine).Success? <==> ParsesUpTo(lines, |lines|, parseLine)
    decreases |lines|
  {
    if lines != [] {
      var n := |lines| - 1;
      var front := lines[..n];
      SucceedsIffAllParse(front, parseLine);
      assert forall k :: 0 <= k < n ==> lines[k] == front[k];
      assert ParsesUpTo(lines, |lines|, parseLine) <==>
        ParsesUpTo(front, n, parseLine) && (!IsBlank(lines[n]) ==> parseLine(lines[n]).Success?);
    }
  }

  /** A successful load holds one item per non-blank line, in order, each the
      parse of that line. */
  lemma {:induction false} ItemsAreParsedLines<T>(lines: seq<string>, parseLine: string -> Result<T, Fault>)
    requires ParseAll(lines, parseLine).Success?
    ensures var items, rows := ParseAll(lines, parseLine).value, NonBlank(lines);
      |items| == |rows| && forall k :: 0 <= k < |rows| ==> Success(items[k]) == parseLine(rows[k])
    decreases |lines|
  {
    if lines != [] {
      var n := |lines| - 1;
      var front := lines[..n];
      assert ParseAll(front, parseLine).Success?;
      ItemsAreParsedLines(front, parseLine);
    }
  }

  /** A failed load names the first non-blank line that does not parse, and
      the reason it gave. */
  lemma {:induction false} ErrorIsFirstBadLine<T>(lines: seq<string>, parseLine: string -> Result<T, Fault>)
    requires ParseAll(lines, parseLine).Failure?
    ensures var e := ParseAll(lines, parseLine).error;
      e.line < |lines| && !IsBlank(lines[e.line]) && parseLine(lines[e.line]) == Failure(e.fault) &&
      ParsesUpTo(lines, e.line, parseLine)
    decreases |lines|
  {
    var n := |lines| - 1;
    var front := lines[..n];
    assert forall k :: 0 <= k < n ==> lines[k] == front[k];
    if ParseAll(front, parseLine).Failure? {
      ErrorIsFirstBadLine(front, parseLine);
    } else {
      SucceedsIffAllParse(front, parseLine);
    }
  }

  function VertexParser(parseReal: string -> Option<real>): string -> Result<Vec4, Fault> {
    line => ParseVertexLine(line, parseReal)
  }

  function EdgeParser(parseInt: string -> Option<int>): string -> Result<Edge, Fault> {
    line => ParseEdgeLine(line, parseInt)
  }

  /** Every vertex a successful load produces has w = 1. */
  lemma LoadedVerticesAreAffine(lines: seq<string>, parseReal: string -> Option<real>)
    requires ParseAll(lines, VertexParser(parseReal)).Success?
    ensures var vs := ParseAll(lines, VertexParser(parseReal)).value;
      |vs| == |NonBlank(lines)| && forall k :: 0 <= k < |vs| ==> vs[k].w == 1.0
  {
    ItemsAreParsedLines(lines, VertexParser(parseReal));
  }

  class World3D {
    var vertices: seq<Vec4>
    var edges: seq<Edge>

    /** An empty world (writing the default files is not modelled). */
    constructor ()
      ensures vertices == [] && edges == []
    {
      vertices := [];
      edges := [];
    }

    /** Reads the vertex file. On success the vertices are replaced and their
        number returned; on failure nothing changes. */
    method LoadVertices(lines: seq<string>, parseReal: string -> Option<real>) returns (r: Result<nat, LoadError>)
      modifies this
      ensures edges == old(edges)
      ensures match ParseAll(lines, VertexParser(parseReal))
        case Success(vs) => vertices == vs && r == Success(|vs|)
        case Failure(e) => vertices == old(vertices) && r == Failure(e)
    {
      var temp: seq<Vec4> := [];
      for i := 0 to |lines|
        invariant ParseAll(lines[..i], VertexParser(parseReal)) == Success(temp)
        invariant vertices == old(vertices) && edges == old(edges)
      {
        assert lines[..i + 1][..i] == lines[..i];
        var line := lines[i];
        StripEmptyIffBlank(line);
        if Strip(line) != [] {
          match ParseVertexLine(line, parseReal)
          case Failure(f) =>
            FailureStands(lines, i + 1, VertexParser(parseReal));
            return Failure(LoadError(i, f));
          case Success(v) =>
            temp := temp + [v];
        }
      }
      assert lines[..|lines|] == lines;
      vertices := temp;
      return Success(|vertices|);
    }

    /** Reads the edge file. On success the edges are replaced and their
        number returned; on failure nothing changes. */
    method LoadEdges(lines: seq<string>, parseInt: string -> Option<int>) returns (r: Result<nat, LoadError>)
      modifies this
      ensures vertices == old(vertices)
      ensures match ParseAll(lines, EdgeParser(parseInt))
        case Success(es) => edges == es && r == Success(|es|)
        case Failure(e) => edges == old(edges) && r == Failure(e)
    {
      var temp: seq<Edge> := [];
      for i := 0 to |lines|
        invariant ParseAll(lines[..i], EdgeParser(parseInt)) == Success(temp)
        invariant vertices == old(vertices) && edges == old(edges)
      {
        assert lines[..i + 1][..i] == lines[..i];
        var line := lines[i];
        StripEmptyIffBlank(line);
        if Strip(line) != [] {
          match ParseEdgeLine(line, parseInt)
          case Failure(f) =>
            FailureStands(lines, i + 1, EdgeParser(parseInt));
            return Failure(LoadError(i, f));
          case Success(e) =>
            temp := temp + [e];
        }
      }
      assert lines[..|lines|] == lines;
      edges := temp;
      return Success(|edges|);
    }

    /** Transforms every vertex by the matrix for (tag, p). An empty vertex
        list is left alone without building a matrix, so any parameter is
        accepted then. */
    method ApplyTransformation(tag: string, p: Param, trig: Trig)
      requires vertices != [] ==> ParamFits(tag, p)
      modifies this
      ensures edges == old(edges)
      ensures old(vertices) == [] ==> vertices == []
      ensures old(vertices) != [] ==>
        |vertices| == |old(vertices)| &&
        forall i :: 0 <= i < |vertices| ==> vertices[i] == Multiply(old(vertices)[i], TransformMatrix(tag, p, trig))
    {
      if vertices == [] {
        return;
      }
      var matrix := TransformMatrix(tag, p, trig);
      var newVertices: seq<Vec4> := [];
      for i := 0 to |vertices|
        invariant |newVertices| == i && edges == old(edges) && vertices == old(vertices)
        invariant forall k :: 0 <= k < i ==> newVertices[k] == Multiply(vertices[k], matrix)
      {
        newVertices := newVertices + [Multiply(vertices[i], matrix)];
      }
      vertices := newVertices;
    }
  }
}
