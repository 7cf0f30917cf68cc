# Wireframe renderer core, modelled in Dafny

The program is a small software wireframe renderer written in Python with a
tkinter front end (`main.py`). It keeps a list of homogeneous vertices and a
list of edges, transforms the vertices with 4x4 matrices (rotation about X, Y
or Z, uniform scaling, translation), projects them through a pinhole camera,
and rasterises the wireframe into an image with an integer Bresenham loop and
3x3 vertex markers.

This project models that core:

| module | file | models |
|---|---|---|
| `Transform` | transform.dfy | `MathLib.multiply_matrix`, `MathLib.get_transform_matrix` |
| `Projection` | projection.dfy | `MathLib.project_3d_to_2d` |
| `Bresenham` | bresenham.dfy | the loop of `draw_bresenham_line`, as the sequence of states it passes through and the points it plots |
| `Raster` | rasterizer.dfy | class `Rasterizer` over a `width x height` colour grid (`array2<Color>`) |
| `Text` | text.dfy | `str.strip()` and `str.split(',')` as the loaders use them |
| `World` | world.dfy | class `World3D`: both loaders and `apply_transformation` |
| `Scene` | scene.dfy | the projection and selection steps of `AppGUI.render_scene`, and the default cube data |
| `Config`, `Wrappers` | config.dfy, wrappers.dfy | the `Config` constants; Option/Result |

Numbers are `real`. Cosine and sine are passed in as a `Trig` pair of
functions, and the text-to-number conversions (`float`, `int`) are passed in
as partial functions `string -> Option<_>` that answer `None` where Python
raises `ValueError`. A file is given as the sequence of its lines.

Behaviours of the program worth knowing, which the model follows:

- An edge whose index is out of range is not skipped at render time:
  `screen_points[edge[0]]` raises `IndexError`, which ends the frame after the
  lines drawn so far (`Scene.Aborted`). A negative index counts from the end
  of the list, as Python indexing does.
- The line loop is not direction-symmetric: `Bresenham.DirectionMatters`
  shows that (0,0)→(2,1) and (2,1)→(0,0) plot different middle pixels.
- Screen coordinates are truncated toward zero (`int(...)`), not rounded.
- The world starts empty. The default cube is only written to the default
  files (main.py:128-135); it is drawn only once those files are loaded.
  `Scene.CubeVertices` and `Scene.CubeEdges` hold that data.
- Inverse transforms undo each other exactly over the reals. With floats this
  holds only within rounding error.

## Model

| member | source | states |
|---|---|---|
| Transform.Multiply | main.py:25-32 | row vector times matrix; an affine matrix (last column 0,0,0,1) keeps w; the identity matrix changes nothing |
| Transform.TransformMatrix | main.py:35-55 | every matrix it builds is affine; any tag other than rotX/rotY/rotZ/scale/trans gives the identity |
| Transform.TransformKeepsW | main.py:38-55 | every transform leaves the w component of every vector unchanged |
| Transform.UnknownTagIsNoOp | main.py:37-55 | an unrecognised tag leaves every vector unchanged |
| Transform.RotationsFixTheirAxis | main.py:40-48 | rotX never changes x, rotY never changes y, rotZ never changes z |
| Transform.ScaleMultiplies | main.py:49-50 | 'scale' by k maps (x,y,z,w) to (kx,ky,kz,w); k = 1 gives back the same vector |
| Transform.TranslateAdds | main.py:51-53 | 'trans' by (dx,dy,dz) adds (dx·w, dy·w, dz·w) |
| Transform.RotationUndone | main.py:40-48 | if cos is even, sin is odd and cos²+sin²=1 at a, rotating by a then by -a (any axis) gives back the vector |
| Transform.RotXUndone | main.py:40-42 | when c² + s² = 1, the rotX matrix for (c, -s) undoes the one for (c, s) |
| Transform.RotYUndone | main.py:43-45 | when c² + s² = 1, the rotY matrix for (c, -s) undoes the one for (c, s) |
| Transform.RotZUndone | main.py:46-48 | when c² + s² = 1, the rotZ matrix for (c, -s) undoes the one for (c, s) |
| Transform.ScaleUndone | main.py:49-50 | scaling by k ≠ 0 then by 1/k gives back the vector |
| Transform.TranslateUndone | main.py:51-53 | translating by d then by -d gives back the vector |
| Projection.Trunc | main.py:66-67 | the result is the real truncated toward zero: same sign, and less than 1 away from it |
| Projection.Half | main.py:64 | `n // 2` is the floor of n/2 |
| Projection.Project | main.py:58-68 | None exactly when z + CAMERA_DIST ≤ 0; otherwise each coordinate is x·s + width//2 (y·s + height//2) truncated toward zero, with s = FOCAL_LENGTH/(z + CAMERA_DIST) |
| Projection.AxisToCentre | main.py:63-68 | a point on the camera axis in front of the camera lands on (width//2, height//2) |
| Bresenham.Start | main.py:95-98 | the loop's fixed quantities dx = abs(x1-x0), dy = abs(y1-y0) and the directions sx, sy; used by `StartOnTheWay` and `LineCursors` |
| Bresenham.StartCursor | main.py:99 | the loop's first state (x0, y0, dx - dy); `StartOnTheWay` proves it satisfies the loop invariant |
| Bresenham.StartOnTheWay | main.py:95-99 | the starting state satisfies the loop invariant (error term and heading toward the end point) |
| Bresenham.Step | main.py:104-110 | one pass of the loop body, both tests reading the same e2; `StepKeepsOnTheWay` proves it keeps the invariant and shortens the distance left, `StepMovesToward` that it makes an 8-connected move toward the end point |
| Bresenham.StepKeepsOnTheWay | main.py:104-110 | one loop pass keeps the error-term invariant, never steps past x1 or y1, and strictly reduces the distance left, so the loop terminates |
| Bresenham.StepMovesToward | main.py:104-110 | one loop pass moves x by 0 or sx and y by 0 or sy, and moves at least one of them |
| Bresenham.Cursors | main.py:101-110 | the loop's states start at the given state and the last one is at the end point |
| Bresenham.CursorsChain | main.py:101-110 | each state is the loop body applied to the one before, only the last has arrived, and there are at most \|x1-x\|+\|y1-y\|+1 of them |
| Bresenham.LineCursors | main.py:95-110 | the states of a line start at (x0, y0) with err = dx - dy and end at (x1, y1) |
| Bresenham.LinePoints | main.py:93-110 | the first plotted point is (x0, y0) and the last is (x1, y1) |
| Bresenham.LineSteps | main.py:95-110 | consecutive plotted points differ by at most 1 in each coordinate, x moves only in direction sx and y only in sy, no point repeats its predecessor, and there are at most dx+dy+1 points |
| Bresenham.DegenerateLine | main.py:101-103 | a line with equal endpoints plots exactly one point |
| Bresenham.DirectionMatters | main.py:93-110 | the two directions of the line (0,0)–(2,1) plot different pixels |
| Raster.Rasterizer.constructor | main.py:76-80 | a rasterizer of the given size over a blank image of that size |
| Raster.Rasterizer.SetBuffer | main.py:82-83 | attaches the given image |
| Raster.Rasterizer.ClearScreen | main.py:85-87 | afterwards every pixel is BG_COLOR |
| Raster.Rasterizer.PutPixel | main.py:89-91 | writes (x, y) exactly when 0 ≤ x < width and 0 ≤ y < height; no other pixel changes |
| Raster.Rasterizer.DrawBresenhamLine | main.py:93-110 | exactly the in-bounds points of `LinePoints(x0,y0,x1,y1)` take the colour; every other pixel keeps its value |
| Raster.Rasterizer.DrawThickPoint | main.py:112-116 | exactly the in-bounds pixels within distance 1 of (x, y) in both axes take the colour |
| Text.TrimLeft | main.py:141-142 | drops exactly the leading whitespace |
| Text.TrimRight | main.py:141-142 | drops exactly the trailing whitespace |
| Text.Strip | main.py:141-142 | the result is a slice of the line with only whitespace before and after it, and it neither starts nor ends with whitespace: exactly the line with its leading and trailing whitespace removed |
| Text.BlankIsAllSpace | main.py:141 | a line is blank exactly when all its characters are whitespace |
| Text.StripEmptyIffAllSpace | main.py:141 | `line.strip()` is empty exactly when all characters are whitespace |
| Text.StripEmptyIffBlank | main.py:141 | a line is skipped exactly when it is blank |
| Text.Split | main.py:142 | at least one field, no field contains ',', and joining the fields with ',' gives back the string |
| Text.SplitWithoutSeparator | main.py:142 | a string without ',' splits into itself alone |
| World.Field | main.py:143 | field k fails exactly when it is missing or not a number; otherwise it is the parsed number |
| World.ParseVertexLine | main.py:142-143 | a line parses exactly when it has at least 3 fields and the first three are numbers; the vertex is (x, y, z, 1.0) |
| World.ParseEdgeLine | main.py:152-153 | a line parses exactly when it has at least 2 fields and the first two are integers; the edge is their pair |
| World.ParseAll | main.py:138-145 | the loop both loaders share: a success holds at most one entry per line; a failure names a non-blank line whose parse fails with that fault. `SucceedsIffAllParse`, `ItemsAreParsedLines` and `ErrorIsFirstBadLine` complete its meaning |
| World.FailureStands | main.py:140-144 | once a line fails, the whole load fails with that error |
| World.SucceedsIffAllParse | main.py:138-145 | a load succeeds exactly when every non-blank line parses |
| World.ItemsAreParsedLines | main.py:138-145 | a successful load holds one entry per non-blank line, in order, each the parse of that line |
| World.ErrorIsFirstBadLine | main.py:140-143 | a failed load names the first non-blank line that does not parse and why |
| World.LoadedVerticesAreAffine | main.py:143-145 | a successful vertex load has one vertex per non-blank line, each with w = 1.0 |
| World.World3D.constructor | main.py:123-125 | the world starts with no vertices and no edges |
| World.World3D.LoadVertices | main.py:137-145 | on success the vertices become the parsed lines and their number is returned; on failure vertices and edges are unchanged |
| World.World3D.LoadEdges | main.py:147-155 | on success the edges become the parsed lines and their number is returned; on failure vertices and edges are unchanged |
| World.World3D.ApplyTransformation | main.py:157-165 | an empty vertex list stays empty; otherwise the list keeps its length and vertex i becomes `Multiply(old[i], M)`; edges are unchanged |
| Scene.PyIndex | main.py:305-306 | Python list indexing: defined exactly for -len ≤ i < len |
| Scene.ScreenPoints | main.py:297-301 | entry i is `Project(x, y, z, WIDTH, HEIGHT)` of vertex i, so it is None exactly for the vertices at or behind the camera plane (z + CAMERA_DIST ≤ 0) |
| Scene.EdgeLines | main.py:304-308 | the edge loop: at most one line per edge; no edge raises exactly when every index is in range; otherwise the reported edge has an index out of range. `LineIffBothEndsProjected`, `FirstBadEdgeAborts` and `AllProjectedAllDrawn` complete its meaning |
| Scene.Markers | main.py:311-313 | a marker at p exactly when some vertex projected to p, and nothing else |
| Scene.RenderScene | main.py:291-313 | nothing happens exactly when there are no vertices or no edges |
| Scene.LineIffBothEndsProjected | main.py:304-308 | with indices in range no edge raises, and a line a–b is drawn exactly when some edge's endpoints project to a and b |
| Scene.FirstBadEdgeAborts | main.py:304-306 | the first edge with an out-of-range index ends the frame after the lines of the edges before it |
| Scene.AllProjectedAllDrawn | main.py:304-308 | when every vertex projects and every index is in range, each edge draws one line |
| Scene.AllProjectedAllMarked | main.py:311-313 | when every vertex projects, each vertex gets one marker |
| Scene.CubeDrawnInFull | main.py:130-135 | the default cube renders without clipping or error, drawing 20 primitives (its 12 lines and 8 markers) |

## Left out

- The tkinter window, canvas, buttons, toggle dictionary, button colours and the `root.after(40, ...)` animation loop (main.py:170-289, 315-318): user interface and event scheduling.
- File I/O: `generate_dummy_files` and the opening of files in the loaders; a file is its sequence of lines. The `print` after a vertex load and the error message box are not modelled.
- Float arithmetic: numbers are reals, so rounding, overflow to infinity and NaN do not occur; the values of `math.cos`/`math.sin` and the text-to-number conversions are parameters.
- Transform.TransformMatrix: requires a number for the rotations and 'scale' and a triple for 'trans'. With another shape the program raises (rotations, 'trans') or builds a matrix that fails only when used ('scale' with a tuple); the model does not follow these calls.
- Raster.Rasterizer.constructor: the program creates the rasterizer with no image (`buffer = None`) and attaches one later with `set_buffer`. The model always has an image, so it does not capture that `clear_screen` does nothing and `put_pixel` raises while no image is attached. Colours are opaque strings and a fresh image is blank (`""`).
- Raster.Rasterizer.ClearScreen: the image's own rectangle fill is modelled as one simultaneous assignment to every pixel.
- Scene.RenderScene: returns the list of primitives a frame draws rather than painting them onto a `Rasterizer`; the painting of each primitive is what `DrawBresenhamLine` and `DrawThickPoint` state.
