# FACT chart: chart layout, option conversion, scene assembly and shape generators

The FACT site draws a fixed chart of kinematic joint archetypes. Each slot can
show an abstract 3D scene of line segments. This project models the four parts
of the site that hold real logic, and proves what they compute:

- **Chart template and layout.** `generateChartTemplate` produces the 50
  slots, walking the DOF columns 0..6 and the rows of each column. The chart
  page puts each slot in a CSS grid cell and draws it as either a populated
  chart cell or an empty cell labelled with its id (`ChartTemplate`,
  `ChartLayout`).
- **Option conversion.** `processOptions` turns the top-level options of a
  scene element into vector objects wherever the value looks like a 3-vector
  (`DataHelpers`).
- **Scene assembly.** A standard scene has two lights. Populating a scene
  clears it, restores the lights, then adds one shape per element whose type
  names an exported generator. An unknown type gets a warning. A line element
  with an unset endpoint makes three.js throw, which ends population at that
  element (`SceneHelpers`).
  The properties of population are proved for any table from type names to
  generators; the scene itself uses the module's ten exports.
- **Shape generators.** There are ten generators. `createLine` returns one
  segment directly, and the model treats it as a one-segment shape. Each of
  the other nine fills a group with line segments in counted loops. The host's cosine, sine and square root are
  parameters, so nothing depends on their values except where a lemma assumes
  cos² + sin² = 1 and sqrt(a)² = a (`ElementalShapes`).

`Wrappers` holds `Option`. `JsValues` holds a JSON-like value type with
JavaScript truthiness.

Facts of the code that the model keeps:
- `createBoxOfParallelLines` includes the four corner lines of its grid.
- The hyperboloid loop runs `i < lineCount` (src/elemental-shapes.js:152).
- The shapes module exports ten generators, and they build plain line
  segments only.
- `processOptions` checks only the type of element 0 of a 3-array, and it
  converts top-level values only, though its doc comment
  (src/data-helpers.js:5) calls it recursive.

## Model

| member | source | states |
|---|---|---|
| ChartTemplate.GenerateChartTemplate | src/chart-template.js:10-40 | The nested loops produce exactly `Template()`: columns 0..6 in order, rows 1..COLUMN_COUNTS[dof] in each, each entry with its id, flag and ear region as generated |
| ChartTemplate.TemplateSize | src/chart-template.js:3-18 | The template has exactly 50 slots, the sum of the column counts |
| ChartTemplate.TemplateAt | src/chart-template.js:14-36 | Every slot has a valid address (dof < 7, 1 <= row <= COLUMN_COUNTS[dof]), carries exactly the generated fields, and sits at the index its address gives |
| ChartTemplate.TemplateHas | src/chart-template.js:14-18 | Every valid (dof, row) address has its slot in the template at that index |
| ChartTemplate.TemplateColumnOnly | src/chart-template.js:14-18 | The slots of one DOF occupy only that DOF's stretch of COLUMN_COUNTS[dof] indices; with TemplateHas they are exactly rows 1..COLUMN_COUNTS[dof] |
| ChartTemplate.IndexOrder | src/chart-template.js:14-18 | Index order agrees with the lexicographic order of addresses |
| ChartTemplate.TemplateOrdered | src/chart-template.js:14-36 | Any earlier slot has a strictly smaller (dof, row) than any later one |
| ChartTemplate.TemplateIdsDistinct | src/chart-template.js:19-21 | Distinct positions have distinct ids and distinct (dof, row) pairs |
| ChartTemplate.NatToStringInjective | src/chart-template.js:20 | Distinct numbers print as distinct decimal strings |
| ChartTemplate.SlotIdInjective | src/chart-template.js:20 | A `"<dof>-DOF-<row>"` id determines both numbers |
| ChartTemplate.TemplateFields | src/chart-template.js:19-23 | Each id is `dof + "-DOF-" + row`; the parallel flag holds iff row <= PARALLEL_PYRAMID_LIMITS[dof], so DOF 6 is never parallel |
| ChartTemplate.TemplateRegions | src/chart-template.js:24-34 | A slot is in the left ear iff dof = 3 and 11 <= row <= 16, in the right ear iff dof = 3 and 17 <= row <= 22, and default otherwise |
| ChartLayout.BuildCell | src/main.js:19-55 | The cell keeps the slot id. It is a chart cell iff the id has data and an empty cell iff not. It is parallel iff the slot is. It has text iff empty, and its grid cell follows the placement rule |
| ChartLayout.GridPlacement | src/main.js:27-37 | All left-ear slots share column 2, row 0. A right-ear slot is in column 8 and its row is the grid row plus 16. A default slot's DOF and row can be read back from its cell: dof = column - 2 and row = 11 - grid row |
| ChartLayout.DefaultPlacement | src/main.js:34-36 | A well-formed default slot (every template slot is well formed, by TemplateAt) goes to column dof+2 and row 11-row, which lie in 2..8 and 1..10 |
| ChartLayout.LeftEarPlacement | src/main.js:28-30 | Every well-formed left-ear slot is at DOF 3, rows 11..16, and goes to column 2, row 0 |
| ChartLayout.RightEarPlacement | src/main.js:31-33 | A well-formed right-ear slot goes to column 8, row row-16, which lies in 1..6 |
| ChartLayout.PlacementCollisions | src/main.js:27-37 | Two distinct well-formed slots share a grid cell iff both are left-ear slots. So default placement is injective and no ear cell meets a default cell |
| ChartLayout.EmptyCellText | src/main.js:53-55 | The text of a well-formed slot's empty cell is exactly the slot's id |
| DataHelpers.ProcessOptions | src/data-helpers.js:10-23 | The key loop yields `ProcessedOptions(options)`: null/undefined gives an empty dictionary, otherwise the same keys with every value converted |
| DataHelpers.ConvertCases | src/data-helpers.js:14-19 | A value becomes a vector exactly when it is a 3-array starting with a number, with its three elements in order; every other value is copied unchanged |
| DataHelpers.ConvertIdempotent | src/data-helpers.js:14 | Converting a converted value changes nothing |
| DataHelpers.ConvertRoundTrip | src/data-helpers.js:14-16 | On raw JSON (no vector objects), turning vectors back into 3-arrays undoes the conversion |
| DataHelpers.ProcessIdempotent | src/data-helpers.js:12-21 | Processing processed options gives the same options |
| DataHelpers.ProcessTopLevelOnly | src/data-helpers.js:12-21 | A value that is not vector-like, such as a nested object or another array, is passed through as it is |
| DataHelpers.ProcessRoundTrip | src/data-helpers.js:12-21 | On raw JSON options, processing can be undone key by key |
| ElementalShapes.CreateLine | src/elemental-shapes.js:9-12 | One segment with exactly the given endpoints and colour |
| ElementalShapes.CreateDisk | src/elemental-shapes.js:15-26 | max(lineCount, 0) spokes. Spoke i runs from the origin to the rim point at angle 2πi/lineCount, in z = 0 |
| ElementalShapes.CreatePlane | src/elemental-shapes.js:29-40 | 2·(divisions+1) lines, alternating vertical then horizontal at grid offset k/2, all in z = 0 |
| ElementalShapes.PlaneLineDirections | src/elemental-shapes.js:32-38 | Line 2i of the plane is vertical at x = offset i, starting at y = -size/2. Line 2i+1 is horizontal at y = offset i, starting at x = -size/2 |
| ElementalShapes.CreatePlaneOfParallelLines | src/elemental-shapes.js:43-51 | divisions+1 lines. Line i is at x = offset i, running from y = -size/2 to size/2 |
| ElementalShapes.CreateBoxOfParallelLines | src/elemental-shapes.js:54-65 | (divisions+1)² lines in row-major order: line k is at grid point (k / (divisions+1), k % (divisions+1)) |
| ElementalShapes.BoxLineAtGridPoint | src/elemental-shapes.js:57-62 | Index i·(divisions+1)+j of the box is the line at grid point (x_i, z_j) |
| ElementalShapes.BoxLineVertical | src/elemental-shapes.js:61 | Every box line is parallel to the y axis and spans [-size/2, size/2] |
| ElementalShapes.BoxCorners | src/elemental-shapes.js:57-61 | The corner grid points are at (±size/2, ±size/2), so the corner lines are part of the box |
| ElementalShapes.CreateHoop | src/elemental-shapes.js:68-80 | max(lineCount, 0) vertical lines from y = -height/2 to height/2, on the circle at angle 2πi/lineCount |
| ElementalShapes.CreateSphere | src/elemental-shapes.js:83-98 | max(lineCount, 0) lines from the origin to the Fibonacci points, the end of line i at height radius·(1 - 2i/(lineCount-1)) |
| ElementalShapes.CreateCylindroid | src/elemental-shapes.js:101-113 | max(lineCount, 0) rulings. Each starts on the z axis and both ends share z = (height/2)·sin(2θ) |
| ElementalShapes.CreateHyperbolicParaboloid | src/elemental-shapes.js:116-144 | 2·(divisions+1) rulings of the two interleaved families. Orthogonal: all endpoints on z = x·y/2. Otherwise: the shear of the orthogonal rulings |
| ElementalShapes.RulingsOnSaddle | src/elemental-shapes.js:125-131 | Both rulings through one parameter have both endpoints on z = x·y/2 |
| ElementalShapes.SaddleLineOnSaddle | src/elemental-shapes.js:122-131 | Every orthogonal ruling has both endpoints on z = x·y/2 |
| ElementalShapes.SaddleFamiliesShareParameter | src/elemental-shapes.js:123-130 | At step i both families use the same grid offset |
| ElementalShapes.CreateHyperboloid | src/elemental-shapes.js:147-171 | max(lineCount, 0) rulings from the top ellipse at angle θ_i (y = height/2) to the bottom ellipse at θ_i + twistAngle (y = -height/2) |
| ElementalShapes.TurnAngleSpacing | src/elemental-shapes.js:19 | The angles start at 0, advance by 2π/n per step, and reach 2π after n steps |
| ElementalShapes.GridOffsetSpacing | src/elemental-shapes.js:33 | Grid offsets run from -size/2 to size/2 in steps of size/divisions |
| ElementalShapes.GridOffsetRange | src/elemental-shapes.js:33 | For 0 <= i <= divisions and size >= 0, every offset lies in [-size/2, size/2] |
| ElementalShapes.SphereYSpacing | src/elemental-shapes.js:89 | The heights go from 1 down to -1 in steps of 2/(n-1), and stay in [-1, 1] |
| ElementalShapes.RimPointOnCircle | src/elemental-shapes.js:19-22 | Under the trigonometric law, every disk spoke has length `radius` |
| ElementalShapes.EllipsePointOnEllipse | src/elemental-shapes.js:157-167 | Hyperboloid endpoints satisfy rz²x² + rx²z² = rx²rz², and hoop endpoints lie on the circle of radius r |
| ElementalShapes.CylindroidReach | src/elemental-shapes.js:109 | Every cylindroid ruling ends at distance `width` from the z axis |
| ElementalShapes.FibonacciPointOnUnitSphere | src/elemental-shapes.js:89-93 | For -1 <= y <= 1, the unscaled point (cos θ·sqrt(1-y²), y, sin θ·sqrt(1-y²)) has length 1 |
| ElementalShapes.SpherePointOnSphere | src/elemental-shapes.js:87-94 | Every sphere line ends at distance `radius` from the centre |
| ElementalShapes.CreateShape | src/scene-helpers.js:43 | Calling a generator with options succeeds iff the options decode and the coordinates are numbers. The segment count is the generator's, and segment k is `SegmentAt` k: the k-th line that generator's loop draws for the decoded arguments |
| ElementalShapes.SegmentColor | src/elemental-shapes.js:9-171 | Every segment a generator draws has the colour of the call |
| ElementalShapes.ExportNameInjective | src/scene-helpers.js:3 | Distinct generators have distinct export names |
| ElementalShapes.DecodeOptions | src/elemental-shapes.js:9-147 | Decoding options for a generator yields arguments for that generator, with the given colour or the default 0x000000 |
| ElementalShapes.CountOptionCases | src/elemental-shapes.js:15 | A count option is its default exactly when missing or undefined, and otherwise exactly the whole number given |
| ElementalShapes.DefaultSegmentCounts | src/elemental-shapes.js:15-147 | With no options, the defaults give 12, 22, 11, 121, 24, 100, 24, 22 and 24 segments |
| ElementalShapes.LineNeedsEndpoints | src/elemental-shapes.js:9-10 | A line has a call in the model iff both endpoints are vectors of numbers |
| ElementalShapes.ThrowingLineHasNoCall | src/elemental-shapes.js:9-10 | A line whose start or end is absent, undefined or null (where three.js throws reading `.x`) has no call |
| SceneHelpers.Scene.constructor | src/scene-helpers.js:12 | A new scene has no children and no background |
| SceneHelpers.Scene.Clear | src/scene-helpers.js:30 | Clearing removes every child and keeps the background |
| SceneHelpers.Scene.Add | src/scene-helpers.js:16 | Adding appends one child and keeps the background |
| SceneHelpers.CreateStandardScene | src/scene-helpers.js:11-21 | A fresh scene holds exactly the ambient light and the directional light at (2, 5, 5). The background is set iff the colour is truthy |
| SceneHelpers.LookupShape | src/scene-helpers.js:40-41 | A name resolves only to the generator exported under it; a name no generator has resolves to nothing |
| SceneHelpers.LookupExportName | src/scene-helpers.js:40-41 | Every generator is found under its export name |
| SceneHelpers.AddElement | src/scene-helpers.js:39-55 | One element's step throws iff its type is the line generator and an endpoint is unset, and then the scene is unchanged. Otherwise the element's node is appended iff its type resolves. It warns iff the type does not resolve |
| SceneHelpers.AddElements | src/scene-helpers.js:39-55 | The loop handles the elements before the first throwing one: their nodes are appended and their warnings returned in order. It reports the exception iff some element throws |
| SceneHelpers.FirstAbort | src/scene-helpers.js:39-55 | The index at which population stops: no earlier element throws, and the element there does (or it is the length) |
| SceneHelpers.FirstAbortAt | src/scene-helpers.js:39-55 | Any index with no throw before it and a throw at it (or equal to the length) is that stopping index, so the index is unique |
| SceneHelpers.PopulateSceneFromElements | src/scene-helpers.js:28-56 | The old children are gone and the background is kept. The scene is the two lights, then one node per known element before the first throwing element, in element order, with processed options and any position/rotation override. There is one warning per unknown element in that prefix. `aborted` holds iff some element throws |
| SceneHelpers.ShapesCount | src/scene-helpers.js:40-51 | For any export table, the number of shape nodes is the number of elements whose type resolves |
| SceneHelpers.WarningsCount | src/scene-helpers.js:52-54 | For any export table, the number of warnings is the number of elements whose type does not resolve |
| SceneHelpers.ShapesAndWarningsPartition | src/scene-helpers.js:39-55 | For any export table, the shape nodes and warnings together number the elements. With ShapesCount and WarningsCount, each element yields exactly one of the two |
| SceneHelpers.AllKnown | src/scene-helpers.js:39-51 | For any export table that resolves every type, node i is element i's shape and there are no warnings |
| SceneHelpers.NoneKnown | src/scene-helpers.js:52-54 | For any export table that resolves no type, no shape is added and warning i names element i's type |
| SceneHelpers.ShapesComeFromElements | src/scene-helpers.js:40-51 | Every shape node is the shape of some element whose type the export table resolves to its generator |
| SceneHelpers.AssembledConcat | src/scene-helpers.js:39 | The shapes and warnings of a concatenated element list are those of its parts, in order |
| SceneHelpers.PopulationByName | src/scene-helpers.js:39-54 | With the module's exports: if every type is some generator's export name there are no warnings; if none is, there are no shapes; either way shapes plus warnings number the elements |

## Left out

- The modal viewer and the thumbnail renderer: WebGL rendering, orbit controls, the animation loop, viewport switching and canvas export. These are not part of this model.
- The rest of `buildChart`: clearing the container, styles, thumbnail background images, click handlers, appending to the DOM, and async loading. Only the placement and the chart-cell/empty-cell decision are modelled.
- Floating point: coordinates are reals. `Math.PI` is the decimal 3.141592653589793. `Math.cos`, `Math.sin` and `Math.sqrt` are uninterpreted parameters, and IEEE rounding is not modelled.
- ElementalShapes.CreatePlane: requires divisions != 0. With 0 the source computes 0/0 and produces NaN coordinates; `CreateShape` returns `None` for such a call.
- ElementalShapes.CreatePlaneOfParallelLines: requires divisions != 0, for the same 0/0 reason.
- ElementalShapes.CreateBoxOfParallelLines: requires divisions != 0, for the same 0/0 reason.
- ElementalShapes.CreateHyperbolicParaboloid: requires divisions != 0, for the same 0/0 reason.
- ElementalShapes.CreateSphere: requires lineCount != 1, for the same 0/0 reason.
- ElementalShapes.CreateShape: non-integer counts, and numeric options holding non-numbers, are outside the model (`None`). The source coerces or produces NaN there.
- `createLine` whose endpoint is set but is not a vector of three numbers (a plain object, a number, a string) does not throw: the source reads the endpoint's `x`, `y` and `z` properties, with NaN where `x` or `y` is missing or not a number and 0 for a missing `z`. The model has no call for it (`None`). An absent, undefined or null endpoint throws; both the throw and the end of population are modelled (`aborted`). What a caller does with the exception is not part of this model.
- ElementalShapes.CreateHyperbolicParaboloid: the non-orthogonal shear (`makeShear(0.5, 0, 0, 0, 0, 0)` applied to the four endpoints) is an abstract map passed by the caller. Only its application to every endpoint is stated, not which map it is.
- three.js objects: materials are reduced to their colour value, a group to its sequence of segments, a scene to its children and background, and lights to constant records. A shape node records its generator and options, not its geometry; its geometry is what `CreateShape` computes for them.
- Element positions and rotations are modelled as present 3-vectors or absent. Values that are truthy but not three numbers are not modelled.
- `processOptions` over an array or string (where `for…in` visits indices) is not modelled; options are an object or null/undefined.
- `console.warn` is modelled as the returned sequence of warning messages.
