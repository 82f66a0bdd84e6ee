/**
 * The shape generators: each one turns its numeric options into a group of
 * line segments, built in counted loops. Coordinates are reals. The host's
 * cosine, sine and square root are not interpreted: they are fields of a
 * `MathLib` value the caller supplies, and the few laws some lemmas need are
 * stated by `Lawful`.
 */
module ElementalShapes {
  import opened Wrappers
  import opened JsValues

  datatype Vec3 = Vec3(x: real, y: real, z: real)

  const Origin: Vec3 := Vec3(0.0, 0.0, 0.0)

  /** `Vector3.multiplyScalar`. */
  function Scale(p: Vec3, s: real): Vec3 {
    Vec3(p.x * s, p.y * s, p.z * s)
  }

  function NormSquared(p: Vec3): real {
    p.x * p.x + p.y * p.y + p.z * p.z
  }

  /** A line object: one segment from `start` to `end`, drawn in `color` (whatever value the options held). */
  datatype Line = Line(start: Vec3, end: Vec3, color: Value)

  /** The host's `Math.cos`, `Math.sin` and `Math.sqrt`. */
  datatype MathLib = MathLib(cos: real -> real, sin: real -> real, sqrt: real -> real)

  /** The laws of cosine, sine and square root that the norm lemmas rely on. */
  ghost predicate Lawful(m: MathLib) {
    && (forall a :: m.cos(a) * m.cos(a) + m.sin(a) * m.sin(a) == 1.0)
    && (forall a :: a >= 0.0 ==> m.sqrt(a) >= 0.0 && m.sqrt(a) * m.sqrt(a) == a)
  }

  /** `Math.PI`, as the shortest decimal that denotes the same double. */
  const PI: real := 3.141592653589793

  /** The default colour of every generator, 0x000000. */
  const DefaultColor: Value := Num(0.0)

  /** How many times `for (let i = 0; i < n; i++)` runs. */
  function Steps(n: int): nat {
    if n > 0 then n else 0
  }

  /** The angle of step `i` of `n` around a full turn: `(i / n) * PI * 2`. */
  function TurnAngle(i: int, n: int): real
    requires n != 0
  {
    (i as real / n as real) * PI * 2.0
  }

  /** The offset of grid line `i` of `divisions` across a square of side `size`: `-size/2 + (i / divisions) * size`. */
  function GridOffset(size: real, divisions: int, i: int): real
    requires divisions != 0
  {
    -(size / 2.0) + (i as real / divisions as real) * size
  }

  // ---------------------------------------------------------------------------
  // 1: line
  // ---------------------------------------------------------------------------

  /** A single segment with exactly the given endpoints and colour. */
  function CreateLine(start: Vec3, end: Vec3, color: Value): (line: Line)
    ensures line.start == start && line.end == end && line.color == color
  {
    Line(start, end, color)
  }

  // ---------------------------------------------------------------------------
  // 2: disk
  // ---------------------------------------------------------------------------

  /** The rim point of a disk of radius `radius` at `angle`, in the plane z = 0. */
  function RimPoint(m: MathLib, radius: real, angle: real): Vec3 {
    Vec3(radius * m.cos(angle), radius * m.sin(angle), 0.0)
  }

  /** `lineCount` spokes from the centre to the rim at evenly spaced angles; none when lineCount <= 0. */
  method CreateDisk(m: MathLib, radius: real, lineCount: int, color: Value) returns (group: seq<Line>)
    ensures |group| == Steps(lineCount)
    ensures forall i :: 0 <= i < |group| ==>
      group[i] == CreateLine(Origin, RimPoint(m, radius, TurnAngle(i, lineCount)), color)
    ensures forall i :: 0 <= i < |group| ==> group[i].start == Origin && group[i].end.z == 0.0
  {
    group := [];
    var center := Origin;
    var i := 0;
    while i < lineCount
      invariant 0 <= i <= Steps(lineCount)
      invariant |group| == i
      invariant forall k :: 0 <= k < i ==>
        group[k] == CreateLine(center, RimPoint(m, radius, TurnAngle(k, lineCount)), color)
    {
      var angle := (i as real / lineCount as real) * PI * 2.0;
      var x := radius * m.cos(angle);
      var y := radius * m.sin(angle);
      var edge := Vec3(x, y, 0.0);
      group := group + [CreateLine(center, edge, color)];
      i := i + 1;
    }
  }

  // ---------------------------------------------------------------------------
  // 3: plane
  // ---------------------------------------------------------------------------

  /** Line `k` of a plane grid: even `k` is the vertical line of pair k/2, odd `k` the horizontal one. */
  function PlaneLine(size: real, divisions: int, k: nat, color: Value): Line
    requires divisions != 0
  {
    var pos := GridOffset(size, divisions, k / 2);
    var half := size / 2.0;
    if k % 2 == 0 then CreateLine(Vec3(pos, -half, 0.0), Vec3(pos, half, 0.0), color)
    else CreateLine(Vec3(-half, pos, 0.0), Vec3(half, pos, 0.0), color)
  }

  /** Pair `i` of a plane grid is a vertical line at x = offset i, then a horizontal line at y = offset i. */
  lemma PlaneLineDirections(size: real, divisions: int, i: nat, color: Value)
    requires divisions != 0
    ensures PlaneLine(size, divisions, 2 * i, color).start.x == PlaneLine(size, divisions, 2 * i, color).end.x
              == GridOffset(size, divisions, i)
    ensures PlaneLine(size, divisions, 2 * i + 1, color).start.y == PlaneLine(size, divisions, 2 * i + 1, color).end.y
              == GridOffset(size, divisions, i)
    ensures PlaneLine(size, divisions, 2 * i, color).start.y == -(size / 2.0)
    ensures PlaneLine(size, divisions, 2 * i + 1, color).start.x == -(size / 2.0)
  {
    assert (2 * i) / 2 == i && (2 * i) % 2 == 0;
    assert (2 * i + 1) / 2 == i && (2 * i + 1) % 2 == 1;
  }

  /**
   * A square grid in z = 0: for each of the divisions+1 offsets, a vertical
   * and then a horizontal line. `divisions` = 0 would divide 0 by 0.
   */
  method CreatePlane(size: real, divisions: int, color: Value) returns (group: seq<Line>)
    requires divisions != 0
    ensures |group| == 2 * Steps(divisions + 1)
    ensures forall k :: 0 <= k < |group| ==> group[k] == PlaneLine(size, divisions, k, color)
    ensures forall k :: 0 <= k < |group| ==> group[k].start.z == 0.0 && group[k].end.z == 0.0
  {
    group := [];
    var halfSize := size / 2.0;
    var i := 0;
    while i <= divisions
      invariant 0 <= i <= Steps(divisions + 1)
      invariant |group| == 2 * i
      invariant forall k :: 0 <= k < |group| ==> group[k] == PlaneLine(size, divisions, k, color)
    {
      var pos := -halfSize + (i as real / divisions as real) * size;
      group := group + [CreateLine(Vec3(pos, -halfSize, 0.0), Vec3(pos, halfSize, 0.0), color)];
      group := group + [CreateLine(Vec3(-halfSize, pos, 0.0), Vec3(halfSize, pos, 0.0), color)];
      i := i + 1;
    }
  }

  // ---------------------------------------------------------------------------
  // 4: plane of parallel lines
  // ---------------------------------------------------------------------------

  /** Line `i` of a plane of parallel lines: x = offset i, from y = -size/2 to y = size/2, in z = 0. */
  function ParallelLine(size: real, divisions: int, i: int, color: Value): Line
    requires divisions != 0
  {
    var pos := GridOffset(size, divisions, i);
    CreateLine(Vec3(pos, -(size / 2.0), 0.0), Vec3(pos, size / 2.0, 0.0), color)
  }

  /** divisions+1 parallel lines across the square. */
  method CreatePlaneOfParallelLines(size: real, divisions: int, color: Value) returns (group: seq<Line>)
    requires divisions != 0
    ensures |group| == Steps(divisions + 1)
    ensures forall i :: 0 <= i < |group| ==> group[i] == ParallelLine(size, divisions, i, color)
  {
    group := [];
    var halfSize := size / 2.0;
    var i := 0;
    while i <= divisions
      invariant 0 <= i <= Steps(divisions + 1)
      invariant |group| == i
      invariant forall k :: 0 <= k < i ==> group[k] == ParallelLine(size, divisions, k, color)
    {
      var pos := -halfSize + (i as real / divisions as real) * size;
      group := group + [CreateLine(Vec3(pos, -halfSize, 0.0), Vec3(pos, halfSize, 0.0), color)];
      i := i + 1;
    }
  }

  // ---------------------------------------------------------------------------
  // 5: box of parallel lines
  // ---------------------------------------------------------------------------

  /** The line at grid point (x_i, z_j) of a box: parallel to the y axis, spanning [-size/2, size/2]. */
  function BoxLine(size: real, divisions: int, i: int, j: int, color: Value): Line
    requires divisions != 0
  {
    var x := GridOffset(size, divisions, i);
    var z := GridOffset(size, divisions, j);
    CreateLine(Vec3(x, -(size / 2.0), z), Vec3(x, size / 2.0, z), color)
  }

  /** A product with a factor of at least 1 is at least the other factor. */
  lemma {:induction false} MulAtLeast(a: int, b: int)
    requires a >= 1 && b >= 0
    ensures a * b >= b
    decreases a
  {
    if a > 1 {
      MulAtLeast(a - 1, b);
      assert a * b == (a - 1) * b + b;
    }
  }

  /** Row-major decomposition of a grid index. */
  lemma GridIndex(i: int, j: int, n: int)
    requires 0 <= i && 0 <= j < n
    ensures (i * n + j) / n == i && (i * n + j) % n == j
  {
    var x := i * n + j;
    var q, r := x / n, x % n;
    assert x == q * n + r;
    assert 0 <= r < n;
    assert (q - i) * n == j - r;
    if q > i {
      MulAtLeast(q - i, n);
    } else if q < i {
      MulAtLeast(i - q, n);
    }
  }

  /** Line `k` of the box in row-major order: grid point (k / (divisions+1), k % (divisions+1)). */
  function BoxLineAt(size: real, divisions: int, k: nat, color: Value): Line
    requires divisions != 0
  {
    var n := Steps(divisions + 1);
    if n == 0 then BoxLine(size, divisions, 0, 0, color)
    else BoxLine(size, divisions, k / n, k % n, color)
  }

  /** Index i * n + j of the box is grid point (i, j). */
  lemma BoxLineAtGridPoint(size: real, divisions: int, i: nat, j: nat, color: Value)
    requires divisions != 0 && j < Steps(divisions + 1)
    ensures BoxLineAt(size, divisions, i * Steps(divisions + 1) + j, color) == BoxLine(size, divisions, i, j, color)
  {
    GridIndex(i, j, Steps(divisions + 1));
  }

  /**
   * A (divisions+1) x (divisions+1) grid of lines parallel to the y axis,
   * row-major by the x index, corner positions included.
   */
  method CreateBoxOfParallelLines(size: real, divisions: int, color: Value) returns (group: seq<Line>)
    requires divisions != 0
    ensures |group| == Steps(divisions + 1) * Steps(divisions + 1)
    ensures forall k :: 0 <= k < |group| ==> group[k] == BoxLineAt(size, divisions, k, color)
  {
    group := [];
    ghost var n := Steps(divisions + 1);
    var halfSize := size / 2.0;
    var i := 0;
    while i <= divisions
      invariant 0 <= i <= n
      invariant |group| == i * n
      invariant forall k :: 0 <= k < |group| ==> group[k] == BoxLineAt(size, divisions, k, color)
    {
      var j := 0;
      while j <= divisions
        invariant 0 <= j <= n
        invariant |group| == i * n + j
        invariant forall k :: 0 <= k < |group| ==> group[k] == BoxLineAt(size, divisions, k, color)
      {
        var x := GridOffset(size, divisions, i);
        var z := GridOffset(size, divisions, j);
        BoxLineAtGridPoint(size, divisions, i, j, color);
        group := group + [CreateLine(Vec3(x, -halfSize, z), Vec3(x, halfSize, z), color)];
        j := j + 1;
      }
      assert i * n + n == (i + 1) * n;
      i := i + 1;
    }
  }

  /** Every box line is parallel to the y axis and spans [-size/2, size/2]. */
  lemma BoxLineVertical(size: real, divisions: int, k: nat, color: Value)
    requires divisions != 0
    ensures var l := BoxLineAt(size, divisions, k, color);
      l.start.x == l.end.x && l.start.z == l.end.z && l.start.y == -(size / 2.0) && l.end.y == size / 2.0
  {
  }

  /** The four corner lines of the box are present: grid points (0, 0), (0, d), (d, 0), (d, d) sit at (±size/2, ±size/2). */
  lemma BoxCorners(size: real, divisions: int, color: Value)
    requires divisions > 0
    ensures BoxLine(size, divisions, 0, 0, color).start == Vec3(-(size / 2.0), -(size / 2.0), -(size / 2.0))
    ensures BoxLine(size, divisions, divisions, divisions, color).end == Vec3(size / 2.0, size / 2.0, size / 2.0)
    ensures BoxLine(size, divisions, 0, divisions, color).start == Vec3(-(size / 2.0), -(size / 2.0), size / 2.0)
    ensures BoxLine(size, divisions, divisions, 0, color).start == Vec3(size / 2.0, -(size / 2.0), -(size / 2.0))
  {
    GridOffsetSpacing(size, divisions, 0);
  }

  // ---------------------------------------------------------------------------
  // 6: hoop
  // ---------------------------------------------------------------------------

  /** The point at `angle` on the circle of radius `radius` around the y axis, at height `y`. */
  function CirclePoint(m: MathLib, radius: real, y: real, angle: real): Vec3 {
    Vec3(radius * m.cos(angle), y, radius * m.sin(angle))
  }

  /** `lineCount` vertical lines from y = -height/2 to y = height/2, evenly spaced around the circle. */
  method CreateHoop(m: MathLib, radius: real, height: real, lineCount: int, color: Value) returns (group: seq<Line>)
    ensures |group| == Steps(lineCount)
    ensures forall i :: 0 <= i < |group| ==>
      group[i] == CreateLine(CirclePoint(m, radius, -(height / 2.0), TurnAngle(i, lineCount)),
                             CirclePoint(m, radius, height / 2.0, TurnAngle(i, lineCount)), color)
    ensures forall i :: 0 <= i < |group| ==>
      group[i].start.x == group[i].end.x && group[i].start.z == group[i].end.z &&
      group[i].start.y == -(height / 2.0) && group[i].end.y == height / 2.0
  {
    group := [];
    var halfHeight := height / 2.0;
    var i := 0;
    while i < lineCount
      invariant 0 <= i <= Steps(lineCount)
      invariant |group| == i
      invariant forall k :: 0 <= k < i ==>
        group[k] == CreateLine(CirclePoint(m, radius, -halfHeight, TurnAngle(k, lineCount)),
                               CirclePoint(m, radius, halfHeight, TurnAngle(k, lineCount)), color)
    {
      var angle := (i as real / lineCount as real) * PI * 2.0;
      var x := radius * m.cos(angle);
      var z := radius * m.sin(angle);
      var start := Vec3(x, -halfHeight, z);
      var end := Vec3(x, halfHeight, z);
      group := group + [CreateLine(start, end, color)];
      i := i + 1;
    }
  }

  // ---------------------------------------------------------------------------
  // 7: sphere
  // ---------------------------------------------------------------------------

  /** The golden angle `PI * (3 - sqrt 5)`. */
  function GoldenAngle(m: MathLib): real {
    PI * (3.0 - m.sqrt(5.0))
  }

  /** The unscaled height of Fibonacci point `i` of `n`: `1 - (i / (n - 1)) * 2`. */
  function SphereY(i: int, n: int): real
    requires n != 1
  {
    1.0 - (i as real / (n - 1) as real) * 2.0
  }

  /** The unit-sphere point at height `y` and azimuth `theta`; the circle of latitude at `y` has radius sqrt(1 - y²). */
  function FibonacciPoint(m: MathLib, y: real, theta: real): Vec3 {
    var radiusAtY := m.sqrt(1.0 - y * y);
    Vec3(m.cos(theta) * radiusAtY, y, m.sin(theta) * radiusAtY)
  }

  /** The azimuth of Fibonacci point `i`: `i` golden angles. */
  function Azimuth(m: MathLib, i: int): real {
    GoldenAngle(m) * i as real
  }

  /** Fibonacci point `i` of `n`, scaled to the sphere of radius `radius`. */
  function SpherePoint(m: MathLib, radius: real, i: int, n: int): Vec3
    requires n != 1
  {
    Scale(FibonacciPoint(m, SphereY(i, n), Azimuth(m, i)), radius)
  }

  /** `lineCount` lines from the centre to Fibonacci points of the sphere. `lineCount` = 1 would divide 0 by 0. */
  method CreateSphere(m: MathLib, radius: real, lineCount: int, color: Value) returns (group: seq<Line>)
    requires lineCount != 1
    ensures |group| == Steps(lineCount)
    ensures forall i :: 0 <= i < |group| ==> group[i] == CreateLine(Origin, SpherePoint(m, radius, i, lineCount), color)
    ensures forall i :: 0 <= i < |group| ==> group[i].end.y == SphereY(i, lineCount) * radius
  {
    group := [];
    var center := Origin;
    var i := 0;
    while i < lineCount
      invariant 0 <= i <= Steps(lineCount)
      invariant |group| == i
      invariant forall k :: 0 <= k < i ==> group[k] == CreateLine(center, SpherePoint(m, radius, k, lineCount), color)
    {
      var y := SphereY(i, lineCount);
      var theta := Azimuth(m, i);
      var point := Scale(FibonacciPoint(m, y, theta), radius);
      group := group + [CreateLine(center, point, color)];
      i := i + 1;
    }
  }

  // ---------------------------------------------------------------------------
  // 8: cylindroid
  // ---------------------------------------------------------------------------

  /** The height of the cylindroid's ruling at `angle`: `(height / 2) * sin(2 * angle)`. */
  function CylindroidZ(m: MathLib, height: real, angle: real): real {
    (height / 2.0) * m.sin(2.0 * angle)
  }

  /** Ruling `i` of `n`: from the z axis out to distance `width`, at constant height. */
  function CylindroidLine(m: MathLib, width: real, height: real, i: int, n: int, color: Value): Line
    requires n != 0
  {
    var angle := TurnAngle(i, n);
    var z := CylindroidZ(m, height, angle);
    CreateLine(Vec3(0.0, 0.0, z), Vec3(width * m.cos(angle), width * m.sin(angle), z), color)
  }

  /** `lineCount` rulings, each starting on the z axis with both endpoints at the same height. */
  method CreateCylindroid(m: MathLib, width: real, height: real, lineCount: int, color: Value)
    returns (group: seq<Line>)
    ensures |group| == Steps(lineCount)
    ensures forall i :: 0 <= i < |group| ==> group[i] == CylindroidLine(m, width, height, i, lineCount, color)
    ensures forall i :: 0 <= i < |group| ==>
      group[i].start.x == 0.0 && group[i].start.y == 0.0 && group[i].start.z == group[i].end.z
  {
    group := [];
    var i := 0;
    while i < lineCount
      invariant 0 <= i <= Steps(lineCount)
      invariant |group| == i
      invariant forall k :: 0 <= k < i ==> group[k] == CylindroidLine(m, width, height, k, lineCount, color)
    {
      var angle := (i as real / lineCount as real) * PI * 2.0;
      var z := (height / 2.0) * m.sin(2.0 * angle);
      var start := Vec3(0.0, 0.0, z);
      var end := Vec3(width * m.cos(angle), width * m.sin(angle), z);
      group := group + [CreateLine(start, end, color)];
      i := i + 1;
    }
  }

  // ---------------------------------------------------------------------------
  // 9 and 10: hyperbolic paraboloid
  // ---------------------------------------------------------------------------

  /** The saddle z = x * y / 2. */
  predicate OnSaddle(p: Vec3) {
    p.z == p.x * p.y / 2.0
  }

  /** The first-family ruling at x = u: across y from -size/2 to size/2, with z = u * y * 0.5. */
  function FirstRuling(size: real, u: real, color: Value): Line {
    var half := size / 2.0;
    CreateLine(Vec3(u, -half, u * -half * 0.5), Vec3(u, half, u * half * 0.5), color)
  }

  /** The second-family ruling at y = v: across x from -size/2 to size/2, with z = x * v * 0.5. */
  function SecondRuling(size: real, v: real, color: Value): Line {
    var half := size / 2.0;
    CreateLine(Vec3(-half, v, -half * v * 0.5), Vec3(half, v, half * v * 0.5), color)
  }

  /** Ruling `k` of the orthogonal saddle: even `k` is the first family, odd `k` the second, both at parameter k/2. */
  function SaddleLine(size: real, divisions: int, k: nat, color: Value): Line
    requires divisions != 0
  {
    var p := GridOffset(size, divisions, k / 2);
    if k % 2 == 0 then FirstRuling(size, p, color) else SecondRuling(size, p, color)
  }

  /** A line with the shear applied to both endpoints. */
  function ShearLine(shear: Vec3 -> Vec3, line: Line): Line {
    Line(shear(line.start), shear(line.end), line.color)
  }

  /**
   * Two families of divisions+1 rulings, interleaved. The orthogonal surface
   * lies on z = x * y / 2; the other one applies the shear to every endpoint.
   */
  method CreateHyperbolicParaboloid(size: real, divisions: int, isOrthogonal: bool, shear: Vec3 -> Vec3, color: Value)
    returns (group: seq<Line>)
    requires divisions != 0
    ensures |group| == 2 * Steps(divisions + 1)
    ensures forall k :: 0 <= k < |group| ==>
      group[k] == if isOrthogonal then SaddleLine(size, divisions, k, color)
                  else ShearLine(shear, SaddleLine(size, divisions, k, color))
    ensures isOrthogonal ==> forall k :: 0 <= k < |group| ==> OnSaddle(group[k].start) && OnSaddle(group[k].end)
  {
    group := [];
    var i := 0;
    while i <= divisions
      invariant 0 <= i <= Steps(divisions + 1)
      invariant |group| == 2 * i
      invariant forall k :: 0 <= k < |group| ==>
        group[k] == if isOrthogonal then SaddleLine(size, divisions, k, color)
                    else ShearLine(shear, SaddleLine(size, divisions, k, color))
    {
      var u := GridOffset(size, divisions, i);
      var line1 := FirstRuling(size, u, color);
      var v := GridOffset(size, divisions, i);
      var line2 := SecondRuling(size, v, color);
      if !isOrthogonal {
        line1 := ShearLine(shear, line1);
        line2 := ShearLine(shear, line2);
      }
      group := group + [line1];
      group := group + [line2];
      i := i + 1;
    }
    if isOrthogonal {
      forall k | 0 <= k < |group|
        ensures OnSaddle(group[k].start) && OnSaddle(group[k].end)
      {
        SaddleLineOnSaddle(size, divisions, k, color);
      }
    }
  }

  /** Both rulings through parameter `p` lie on z = x * y / 2 at both ends. */
  lemma RulingsOnSaddle(size: real, p: real, color: Value)
    ensures OnSaddle(FirstRuling(size, p, color).start) && OnSaddle(FirstRuling(size, p, color).end)
    ensures OnSaddle(SecondRuling(size, p, color).start) && OnSaddle(SecondRuling(size, p, color).end)
  {
    var half := size / 2.0;
    assert p * -half * 0.5 == p * -half / 2.0;
    assert p * half * 0.5 == p * half / 2.0;
    assert -half * p * 0.5 == -half * p / 2.0;
    assert half * p * 0.5 == half * p / 2.0;
  }

  /** Both endpoints of every orthogonal ruling lie on z = x * y / 2. */
  lemma SaddleLineOnSaddle(size: real, divisions: int, k: nat, color: Value)
    requires divisions != 0
    ensures OnSaddle(SaddleLine(size, divisions, k, color).start)
    ensures OnSaddle(SaddleLine(size, divisions, k, color).end)
  {
    RulingsOnSaddle(size, GridOffset(size, divisions, k / 2), color);
  }

  // ---------------------------------------------------------------------------
  // 11 and 12: hyperboloid
  // ---------------------------------------------------------------------------

  /** The point at `angle` on the ellipse with semi-axes `radiusX`, `radiusZ` at height `y`. */
  function EllipsePoint(m: MathLib, radiusX: real, radiusZ: real, y: real, angle: real): Vec3 {
    Vec3(radiusX * m.cos(angle), y, radiusZ * m.sin(angle))
  }

  /** Ruling `i` of `n`: from the top ellipse at angle θ down to the bottom ellipse at θ + twist. */
  function HyperboloidLine(m: MathLib, radiusX: real, radiusZ: real, height: real, twistAngle: real,
                           i: int, n: int, color: Value): Line
    requires n != 0
  {
    var angle1 := TurnAngle(i, n);
    CreateLine(EllipsePoint(m, radiusX, radiusZ, height / 2.0, angle1),
               EllipsePoint(m, radiusX, radiusZ, -(height / 2.0), angle1 + twistAngle), color)
  }

  /** `lineCount` rulings from y = height/2 down to y = -height/2, each twisted by `twistAngle`. */
  method CreateHyperboloid(m: MathLib, radiusX: real, radiusZ: real, height: real, lineCount: int,
                           twistAngle: real, color: Value) returns (group: seq<Line>)
    ensures |group| == Steps(lineCount)
    ensures forall i :: 0 <= i < |group| ==>
      group[i] == HyperboloidLine(m, radiusX, radiusZ, height, twistAngle, i, lineCount, color)
    ensures forall i :: 0 <= i < |group| ==>
      group[i].start.y == height / 2.0 && group[i].end.y == -(height / 2.0)
  {
    group := [];
    var halfHeight := height / 2.0;
    var i := 0;
    while i < lineCount
      invariant 0 <= i <= Steps(lineCount)
      invariant |group| == i
      invariant forall k :: 0 <= k < i ==>
        group[k] == HyperboloidLine(m, radiusX, radiusZ, height, twistAngle, k, lineCount, color)
    {
      var angle1 := (i as real / lineCount as real) * PI * 2.0;
      var angle2 := angle1 + twistAngle;
      var start := Vec3(radiusX * m.cos(angle1), halfHeight, radiusZ * m.sin(angle1));
      var end := Vec3(radiusX * m.cos(angle2), -halfHeight, radiusZ * m.sin(angle2));
      group := group + [CreateLine(start, end, color)];
      i := i + 1;
    }
  }

  // ---------------------------------------------------------------------------
  // Spacing of the loop parameters
  // ---------------------------------------------------------------------------

  /** Angles start at 0, advance by 2π/n per step, and reach a full turn after n steps. */
  lemma TurnAngleSpacing(i: int, n: int)
    requires n > 0
    ensures TurnAngle(0, n) == 0.0
    ensures TurnAngle(i + 1, n) - TurnAngle(i, n) == 2.0 * PI / n as real
    ensures TurnAngle(n, n) == 2.0 * PI
  {
    var N := n as real;
    assert (i + 1) as real / N == i as real / N + 1.0 / N;
    assert ((i as real / N) + 1.0 / N) * PI * 2.0 == (i as real / N) * PI * 2.0 + (1.0 / N) * PI * 2.0;
    assert (1.0 / N) * PI * 2.0 == 2.0 * PI / N;
  }

  /** Grid offsets run from -size/2 to size/2 in steps of size/divisions. */
  lemma GridOffsetSpacing(size: real, divisions: int, i: int)
    requires divisions > 0
    ensures GridOffset(size, divisions, 0) == -(size / 2.0)
    ensures GridOffset(size, divisions, divisions) == size / 2.0
    ensures GridOffset(size, divisions, i + 1) - GridOffset(size, divisions, i) == size / divisions as real
  {
    var D := divisions as real;
    assert (i + 1) as real / D == i as real / D + 1.0 / D;
    assert (i as real / D + 1.0 / D) * size == (i as real / D) * size + (1.0 / D) * size;
    assert (1.0 / D) * size == size / D;
  }

  /** Every grid offset lies in [-size/2, size/2] when the size is not negative. */
  lemma GridOffsetRange(size: real, divisions: int, i: int)
    requires divisions > 0 && 0 <= i <= divisions && size >= 0.0
    ensures -(size / 2.0) <= GridOffset(size, divisions, i) <= size / 2.0
  {
    var t := i as real / divisions as real;
    UnitFraction(i, divisions);
    assert 0.0 <= t * size <= size by {
      assert t * size <= 1.0 * size;
    }
  }

  /** `i / n` lies in [0, 1] for 0 <= i <= n. */
  lemma UnitFraction(i: int, n: int)
    requires 0 < n && 0 <= i <= n
    ensures 0.0 <= i as real / n as real <= 1.0
  {
    var t := i as real / n as real;
    assert t * n as real == i as real;
  }

  /** The Fibonacci heights start at 1, end at -1, and fall by 2/(n-1) per step. */
  lemma SphereYSpacing(i: int, n: int)
    requires n >= 2
    ensures SphereY(0, n) == 1.0
    ensures SphereY(n - 1, n) == -1.0
    ensures SphereY(i, n) - SphereY(i + 1, n) == 2.0 / (n - 1) as real
    ensures 0 <= i <= n - 1 ==> -1.0 <= SphereY(i, n) <= 1.0
  {
    var D := (n - 1) as real;
    assert (i + 1) as real / D == i as real / D + 1.0 / D;
    assert (1.0 / D) * 2.0 == 2.0 / D;
    if 0 <= i <= n - 1 {
      UnitFraction(i, n - 1);
    }
  }

  // ---------------------------------------------------------------------------
  // Distances, under the laws of cos, sin and sqrt
  // ---------------------------------------------------------------------------

  /** Every disk spoke ends at distance `radius` from the centre. */
  lemma RimPointOnCircle(m: MathLib, radius: real, angle: real)
    requires Lawful(m)
    ensures NormSquared(RimPoint(m, radius, angle)) == radius * radius
  {
    var c, s := m.cos(angle), m.sin(angle);
    assert c * c + s * s == 1.0;
    assert (radius * c) * (radius * c) + (radius * s) * (radius * s) == radius * radius * (c * c + s * s);
  }

  /** Every ellipse point satisfies rz²·x² + rx²·z² = rx²·rz²; hoop points, with rx = rz = r, lie on the circle of radius r. */
  lemma EllipsePointOnEllipse(m: MathLib, radiusX: real, radiusZ: real, y: real, angle: real)
    requires Lawful(m)
    ensures var p := EllipsePoint(m, radiusX, radiusZ, y, angle);
      radiusZ * radiusZ * (p.x * p.x) + radiusX * radiusX * (p.z * p.z) == radiusX * radiusX * (radiusZ * radiusZ)
    ensures var q := CirclePoint(m, radiusX, y, angle); q.x * q.x + q.z * q.z == radiusX * radiusX
  {
    var c, s := m.cos(angle), m.sin(angle);
    assert c * c + s * s == 1.0;
    var a, b := radiusX * radiusX, radiusZ * radiusZ;
    assert (radiusX * c) * (radiusX * c) == a * (c * c);
    assert (radiusZ * s) * (radiusZ * s) == b * (s * s);
    assert b * (a * (c * c)) + a * (b * (s * s)) == a * b * (c * c + s * s);
    assert (radiusX * s) * (radiusX * s) == a * (s * s);
    assert a * (c * c) + a * (s * s) == a * (c * c + s * s);
  }

  /** Every cylindroid ruling ends at distance `width` from the z axis. */
  lemma CylindroidReach(m: MathLib, width: real, height: real, i: int, n: int, color: Value)
    requires Lawful(m) && n != 0
    ensures var e := CylindroidLine(m, width, height, i, n, color).end; e.x * e.x + e.y * e.y == width * width
  {
    var angle := TurnAngle(i, n);
    var c, s := m.cos(angle), m.sin(angle);
    assert c * c + s * s == 1.0;
    assert (width * c) * (width * c) + (width * s) * (width * s) == width * width * (c * c + s * s);
  }

  /** Scaling multiplies the squared length by the square of the factor. */
  lemma ScaleNormSquared(p: Vec3, factor: real)
    ensures NormSquared(Scale(p, factor)) == NormSquared(p) * (factor * factor)
  {
    assert (p.x * factor) * (p.x * factor) == (p.x * p.x) * (factor * factor);
    assert (p.y * factor) * (p.y * factor) == (p.y * p.y) * (factor * factor);
    assert (p.z * factor) * (p.z * factor) == (p.z * p.z) * (factor * factor);
  }

  /** Between the poles, a Fibonacci point lies on the unit sphere. */
  lemma FibonacciPointOnUnitSphere(m: MathLib, y: real, theta: real)
    requires Lawful(m) && -1.0 <= y <= 1.0
    ensures NormSquared(FibonacciPoint(m, y, theta)) == 1.0
  {
    assert y * y <= 1.0 by {
      if y >= 0.0 {
        assert y * y <= y * 1.0;
      } else {
        assert y * y <= (-y) * 1.0;
      }
    }
    var r := m.sqrt(1.0 - y * y);
    assert r * r == 1.0 - y * y;
    var c, s := m.cos(theta), m.sin(theta);
    assert c * c + s * s == 1.0;
    assert (c * r) * (c * r) + (s * r) * (s * r) == (c * c + s * s) * (r * r);
  }

  /** Every sphere line ends at distance `radius` from the centre. */
  lemma SpherePointOnSphere(m: MathLib, radius: real, i: int, n: int)
    requires Lawful(m) && n >= 2 && 0 <= i < n
    ensures NormSquared(SpherePoint(m, radius, i, n)) == radius * radius
  {
    SphereYSpacing(i, n);
    FibonacciPointOnUnitSphere(m, SphereY(i, n), Azimuth(m, i));
    ScaleNormSquared(FibonacciPoint(m, SphereY(i, n), Azimuth(m, i)), radius);
  }

  /** The two families of the orthogonal saddle use the same parameter at each step. */
  lemma SaddleFamiliesShareParameter(size: real, divisions: int, i: nat, color: Value)
    requires divisions != 0
    ensures SaddleLine(size, divisions, 2 * i, color).start.x == GridOffset(size, divisions, i)
    ensures SaddleLine(size, divisions, 2 * i + 1, color).start.y == GridOffset(size, divisions, i)
  {
  }

  // ---------------------------------------------------------------------------
  // The exported generators and the options they destructure
  // ---------------------------------------------------------------------------

  /** The ten exported generators. */
  datatype ShapeKind =
    | LineShape | DiskShape | PlaneShape | PlaneOfParallelLinesShape | BoxOfParallelLinesShape
    | HoopShape | SphereShape | CylindroidShape | HyperbolicParaboloidShape | HyperboloidShape

  /** The name each generator is exported under. */
  function ExportName(kind: ShapeKind): string {
    match kind
    case LineShape => "createLine"
    case DiskShape => "createDisk"
    case PlaneShape => "createPlane"
    case PlaneOfParallelLinesShape => "createPlaneOfParallelLines"
    case BoxOfParallelLinesShape => "createBoxOfParallelLines"
    case HoopShape => "createHoop"
    case SphereShape => "createSphere"
    case CylindroidShape => "createCylindroid"
    case HyperbolicParaboloidShape => "createHyperbolicParaboloid"
    case HyperboloidShape => "createHyperboloid"
  }

  /** The numeric arguments of one generator call, after defaults. */
  datatype Params =
    | LineParams(start: Vec3, end: Vec3, color: Value)
    | DiskParams(radius: real, lineCount: int, color: Value)
    | PlaneParams(size: real, divisions: int, color: Value)
    | PlaneOfParallelLinesParams(size: real, divisions: int, color: Value)
    | BoxOfParallelLinesParams(size: real, divisions: int, color: Value)
    | HoopParams(radius: real, height: real, lineCount: int, color: Value)
    | SphereParams(radius: real, lineCount: int, color: Value)
    | CylindroidParams(width: real, height: real, lineCount: int, color: Value)
    | HyperbolicParaboloidParams(size: real, divisions: int, isOrthogonal: bool, color: Value)
    | HyperboloidParams(radiusX: real, radiusZ: real, height: real, lineCount: int, twistAngle: real, color: Value)

  /** The generator a parameter record is for. */
  function KindOf(p: Params): ShapeKind {
    match p
    case LineParams(_, _, _) => LineShape
    case DiskParams(_, _, _) => DiskShape
    case PlaneParams(_, _, _) => PlaneShape
    case PlaneOfParallelLinesParams(_, _, _) => PlaneOfParallelLinesShape
    case BoxOfParallelLinesParams(_, _, _) => BoxOfParallelLinesShape
    case HoopParams(_, _, _, _) => HoopShape
    case SphereParams(_, _, _) => SphereShape
    case CylindroidParams(_, _, _, _) => CylindroidShape
    case HyperbolicParaboloidParams(_, _, _, _) => HyperbolicParaboloidShape
    case HyperboloidParams(_, _, _, _, _, _) => HyperboloidShape
  }

  /** Destructuring falls back to the default when the key is absent or holds `undefined`. */
  predicate Missing(opts: map<string, Value>, key: string) {
    key !in opts || opts[key].Undefined?
  }

  /** A real-valued option; a value that is not a number is outside the model. */
  function RealOption(opts: map<string, Value>, key: string, default: real): Option<real> {
    if Missing(opts, key) then Some(default)
    else if opts[key].Num? then Some(opts[key].n)
    else None
  }

  /** A loop-bound option; a value that is not a whole number is outside the model. */
  function CountOption(opts: map<string, Value>, key: string, default: int): Option<int> {
    if Missing(opts, key) then Some(default)
    else if opts[key].Num? && opts[key].n == opts[key].n.Floor as real then Some(opts[key].n.Floor)
    else None
  }

  /** A flag option, read by truthiness. */
  function FlagOption(opts: map<string, Value>, key: string, default: bool): bool {
    if Missing(opts, key) then default else Truthy(opts[key])
  }

  /** The colour option, handed to the material unchanged. */
  function ColorOption(opts: map<string, Value>): Value {
    if Missing(opts, "color") then DefaultColor else opts["color"]
  }

  /** An endpoint option: a vector object of three numbers. It has no default. */
  function PointOption(opts: map<string, Value>, key: string): Option<Vec3> {
    if key in opts && opts[key].Vector3? && opts[key].x.Num? && opts[key].y.Num? && opts[key].z.Num?
    then Some(Vec3(opts[key].x.n, opts[key].y.n, opts[key].z.n))
    else None
  }

  /** The arguments `kind` is called with on `opts`, with every default of its signature; `None` when an option is outside the model. */
  function DecodeOptions(kind: ShapeKind, opts: map<string, Value>): (r: Option<Params>)
    ensures r.Some? ==> KindOf(r.value) == kind
    ensures r.Some? ==> r.value.color == ColorOption(opts)
  {
    var color := ColorOption(opts);
    match kind
    case LineShape =>
      var start, end := PointOption(opts, "start"), PointOption(opts, "end");
      if start.Some? && end.Some? then Some(LineParams(start.value, end.value, color)) else None
    case DiskShape =>
      var radius, lineCount := RealOption(opts, "radius", 1.0), CountOption(opts, "lineCount", 12);
      if radius.Some? && lineCount.Some? then Some(DiskParams(radius.value, lineCount.value, color)) else None
    case PlaneShape =>
      var size, divisions := RealOption(opts, "size", 2.0), CountOption(opts, "divisions", 10);
      if size.Some? && divisions.Some? then Some(PlaneParams(size.value, divisions.value, color)) else None
    case PlaneOfParallelLinesShape =>
      var size, divisions := RealOption(opts, "size", 2.0), CountOption(opts, "divisions", 10);
      if size.Some? && divisions.Some? then Some(PlaneOfParallelLinesParams(size.value, divisions.value, color)) else None
    case BoxOfParallelLinesShape =>
      var size, divisions := RealOption(opts, "size", 2.0), CountOption(opts, "divisions", 10);
      if size.Some? && divisions.Some? then Some(BoxOfParallelLinesParams(size.value, divisions.value, color)) else None
    case HoopShape =>
      var radius, height := RealOption(opts, "radius", 1.0), RealOption(opts, "height", 2.0);
      var lineCount := CountOption(opts, "lineCount", 24);
      if radius.Some? && height.Some? && lineCount.Some?
      then Some(HoopParams(radius.value, height.value, lineCount.value, color)) else None
    case SphereShape =>
      var radius, lineCount := RealOption(opts, "radius", 1.0), CountOption(opts, "lineCount", 100);
      if radius.Some? && lineCount.Some? then Some(SphereParams(radius.value, lineCount.value, color)) else None
    case CylindroidShape =>
      var width, height := RealOption(opts, "width", 2.0), RealOption(opts, "height", 1.0);
      var lineCount := CountOption(opts, "lineCount", 24);
      if width.Some? && height.Some? && lineCount.Some?
      then Some(CylindroidParams(width.value, height.value, lineCount.value, color)) else None
    case HyperbolicParaboloidShape =>
      var size, divisions := RealOption(opts, "size", 2.0), CountOption(opts, "divisions", 10);
      var isOrthogonal := FlagOption(opts, "isOrthogonal", true);
      if size.Some? && divisions.Some?
      then Some(HyperbolicParaboloidParams(size.value, divisions.value, isOrthogonal, color)) else None
    case HyperboloidShape =>
      var radiusX, radiusZ := RealOption(opts, "radiusX", 1.0), RealOption(opts, "radiusZ", 1.0);
      var height, lineCount := RealOption(opts, "height", 2.0), CountOption(opts, "lineCount", 24);
      var twistAngle := RealOption(opts, "twistAngle", PI / 4.0);
      if radiusX.Some? && radiusZ.Some? && height.Some? && lineCount.Some? && twistAngle.Some?
      then Some(HyperboloidParams(radiusX.value, radiusZ.value, height.value, lineCount.value, twistAngle.value, color))
      else None
  }

  /** The calls whose coordinates are all numbers: no grid with 0 divisions (0/0) and no one-point sphere (0/0). */
  predicate Computable(p: Params) {
    match p
    case PlaneParams(_, divisions, _) => divisions != 0
    case PlaneOfParallelLinesParams(_, divisions, _) => divisions != 0
    case BoxOfParallelLinesParams(_, divisions, _) => divisions != 0
    case HyperbolicParaboloidParams(_, divisions, _, _) => divisions != 0
    case SphereParams(_, lineCount, _) => lineCount != 1
    case _ => true
  }

  /** How many segments a call produces. */
  function SegmentCount(p: Params): nat {
    match p
    case LineParams(_, _, _) => 1
    case DiskParams(_, lineCount, _) => Steps(lineCount)
    case PlaneParams(_, divisions, _) => 2 * Steps(divisions + 1)
    case PlaneOfParallelLinesParams(_, divisions, _) => Steps(divisions + 1)
    case BoxOfParallelLinesParams(_, divisions, _) => Steps(divisions + 1) * Steps(divisions + 1)
    case HoopParams(_, _, lineCount, _) => Steps(lineCount)
    case SphereParams(_, lineCount, _) => Steps(lineCount)
    case CylindroidParams(_, _, lineCount, _) => Steps(lineCount)
    case HyperbolicParaboloidParams(_, divisions, _, _) => 2 * Steps(divisions + 1)
    case HyperboloidParams(_, _, _, lineCount, _, _) => Steps(lineCount)
  }

  /** Segment `k` of a call: the line its generator draws at that step of its loop. */
  function SegmentAt(m: MathLib, shear: Vec3 -> Vec3, p: Params, k: nat): Line
    requires Computable(p) && k < SegmentCount(p)
  {
    match p
    case LineParams(start, end, color) => CreateLine(start, end, color)
    case DiskParams(radius, lineCount, color) =>
      CreateLine(Origin, RimPoint(m, radius, TurnAngle(k, lineCount)), color)
    case PlaneParams(size, divisions, color) => PlaneLine(size, divisions, k, color)
    case PlaneOfParallelLinesParams(size, divisions, color) => ParallelLine(size, divisions, k, color)
    case BoxOfParallelLinesParams(size, divisions, color) => BoxLineAt(size, divisions, k, color)
    case HoopParams(radius, height, lineCount, color) =>
      CreateLine(CirclePoint(m, radius, -(height / 2.0), TurnAngle(k, lineCount)),
                 CirclePoint(m, radius, height / 2.0, TurnAngle(k, lineCount)), color)
    case SphereParams(radius, lineCount, color) => CreateLine(Origin, SpherePoint(m, radius, k, lineCount), color)
    case CylindroidParams(width, height, lineCount, color) => CylindroidLine(m, width, height, k, lineCount, color)
    case HyperbolicParaboloidParams(size, divisions, isOrthogonal, color) =>
      if isOrthogonal then SaddleLine(size, divisions, k, color)
      else ShearLine(shear, SaddleLine(size, divisions, k, color))
    case HyperboloidParams(radiusX, radiusZ, height, lineCount, twistAngle, color) =>
      HyperboloidLine(m, radiusX, radiusZ, height, twistAngle, k, lineCount, color)
  }

  /** Every segment of a call is drawn in the call's colour. */
  lemma SegmentColor(m: MathLib, shear: Vec3 -> Vec3, p: Params, k: nat)
    requires Computable(p) && k < SegmentCount(p)
    ensures SegmentAt(m, shear, p, k).color == p.color
  {
  }

  /**
   * Calls the generator `kind` with `opts`, as the scene does with a looked-up
   * export. `None` stands for a call whose options are outside the model or
   * whose coordinates would not be numbers.
   */
  method CreateShape(m: MathLib, shear: Vec3 -> Vec3, kind: ShapeKind, opts: map<string, Value>)
    returns (shape: Option<seq<Line>>)
    ensures shape.Some? <==> DecodeOptions(kind, opts).Some? && Computable(DecodeOptions(kind, opts).value)
    ensures shape.Some? ==> |shape.value| == SegmentCount(DecodeOptions(kind, opts).value)
    ensures shape.Some? ==> forall k :: 0 <= k < |shape.value| ==>
      shape.value[k] == SegmentAt(m, shear, DecodeOptions(kind, opts).value, k)
    ensures shape.Some? ==> forall k :: 0 <= k < |shape.value| ==> shape.value[k].color == ColorOption(opts)
  {
    var params := DecodeOptions(kind, opts);
    if params.None? || !Computable(params.value) {
      return None;
    }
    var group: seq<Line>;
    match params.value {
      case LineParams(start, end, color) =>
        group := [CreateLine(start, end, color)];
      case DiskParams(radius, lineCount, color) =>
        group := CreateDisk(m, radius, lineCount, color);
      case PlaneParams(size, divisions, color) =>
        group := CreatePlane(size, divisions, color);
      case PlaneOfParallelLinesParams(size, divisions, color) =>
        group := CreatePlaneOfParallelLines(size, divisions, color);
      case BoxOfParallelLinesParams(size, divisions, color) =>
        group := CreateBoxOfParallelLines(size, divisions, color);
      case HoopParams(radius, height, lineCount, color) =>
        group := CreateHoop(m, radius, height, lineCount, color);
      case SphereParams(radius, lineCount, color) =>
        group := CreateSphere(m, radius, lineCount, color);
      case CylindroidParams(width, height, lineCount, color) =>
        group := CreateCylindroid(m, width, height, lineCount, color);
      case HyperbolicParaboloidParams(size, divisions, isOrthogonal, color) =>
        group := CreateHyperbolicParaboloid(size, divisions, isOrthogonal, shear, color);
      case HyperboloidParams(radiusX, radiusZ, height, lineCount, twistAngle, color) =>
        group := CreateHyperboloid(m, radiusX, radiusZ, height, lineCount, twistAngle, color);
    }
    shape := Some(group);
  }

  // ---------------------------------------------------------------------------
  // Properties of the option decoding
  // ---------------------------------------------------------------------------

  /** Distinct generators are exported under distinct names. */
  lemma ExportNameInjective(a: ShapeKind, b: ShapeKind)
    requires ExportName(a) == ExportName(b)
    ensures a == b
  {
  }

  /** A count option is the default exactly when missing, and otherwise exactly the whole number given. */
  lemma CountOptionCases(opts: map<string, Value>, key: string, default: int, k: int)
    ensures CountOption(opts, key, default) == Some(k) <==>
      (Missing(opts, key) && k == default) || (!Missing(opts, key) && opts[key] == Num(k as real))
  {
    if !Missing(opts, key) && opts[key].Num? && opts[key].n == opts[key].n.Floor as real {
      assert opts[key].n.Floor as real == opts[key].n;
    }
  }

  /**
   * With no options at all, every generator but the line has a call, and it
   * draws 12, 22, 11, 121, 24, 100, 24, 22 and 24 segments respectively.
   */
  lemma DefaultSegmentCounts(kind: ShapeKind)
    requires kind != LineShape
    ensures DecodeOptions(kind, map[]).Some? && Computable(DecodeOptions(kind, map[]).value)
    ensures SegmentCount(DecodeOptions(kind, map[]).value) ==
      match kind
      case DiskShape => 12
      case PlaneShape => 22
      case PlaneOfParallelLinesShape => 11
      case BoxOfParallelLinesShape => 121
      case SphereShape => 100
      case HyperbolicParaboloidShape => 22
      case _ => 24
  {
  }

  /** An endpoint that three.js cannot read `.x` from: absent, undefined or null. */
  predicate Unset(opts: map<string, Value>, key: string) {
    Missing(opts, key) || opts[key].Null?
  }

  /** Building a line's geometry reads both endpoints, so it throws when either is unset. */
  predicate LineThrows(opts: map<string, Value>) {
    Unset(opts, "start") || Unset(opts, "end")
  }

  /** A line call that throws has no geometry in the model. */
  lemma ThrowingLineHasNoCall(opts: map<string, Value>)
    requires LineThrows(opts)
    ensures DecodeOptions(LineShape, opts).None?
  {
  }

  /** A line needs both endpoints; without one there is no call in the model. */
  lemma LineNeedsEndpoints(opts: map<string, Value>)
    ensures DecodeOptions(LineShape, opts).Some? <==> PointOption(opts, "start").Some? && PointOption(opts, "end").Some?
  {
  }
}
