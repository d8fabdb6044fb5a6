/** The grid traversal ("DDA") shared by the two `draw_rays` loops: the ray
    set-up before the loop and the axis step taken by each iteration. The
    cell test that ends the loop differs between the two programs and lives
    with each of them. */
module Dda {
  import opened CMath

  /** `hit_side`: 0 when the last step crossed a vertical grid line (x moved),
      1 when it crossed a horizontal one (y moved). */
  datatype Side = XSide | YSide

  /** What stays fixed along one ray: `step_x`, `step_y`, `delta_dist_x`, `delta_dist_y`. */
  datatype Ray = Ray(stepX: int, stepY: int, deltaX: real, deltaY: real)

  /** The loop's locals: `map_x`, `map_y`, `ray_length_x`, `ray_length_y`,
      `ray_distance` and `hit_side`. */
  datatype Walker = Walker(mapX: int, mapY: int, lengthX: real, lengthY: real, distance: real, side: Side)

  /** Step signs are -1 or 1 and the increments come out of `fabs`. */
  predicate ValidRay(ray: Ray) {
    && (ray.stepX == 1 || ray.stepX == -1)
    && (ray.stepY == 1 || ray.stepY == -1)
    && ray.deltaX >= 0.0
    && ray.deltaY >= 0.0
  }

  /** The divisor both programs use for `ray_length_*`: the direction
      component, or 0.000001 in its place when it is exactly 0. */
  function LengthDivisor(rd: real): (d: real)
    ensures d != 0.0
    ensures rd != 0.0 ==> d == rd
  {
    if rd != 0.0 then rd else 0.000001
  }

  /** `ray_length_x` (or `_y`) before the loop: the distance along the ray
      from coordinate `p` to the first grid line it crosses on that axis, for
      a direction component `rd` and a cell size `cell`. */
  function FirstCrossing(p: int, rd: real, cell: real): real
    requires cell > 0.0
  {
    var m := TruncReal(p as real / cell);
    var next := if rd > 0.0 then (m + 1) as real * cell else m as real * cell;
    if rd < 0.0 then (p as real - m as real * cell) / Abs(rd)
    else (next - p as real) / LengthDivisor(rd)
  }

  /** The state before the first iteration: the player's cell (a truncating
      cast of the position divided by the cell size), the step signs taken
      from the direction's signs, and the distance along the ray to the first
      vertical and horizontal grid lines. `deltaX` and `deltaY` are the
      program's own `delta_dist_*`. */
  function Start(px: int, py: int, rdX: real, rdY: real, cellWidth: real, cellHeight: real,
                 deltaX: real, deltaY: real): (r: (Ray, Walker))
    requires cellWidth > 0.0 && cellHeight > 0.0 && deltaX >= 0.0 && deltaY >= 0.0
    ensures ValidRay(r.0) && r.0.deltaX == deltaX && r.0.deltaY == deltaY
    ensures r.0.stepX == -1 <==> rdX < 0.0
    ensures r.0.stepY == -1 <==> rdY < 0.0
    ensures r.1.mapX == TruncReal(px as real / cellWidth)
    ensures r.1.mapY == TruncReal(py as real / cellHeight)
    ensures r.1.distance == 0.0 && r.1.side == XSide
  {
    (Ray(if rdX < 0.0 then -1 else 1, if rdY < 0.0 then -1 else 1, deltaX, deltaY),
     Walker(TruncReal(px as real / cellWidth), TruncReal(py as real / cellHeight),
            FirstCrossing(px, rdX, cellWidth), FirstCrossing(py, rdY, cellHeight), 0.0, XSide))
  }

  lemma MulMonotone(a: real, b: real, c: real)
    requires a <= b && c >= 0.0
    ensures a * c <= b * c
  {
    assert b * c - a * c == (b - a) * c;
  }

  lemma MulStrict(a: real, b: real, c: real)
    requires a < b && c > 0.0
    ensures a * c < b * c
  {
    assert b * c - a * c == (b - a) * c;
  }

  lemma DivNonNegative(a: real, b: real)
    requires a >= 0.0 && b > 0.0
    ensures a / b >= 0.0
  {
  }

  /** The cell a non-negative coordinate falls in brackets it. */
  lemma FloorBracket(p: real, c: real)
    requires p >= 0.0 && c > 0.0
    ensures TruncReal(p / c) as real * c <= p < (TruncReal(p / c) as real + 1.0) * c
  {
    DivNonNegative(p, c);
    var m := TruncReal(p / c);
    BelowQuotient(m as real, p, c);
    AboveQuotient(m as real + 1.0, p, c);
  }

  /** A multiplier no larger than the quotient keeps the product below the dividend. */
  lemma BelowQuotient(m: real, p: real, c: real)
    requires c > 0.0 && m <= p / c
    ensures m * c <= p
  {
  }

  /** A multiplier larger than the quotient puts the product above the dividend. */
  lemma AboveQuotient(m: real, p: real, c: real)
    requires c > 0.0 && p / c < m
    ensures p < m * c
  {
  }

  lemma DivTimes(p: real, c: real)
    requires c > 0.0
    ensures (p / c) * c == p
  {
  }

  /** Division by a positive number keeps the order. */
  lemma DivMonotoneReal(a: real, b: real, size: real)
    requires a <= b && size > 0.0
    ensures a / size <= b / size
  {
  }

  /** Dividing by a larger positive number gives a smaller quotient. */
  lemma DivAntitone(k: real, a: real, b: real)
    requires k >= 0.0 && 0.0 < a <= b
    ensures k / b <= k / a
  {
    DivTimes(k, a);
    DivTimes(k, b);
    DivNonNegative(k, b);
    if k / b > k / a {
      MulStrict(k / a, k / b, a);
      MulMonotone(a, b, k / b);
    }
  }

  /** From a non-negative coordinate, a direction component that is not zero
      puts the first grid-line crossing at a non-negative distance. */
  lemma FirstCrossingAhead(p: int, rd: real, cell: real)
    requires cell > 0.0 && p >= 0 && rd != 0.0
    ensures FirstCrossing(p, rd, cell) >= 0.0
  {
    FloorBracket(p as real, cell);
    var m := TruncReal(p as real / cell);
    assert (m + 1) as real * cell == (m as real + 1.0) * cell;
    if rd > 0.0 {
      DivNonNegative((m + 1) as real * cell - p as real, rd);
    } else {
      DivNonNegative(p as real - m as real * cell, Abs(rd));
    }
  }

  /** When a direction component is exactly 0 the stand-in divisor puts the
      first crossing on that axis behind the player (or at it). */
  lemma FirstCrossingZeroComponent(p: int, cell: real)
    requires cell > 0.0 && p >= 0
    ensures FirstCrossing(p, 0.0, cell) <= 0.0
  {
    FloorBracket(p as real, cell);
    var m := TruncReal(p as real / cell);
    DivNonNegative(p as real - m as real * cell, 0.000001);
  }

  /** One iteration's step, before the cell test: move along the axis whose
      accumulated length is smaller (a tie moves y), record that length as
      the ray distance and the axis as the side, and grow that length. */
  function Advance(ray: Ray, w: Walker): Walker {
    if w.lengthX < w.lengthY then
      Walker(w.mapX + ray.stepX, w.mapY, w.lengthX + ray.deltaX, w.lengthY, w.lengthX, XSide)
    else
      Walker(w.mapX, w.mapY + ray.stepY, w.lengthX, w.lengthY + ray.deltaY, w.lengthY, YSide)
  }

  /** Exactly one cell index moves, by its step, and the side names it; the
      recorded distance is the smaller length; ties go to y. */
  lemma AdvanceMovesOneAxis(ray: Ray, w: Walker)
    ensures var n := Advance(ray, w);
            && (n.side == XSide <==> w.lengthX < w.lengthY)
            && (n.side == XSide ==> n.mapX == w.mapX + ray.stepX && n.mapY == w.mapY && n.distance == w.lengthX)
            && (n.side == YSide ==> n.mapY == w.mapY + ray.stepY && n.mapX == w.mapX && n.distance == w.lengthY)
            && n.distance <= w.lengthX && n.distance <= w.lengthY
  {
  }

  /** After any step, the recorded distance is at most both lengths. */
  predicate Settled(w: Walker) {
    w.distance <= w.lengthX && w.distance <= w.lengthY
  }

  lemma AdvanceSettles(ray: Ray, w: Walker)
    requires ValidRay(ray)
    ensures Settled(Advance(ray, w))
  {
  }

  /** Successive values of `ray_distance` never decrease. */
  lemma {:induction false} DistanceNeverDecreases(ray: Ray, w: Walker)
    requires ValidRay(ray)
    ensures Advance(ray, Advance(ray, w)).distance >= Advance(ray, w).distance
  {
    AdvanceSettles(ray, w);
    AdvanceMovesOneAxis(ray, Advance(ray, w));
  }

  /** How many more steps in direction `step` keep index `m` inside `[0, n)`. */
  function Room(step: int, m: int, n: int): nat {
    if step > 0 then (if m < n then n - m else 0) else (if m >= 0 then m + 1 else 0)
  }

  /** The loop's termination measure on a `blocksX` by `blocksY` grid. */
  function Measure(ray: Ray, w: Walker, blocksX: int, blocksY: int): nat {
    Room(ray.stepX, w.mapX, blocksX) + Room(ray.stepY, w.mapY, blocksY)
  }

  predicate InGrid(mapX: int, mapY: int, blocksX: int, blocksY: int) {
    0 <= mapX < blocksX && 0 <= mapY < blocksY
  }

  /** A step that stays on the grid uses up one unit of room. */
  lemma AdvanceShrinks(ray: Ray, w: Walker, blocksX: int, blocksY: int)
    requires ValidRay(ray)
    requires InGrid(Advance(ray, w).mapX, Advance(ray, w).mapY, blocksX, blocksY)
    ensures Measure(ray, Advance(ray, w), blocksX, blocksY) < Measure(ray, w, blocksX, blocksY)
  {
  }
}
