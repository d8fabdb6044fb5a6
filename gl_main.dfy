/** The OpenGL program (src/main.c): an 8 by 8 map of numbered wall kinds
    built in `main`, and in `draw_rays` the grid traversal that records the
    wall kind it stops on, the projection of the distance to a strip height
    and the texture arithmetic of the strip. */
module GlMain {
  import opened CMath
  import opened Dda

  const BLOCKS_X: int := 8
  const BLOCKS_Y: int := 8
  /** `MINIMAP_WIDTH` and `MINIMAP_HEIGHT`: 30 pixels to a block. */
  const MINIMAP_WIDTH: int := 240
  const MINIMAP_HEIGHT: int := 240
  /** `BLOCKS_WIDTH` and `BLOCKS_HEIGHT`: the minimap size over the block count. */
  const BLOCKS_WIDTH: int := 30
  const BLOCKS_HEIGHT: int := 30
  const WINDOW_WIDTH: int := 1800
  const WINDOW_HEIGHT: int := 1200
  const NUM_RAYS: int := 120
  /** `strip_width` of `draw_rays`: the window width over its local
      `num_rays`, which is 120. */
  const STRIP_WIDTH: int := 15
  /** Textures are 32 by 32 texels of three bytes. The atlas `all_textures`
      is declared outside this model; its size is assumed to be 20 textures,
      one per wall kind in [1, 20], as the index arithmetic calls for. */
  const TEXTURE_SIZE: int := 32
  const WALL_KINDS: int := 20
  const ATLAS_SIZE: int := 61440

  /** The minimap and block constants are the macros evaluated; the strip
      width is the one `draw_rays` computes; the atlas size is the assumed
      20 textures. */
  lemma Dimensions()
    ensures MINIMAP_WIDTH == BLOCKS_X * 30 && MINIMAP_HEIGHT == BLOCKS_Y * 30
    ensures BLOCKS_WIDTH == MINIMAP_WIDTH / BLOCKS_X && BLOCKS_HEIGHT == MINIMAP_HEIGHT / BLOCKS_Y
    ensures STRIP_WIDTH == WINDOW_WIDTH / NUM_RAYS
    ensures ATLAS_SIZE == WALL_KINDS * TEXTURE_SIZE * TEXTURE_SIZE * 3
  {
  }

  /** The cells `main` fills: first or last row, or first or last column. */
  predicate IsBorder(i: int, j: int) {
    i == 0 || j == 0 || j == BLOCKS_X - 1 || i == BLOCKS_Y - 1
  }

  /** The value `main` leaves in `map_walls[i*8+j]`: a wall kind numbered from
      the flat index on the border, 0 (open) inside. */
  function WallId(i: int, j: int): int {
    if IsBorder(i, j) then (i * BLOCKS_X + j) % 20 + 1 else 0
  }

  /** The value `main` leaves in `map_floor[i*8+j]`. */
  function FloorId(i: int, j: int): int {
    if IsBorder(i, j) then 1 else 0
  }

  /** The flat index `row * 8 + column` of a cell on the grid. */
  function CellIndex(column: int, row: int): (k: int)
    requires InGrid(column, row, BLOCKS_X, BLOCKS_Y)
    ensures 0 <= k < BLOCKS_X * BLOCKS_Y
  {
    assert row * BLOCKS_X <= (BLOCKS_Y - 1) * BLOCKS_X;
    row * BLOCKS_X + column
  }

  /** The flat index splits back into its row and its column. */
  lemma CellIndexSplits(column: int, row: int)
    requires InGrid(column, row, BLOCKS_X, BLOCKS_Y)
    ensures CellIndex(column, row) / BLOCKS_X == row && CellIndex(column, row) % BLOCKS_X == column
  {
  }

  /** `map_walls` after the first pair of loops in `main`. */
  const BorderWalls: seq<int> := seq(BLOCKS_X * BLOCKS_Y, k => WallId(k / BLOCKS_X, k % BLOCKS_X))

  /** `map_floor` after the second pair of loops in `main`. */
  const BorderFloor: seq<int> := seq(BLOCKS_X * BLOCKS_Y, k => FloorId(k / BLOCKS_X, k % BLOCKS_X))

  /** Every border cell of the built map holds a wall kind in [1, 20], numbered
      `(i*8+j) % 20 + 1`, and every inner cell holds 0; the floor map is 1
      exactly on the border. */
  lemma BorderCells(i: int, j: int)
    requires InGrid(j, i, BLOCKS_X, BLOCKS_Y)
    ensures var k := CellIndex(j, i);
            && (IsBorder(i, j) ==> BorderWalls[k] == (i * BLOCKS_X + j) % 20 + 1 && 1 <= BorderWalls[k] <= WALL_KINDS)
            && (!IsBorder(i, j) ==> BorderWalls[k] == 0)
            && (BorderFloor[k] == 1 <==> IsBorder(i, j))
            && (BorderFloor[k] == 0 <==> !IsBorder(i, j))
  {
    var k := CellIndex(j, i);
    CellIndexSplits(j, i);
    assert BorderWalls[k] == WallId(i, j);
    assert BorderFloor[k] == FloorId(i, j);
  }

  /** On the built map a cell is open exactly when it is an inner cell, that
      is, when both its indices lie in [1, 6]. */
  lemma BorderOpenCells(column: int, row: int)
    requires InGrid(column, row, BLOCKS_X, BLOCKS_Y)
    ensures BorderWalls[CellIndex(column, row)] == 0 <==> 1 <= column <= 6 && 1 <= row <= 6
    ensures BorderWalls[CellIndex(column, row)] > 0 <==> !(1 <= column <= 6 && 1 <= row <= 6)
  {
    BorderCells(row, column);
  }

  /** A map whose open cells are all inner cells: walled all round. */
  predicate Enclosed(walls: seq<int>)
    requires |walls| == BLOCKS_X * BLOCKS_Y
  {
    forall column, row :: 0 <= column < BLOCKS_X && 0 <= row < BLOCKS_Y && walls[CellIndex(column, row)] == 0 ==>
      1 <= column <= 6 && 1 <= row <= 6
  }

  /** The built map is walled all round. */
  lemma BorderWallsEnclosed()
    ensures Enclosed(BorderWalls)
  {
    forall column, row | InGrid(column, row, BLOCKS_X, BLOCKS_Y) && BorderWalls[CellIndex(column, row)] == 0
      ensures 1 <= column <= 6 && 1 <= row <= 6
    {
      BorderOpenCells(column, row);
    }
  }

  /** The first pair of loops of `main` over a zeroed `map_walls`. */
  method InitWalls() returns (walls: array<int>)
    ensures fresh(walls)
    ensures walls[..] == BorderWalls
  {
    walls := new int[BLOCKS_Y * BLOCKS_X](_ => 0);
    for i := 0 to BLOCKS_Y
      invariant forall k :: 0 <= k < i * BLOCKS_X ==> walls[k] == WallId(k / BLOCKS_X, k % BLOCKS_X)
      invariant forall k :: i * BLOCKS_X <= k < walls.Length ==> walls[k] == 0
    {
      for j := 0 to BLOCKS_X
        invariant forall k :: 0 <= k < i * BLOCKS_X + j ==> walls[k] == WallId(k / BLOCKS_X, k % BLOCKS_X)
        invariant forall k :: i * BLOCKS_X + j <= k < walls.Length ==> walls[k] == 0
      {
        var k := CellIndex(j, i);
        CellIndexSplits(j, i);
        if IsBorder(i, j) {
          walls[k] := k % 20 + 1;
        }
      }
    }
  }

  /** The second pair of loops of `main` over a zeroed `map_floor`. */
  method InitFloor() returns (floor: array<int>)
    ensures fresh(floor)
    ensures floor[..] == BorderFloor
  {
    floor := new int[BLOCKS_Y * BLOCKS_X](_ => 0);
    for i := 0 to BLOCKS_Y
      invariant forall k :: 0 <= k < i * BLOCKS_X ==> floor[k] == FloorId(k / BLOCKS_X, k % BLOCKS_X)
      invariant forall k :: i * BLOCKS_X <= k < floor.Length ==> floor[k] == 0
    {
      for j := 0 to BLOCKS_X
        invariant forall k :: 0 <= k < i * BLOCKS_X + j ==> floor[k] == FloorId(k / BLOCKS_X, k % BLOCKS_X)
        invariant forall k :: i * BLOCKS_X + j <= k < floor.Length ==> floor[k] == 0
      {
        var k := CellIndex(j, i);
        CellIndexSplits(j, i);
        if IsBorder(i, j) {
          floor[k] := 1;
        }
      }
    }
  }

  /** `delta_dist_*` of src/main.c: the cell size over the direction
      component, with 0.000001 standing in for any component of magnitude
      at most 0.000001. */
  function Delta(size: real, rd: real): (d: real)
    requires size > 0.0
    ensures d >= 0.0
    ensures Abs(rd) > 0.000001 ==> d == Abs(size / rd)
    ensures Abs(rd) <= 0.000001 ==> d == size / 0.000001
  {
    Abs(size / (if Abs(rd) > 0.000001 then rd else 0.000001))
  }

  /** The set-up before the loop for a ray from (`px`, `py`) along (`rdX`, `rdY`):
      the cells are 240 / 8.0 = 30 wide and high. */
  function RayStart(px: int, py: int, rdX: real, rdY: real): (Ray, Walker) {
    var size := (MINIMAP_WIDTH as real) / (BLOCKS_X as real);
    Start(px, py, rdX, rdY, size, size, Delta(size, rdX), Delta(size, rdY))
  }

  /** How the loop ends: `hit`, `wall_type`, and the states before and after
      the last step. */
  datatype Outcome = Outcome(hit: bool, wallType: int, before: Walker, last: Walker)

  /** The `while(!hit)` loop as a recursion: step; stop when off the grid,
      keeping the `wall_type` read last; otherwise read the cell's kind into
      `wall_type` and stop when it is positive. */
  function Walk(ray: Ray, w: Walker, wallType: int, walls: seq<int>): Outcome
    requires ValidRay(ray) && |walls| == BLOCKS_X * BLOCKS_Y
    decreases Measure(ray, w, BLOCKS_X, BLOCKS_Y)
  {
    var n := Advance(ray, w);
    if !InGrid(n.mapX, n.mapY, BLOCKS_X, BLOCKS_Y) then Outcome(false, wallType, w, n)
    else
      var kind := walls[CellIndex(n.mapX, n.mapY)];
      if kind > 0 then Outcome(true, kind, w, n)
      else
        AdvanceShrinks(ray, w, BLOCKS_X, BLOCKS_Y);
        Walk(ray, n, kind, walls)
  }

  /** The loop ends with a hit exactly on a cell of the grid whose kind is
      positive, and that kind is the `wall_type`; otherwise it ends off the
      grid, with a `wall_type` that is not positive when the starting one was
      not. The last state is one step from the one before it. */
  lemma {:induction false} WalkOutcome(ray: Ray, w: Walker, wallType: int, walls: seq<int>)
    requires ValidRay(ray) && |walls| == BLOCKS_X * BLOCKS_Y
    decreases Measure(ray, w, BLOCKS_X, BLOCKS_Y)
    ensures var o := Walk(ray, w, wallType, walls);
            && o.last == Advance(ray, o.before)
            && (o.hit ==> InGrid(o.last.mapX, o.last.mapY, BLOCKS_X, BLOCKS_Y)
                          && o.wallType == walls[CellIndex(o.last.mapX, o.last.mapY)] && o.wallType > 0)
            && (!o.hit ==> !InGrid(o.last.mapX, o.last.mapY, BLOCKS_X, BLOCKS_Y))
            && (!o.hit && wallType <= 0 ==> o.wallType <= 0)
            && o.last.distance >= Advance(ray, w).distance
  {
    var n := Advance(ray, w);
    if InGrid(n.mapX, n.mapY, BLOCKS_X, BLOCKS_Y) && walls[CellIndex(n.mapX, n.mapY)] <= 0 {
      AdvanceShrinks(ray, w, BLOCKS_X, BLOCKS_Y);
      WalkOutcome(ray, n, walls[CellIndex(n.mapX, n.mapY)], walls);
      DistanceNeverDecreases(ray, w);
    }
  }

  /** On the built map, a walk from an inner cell always ends on a wall, and
      the wall kind it reports is in [1, 20]: every step from an inner cell
      lands on the grid, and the cells around the inner ones are walls. */
  lemma {:induction false} WalkFromInnerCellHits(ray: Ray, w: Walker, wallType: int)
    requires ValidRay(ray)
    requires 1 <= w.mapX <= 6 && 1 <= w.mapY <= 6
    decreases Measure(ray, w, BLOCKS_X, BLOCKS_Y)
    ensures var o := Walk(ray, w, wallType, BorderWalls);
            o.hit && 1 <= o.wallType <= WALL_KINDS
  {
    var n := Advance(ray, w);
    assert InGrid(n.mapX, n.mapY, BLOCKS_X, BLOCKS_Y);
    BorderOpenCells(n.mapX, n.mapY);
    BorderCells(n.mapY, n.mapX);
    if BorderWalls[CellIndex(n.mapX, n.mapY)] <= 0 {
      AdvanceShrinks(ray, w, BLOCKS_X, BLOCKS_Y);
      WalkFromInnerCellHits(ray, n, BorderWalls[CellIndex(n.mapX, n.mapY)]);
    }
  }

  /** A position inside the inner cells truncates to an inner cell index. */
  lemma InnerCellOfPosition(p: int)
    requires BLOCKS_WIDTH <= p < MINIMAP_WIDTH - BLOCKS_WIDTH
    ensures 1 <= TruncReal(p as real / 30.0) <= 6
  {
    FloorBracket(p as real, 30.0);
  }

  /** A player standing in an inner cell of the built map sees a wall of
      kind [1, 20] along every ray. */
  lemma RayFromInnerCellHits(px: int, py: int, rdX: real, rdY: real)
    requires BLOCKS_WIDTH <= px < MINIMAP_WIDTH - BLOCKS_WIDTH
    requires BLOCKS_HEIGHT <= py < MINIMAP_HEIGHT - BLOCKS_HEIGHT
    ensures var s := RayStart(px, py, rdX, rdY);
            var o := Walk(s.0, s.1, -1, BorderWalls);
            o.hit && 1 <= o.wallType <= WALL_KINDS
  {
    assert (MINIMAP_WIDTH as real) / (BLOCKS_X as real) == 30.0;
    InnerCellOfPosition(px);
    InnerCellOfPosition(py);
    var s := RayStart(px, py, rdX, rdY);
    WalkFromInnerCellHits(s.0, s.1, -1);
  }

  /** One unfolding of `Walk`: what the loop does with the state after one step. */
  lemma WalkStep(ray: Ray, w: Walker, wallType: int, walls: seq<int>)
    requires ValidRay(ray) && |walls| == BLOCKS_X * BLOCKS_Y
    ensures var n := Advance(ray, w);
            && (!InGrid(n.mapX, n.mapY, BLOCKS_X, BLOCKS_Y) ==> Walk(ray, w, wallType, walls) == Outcome(false, wallType, w, n))
            && (InGrid(n.mapX, n.mapY, BLOCKS_X, BLOCKS_Y) && walls[CellIndex(n.mapX, n.mapY)] > 0 ==>
                  Walk(ray, w, wallType, walls) == Outcome(true, walls[CellIndex(n.mapX, n.mapY)], w, n))
            && (InGrid(n.mapX, n.mapY, BLOCKS_X, BLOCKS_Y) && walls[CellIndex(n.mapX, n.mapY)] <= 0 ==>
                  Walk(ray, w, wallType, walls) == Walk(ray, n, walls[CellIndex(n.mapX, n.mapY)], walls)
                  && Measure(ray, n, BLOCKS_X, BLOCKS_Y) < Measure(ray, w, BLOCKS_X, BLOCKS_Y))
  {
    var n := Advance(ray, w);
    if InGrid(n.mapX, n.mapY, BLOCKS_X, BLOCKS_Y) {
      AdvanceShrinks(ray, w, BLOCKS_X, BLOCKS_Y);
    }
  }

  /** The `while(!hit)` loop of `draw_rays`, from the state `start` with
      `wall_type` at -1. */
  method Trace(ray: Ray, start: Walker, walls: array<int>)
    returns (hit: bool, wallType: int, mapX: int, mapY: int, side: Side, distance: real)
    requires ValidRay(ray) && walls.Length == BLOCKS_X * BLOCKS_Y
    ensures var o := Walk(ray, start, -1, walls[..]);
            hit == o.hit && wallType == o.wallType && mapX == o.last.mapX && mapY == o.last.mapY
            && side == o.last.side && distance == o.last.distance
  {
    var lengthX, lengthY := start.lengthX, start.lengthY;
    mapX, mapY, side, distance := start.mapX, start.mapY, start.side, start.distance;
    hit, wallType := false, -1;
    ghost var cells := walls[..];
    ghost var goal := Walk(ray, start, -1, cells);
    while !hit
      invariant !hit ==> Walk(ray, Walker(mapX, mapY, lengthX, lengthY, distance, side), wallType, cells) == goal
      invariant hit ==> goal.hit && goal.wallType == wallType
                        && goal.last == Walker(mapX, mapY, lengthX, lengthY, distance, side)
      decreases !hit, Measure(ray, Walker(mapX, mapY, lengthX, lengthY, distance, side), BLOCKS_X, BLOCKS_Y)
    {
      ghost var here := Walker(mapX, mapY, lengthX, lengthY, distance, side);
      if lengthX < lengthY {
        mapX := mapX + ray.stepX;
        distance := lengthX;
        lengthX := lengthX + ray.deltaX;
        side := XSide;
      } else {
        mapY := mapY + ray.stepY;
        distance := lengthY;
        lengthY := lengthY + ray.deltaY;
        side := YSide;
      }
      assert Walker(mapX, mapY, lengthX, lengthY, distance, side) == Advance(ray, here);
      WalkStep(ray, here, wallType, cells);
      if mapX < 0 || mapX >= BLOCKS_X || mapY < 0 || mapY >= BLOCKS_Y {
        break;
      }
      wallType := walls[CellIndex(mapX, mapY)];
      assert wallType == cells[CellIndex(mapX, mapY)];
      if wallType > 0 {
        hit := true;
      }
    }
  }

  /** The ray set-up and the loop of `draw_rays` for one ray from the
      player's position along (`rdX`, `rdY`). */
  method CastRay(px: int, py: int, rdX: real, rdY: real, walls: array<int>)
    returns (hit: bool, wallType: int, mapX: int, mapY: int, side: Side, distance: real)
    requires walls.Length == BLOCKS_X * BLOCKS_Y
    ensures var s := RayStart(px, py, rdX, rdY);
            var o := Walk(s.0, s.1, -1, walls[..]);
            hit == o.hit && wallType == o.wallType && mapX == o.last.mapX && mapY == o.last.mapY
            && side == o.last.side && distance == o.last.distance
    ensures hit ==> InGrid(mapX, mapY, BLOCKS_X, BLOCKS_Y) && wallType == walls[CellIndex(mapX, mapY)] && wallType > 0
    ensures !hit ==> !InGrid(mapX, mapY, BLOCKS_X, BLOCKS_Y) && wallType <= 0
  {
    var s := RayStart(px, py, rdX, rdY);
    WalkOutcome(s.0, s.1, -1, walls[..]);
    hit, wallType, mapX, mapY, side, distance := Trace(s.0, s.1, walls);
  }

  /** `corrected_distance` after its floor: never below 0.1, and unchanged
      from 0.1 up. */
  function FloorDistance(correctedDistance: real): (d: real)
    ensures d >= 0.1
    ensures correctedDistance >= 0.1 ==> d == correctedDistance
    ensures correctedDistance < 0.1 ==> d == 0.1
  {
    if correctedDistance < 0.1 then 0.1 else correctedDistance
  }

  /** `line_height`: the truncated `WINDOW_HEIGHT / distance * 25` of the
      floored distance, capped at three window heights. */
  function LineHeight(correctedDistance: real): (lh: int)
    ensures 0 <= lh <= 3 * WINDOW_HEIGHT
  {
    var d := FloorDistance(correctedDistance);
    DivNonNegative(WINDOW_HEIGHT as real, d);
    MulMonotone(0.0, WINDOW_HEIGHT as real / d, 25.0);
    var raw := TruncReal(WINDOW_HEIGHT as real / d * 25.0);
    if raw > 3 * WINDOW_HEIGHT then 3 * WINDOW_HEIGHT else raw
  }

  /** The height is the projection `WINDOW_HEIGHT / d * 25` of the floored
      distance, truncated, until it reaches the cap of 3600. */
  lemma LineHeightValue(correctedDistance: real)
    ensures var q := WINDOW_HEIGHT as real / FloorDistance(correctedDistance) * 25.0;
            var lh := LineHeight(correctedDistance);
            && (q < 3600.0 ==> lh as real <= q < lh as real + 1.0)
            && (q >= 3600.0 ==> lh == 3600)
  {
    var d := FloorDistance(correctedDistance);
    var q := WINDOW_HEIGHT as real / d * 25.0;
    DivNonNegative(WINDOW_HEIGHT as real, d);
    MulMonotone(0.0, WINDOW_HEIGHT as real / d, 25.0);
    if q >= 3600.0 {
      TruncRealMonotone(3600.0, q);
      TruncRealOfInt(3600);
    }
  }

  /** A nearer wall never gets a shorter strip. */
  lemma LineHeightAntitone(near: real, far: real)
    requires near <= far
    ensures LineHeight(far) <= LineHeight(near)
  {
    var k := WINDOW_HEIGHT as real;
    var dn, df := FloorDistance(near), FloorDistance(far);
    DivAntitone(k, dn, df);
    MulMonotone(k / df, k / dn, 25.0);
    TruncRealMonotone(k / df * 25.0, k / dn * 25.0);
  }

  /** Walls nearer than 8 get the capped height of three windows. */
  lemma LineHeightCappedNear(correctedDistance: real)
    requires correctedDistance <= 8.0
    ensures LineHeight(correctedDistance) == 3 * WINDOW_HEIGHT
  {
    var k := WINDOW_HEIGHT as real;
    var d := FloorDistance(correctedDistance);
    DivAntitone(k, d, 8.0);
    assert k / 8.0 == 150.0;
    MulMonotone(150.0, k / d, 25.0);
    TruncRealMonotone(3750.0, k / d * 25.0);
    TruncRealOfInt(3750);
  }

  /** `line_start`: C's truncating `(WINDOW_HEIGHT - line_height) / 2`. The
      strip is centred on the window to within one pixel; the rounding is
      toward the top for strips shorter than the window and toward the
      bottom for taller ones, where the start is negative. */
  function LineStart(lineHeight: int): (start: int)
    ensures lineHeight <= WINDOW_HEIGHT ==> 0 <= start && 0 <= WINDOW_HEIGHT - (2 * start + lineHeight) <= 1
    ensures lineHeight > WINDOW_HEIGHT ==> start <= 0 && -1 <= WINDOW_HEIGHT - (2 * start + lineHeight) <= 0
  {
    TruncDiv(WINDOW_HEIGHT - lineHeight, 2)
  }

  /** The texture column is mirrored for x-side hits on rays going left
      and y-side hits on rays going down. */
  predicate Mirrored(side: Side, rdX: real, rdY: real) {
    (side == XSide && rdX < 0.0) || (side == YSide && rdY > 0.0)
  }

  /** `texture_x` from the column `raw` read off the wall hit. */
  function TextureColumn(raw: int, side: Side, rdX: real, rdY: real): (column: int)
    ensures column == TEXTURE_SIZE - 1 - raw <==> Mirrored(side, rdX, rdY)
    ensures column == raw <==> !Mirrored(side, rdX, rdY)
    ensures 0 <= raw < TEXTURE_SIZE ==> 0 <= column < TEXTURE_SIZE
  {
    if Mirrored(side, rdX, rdY) then TEXTURE_SIZE - 1 - raw else raw
  }

  /** Mirroring twice gives back the column read off the wall. */
  lemma TextureColumnInvolution(raw: int, side: Side, rdX: real, rdY: real)
    ensures TextureColumn(TextureColumn(raw, side, rdX, rdY), side, rdX, rdY) == raw
  {
  }

  /** `texture_y` at offset `d` into a strip of height `lineHeight`; the
      operands are never negative, so C's `/` and `%` agree with Dafny's.
      Within the strip the `% 32` never wraps. */
  function TextureRow(d: int, lineHeight: int): (row: int)
    requires 0 <= d && 0 < lineHeight
    ensures 0 <= row < TEXTURE_SIZE
    ensures d < lineHeight ==> row == d * TEXTURE_SIZE / lineHeight
  {
    ((d * TEXTURE_SIZE) / lineHeight) % TEXTURE_SIZE
  }

  /** Texture rows do not go back up as the strip is drawn down. */
  lemma TextureRowMonotone(d1: int, d2: int, lineHeight: int)
    requires 0 <= d1 <= d2 < lineHeight
    ensures TextureRow(d1, lineHeight) <= TextureRow(d2, lineHeight)
  {
    assert d1 * TEXTURE_SIZE <= d2 * TEXTURE_SIZE;
    DivMonotone(d1 * TEXTURE_SIZE, d2 * TEXTURE_SIZE, lineHeight);
  }

  lemma DivMonotone(a: int, b: int, c: int)
    requires 0 <= a <= b && c > 0
    ensures a / c <= b / c
  {
    var qa, qb := a / c, b / c;
    assert qa * c + a % c == a && qb * c + b % c == b;
    if qb < qa {
      MulMonotoneInt(qb + 1, qa, c);
      assert false;
    }
  }

  lemma MulMonotoneInt(m: int, n: int, c: int)
    requires m <= n && c > 0
    ensures m * c <= n * c
  {
    assert n * c - m * c == (n - m) * c;
  }

  /** `index` into the texture atlas: texel (`textureY`, `textureX`) of wall
      kind `wallType`, three bytes to a texel. */
  function AtlasIndex(wallType: int, textureY: int, textureX: int): int {
    (textureY * TEXTURE_SIZE + textureX) * 3 + (wallType - 1) * TEXTURE_SIZE * TEXTURE_SIZE * 3
  }

  /** For a wall kind in [1, 20] and a texel in range, all three bytes read
      lie inside the atlas of 20 * 32 * 32 * 3 bytes. */
  lemma AtlasIndexInRange(wallType: int, textureY: int, textureX: int)
    requires 1 <= wallType <= WALL_KINDS
    requires 0 <= textureY < TEXTURE_SIZE && 0 <= textureX < TEXTURE_SIZE
    ensures 0 <= AtlasIndex(wallType, textureY, textureX)
    ensures AtlasIndex(wallType, textureY, textureX) + 2 < ATLAS_SIZE
  {
    var t := textureY * TEXTURE_SIZE + textureX;
    assert t <= (TEXTURE_SIZE - 1) * TEXTURE_SIZE + TEXTURE_SIZE - 1;
    assert (wallType - 1) * 3072 <= 19 * 3072;
  }

  /** Distinct texels of distinct wall kinds start at distinct indices: the
      index decodes back to the kind, the row and the column. */
  lemma AtlasIndexDecodes(wallType: int, textureY: int, textureX: int)
    requires 1 <= wallType <= WALL_KINDS
    requires 0 <= textureY < TEXTURE_SIZE && 0 <= textureX < TEXTURE_SIZE
    ensures var index := AtlasIndex(wallType, textureY, textureX);
            && index % 3 == 0
            && index / 3072 == wallType - 1
            && (index % 3072) / 3 / TEXTURE_SIZE == textureY
            && (index % 3072) / 3 % TEXTURE_SIZE == textureX
  {
    var t := textureY * TEXTURE_SIZE + textureX;
    var index := AtlasIndex(wallType, textureY, textureX);
    assert 0 <= t < 1024 by {
      assert textureY * TEXTURE_SIZE <= (TEXTURE_SIZE - 1) * TEXTURE_SIZE;
    }
    assert index == (wallType - 1) * 3072 + 3 * t;
    assert index / 3072 == wallType - 1 && index % 3072 == 3 * t;
    assert (3 * t) / 3 == t;
  }

  /** When the ray does not hit, `wall_type` is not positive and the index
      falls before the start of the atlas. */
  lemma AtlasIndexWithoutHit(wallType: int, textureY: int, textureX: int)
    requires wallType <= 0
    requires 0 <= textureY < TEXTURE_SIZE && 0 <= textureX < TEXTURE_SIZE
    ensures AtlasIndex(wallType, textureY, textureX) < 0
  {
    var t := textureY * TEXTURE_SIZE + textureX;
    assert t <= (TEXTURE_SIZE - 1) * TEXTURE_SIZE + TEXTURE_SIZE - 1;
    assert (wallType - 1) * 3072 <= -3072;
  }

  /** What one pass of the strip loop reads: the screen row `y`, the texture
      row and the atlas index of the texel's first byte. */
  datatype Sample = Sample(y: int, textureY: int, index: int)

  /** How many passes the strip loop makes: `y` runs from `line_start` below
      `line_start + line_height` in steps of `strip_width`. */
  function StripCount(lineHeight: int): (n: nat)
    ensures lineHeight <= 0 ==> n == 0
    ensures lineHeight > 0 ==> STRIP_WIDTH * (n - 1) < lineHeight <= STRIP_WIDTH * n
  {
    if lineHeight <= 0 then 0 else (lineHeight + STRIP_WIDTH - 1) / STRIP_WIDTH
  }

  /** Pass `k` of the strip loop. */
  function SampleAt(lineStart: int, lineHeight: int, textureX: int, wallType: int, k: nat): Sample
    requires lineHeight > 0
  {
    var d := STRIP_WIDTH * k;
    var row := TextureRow(d, lineHeight);
    Sample(lineStart + d, row, AtlasIndex(wallType, row, textureX))
  }

  /** Every pass of the strip loop, in order. */
  function StripSamples(lineStart: int, lineHeight: int, textureX: int, wallType: int): seq<Sample> {
    if lineHeight <= 0 then []
    else seq(StripCount(lineHeight), k requires 0 <= k => SampleAt(lineStart, lineHeight, textureX, wallType, k))
  }

  /** The strip loop runs only for a positive height, starts at the top of
      the strip and covers it in steps of `strip_width` without leaving it. */
  lemma StripRows(lineStart: int, lineHeight: int, textureX: int, wallType: int)
    ensures var s := StripSamples(lineStart, lineHeight, textureX, wallType);
            && (|s| > 0 <==> lineHeight > 0)
            && (lineHeight > 0 ==> s[0].y == lineStart && lineStart + lineHeight <= s[|s| - 1].y + STRIP_WIDTH)
            && (forall k :: 0 <= k < |s| ==> lineStart <= s[k].y < lineStart + lineHeight)
            && (forall k :: 0 < k < |s| ==> s[k].y == s[k - 1].y + STRIP_WIDTH)
  {
    var s := StripSamples(lineStart, lineHeight, textureX, wallType);
    forall k | 0 <= k < |s|
      ensures lineStart <= s[k].y < lineStart + lineHeight
    {
      assert s[k].y == lineStart + 15 * k;
    }
  }

  /** Texture rows of the strip are in [0, 31] and do not go back up. */
  lemma StripTextureRows(lineStart: int, lineHeight: int, textureX: int, wallType: int)
    ensures var s := StripSamples(lineStart, lineHeight, textureX, wallType);
            && (forall k :: 0 <= k < |s| ==> 0 <= s[k].textureY < TEXTURE_SIZE)
            && (forall k :: 0 < k < |s| ==> s[k - 1].textureY <= s[k].textureY)
  {
    var s := StripSamples(lineStart, lineHeight, textureX, wallType);
    forall k | 0 < k < |s|
      ensures s[k - 1].textureY <= s[k].textureY
    {
      TextureRowMonotone(STRIP_WIDTH * (k - 1), STRIP_WIDTH * k, lineHeight);
    }
  }

  /** With a wall kind in [1, 20] and a column in [0, 31], every byte the
      strip reads is inside the atlas. */
  lemma StripIndicesInAtlas(lineStart: int, lineHeight: int, textureX: int, wallType: int)
    requires 1 <= wallType <= WALL_KINDS && 0 <= textureX < TEXTURE_SIZE
    ensures var s := StripSamples(lineStart, lineHeight, textureX, wallType);
            forall k :: 0 <= k < |s| ==> 0 <= s[k].index && s[k].index + 2 < ATLAS_SIZE
  {
    var s := StripSamples(lineStart, lineHeight, textureX, wallType);
    forall k | 0 <= k < |s|
      ensures 0 <= s[k].index && s[k].index + 2 < ATLAS_SIZE
    {
      AtlasIndexInRange(wallType, s[k].textureY, textureX);
    }
  }

  /** The strip loop of `draw_rays`, collecting what each pass reads. */
  method DrawStrip(lineStart: int, lineHeight: int, textureX: int, wallType: int)
    returns (samples: seq<Sample>)
    ensures samples == StripSamples(lineStart, lineHeight, textureX, wallType)
  {
    samples := [];
    var y := lineStart;
    while y < lineStart + lineHeight
      invariant y == lineStart + STRIP_WIDTH * |samples|
      invariant lineHeight > 0 ==> |samples| <= StripCount(lineHeight)
      invariant lineHeight <= 0 ==> samples == []
      invariant forall k :: 0 <= k < |samples| ==>
                  lineHeight > 0 && samples[k] == SampleAt(lineStart, lineHeight, textureX, wallType, k)
      decreases lineStart + lineHeight - y
    {
      var d := y - lineStart;
      var textureY := ((d * TEXTURE_SIZE) / lineHeight) % TEXTURE_SIZE;
      var index := (textureY * TEXTURE_SIZE + textureX) * 3 + (wallType - 1) * TEXTURE_SIZE * TEXTURE_SIZE * 3;
      samples := samples + [Sample(y, textureY, index)];
      y := y + STRIP_WIDTH;
    }
  }
}
