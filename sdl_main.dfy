/** The SDL program (main.c): a 16 by 16 grid of '#' walls drawn into a
    200 by 200 minimap, a player with an 8 by 8 bounding box that slides
    along walls, and one ray per screen strip. */
module SdlMain {
  import opened CMath
  import opened Dda

  const MINIMAP_WIDTH: int := 200
  const MINIMAP_HEIGHT: int := 200
  const WINDOW_HEIGHT: int := 1200

  /** The grid, row after row (row `cy` starts at index `cy * 16`). */
  const MAP: string :=
    "################" +
    "#              #" +
    "#              #" +
    "#              #" +
    "#              #" +
    "#              #" +
    "#              #" +
    "#              #" +
    "#              #" +
    "#              #" +
    "#              #" +
    "#           #  #" +
    "#####          #" +
    "#              #" +
    "#              #" +
    "################"

  /** `map_blocks`, the square root of the grid's length. */
  const MAP_BLOCKS: int := 16

  lemma MapIsSquare()
    ensures |MAP| == MAP_BLOCKS * MAP_BLOCKS
  {
  }

  lemma FlatIndexInRange(cx: int, cy: int, n: int)
    requires 0 <= cx < n && 0 <= cy < n
    ensures 0 <= cy * n + cx < n * n
  {
    assert cy * n <= (n - 1) * n;
  }

  /** A grid cell, as `corners[i]` or `(map_x, map_y)` hold it. */
  datatype Cell = Cell(cx: int, cy: int)

  predicate OnMap(c: Cell, mapBlocks: int) {
    0 <= c.cx < mapBlocks && 0 <= c.cy < mapBlocks
  }

  /** The grid character at an on-grid cell. */
  function At(c: Cell, mapBlocks: int, grid: seq<char>): char
    requires OnMap(c, mapBlocks) && |grid| == mapBlocks * mapBlocks
  {
    FlatIndexInRange(c.cx, c.cy, mapBlocks);
    grid[c.cy * mapBlocks + c.cx]
  }

  /** A corner blocks when it is off the grid or on a wall. */
  predicate Blocks(c: Cell, mapBlocks: int, grid: seq<char>)
    requires |grid| == mapBlocks * mapBlocks
  {
    !OnMap(c, mapBlocks) || At(c, mapBlocks, grid) == '#'
  }

  /** The first and last rows of the grid are walls. */
  lemma MapBorderRows(k: int)
    requires 0 <= k < MAP_BLOCKS
    ensures At(Cell(k, 0), MAP_BLOCKS, MAP) == '#' && At(Cell(k, 15), MAP_BLOCKS, MAP) == '#'
  {
    // A case split over the 16 indices, so that each cell of the literal map is read at a constant index.
    assert k == 0 || k == 1 || k == 2 || k == 3 || k == 4 || k == 5 || k == 6 || k == 7 || k == 8 || k == 9 || k == 10 || k == 11 || k == 12 || k == 13 || k == 14 || k == 15;
  }

  /** The first and last columns of the grid are walls. */
  lemma MapBorderColumns(r: int)
    requires 0 <= r < MAP_BLOCKS
    ensures At(Cell(0, r), MAP_BLOCKS, MAP) == '#' && At(Cell(15, r), MAP_BLOCKS, MAP) == '#'
  {
    // A case split over the 16 indices, so that each cell of the literal map is read at a constant index.
    assert r == 0 || r == 1 || r == 2 || r == 3 || r == 4 || r == 5 || r == 6 || r == 7 || r == 8 || r == 9 || r == 10 || r == 11 || r == 12 || r == 13 || r == 14 || r == 15;
  }

  /** The grid is walled all round: a cell in the first or last row or
      column holds a wall, so an open cell of the grid is an inner one. */
  lemma MapWalledAllRound(c: Cell)
    requires OnMap(c, MAP_BLOCKS)
    ensures At(c, MAP_BLOCKS, MAP) != '#' ==> 1 <= c.cx <= 14 && 1 <= c.cy <= 14
  {
    if c.cy == 0 || c.cy == 15 {
      MapBorderRows(c.cx);
    } else if c.cx == 0 || c.cx == 15 {
      MapBorderColumns(c.cy);
    }
  }

  /** `cell_width`: the minimap width shared out over the grid's columns. */
  function CellSize(mapBlocks: int): (s: real)
    requires mapBlocks > 0
    ensures s > 0.0 && s * mapBlocks as real == MINIMAP_WIDTH as real
  {
    MINIMAP_WIDTH as real / mapBlocks as real
  }

  /** The cells of the bounding box's corners, in the order of the
      `corners` array: top-left, top-right, bottom-left, bottom-right. Each
      index is a truncating cast of a coordinate divided by the cell size. */
  function Corners(x: int, y: int, w: int, h: int, mapBlocks: int): (cs: seq<Cell>)
    requires mapBlocks > 0
    ensures |cs| == 4
  {
    var size := CellSize(mapBlocks);
    var left := x as real - w as real / 2.0;
    var right := x as real + w as real / 2.0;
    var top := y as real - h as real / 2.0;
    var bottom := y as real + h as real / 2.0;
    [Cell(TruncReal(left / size), TruncReal(top / size)),
     Cell(TruncReal(right / size), TruncReal(top / size)),
     Cell(TruncReal(left / size), TruncReal(bottom / size)),
     Cell(TruncReal(right / size), TruncReal(bottom / size))]
  }

  /** The search loop of `collides_with_wall`: true as soon as one corner blocks. */
  function ScanCorners(cs: seq<Cell>, mapBlocks: int, grid: seq<char>): (hit: bool)
    requires |grid| == mapBlocks * mapBlocks
    ensures hit <==> exists k :: 0 <= k < |cs| && Blocks(cs[k], mapBlocks, grid)
  {
    if cs == [] then false
    else if Blocks(cs[0], mapBlocks, grid) then true
    else
      var rest := ScanCorners(cs[1..], mapBlocks, grid);
      assert forall k :: 1 <= k < |cs| ==> cs[k] == cs[1..][k - 1];
      rest
  }

  /** `collides_with_wall`: a box collides when one of its corner cells is
      off the grid (out of range blocks) or holds a wall. */
  function CollidesWithWall(x: int, y: int, w: int, h: int, mapBlocks: int, grid: seq<char>): bool
    requires 0 < mapBlocks && |grid| == mapBlocks * mapBlocks
  {
    ScanCorners(Corners(x, y, w, h, mapBlocks), mapBlocks, grid)
  }

  /** A corner off the grid makes the box collide, and the box is free
      exactly when all four corners are on the grid and none is on a wall. */
  lemma CollisionCases(x: int, y: int, w: int, h: int, mapBlocks: int, grid: seq<char>)
    requires 0 < mapBlocks && |grid| == mapBlocks * mapBlocks
    ensures var r := CollidesWithWall(x, y, w, h, mapBlocks, grid);
            && ((exists k :: 0 <= k < 4 && !OnMap(Corners(x, y, w, h, mapBlocks)[k], mapBlocks)) ==> r)
            && (!r <==> forall k :: 0 <= k < 4 ==>
                          var c := Corners(x, y, w, h, mapBlocks)[k];
                          OnMap(c, mapBlocks) && At(c, mapBlocks, grid) != '#')
  {
  }

  /** A coordinate less than one cell to the left of (or above) the grid
      truncates to cell 0, not -1. */
  lemma CornerCellTruncates(coord: real, mapBlocks: int)
    requires 0 < mapBlocks && -CellSize(mapBlocks) < coord < 0.0
    ensures TruncReal(coord / CellSize(mapBlocks)) == 0
  {
    var size := CellSize(mapBlocks);
    DivTimes(coord, size);
    if coord / size <= -1.0 {
      MulMonotone(coord / size, -1.0, size);
    }
    if coord / size >= 0.0 {
      MulMonotone(0.0, coord / size, size);
    }
    TruncRealTowardZero(coord / size);
  }

  /** The on-grid test of one corner index bounds its coordinate: a little
      more than one cell of slack below, none above. */
  lemma OnMapBoundsCoordinate(coord: real, mapBlocks: int)
    requires 0 < mapBlocks
    requires 0 <= TruncReal(coord / CellSize(mapBlocks)) < mapBlocks
    ensures -CellSize(mapBlocks) < coord < MINIMAP_WIDTH as real
  {
    var size := CellSize(mapBlocks);
    var q := coord / size;
    DivTimes(coord, size);
    assert q * size == coord;
    if q >= 0.0 {
      assert q < mapBlocks as real;
      MulStrict(q, mapBlocks as real, size);
      MulMonotone(0.0, q, size);
    } else {
      assert -1.0 < q;
      MulStrict(-1.0, q, size);
      MulStrict(q, 0.0, size);
    }
  }

  /** A box that does not collide lies inside the minimap, except that the
      truncating casts let its left and top edges stick out by less than
      one cell. */
  lemma {:induction false} FreeBoxInsideMap(x: int, y: int, w: int, h: int, mapBlocks: int, grid: seq<char>)
    requires 0 < mapBlocks && |grid| == mapBlocks * mapBlocks
    requires !CollidesWithWall(x, y, w, h, mapBlocks, grid)
    ensures var size := CellSize(mapBlocks);
            && -size < x as real - w as real / 2.0
            && x as real + w as real / 2.0 < MINIMAP_WIDTH as real
            && -size < y as real - h as real / 2.0
            && y as real + h as real / 2.0 < MINIMAP_HEIGHT as real
  {
    var cs := Corners(x, y, w, h, mapBlocks);
    CollisionCases(x, y, w, h, mapBlocks, grid);
    assert OnMap(cs[0], mapBlocks) && OnMap(cs[3], mapBlocks);
    OnMapBoundsCoordinate(x as real - w as real / 2.0, mapBlocks);
    OnMapBoundsCoordinate(x as real + w as real / 2.0, mapBlocks);
    OnMapBoundsCoordinate(y as real - h as real / 2.0, mapBlocks);
    OnMapBoundsCoordinate(y as real + h as real / 2.0, mapBlocks);
  }

  /** Where `move_player` leaves the player after a move of
      (`shiftX`, `shiftY`) = (dx * move_step, dy * move_step): x is tried
      first and put back if the box then collides; y is tried next, from the
      x just settled. */
  function Moved(x: int, y: int, w: int, h: int, shiftX: real, shiftY: real,
                 mapBlocks: int, grid: seq<char>): (p: (int, int))
    requires 0 < mapBlocks && |grid| == mapBlocks * mapBlocks
  {
    var tryX := TruncReal(x as real + shiftX);
    var newX := if CollidesWithWall(tryX, y, w, h, mapBlocks, grid) then x else tryX;
    var tryY := TruncReal(y as real + shiftY);
    var newY := if CollidesWithWall(newX, tryY, w, h, mapBlocks, grid) then y else tryY;
    (newX, newY)
  }

  /** Each coordinate ends at its trial value or exactly where it was; the
      trial of x is kept exactly when the box at (trial x, old y) is free, and
      the trial of y exactly when the box at (settled x, trial y) is free. */
  lemma MovedAxes(x: int, y: int, w: int, h: int, shiftX: real, shiftY: real,
                  mapBlocks: int, grid: seq<char>)
    requires 0 < mapBlocks && |grid| == mapBlocks * mapBlocks
    ensures var p := Moved(x, y, w, h, shiftX, shiftY, mapBlocks, grid);
            var tryX := TruncReal(x as real + shiftX);
            var tryY := TruncReal(y as real + shiftY);
            && (p.0 == tryX || p.0 == x)
            && (p.1 == tryY || p.1 == y)
            && (!CollidesWithWall(tryX, y, w, h, mapBlocks, grid) ==> p.0 == tryX)
            && (CollidesWithWall(tryX, y, w, h, mapBlocks, grid) ==> p.0 == x)
            && (!CollidesWithWall(p.0, tryY, w, h, mapBlocks, grid) ==> p.1 == tryY)
            && (CollidesWithWall(p.0, tryY, w, h, mapBlocks, grid) ==> p.1 == y)
  {
  }

  /** A player that does not collide before a move does not collide after it. */
  lemma MovedStaysFree(x: int, y: int, w: int, h: int, shiftX: real, shiftY: real,
                       mapBlocks: int, grid: seq<char>)
    requires 0 < mapBlocks && |grid| == mapBlocks * mapBlocks
    requires !CollidesWithWall(x, y, w, h, mapBlocks, grid)
    ensures var p := Moved(x, y, w, h, shiftX, shiftY, mapBlocks, grid);
            !CollidesWithWall(p.0, p.1, w, h, mapBlocks, grid)
  {
  }

  /** A move of zero leaves a free player where it is. */
  lemma MovedStill(x: int, y: int, w: int, h: int, mapBlocks: int, grid: seq<char>)
    requires 0 < mapBlocks && |grid| == mapBlocks * mapBlocks
    requires !CollidesWithWall(x, y, w, h, mapBlocks, grid)
    ensures Moved(x, y, w, h, 0.0, 0.0, mapBlocks, grid) == (x, y)
  {
    assert x as real + 0.0 == x as real && y as real + 0.0 == y as real;
    TruncRealOfInt(x);
    TruncRealOfInt(y);
  }

  /** The box of the start pose spans cells 7 and 8 on each axis. */
  lemma StartCorners()
    ensures Corners(100, 100, 8, 8, MAP_BLOCKS) == [Cell(7, 7), Cell(8, 7), Cell(7, 8), Cell(8, 8)]
  {
    assert CellSize(MAP_BLOCKS) == 12.5;
    assert 100 as real - 8 as real / 2.0 == 96.0 && 100 as real + 8 as real / 2.0 == 104.0;
    assert 96.0 / 12.5 == 7.68 && 104.0 / 12.5 == 8.32;
    assert TruncReal(7.68) == 7 && TruncReal(8.32) == 8;
  }

  /** The start pose of `main` does not collide on its grid: the four cells
      its box spans are open. */
  lemma StartPoseFree()
    ensures !CollidesWithWall(MINIMAP_WIDTH / 2, MINIMAP_HEIGHT / 2, MINIMAP_WIDTH / 25, MINIMAP_HEIGHT / 25, MAP_BLOCKS, MAP)
  {
    MapIsSquare();
    StartCorners();
    var cs := [Cell(7, 7), Cell(8, 7), Cell(7, 8), Cell(8, 8)];
    assert MAP[119] == ' ' && MAP[120] == ' ' && MAP[135] == ' ' && MAP[136] == ' ';
    assert forall k :: 0 <= k < 4 ==> !Blocks(cs[k], MAP_BLOCKS, MAP);
    assert !ScanCorners(cs, MAP_BLOCKS, MAP);
  }

  /** `player_t` of main.c: integer position and box, float angle and direction. */
  class Player {
    var x: int
    var y: int
    var w: int
    var h: int
    var angle: real
    var dx: real
    var dy: real

    /** The start pose: the middle of the minimap, a box of 200 / 25 = 8. */
    constructor ()
      ensures x == MINIMAP_WIDTH / 2 && y == MINIMAP_HEIGHT / 2
      ensures w == MINIMAP_WIDTH / 25 && h == MINIMAP_HEIGHT / 25
      ensures angle == 0.0 && dx == 0.0 && dy == 0.0
    {
      x, y := MINIMAP_WIDTH / 2, MINIMAP_HEIGHT / 2;
      w, h := MINIMAP_WIDTH / 25, MINIMAP_HEIGHT / 25;
      angle, dx, dy := 0.0, 0.0, 0.0;
    }

    predicate Free(mapBlocks: int, grid: seq<char>)
      reads this
      requires 0 < mapBlocks && |grid| == mapBlocks * mapBlocks
    {
      !CollidesWithWall(x, y, w, h, mapBlocks, grid)
    }

    /** `move_player`: the int position takes the truncated float sum; each
        axis is reverted when the box then collides. */
    method MovePlayer(moveStep: real, mapBlocks: int, grid: seq<char>)
      requires 0 < mapBlocks && |grid| == mapBlocks * mapBlocks
      modifies this`x, this`y
      ensures (x, y) == Moved(old(x), old(y), old(w), old(h), old(dx) * moveStep, old(dy) * moveStep, mapBlocks, grid)
      ensures old(Free(mapBlocks, grid)) ==> Free(mapBlocks, grid)
      ensures w == old(w) && h == old(h) && angle == old(angle) && dx == old(dx) && dy == old(dy)
    {
      var oldX, oldY := x, y;
      ghost var wasFree := Free(mapBlocks, grid);
      var newX, newY := Slide(x, y, w, h, dx * moveStep, dy * moveStep, mapBlocks, grid);
      x, y := newX, newY;
      if wasFree {
        MovedStaysFree(oldX, oldY, w, h, dx * moveStep, dy * moveStep, mapBlocks, grid);
      }
    }
  }

  /** The body of `move_player` on values: try x with the old y, then y with
      the settled x, reverting each trial whose box collides. */
  method Slide(x: int, y: int, w: int, h: int, shiftX: real, shiftY: real, mapBlocks: int, grid: seq<char>)
    returns (newX: int, newY: int)
    requires 0 < mapBlocks && |grid| == mapBlocks * mapBlocks
    ensures (newX, newY) == Moved(x, y, w, h, shiftX, shiftY, mapBlocks, grid)
  {
    newX := TruncReal(x as real + shiftX);
    if CollidesWithWall(newX, y, w, h, mapBlocks, grid) {
      newX := x;
    }
    newY := TruncReal(y as real + shiftY);
    if CollidesWithWall(newX, newY, w, h, mapBlocks, grid) {
      newY := y;
    }
  }

  /** How the loop of `draw_rays` ends: `hit`, the state before the last
      step and the state after it. */
  datatype Outcome = Outcome(hit: bool, before: Walker, last: Walker)

  /** The `while(!hit)` loop as a recursion: step, stop when off the grid,
      stop with a hit on a '#' cell, else go on. */
  function Walk(ray: Ray, w: Walker, mapBlocks: int, grid: seq<char>): Outcome
    requires ValidRay(ray) && 0 < mapBlocks && |grid| == mapBlocks * mapBlocks
    decreases Measure(ray, w, mapBlocks, mapBlocks)
  {
    var n := Advance(ray, w);
    if !InGrid(n.mapX, n.mapY, mapBlocks, mapBlocks) then Outcome(false, w, n)
    else if At(Cell(n.mapX, n.mapY), mapBlocks, grid) == '#' then Outcome(true, w, n)
    else
      AdvanceShrinks(ray, w, mapBlocks, mapBlocks);
      Walk(ray, n, mapBlocks, grid)
  }

  /** The loop ends with a hit exactly on a '#' cell on the grid, and without
      one exactly off the grid; the final state is one step from the state
      before it (so the side names the axis of the last step); the final
      distance is at least the first step's. */
  lemma {:induction false} WalkOutcome(ray: Ray, w: Walker, mapBlocks: int, grid: seq<char>)
    requires ValidRay(ray) && 0 < mapBlocks && |grid| == mapBlocks * mapBlocks
    decreases Measure(ray, w, mapBlocks, mapBlocks)
    ensures var o := Walk(ray, w, mapBlocks, grid);
            && o.last == Advance(ray, o.before)
            && (o.hit ==> InGrid(o.last.mapX, o.last.mapY, mapBlocks, mapBlocks)
                          && At(Cell(o.last.mapX, o.last.mapY), mapBlocks, grid) == '#')
            && (!o.hit ==> !InGrid(o.last.mapX, o.last.mapY, mapBlocks, mapBlocks))
            && o.last.distance >= Advance(ray, w).distance
  {
    var n := Advance(ray, w);
    if InGrid(n.mapX, n.mapY, mapBlocks, mapBlocks) && At(Cell(n.mapX, n.mapY), mapBlocks, grid) != '#' {
      AdvanceShrinks(ray, w, mapBlocks, mapBlocks);
      WalkOutcome(ray, n, mapBlocks, grid);
      DistanceNeverDecreases(ray, w);
    }
  }

  /** One unfolding of `Walk`: what the loop does with the state after one step. */
  lemma WalkStep(ray: Ray, w: Walker, mapBlocks: int, grid: seq<char>)
    requires ValidRay(ray) && 0 < mapBlocks && |grid| == mapBlocks * mapBlocks
    ensures var n := Advance(ray, w);
            && (!InGrid(n.mapX, n.mapY, mapBlocks, mapBlocks) ==> Walk(ray, w, mapBlocks, grid) == Outcome(false, w, n))
            && (InGrid(n.mapX, n.mapY, mapBlocks, mapBlocks) && At(Cell(n.mapX, n.mapY), mapBlocks, grid) == '#' ==>
                  Walk(ray, w, mapBlocks, grid) == Outcome(true, w, n))
            && (InGrid(n.mapX, n.mapY, mapBlocks, mapBlocks) && At(Cell(n.mapX, n.mapY), mapBlocks, grid) != '#' ==>
                  Walk(ray, w, mapBlocks, grid) == Walk(ray, n, mapBlocks, grid)
                  && Measure(ray, n, mapBlocks, mapBlocks) < Measure(ray, w, mapBlocks, mapBlocks))
  {
    var n := Advance(ray, w);
    if InGrid(n.mapX, n.mapY, mapBlocks, mapBlocks) {
      AdvanceShrinks(ray, w, mapBlocks, mapBlocks);
    }
  }

  /** `delta_dist_*` of main.c: the cell size over the direction component,
      with 0.000001 standing in for a component that is exactly 0. */
  function Delta(size: real, rd: real): (d: real)
    requires size > 0.0
    ensures d >= 0.0
  {
    Abs(size / LengthDivisor(rd))
  }

  /** The set-up before the loop for a ray from (`px`, `py`) along
      (`rdX`, `rdY`), with square cells of `CellSize`. */
  function RayStart(px: int, py: int, rdX: real, rdY: real, mapBlocks: int): (Ray, Walker)
    requires 0 < mapBlocks
  {
    var size := CellSize(mapBlocks);
    Start(px, py, rdX, rdY, size, size, Delta(size, rdX), Delta(size, rdY))
  }

  /** The walk of `draw_rays` starts in the player's cell. */
  lemma RayStartCell(px: int, py: int, rdX: real, rdY: real, mapBlocks: int)
    requires 0 < mapBlocks
    ensures var s := RayStart(px, py, rdX, rdY, mapBlocks);
            && ValidRay(s.0)
            && s.1.mapX == TruncReal(px as real / CellSize(mapBlocks))
            && s.1.mapY == TruncReal(py as real / CellSize(mapBlocks))
  {
  }

  /** On the grid of `main`, a walk from an inner cell always ends on a wall:
      every step from an inner cell lands on the grid, and the cells around
      the inner ones are walls. */
  lemma {:induction false} WalkFromInnerCellHits(ray: Ray, w: Walker)
    requires ValidRay(ray)
    requires 1 <= w.mapX <= 14 && 1 <= w.mapY <= 14
    decreases Measure(ray, w, MAP_BLOCKS, MAP_BLOCKS)
    ensures Walk(ray, w, MAP_BLOCKS, MAP).hit
  {
    MapIsSquare();
    var n := Advance(ray, w);
    assert InGrid(n.mapX, n.mapY, MAP_BLOCKS, MAP_BLOCKS);
    MapWalledAllRound(Cell(n.mapX, n.mapY));
    if At(Cell(n.mapX, n.mapY), MAP_BLOCKS, MAP) != '#' {
      AdvanceShrinks(ray, w, MAP_BLOCKS, MAP_BLOCKS);
      WalkFromInnerCellHits(ray, n);
    }
  }

  /** The centre of a box lies in a cell between those of its two edges. */
  lemma CentreBetweenEdges(c: real, half: real, size: real)
    requires half >= 0.0 && size > 0.0
    ensures TruncReal((c - half) / size) <= TruncReal(c / size) <= TruncReal((c + half) / size)
  {
    DivMonotoneReal(c - half, c, size);
    DivMonotoneReal(c, c + half, size);
    TruncRealMonotone((c - half) / size, c / size);
    TruncRealMonotone(c / size, (c + half) / size);
  }

  /** The corners of a box that does not collide lie in the inner cells
      1..14 of the grid of `main`. */
  lemma FreeBoxCornersInner(px: int, py: int, w: int, h: int)
    requires !CollidesWithWall(px, py, w, h, MAP_BLOCKS, MAP)
    ensures var cs := Corners(px, py, w, h, MAP_BLOCKS);
            1 <= cs[0].cx && 1 <= cs[0].cy && cs[3].cx <= 14 && cs[3].cy <= 14
  {
    MapIsSquare();
    var cs := Corners(px, py, w, h, MAP_BLOCKS);
    CollisionCases(px, py, w, h, MAP_BLOCKS, MAP);
    assert OnMap(cs[0], MAP_BLOCKS) && At(cs[0], MAP_BLOCKS, MAP) != '#';
    assert OnMap(cs[3], MAP_BLOCKS) && At(cs[3], MAP_BLOCKS, MAP) != '#';
    MapWalledAllRound(cs[0]);
    MapWalledAllRound(cs[3]);
  }

  /** The cell of a box's centre lies between the cells of its first and
      last corners. */
  lemma CentreCellBetween(x: int, y: int, w: int, h: int, mapBlocks: int)
    requires mapBlocks > 0 && 0 <= w && 0 <= h
    ensures var cs := Corners(x, y, w, h, mapBlocks);
            var size := CellSize(mapBlocks);
            && cs[0].cx <= TruncReal(x as real / size) <= cs[3].cx
            && cs[0].cy <= TruncReal(y as real / size) <= cs[3].cy
  {
    var size := CellSize(mapBlocks);
    CentreBetweenEdges(x as real, w as real / 2.0, size);
    CentreBetweenEdges(y as real, h as real / 2.0, size);
  }

  /** A player whose box does not collide on the grid of `main` sees a wall
      along every ray: the loop of `draw_rays` always ends with a hit. */
  lemma FreePlayerSeesWall(px: int, py: int, w: int, h: int, rdX: real, rdY: real)
    requires 0 <= w && 0 <= h
    requires !CollidesWithWall(px, py, w, h, MAP_BLOCKS, MAP)
    ensures var s := RayStart(px, py, rdX, rdY, MAP_BLOCKS);
            Walk(s.0, s.1, MAP_BLOCKS, MAP).hit
  {
    FreeBoxCornersInner(px, py, w, h);
    CentreCellBetween(px, py, w, h, MAP_BLOCKS);
    RayStartCell(px, py, rdX, rdY, MAP_BLOCKS);
    var s := RayStart(px, py, rdX, rdY, MAP_BLOCKS);
    WalkFromInnerCellHits(s.0, s.1);
  }

  /** The ray set-up and the `while(!hit)` loop of `draw_rays` for one ray
      from the player's position along direction (`rdX`, `rdY`). */
  method CastRay(px: int, py: int, rdX: real, rdY: real, mapBlocks: int, grid: seq<char>)
    returns (hit: bool, mapX: int, mapY: int, side: Side, distance: real)
    requires 0 < mapBlocks && |grid| == mapBlocks * mapBlocks
    ensures var s := RayStart(px, py, rdX, rdY, mapBlocks);
            var o := Walk(s.0, s.1, mapBlocks, grid);
            hit == o.hit && mapX == o.last.mapX && mapY == o.last.mapY
            && side == o.last.side && distance == o.last.distance
    ensures hit ==> InGrid(mapX, mapY, mapBlocks, mapBlocks) && At(Cell(mapX, mapY), mapBlocks, grid) == '#'
    ensures !hit ==> !InGrid(mapX, mapY, mapBlocks, mapBlocks)
  {
    var s := RayStart(px, py, rdX, rdY, mapBlocks);
    var ray := s.0;
    var lengthX, lengthY := s.1.lengthX, s.1.lengthY;
    mapX, mapY := s.1.mapX, s.1.mapY;
    hit, side, distance := false, XSide, 0.0;
    ghost var goal := Walk(ray, s.1, mapBlocks, grid);
    WalkOutcome(ray, s.1, mapBlocks, grid);
    while !hit
      invariant !hit ==> Walk(ray, Walker(mapX, mapY, lengthX, lengthY, distance, side), mapBlocks, grid) == goal
      invariant hit ==> goal.hit && goal.last == Walker(mapX, mapY, lengthX, lengthY, distance, side)
      decreases !hit, Measure(ray, Walker(mapX, mapY, lengthX, lengthY, distance, side), mapBlocks, mapBlocks)
    {
      ghost var here := Walker(mapX, mapY, lengthX, lengthY, distance, side);
      if lengthX < lengthY {
        mapX := mapX + ray.stepX;
        distance := lengthX;
        lengthX := lengthX + ray.deltaX;
        side := XSide;
      } else {
        mapY := mapY + ray.stepY;
        distance := lengthY;
        lengthY := lengthY + ray.deltaY;
        side := YSide;
      }
      assert Walker(mapX, mapY, lengthX, lengthY, distance, side) == Advance(ray, here);
      WalkStep(ray, here, mapBlocks, grid);
      if mapX < 0 || mapX >= mapBlocks || mapY < 0 || mapY >= mapBlocks {
        break;
      }
      if At(Cell(mapX, mapY), mapBlocks, grid) == '#' {
        hit := true;
      }
    }
  }

  /** `line_height` of main.c: the truncated `WINDOW_HEIGHT / distance * 50`,
      capped at the window height. Nothing floors the distance here: a
      negative one gives a negative height, which the cap lets through; a
      distance of 0 divides by zero and is excluded. */
  function LineHeight(correctedDistance: real): (lh: int)
    requires correctedDistance != 0.0
    ensures lh <= WINDOW_HEIGHT
    ensures correctedDistance > 0.0 ==> 0 <= lh
    ensures correctedDistance < 0.0 ==> lh <= 0
  {
    var k := WINDOW_HEIGHT as real;
    var raw := TruncReal(k / correctedDistance * 50.0);
    if correctedDistance > 0.0 then
      DivNonNegative(k, correctedDistance);
      MulMonotone(0.0, k / correctedDistance, 50.0);
      TruncRealMonotone(0.0, k / correctedDistance * 50.0);
      TruncRealOfInt(0);
      if raw > WINDOW_HEIGHT then WINDOW_HEIGHT else raw
    else
      DivNonNegative(k, -correctedDistance);
      assert k / correctedDistance == -(k / -correctedDistance);
      MulMonotone(k / correctedDistance, 0.0, 50.0);
      TruncRealMonotone(k / correctedDistance * 50.0, 0.0);
      TruncRealOfInt(0);
      if raw > WINDOW_HEIGHT then WINDOW_HEIGHT else raw
  }

  /** The height is the projection `WINDOW_HEIGHT / d * 50`, truncated toward
      zero, until it reaches the cap of 1200; a negative distance gives the
      truncation of a negative projection, which the cap does not touch. */
  lemma LineHeightValue(correctedDistance: real)
    requires correctedDistance != 0.0
    ensures var q := WINDOW_HEIGHT as real / correctedDistance * 50.0;
            var lh := LineHeight(correctedDistance);
            && (0.0 <= q < 1200.0 ==> lh as real <= q < lh as real + 1.0)
            && (q >= 1200.0 ==> lh == 1200)
            && (q < 0.0 ==> lh as real - 1.0 < q <= lh as real)
            && (correctedDistance > 0.0 <==> q > 0.0)
  {
    var k := WINDOW_HEIGHT as real;
    var q := k / correctedDistance * 50.0;
    if correctedDistance > 0.0 {
      assert k / correctedDistance > 0.0;
      assert q > 0.0;
      if q >= 1200.0 {
        TruncRealMonotone(1200.0, q);
        TruncRealOfInt(1200);
      }
    } else {
      assert k / -correctedDistance > 0.0;
      assert k / correctedDistance == -(k / -correctedDistance);
      assert q < 0.0;
    }
  }

  /** `line_start`: C's truncating `(WINDOW_HEIGHT - line_height) / 2`. A
      strip no taller than the window lies inside it, centred to within a
      pixel, with the odd pixel below. */
  function LineStart(lineHeight: int): (start: int)
    ensures 0 <= lineHeight <= WINDOW_HEIGHT ==> 0 <= start && start + lineHeight <= WINDOW_HEIGHT
    ensures lineHeight <= WINDOW_HEIGHT ==> WINDOW_HEIGHT - lineHeight - 2 * start == (WINDOW_HEIGHT - lineHeight) % 2
  {
    TruncDiv(WINDOW_HEIGHT - lineHeight, 2)
  }

  /** A nearer wall never gets a shorter strip. */
  lemma LineHeightAntitone(near: real, far: real)
    requires 0.0 < near <= far
    ensures LineHeight(far) <= LineHeight(near)
  {
    var k := WINDOW_HEIGHT as real;
    DivAntitone(k, near, far);
    MulMonotone(k / far, k / near, 50.0);
    TruncRealMonotone(k / far * 50.0, k / near * 50.0);
  }
}
