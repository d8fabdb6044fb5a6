/** The player of the OpenGL program (src/player.c): the four key flags set
    by `handle_keyboard`, and the integer collision resolution, remainder
    bookkeeping and boundary clamping of `handle_movement`. */
module GlPlayer {
  import opened CMath
  import opened Dda
  import opened GlMain

  /** GLFW's key codes and key actions, as `glfw3.h` numbers them. */
  const KEY_A: int := 65
  const KEY_D: int := 68
  const KEY_S: int := 83
  const KEY_W: int := 87
  const RELEASE: int := 0
  const PRESS: int := 1

  /** `move_forward`, `move_backward`, `rotate_left`, `rotate_right`. */
  datatype Flags = Flags(forward: bool, backward: bool, left: bool, right: bool)

  /** The keys `handle_keyboard` listens to. */
  predicate Listened(key: int) {
    key == KEY_W || key == KEY_S || key == KEY_A || key == KEY_D
  }

  /** The flag a listened key drives. */
  function FlagOf(f: Flags, key: int): bool
    requires Listened(key)
  {
    if key == KEY_W then f.forward
    else if key == KEY_S then f.backward
    else if key == KEY_A then f.left
    else f.right
  }

  /** One flag after an event: set on a press of its key, cleared on a
      release of it, kept otherwise. */
  function Follow(flag: bool, own: int, key: int, action: int): bool {
    if key == own && action == PRESS then true
    else if key == own && action == RELEASE then false
    else flag
  }

  /** The flags after one key event. */
  function KeyEffect(f: Flags, key: int, action: int): Flags {
    Flags(Follow(f.forward, KEY_W, key, action), Follow(f.backward, KEY_S, key, action),
          Follow(f.left, KEY_A, key, action), Follow(f.right, KEY_D, key, action))
  }

  /** A press of a listened key sets its own flag and no other. */
  lemma PressSetsOwnFlag(f: Flags, key: int)
    requires Listened(key)
    ensures FlagOf(KeyEffect(f, key, PRESS), key)
    ensures forall other :: Listened(other) && other != key ==>
              FlagOf(KeyEffect(f, key, PRESS), other) == FlagOf(f, other)
  {
  }

  /** A release of a listened key clears its own flag and no other. */
  lemma ReleaseClearsOwnFlag(f: Flags, key: int)
    requires Listened(key)
    ensures !FlagOf(KeyEffect(f, key, RELEASE), key)
    ensures forall other :: Listened(other) && other != key ==>
              FlagOf(KeyEffect(f, key, RELEASE), other) == FlagOf(f, other)
  {
  }

  /** Any other key, and any action besides press and release (a repeat,
      say), leaves every flag as it was. */
  lemma OtherEventsIgnored(f: Flags, key: int, action: int)
    requires !Listened(key) || (action != PRESS && action != RELEASE)
    ensures KeyEffect(f, key, action) == f
  {
  }

  /** Delivering the same event twice is the same as delivering it once. */
  lemma KeyEffectIdempotent(f: Flags, key: int, action: int)
    ensures KeyEffect(KeyEffect(f, key, action), key, action) == KeyEffect(f, key, action)
  {
  }

  /** The four global flags of src/player.c. */
  class Keyboard {
    var moveForward: bool
    var moveBackward: bool
    var rotateLeft: bool
    var rotateRight: bool

    constructor ()
      ensures Current() == Flags(false, false, false, false)
    {
      moveForward, moveBackward, rotateLeft, rotateRight := false, false, false, false;
    }

    function Current(): Flags
      reads this
    {
      Flags(moveForward, moveBackward, rotateLeft, rotateRight)
    }

    /** `handle_keyboard`: the window, scan code and modifiers are ignored. */
    method HandleKeyboard(key: int, action: int)
      modifies this
      ensures Current() == KeyEffect(old(Current()), key, action)
    {
      if key == KEY_W && action == PRESS { moveForward := true; }
      if key == KEY_S && action == PRESS { moveBackward := true; }
      if key == KEY_W && action == RELEASE { moveForward := false; }
      if key == KEY_S && action == RELEASE { moveBackward := false; }
      if key == KEY_A && action == PRESS { rotateLeft := true; }
      if key == KEY_D && action == PRESS { rotateRight := true; }
      if key == KEY_A && action == RELEASE { rotateLeft := false; }
      if key == KEY_D && action == RELEASE { rotateRight := false; }
    }
  }

  /** The player's position and the two sub-pixel remainders after a move. */
  datatype Motion = Motion(x: int, y: int, xRemainder: real, yRemainder: real)

  /** The flat `map_index` of the cell holding (`x`, `y`), with C's truncating
      division: `y / 30 * 8 + x / 30`. */
  function MapIndex(x: int, y: int): int {
    TruncDiv(y, BLOCKS_HEIGHT) * BLOCKS_X + TruncDiv(x, BLOCKS_WIDTH)
  }

  /** The test of `handle_movement`: the flat index is in [0, 64) and the cell
      is 0. The row and column are not checked on their own. */
  predicate Open(walls: seq<int>, index: int)
    requires |walls| == BLOCKS_X * BLOCKS_Y
  {
    0 <= index < BLOCKS_X * BLOCKS_Y && walls[index] == 0
  }

  /** Lines 82-111 of `handle_movement`: from (`x`, `y`) try the full move to
      (`newX`, `newY`), then x alone (against the old row), then y alone
      (against the old column), then none; an axis that does not move loses
      its remainder (`remX`, `remY`). */
  function Resolve(x: int, y: int, newX: int, newY: int, remX: real, remY: real, walls: seq<int>): Motion
    requires |walls| == BLOCKS_X * BLOCKS_Y
  {
    var blockX, blockY := TruncDiv(newX, BLOCKS_WIDTH), TruncDiv(newY, BLOCKS_HEIGHT);
    if Open(walls, blockY * BLOCKS_X + blockX) then Motion(newX, newY, remX, remY)
    else if Open(walls, TruncDiv(y, BLOCKS_HEIGHT) * BLOCKS_X + blockX) then Motion(newX, y, remX, 0.0)
    else if Open(walls, blockY * BLOCKS_X + TruncDiv(x, BLOCKS_WIDTH)) then Motion(x, newY, 0.0, remY)
    else Motion(x, y, 0.0, 0.0)
  }

  /** Lines 115-130: each coordinate is clamped into [0, 240), and a clamped
      axis loses its remainder. */
  function Clamp(m: Motion): Motion {
    var m1 := if m.x < 0 then m.(x := 0, xRemainder := 0.0) else m;
    var m2 := if m1.y < 0 then m1.(y := 0, yRemainder := 0.0) else m1;
    var m3 := if m2.x >= BLOCKS_X * BLOCKS_WIDTH then m2.(x := BLOCKS_X * BLOCKS_WIDTH - 1, xRemainder := 0.0) else m2;
    if m3.y >= BLOCKS_Y * BLOCKS_HEIGHT then m3.(y := BLOCKS_Y * BLOCKS_HEIGHT - 1, yRemainder := 0.0) else m3
  }

  /** Lines 71-130 for an accumulated movement (`moveX`, `moveY`): split it
      into whole pixels (a truncating cast) and remainders, resolve, clamp. */
  function Settle(x: int, y: int, moveX: real, moveY: real, walls: seq<int>): Motion
    requires |walls| == BLOCKS_X * BLOCKS_Y
  {
    var intX, intY := TruncReal(moveX), TruncReal(moveY);
    Clamp(Resolve(x, y, x + intX, y + intY, moveX - intX as real, moveY - intY as real, walls))
  }

  /** Whatever the map and the movement, the player ends inside the
      240 by 240 map, and each remainder is either cleared or the fractional
      part of its movement, smaller than one pixel. */
  lemma SettleInBounds(x: int, y: int, moveX: real, moveY: real, walls: seq<int>)
    requires |walls| == BLOCKS_X * BLOCKS_Y
    ensures var m := Settle(x, y, moveX, moveY, walls);
            && 0 <= m.x < BLOCKS_X * BLOCKS_WIDTH && 0 <= m.y < BLOCKS_Y * BLOCKS_HEIGHT
            && (m.xRemainder == 0.0 || m.xRemainder == moveX - TruncReal(moveX) as real)
            && (m.yRemainder == 0.0 || m.yRemainder == moveY - TruncReal(moveY) as real)
            && -1.0 < m.xRemainder < 1.0 && -1.0 < m.yRemainder < 1.0
  {
  }

  /** Each axis either takes its new coordinate and keeps its remainder, or
      stays put and loses its remainder. The full move is taken when its flat
      index passes; x moves only if the full or the x-only index passed, and
      y only if the full or the y-only index passed. */
  lemma ResolveAxes(x: int, y: int, newX: int, newY: int, remX: real, remY: real, walls: seq<int>)
    requires |walls| == BLOCKS_X * BLOCKS_Y
    ensures var m := Resolve(x, y, newX, newY, remX, remY, walls);
            && ((m.x == newX && m.xRemainder == remX) || (m.x == x && m.xRemainder == 0.0))
            && ((m.y == newY && m.yRemainder == remY) || (m.y == y && m.yRemainder == 0.0))
            && (Open(walls, MapIndex(newX, newY)) ==> m == Motion(newX, newY, remX, remY))
            && (m.x != x ==> Open(walls, MapIndex(newX, newY)) || Open(walls, MapIndex(newX, y)))
            && (m.y != y ==> Open(walls, MapIndex(newX, newY)) || Open(walls, MapIndex(x, newY)))
  {
  }

  /** When the full move is blocked and the x-only index passes, the player
      slides along x and loses the y remainder. */
  lemma SlideX(x: int, y: int, newX: int, newY: int, remX: real, remY: real, walls: seq<int>)
    requires |walls| == BLOCKS_X * BLOCKS_Y
    requires !Open(walls, MapIndex(newX, newY)) && Open(walls, MapIndex(newX, y))
    ensures Resolve(x, y, newX, newY, remX, remY, walls) == Motion(newX, y, remX, 0.0)
  {
  }

  /** When the full and the x-only moves are blocked and the y-only index
      passes, the player slides along y and loses the x remainder. */
  lemma SlideY(x: int, y: int, newX: int, newY: int, remX: real, remY: real, walls: seq<int>)
    requires |walls| == BLOCKS_X * BLOCKS_Y
    requires !Open(walls, MapIndex(newX, newY)) && !Open(walls, MapIndex(newX, y))
    requires Open(walls, MapIndex(x, newY))
    ensures Resolve(x, y, newX, newY, remX, remY, walls) == Motion(x, newY, 0.0, remY)
  {
  }

  /** When all three indices fail, the player stays and loses both remainders. */
  lemma NoMove(x: int, y: int, newX: int, newY: int, remX: real, remY: real, walls: seq<int>)
    requires |walls| == BLOCKS_X * BLOCKS_Y
    requires !Open(walls, MapIndex(newX, newY)) && !Open(walls, MapIndex(newX, y))
    requires !Open(walls, MapIndex(x, newY))
    ensures Resolve(x, y, newX, newY, remX, remY, walls) == Motion(x, y, 0.0, 0.0)
  {
  }

  /** Each clamp clears its own axis's remainder and no other: an axis the
      clamps move loses its remainder, an axis they leave keeps it. */
  lemma ClampClears(m: Motion)
    ensures var c := Clamp(m);
            && (c.x != m.x ==> c.xRemainder == 0.0)
            && (c.x == m.x ==> c.xRemainder == m.xRemainder)
            && (c.y != m.y ==> c.yRemainder == 0.0)
            && (c.y == m.y ==> c.yRemainder == m.yRemainder)
  {
  }

  /** The player either stays where it was or stands at a position whose
      flat index passed the test: the index each check computes is the
      `MapIndex` of the position it accepts. */
  lemma ResolveLandsOnTestedCell(x: int, y: int, newX: int, newY: int, remX: real, remY: real, walls: seq<int>)
    requires |walls| == BLOCKS_X * BLOCKS_Y
    ensures var m := Resolve(x, y, newX, newY, remX, remY, walls);
            (m.x == x && m.y == y) || Open(walls, MapIndex(m.x, m.y))
  {
  }

  /** A movement of less than one pixel on each axis leaves a player inside
      the map where it is, whatever the map. */
  lemma SubPixelMoveStaysPut(x: int, y: int, moveX: real, moveY: real, walls: seq<int>)
    requires |walls| == BLOCKS_X * BLOCKS_Y
    requires 0 <= x < BLOCKS_X * BLOCKS_WIDTH && 0 <= y < BLOCKS_Y * BLOCKS_HEIGHT
    requires -1.0 < moveX < 1.0 && -1.0 < moveY < 1.0
    ensures var m := Settle(x, y, moveX, moveY, walls);
            m.x == x && m.y == y
  {
    TruncRealOfInt(0);
  }

  /** The range test is on the flat index alone: a column of 8 passes it and
      reads the first cell of the next row. */
  lemma ColumnEightReadsNextRow(row: int)
    requires 0 <= row < BLOCKS_Y - 1
    ensures 0 <= row * BLOCKS_X + BLOCKS_X < BLOCKS_X * BLOCKS_Y
    ensures row * BLOCKS_X + BLOCKS_X == CellIndex(0, row + 1)
  {
  }

  /** On a map walled all round, the position of a player inside the map
      whose cell is open lies in an inner cell. */
  lemma OpenCellIsInner(x: int, y: int, walls: seq<int>)
    requires |walls| == BLOCKS_X * BLOCKS_Y && Enclosed(walls)
    requires 0 <= x < BLOCKS_X * BLOCKS_WIDTH && 0 <= y < BLOCKS_Y * BLOCKS_HEIGHT
    ensures InGrid(TruncDiv(x, BLOCKS_WIDTH), TruncDiv(y, BLOCKS_HEIGHT), BLOCKS_X, BLOCKS_Y)
    ensures MapIndex(x, y) == CellIndex(TruncDiv(x, BLOCKS_WIDTH), TruncDiv(y, BLOCKS_HEIGHT))
    ensures Open(walls, MapIndex(x, y)) ==> BLOCKS_WIDTH <= x < 7 * BLOCKS_WIDTH && BLOCKS_HEIGHT <= y < 7 * BLOCKS_HEIGHT
  {
  }

  /** On a map walled all round, a player in an open cell whose whole-pixel
      move is less than a cell on each axis ends in an open cell: no index of
      such a move leaves its row, so the flat test is exact, and no clamp
      applies. */
  lemma {:induction false} SmallStepStaysOpen(x: int, y: int, newX: int, newY: int, remX: real, remY: real, walls: seq<int>)
    requires |walls| == BLOCKS_X * BLOCKS_Y && Enclosed(walls)
    requires 0 <= x < BLOCKS_X * BLOCKS_WIDTH && 0 <= y < BLOCKS_Y * BLOCKS_HEIGHT
    requires Open(walls, MapIndex(x, y))
    requires -BLOCKS_WIDTH < newX - x < BLOCKS_WIDTH && -BLOCKS_HEIGHT < newY - y < BLOCKS_HEIGHT
    ensures var m := Clamp(Resolve(x, y, newX, newY, remX, remY, walls));
            Open(walls, MapIndex(m.x, m.y))
  {
    OpenCellIsInner(x, y, walls);
    assert 0 < newX < BLOCKS_X * BLOCKS_WIDTH && 0 < newY < BLOCKS_Y * BLOCKS_HEIGHT;
    var m := Resolve(x, y, newX, newY, remX, remY, walls);
    ResolveLandsOnTestedCell(x, y, newX, newY, remX, remY, walls);
    ResolveAxes(x, y, newX, newY, remX, remY, walls);
    assert Clamp(m) == m;
  }

  /** The same for `handle_movement`'s accumulated movement: less than 30
      pixels on each axis keeps a player in an open cell of a map walled all
      round, such as the built one. */
  lemma SmallMoveStaysOpen(x: int, y: int, moveX: real, moveY: real, walls: seq<int>)
    requires |walls| == BLOCKS_X * BLOCKS_Y && Enclosed(walls)
    requires 0 <= x < BLOCKS_X * BLOCKS_WIDTH && 0 <= y < BLOCKS_Y * BLOCKS_HEIGHT
    requires Open(walls, MapIndex(x, y))
    requires -30.0 < moveX < 30.0 && -30.0 < moveY < 30.0
    ensures var m := Settle(x, y, moveX, moveY, walls);
            Open(walls, MapIndex(m.x, m.y))
  {
    var intX, intY := TruncReal(moveX), TruncReal(moveY);
    var newX, newY, remX, remY := x + intX, y + intY, moveX - intX as real, moveY - intY as real;
    ghost var m := Settle(x, y, moveX, moveY, walls);
    assert m == Clamp(Resolve(x, y, newX, newY, remX, remY, walls));
    SmallStepStaysOpen(x, y, newX, newY, remX, remY, walls);
    assert Open(walls, MapIndex(m.x, m.y));
  }

  /** Resolution as `handle_movement` evidently intends it: a cell is tried
      only when its column and its row are both on the grid. */
  predicate CellOpen(walls: seq<int>, column: int, row: int)
    requires |walls| == BLOCKS_X * BLOCKS_Y
  {
    InGrid(column, row, BLOCKS_X, BLOCKS_Y) && walls[CellIndex(column, row)] == 0
  }

  function ResolveChecked(x: int, y: int, newX: int, newY: int, remX: real, remY: real, walls: seq<int>): Motion
    requires |walls| == BLOCKS_X * BLOCKS_Y
  {
    var blockX, blockY := TruncDiv(newX, BLOCKS_WIDTH), TruncDiv(newY, BLOCKS_HEIGHT);
    if CellOpen(walls, blockX, blockY) then Motion(newX, newY, remX, remY)
    else if CellOpen(walls, blockX, TruncDiv(y, BLOCKS_HEIGHT)) then Motion(newX, y, remX, 0.0)
    else if CellOpen(walls, TruncDiv(x, BLOCKS_WIDTH), blockY) then Motion(x, newY, 0.0, remY)
    else Motion(x, y, 0.0, 0.0)
  }

  function SettleChecked(x: int, y: int, moveX: real, moveY: real, walls: seq<int>): Motion
    requires |walls| == BLOCKS_X * BLOCKS_Y
  {
    Clamp(ResolveChecked(x, y, x + TruncReal(moveX), y + TruncReal(moveY),
                         moveX - TruncReal(moveX) as real, moveY - TruncReal(moveY) as real, walls))
  }

  /** The cell of a clamped coordinate whose truncated cell index is on the
      grid is that index: a coordinate in (-30, 0) truncates to cell 0, and
      the clamp puts it at 0, still in cell 0. */
  lemma ClampKeepsCell(c: int)
    requires 0 <= TruncDiv(c, BLOCKS_WIDTH) < BLOCKS_X
    ensures var clamped := if c < 0 then 0 else c;
            0 <= clamped < BLOCKS_X * BLOCKS_WIDTH && TruncDiv(clamped, BLOCKS_WIDTH) == TruncDiv(c, BLOCKS_WIDTH)
  {
  }

  /** With the row and column checked, a player in an open cell ends in an
      open cell inside the map, on any map and for any target position and
      remainders, so for any accumulated movement of `handle_movement`. */
  lemma ResolveCheckedStaysOpen(x: int, y: int, newX: int, newY: int, remX: real, remY: real, walls: seq<int>)
    requires |walls| == BLOCKS_X * BLOCKS_Y
    requires CellOpen(walls, TruncDiv(x, BLOCKS_WIDTH), TruncDiv(y, BLOCKS_HEIGHT))
    ensures var m := Clamp(ResolveChecked(x, y, newX, newY, remX, remY, walls));
            && 0 <= m.x < BLOCKS_X * BLOCKS_WIDTH && 0 <= m.y < BLOCKS_Y * BLOCKS_HEIGHT
            && CellOpen(walls, TruncDiv(m.x, BLOCKS_WIDTH), TruncDiv(m.y, BLOCKS_HEIGHT))
  {
    var r := ResolveChecked(x, y, newX, newY, remX, remY, walls);
    ResolveCheckedOpen(x, y, newX, newY, remX, remY, walls);
    ClampKeepsOpen(r, walls);
  }

  /** Every branch of the checked resolution ends in an open cell when the
      player starts in one. */
  lemma ResolveCheckedOpen(x: int, y: int, newX: int, newY: int, remX: real, remY: real, walls: seq<int>)
    requires |walls| == BLOCKS_X * BLOCKS_Y
    requires CellOpen(walls, TruncDiv(x, BLOCKS_WIDTH), TruncDiv(y, BLOCKS_HEIGHT))
    ensures var r := ResolveChecked(x, y, newX, newY, remX, remY, walls);
            CellOpen(walls, TruncDiv(r.x, BLOCKS_WIDTH), TruncDiv(r.y, BLOCKS_HEIGHT))
  {
  }

  /** Clamping a position whose cell is open leaves it in that cell. */
  lemma ClampKeepsOpen(m: Motion, walls: seq<int>)
    requires |walls| == BLOCKS_X * BLOCKS_Y
    requires CellOpen(walls, TruncDiv(m.x, BLOCKS_WIDTH), TruncDiv(m.y, BLOCKS_HEIGHT))
    ensures var c := Clamp(m);
            && 0 <= c.x < BLOCKS_X * BLOCKS_WIDTH && 0 <= c.y < BLOCKS_Y * BLOCKS_HEIGHT
            && CellOpen(walls, TruncDiv(c.x, BLOCKS_WIDTH), TruncDiv(c.y, BLOCKS_HEIGHT))
  {
    ClampKeepsCell(m.x);
    ClampKeepsCell(m.y);
  }

  /** Where the flat test goes wrong on the built map: from (209, 45), an
      open inner cell, a movement of 61 pixels in x gives column 9 of row 1,
      which the flat index reads as column 1 of row 2, an open cell. The full
      move is taken, the clamp pulls x back to 239, and the player ends in
      the wall cell at column 7 of row 1. With the checked test it stays. */
  lemma AliasedMoveEntersWall()
    ensures Open(BorderWalls, MapIndex(209, 45))
    ensures Settle(209, 45, 61.0, 0.0, BorderWalls) == Motion(239, 45, 0.0, 0.0)
    ensures !Open(BorderWalls, MapIndex(239, 45))
    ensures SettleChecked(209, 45, 61.0, 0.0, BorderWalls) == Motion(209, 45, 0.0, 0.0)
  {
    TruncRealOfInt(61);
    TruncRealOfInt(0);
    assert MapIndex(209, 45) == CellIndex(6, 1) && MapIndex(239, 45) == CellIndex(7, 1);
    BorderOpenCells(7, 1);
    assert TruncDiv(270, BLOCKS_WIDTH) == 9;
    BorderOpenCells(1, 2);
    assert CellIndex(1, 2) == 17;
    BorderOpenCells(6, 1);
    assert !CellOpen(BorderWalls, 9, 1);
  }

  /** The pose the aliased move leaves, (239, 45) in the wall cell at column
      7 of row 1, makes `draw_rays` miss: along (1, 0.5) the first vertical
      grid line is 1 away and the first horizontal one 30, so the first step
      leaves the grid through column 8. `wall_type` keeps its initial -1 and
      the texture index of the strip falls before the atlas. */
  lemma AliasedPoseRayMisses()
    ensures var s := RayStart(239, 45, 1.0, 0.5);
            var o := Walk(s.0, s.1, -1, BorderWalls);
            && !o.hit && o.wallType == -1
            && AtlasIndex(o.wallType, 0, 0) < 0
  {
    var s := RayStart(239, 45, 1.0, 0.5);
    assert s.1.mapX == 7 && s.1.mapY == 1;
    assert s.1.lengthX == 1.0 && s.1.lengthY == 30.0;
    assert !InGrid(Advance(s.0, s.1).mapX, Advance(s.0, s.1).mapY, BLOCKS_X, BLOCKS_Y);
    AtlasIndexWithoutHit(-1, 0, 0);
  }

  /** Lines 82-111 of `handle_movement` on the map array. */
  method TryMove(walls: array<int>, x: int, y: int, newX: int, newY: int, xRem: real, yRem: real)
    returns (px: int, py: int, pxRem: real, pyRem: real)
    requires walls.Length == BLOCKS_X * BLOCKS_Y
    ensures Motion(px, py, pxRem, pyRem) == Resolve(x, y, newX, newY, xRem, yRem, walls[..])
  {
    var blockX := TruncDiv(newX, BLOCKS_WIDTH);
    var blockY := TruncDiv(newY, BLOCKS_HEIGHT);
    var mapIndex := blockY * BLOCKS_X + blockX;
    px, py, pxRem, pyRem := x, y, xRem, yRem;
    if 0 <= mapIndex < BLOCKS_X * BLOCKS_Y && walls[mapIndex] == 0 {
      px, py := newX, newY;
    } else {
      mapIndex := TruncDiv(y, BLOCKS_HEIGHT) * BLOCKS_X + blockX;
      if 0 <= mapIndex < BLOCKS_X * BLOCKS_Y && walls[mapIndex] == 0 {
        px := newX;
        pyRem := 0.0;
      } else {
        mapIndex := blockY * BLOCKS_X + TruncDiv(x, BLOCKS_WIDTH);
        if 0 <= mapIndex < BLOCKS_X * BLOCKS_Y && walls[mapIndex] == 0 {
          py := newY;
          pxRem := 0.0;
        } else {
          pxRem := 0.0;
          pyRem := 0.0;
        }
      }
    }
  }

  /** Lines 71-130 of `handle_movement` on values: split the accumulated
      movement, resolve it on the map array, clamp. */
  method Step(walls: array<int>, x: int, y: int, moveX: real, moveY: real)
    returns (px: int, py: int, xRem: real, yRem: real)
    requires walls.Length == BLOCKS_X * BLOCKS_Y
    ensures Motion(px, py, xRem, yRem) == Settle(x, y, moveX, moveY, walls[..])
    ensures 0 <= px < BLOCKS_X * BLOCKS_WIDTH && 0 <= py < BLOCKS_Y * BLOCKS_HEIGHT
  {
    var intMoveX := TruncReal(moveX);
    var intMoveY := TruncReal(moveY);
    xRem := moveX - intMoveX as real;
    yRem := moveY - intMoveY as real;
    var newX := x + intMoveX;
    var newY := y + intMoveY;
    ghost var cells := walls[..];
    ghost var resolved := Resolve(x, y, newX, newY, xRem, yRem, cells);
    assert Settle(x, y, moveX, moveY, cells) == Clamp(resolved);
    px, py, xRem, yRem := TryMove(walls, x, y, newX, newY, xRem, yRem);
    if px < 0 {
      px, xRem := 0, 0.0;
    }
    if py < 0 {
      py, yRem := 0, 0.0;
    }
    if px >= BLOCKS_X * BLOCKS_WIDTH {
      px, xRem := BLOCKS_X * BLOCKS_WIDTH - 1, 0.0;
    }
    if py >= BLOCKS_Y * BLOCKS_HEIGHT {
      py, yRem := BLOCKS_Y * BLOCKS_HEIGHT - 1, 0.0;
    }
    assert Motion(px, py, xRem, yRem) == Clamp(resolved);
  }

  /** `player_t` of src/player.h. */
  class Player {
    var x: int
    var y: int
    var w: int
    var h: int
    var angle: real
    var dx: real
    var dy: real

    /** The start pose of `main`: the middle of the map, a box of 240 / 25 = 9,
        facing `angle` (pi in the program). */
    constructor (angle0: real)
      ensures x == MINIMAP_WIDTH / 2 && y == MINIMAP_HEIGHT / 2
      ensures w == MINIMAP_WIDTH / 25 && h == MINIMAP_HEIGHT / 25
      ensures angle == angle0 && dx == 0.0 && dy == 0.0
    {
      x, y := MINIMAP_WIDTH / 2, MINIMAP_HEIGHT / 2;
      w, h := MINIMAP_WIDTH / 25, MINIMAP_HEIGHT / 25;
      angle, dx, dy := angle0, 0.0, 0.0;
    }
  }

  /** The two `static` remainders of `handle_movement`. */
  class Movement {
    var xRemainder: real
    var yRemainder: real

    constructor ()
      ensures xRemainder == 0.0 && yRemainder == 0.0
    {
      xRemainder, yRemainder := 0.0, 0.0;
    }

    /** `handle_movement` from line 58 on: `stepX` and `stepY` are what the
        flags add to the remainders this frame (`dx * d_time` forward, minus
        it backward). */
    method HandleMovement(player: Player, walls: array<int>, stepX: real, stepY: real)
      requires walls.Length == BLOCKS_X * BLOCKS_Y
      modifies this, player`x, player`y
      ensures Motion(player.x, player.y, xRemainder, yRemainder)
              == Settle(old(player.x), old(player.y), old(xRemainder) + stepX, old(yRemainder) + stepY, old(walls[..]))
      ensures 0 <= player.x < BLOCKS_X * BLOCKS_WIDTH && 0 <= player.y < BLOCKS_Y * BLOCKS_HEIGHT
      ensures player.w == old(player.w) && player.h == old(player.h)
    {
      var x, y, moveX, moveY := player.x, player.y, xRemainder + stepX, yRemainder + stepY;
      ghost var settled := Settle(x, y, moveX, moveY, walls[..]);
      var px, py, xRem, yRem := Step(walls, x, y, moveX, moveY);
      assert Motion(px, py, xRem, yRem) == settled;
      player.x, player.y := px, py;
      xRemainder, yRemainder := xRem, yRem;
    }
  }
}
