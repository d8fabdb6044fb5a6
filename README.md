# A verified model of a small grid raycaster

The repository holds two first-person raycasters that share one idea. The
player stands on a square grid of cells. For each screen strip a ray is
walked from cell to cell ("DDA" traversal) until it reaches a wall. The
distance to that wall sets the height of the strip: a fixed constant divided
by the distance, truncated to an integer and capped.

- **The SDL program** (`main.c`) has a 16 by 16 grid of `'#'` walls drawn into a
  200 by 200 pixel minimap. Its player has an 8 by 8 bounding box that slides
  along walls, one axis at a time.
- **The OpenGL program** (`src/main.c`, `src/player.c`) has an 8 by 8 grid of
  numbered wall kinds, built by loops in `main`. Its player moves in whole
  pixels and carries the fractional part of each move to the next frame in
  two sub-pixel remainders. Collisions are tested on the one cell holding the
  player's position. Strips are textured from an atlas indexed by wall kind,
  32 by 32 texels of three bytes to a kind.

The model has five modules:

- `CMath` (`cmath.dfy`) holds C's truncating integer division and float-to-int
  cast. They differ from Dafny's Euclidean `/` and `Floor` for negative
  operands.
- `Dda` (`dda.dfy`) holds the ray set-up and the step both traversal loops take.
  It proves termination measures, tie-breaking and that the recorded distance
  never decreases.
- `SdlMain` (`sdl_main.dfy`) covers `main.c`: `collides_with_wall`, the
  `move_player` method on a `Player` class, the traversal loop as a method
  proved against a recursive `Walk`, and the line-height arithmetic.
- `GlMain` (`gl_main.dfy`) covers `src/main.c`:
  - the two map-building loops, as methods over arrays;
  - the traversal loop that records `wall_type`;
  - the distance floor and the line-height cap;
  - the texture column, the texture row and the atlas index;
  - the strip loop.
- `GlPlayer` (`gl_player.dfy`) covers `src/player.c`: the four key flags as a
  `Keyboard` class, and `handle_movement` as a method on a `Movement` class.
  `Movement` owns the two `static` remainders and is proved against a pure
  `Settle` function.

Floats are modelled as mathematical reals (no rounding); C's `int` is
unbounded. Three behaviours of the code are worth knowing before reading the
model:

- **Collision test in the OpenGL program.** The OpenGL program tests only the
  cell that holds the player's position, not its bounding box. Any flat index
  inside [0, 64) counts as in range (`src/player.c:82-101`), so a column
  index of 8 reads the next row (see Findings).
- **Distance in the SDL program.** The SDL program puts no floor under the
  corrected distance before dividing by it (`main.c:207-208`). The OpenGL
  program floors it at 0.1 (`src/main.c:144`).
- **A ray that leaves the grid.** After a miss, the OpenGL program still reads
  the texture atlas with the last `wall_type` it read. That value is never
  positive, so the index falls before the atlas
  (`GlMain.AtlasIndexWithoutHit`).

## Model

| member | source | states |
|---|---|---|
| CMath.TruncDiv | src/player.c:82-83 | C's `int /` by a positive divisor: rounds toward zero, bracketing the dividend from below for non-negative and from above for negative dividends |
| CMath.TruncReal | main.c:71-74 | C's `(int)` cast of a float: the largest whole number not above a non-negative value, the smallest not below a negative one |
| CMath.TruncDivOdd | src/player.c:82-83 | truncating division commutes with negation |
| CMath.TruncDivTowardZero | src/player.c:82-83 | a dividend in (-30, 0) gives cell 0 where Euclidean division would give -1 |
| CMath.TruncRealTowardZero | main.c:71-74 | a value in (-1, 0) casts to 0, not to its floor -1 |
| CMath.TruncRealMonotone | src/main.c:146 | the cast is monotone |
| Dda.LengthDivisor | main.c:163-164 | the divisor of `ray_length_*` is never 0; it is the component itself when that is not 0 |
| Dda.Start | main.c:151-167 | the ray set-up: cell of the player by truncation; step signs are -1 exactly for negative components; deltas as given; distance 0, side x |
| Dda.FirstCrossing | main.c:163-167 | reference definition of the distance along the ray to the first grid line on one axis; its properties are stated by `Dda.FirstCrossingAhead` and `Dda.FirstCrossingZeroComponent` |
| Dda.FirstCrossingAhead | main.c:163-167 | from a non-negative position, a non-zero component puts the first grid-line crossing at distance 0 or more |
| Dda.FirstCrossingZeroComponent | main.c:163-164 | a component of exactly 0 puts the first crossing on that axis at or behind the player |
| Dda.Advance | main.c:174-185 | reference definition of one DDA step, shared with src/main.c:115-126; its properties are stated by `Dda.AdvanceMovesOneAxis`, `Dda.AdvanceSettles`, `Dda.DistanceNeverDecreases` and `Dda.AdvanceShrinks` |
| Dda.AdvanceMovesOneAxis | main.c:174-185 | one step moves exactly one cell index by its step; x moves iff its length is strictly smaller (a tie moves y); the side and the recorded distance name that axis |
| Dda.AdvanceSettles | main.c:174-185 | after a step, the recorded distance is at most both accumulated lengths |
| Dda.DistanceNeverDecreases | main.c:174-185 | successive values of `ray_distance` never decrease |
| Dda.AdvanceShrinks | main.c:173-187 | a step that stays on the grid uses up one unit of the loop's termination measure |
| SdlMain.MapIsSquare | main.c:245-264 | the grid has `map_blocks` squared cells, with `map_blocks` 16 |
| SdlMain.MapBorderRows | main.c:246-261 | the first and last rows of the grid are walls |
| SdlMain.MapBorderColumns | main.c:246-261 | the first and last columns of the grid are walls |
| SdlMain.MapWalledAllRound | main.c:245-262 | every open cell of the grid is an inner cell |
| SdlMain.CellSize | main.c:62-63 | the cell size is positive and the cells fill the minimap exactly |
| SdlMain.Corners | main.c:65-75 | the box has four corner cells; the body lists them in the order of the `corners` array, and `SdlMain.StartCorners` pins that order for the start pose |
| SdlMain.CollidesWithWall | main.c:61-86 | reference definition of the collision test on the box corners; its properties are stated by `SdlMain.ScanCorners`, `SdlMain.CollisionCases`, `SdlMain.FreeBoxInsideMap` and `SdlMain.FreeBoxCornersInner` |
| SdlMain.ScanCorners | main.c:77-85 | the search loop reports a collision iff some corner cell is off the grid or holds `'#'` |
| SdlMain.CollisionCases | main.c:70-85 | a corner off the grid makes the box collide; the box is free iff all four corners are on the grid and none holds `'#'` |
| SdlMain.CornerCellTruncates | main.c:65-74 | a corner coordinate less than one cell left of (or above) the grid truncates to cell 0, not -1 |
| SdlMain.FreeBoxInsideMap | main.c:61-86 | a free box lies in the minimap, except that the left and top edges may stick out by less than a cell |
| SdlMain.Moved | main.c:88-101 | reference definition of the one-axis-at-a-time slide; its properties are stated by `SdlMain.MovedAxes`, `SdlMain.MovedStaysFree`, `SdlMain.MovedStill`, `SdlMain.Slide` and `SdlMain.Player.MovePlayer` |
| SdlMain.MovedAxes | main.c:89-100 | x is tried first; the y trial uses the settled x; each coordinate ends at its trial value iff that trial box is free, else exactly at its old value |
| SdlMain.MovedStaysFree | main.c:88-101 | a player that does not collide before a move does not collide after it |
| SdlMain.MovedStill | main.c:88-101 | a move of zero leaves a free player where it is |
| SdlMain.StartCorners | main.c:65-75 | the start box's corners are the cells (7, 7), (8, 7), (7, 8) and (8, 8), in that order |
| SdlMain.StartPoseFree | main.c:232-262 | the start pose does not collide on the grid |
| SdlMain.Player.constructor | main.c:232-240 | the start pose: centre of the minimap, an 8 by 8 box, angle and direction 0 |
| SdlMain.Slide | main.c:88-101 | the two trials and their reverts compute `Moved` |
| SdlMain.Player.MovePlayer | main.c:88-101 | the new position is `Moved` of the old pose and the shift `dx*move_step`, `dy*move_step`; a free player stays free; `w`, `h`, `angle`, `dx`, `dy` are unchanged |
| SdlMain.Walk | main.c:173-190 | reference definition of the DDA loop on the SDL grid; its properties are stated by `SdlMain.WalkOutcome`, `SdlMain.WalkFromInnerCellHits`, `SdlMain.FreePlayerSeesWall` and `SdlMain.CastRay` |
| SdlMain.RayStart | main.c:151-167 | reference definition of the ray set-up (start cell, deltas, steps, first crossings); its properties are stated by `SdlMain.Delta` and `SdlMain.FreePlayerSeesWall` |
| SdlMain.WalkOutcome | main.c:173-190 | the loop ends with a hit exactly on a `'#'` cell on the grid, and without one exactly off the grid; the last state is one step from the one before it; the distance never falls below the first step's |
| SdlMain.Delta | main.c:160-161 | `delta_dist_*` is non-negative |
| SdlMain.WalkFromInnerCellHits | main.c:173-190 | on the grid of `main`, a walk from an inner cell always ends with a hit |
| SdlMain.FreeBoxCornersInner | main.c:61-86 | the corner cells of a box that does not collide on the grid of `main` lie in the inner cells 1 to 14 |
| SdlMain.CentreCellBetween | main.c:65-75 | the cell of a box's centre, as `draw_rays` takes it, lies between the cells of its first and last corners |
| SdlMain.FreePlayerSeesWall | main.c:151-190 | a player whose box does not collide sees a wall along every ray |
| SdlMain.CastRay | main.c:151-190 | the loop's result is `Walk` of the set-up state; a hit is on a `'#'` cell on the grid, a miss is off the grid |
| SdlMain.LineHeight | main.c:207-208 | the strip height is capped at the window height; it is non-negative for a positive distance and non-positive for a negative one; its value is stated by `SdlMain.LineHeightValue` |
| SdlMain.LineHeightValue | main.c:207-208 | with q = 1200 / d * 50, the height is q truncated toward zero when q lies below the cap of 1200 (rounded down for a positive distance, up for a negative one) and 1200 when q reaches the cap; q is positive exactly when d is |
| SdlMain.LineStart | main.c:210 | a strip no taller than the window lies inside it, centred to within the odd pixel |
| SdlMain.LineHeightAntitone | main.c:207-208 | a nearer wall never gets a shorter strip |
| GlMain.Dimensions | src/utils.h:5-15 | the minimap and block constants are the macros of `utils.h` evaluated (a 240-pixel minimap, 30-pixel blocks); the strip width is `draw_rays`' `WINDOW_WIDTH / num_rays` with its local `num_rays` of 120; the atlas size of 61440 bytes is assumed, 20 kinds of 32 by 32 three-byte texels |
| GlMain.CellIndex | src/main.c:130 | the flat index of an on-grid cell lies in [0, 64) |
| GlMain.CellIndexSplits | src/main.c:205 | the flat index splits back into row and column |
| GlMain.BorderCells | src/main.c:201-216 | a border cell holds `(i*8+j)%20+1` in [1, 20] and an inner cell 0; the floor map is 1 exactly on the border, 0 elsewhere |
| GlMain.BorderOpenCells | src/main.c:201-208 | on the built map a cell is open iff both its indices lie in [1, 6], and a wall iff not |
| GlMain.BorderWallsEnclosed | src/main.c:201-208 | the built map is walled all round |
| GlMain.InitWalls | src/main.c:201-208 | the loops leave `map_walls` equal to the border-numbered map |
| GlMain.InitFloor | src/main.c:209-216 | the loops leave `map_floor` equal to the border floor map |
| GlMain.Delta | src/main.c:100-101 | `delta_dist_*` is the cell size over the component's magnitude, or over 0.000001 when that magnitude is at most 0.000001 |
| GlMain.RayStart | src/main.c:91-108 | reference definition of the ray set-up of `draw_rays`; its properties are stated by `GlMain.Delta`, `GlMain.RayFromInnerCellHits` and `GlPlayer.AliasedPoseRayMisses` |
| GlMain.Walk | src/main.c:114-132 | reference definition of the DDA loop with its `wall_type`; its properties are stated by `GlMain.WalkOutcome`, `GlMain.WalkFromInnerCellHits`, `GlMain.RayFromInnerCellHits`, `GlMain.Trace` and `GlMain.CastRay` |
| GlMain.WalkOutcome | src/main.c:114-132 | the loop ends with a hit exactly on an on-grid cell whose kind is positive and equals `wall_type`; otherwise it ends off the grid with a `wall_type` that is not positive; the last step is one step from the state before it |
| GlMain.WalkFromInnerCellHits | src/main.c:114-132 | on the built map, a walk from an inner cell always hits, with a wall kind in [1, 20] |
| GlMain.InnerCellOfPosition | src/main.c:91-92 | a position in [30, 210) truncates to an inner cell index |
| GlMain.RayFromInnerCellHits | src/main.c:91-132 | a player in an inner cell of the built map sees a wall of kind [1, 20] along every ray |
| GlMain.Trace | src/main.c:109-132 | the loop computes `Walk` from its start state with `wall_type` -1 |
| GlMain.CastRay | src/main.c:91-132 | set-up plus loop: the result is `Walk` of the set-up; a hit is on an on-grid cell of positive kind equal to `wall_type`; a miss is off the grid with `wall_type` not positive |
| GlMain.FloorDistance | src/main.c:144 | the corrected distance is never below 0.1, and is unchanged from 0.1 up |
| GlMain.LineHeight | src/main.c:146-147 | the strip height lies in [0, 3600]; its value is stated by `GlMain.LineHeightValue` |
| GlMain.LineHeightValue | src/main.c:143-147 | with q = 1200 / max(d, 0.1) * 25, the height is q rounded down when q is below the cap of 3600, and 3600 when q reaches it |
| GlMain.LineHeightAntitone | src/main.c:143-147 | a nearer wall never gets a shorter strip |
| GlMain.LineHeightCappedNear | src/main.c:144-147 | every distance up to 8 gets the capped height 3600 |
| GlMain.LineStart | src/main.c:148 | strips no taller than the window lie inside it, rounded toward the top; taller ones start at or above 0, rounded toward the bottom |
| GlMain.TextureColumn | src/main.c:153-164 | the column is mirrored to `31 - raw` iff (x side and `rd_x < 0`) or (y side and `rd_y > 0`), kept otherwise, and stays in [0, 31] |
| GlMain.TextureColumnInvolution | src/main.c:158-163 | mirroring twice gives back the column |
| GlMain.TextureRow | src/main.c:170-171 | the row lies in [0, 31]; inside the strip the `% 32` never wraps |
| GlMain.TextureRowMonotone | src/main.c:171 | texture rows do not go back up as the strip is drawn down |
| GlMain.AtlasIndex | src/main.c:172 | reference definition of the byte offset of a texel in the atlas; its properties are stated by `GlMain.AtlasIndexInRange`, `GlMain.AtlasIndexDecodes` and `GlMain.AtlasIndexWithoutHit` |
| GlMain.AtlasIndexInRange | src/main.c:172-175 | for a wall kind in [1, 20] and a texel in range, `index` and `index + 2` lie in [0, 61440) |
| GlMain.AtlasIndexDecodes | src/main.c:172 | the index decodes back to the wall kind, the row and the column, so distinct texels never share bytes |
| GlMain.AtlasIndexWithoutHit | src/main.c:111-172 | with a `wall_type` that is not positive, as after a miss, the index is negative |
| GlMain.StripSamples | src/main.c:169-175 | reference definition of the texels one strip samples; its properties are stated by `GlMain.StripCount`, `GlMain.StripRows`, `GlMain.StripTextureRows`, `GlMain.StripIndicesInAtlas` and `GlMain.DrawStrip` |
| GlMain.StripCount | src/main.c:169 | the loop makes no pass for a non-positive height, else the least number of 15-pixel steps covering it |
| GlMain.StripRows | src/main.c:169-170 | passes start at `line_start`, step by 15 and stay inside the strip, reaching its last 15 pixels |
| GlMain.StripTextureRows | src/main.c:171 | every pass's texture row lies in [0, 31], and rows never go back up |
| GlMain.StripIndicesInAtlas | src/main.c:172-175 | with a wall kind in [1, 20] and a column in [0, 31], every byte the strip reads is inside the atlas |
| GlMain.DrawStrip | src/main.c:169-178 | the loop's passes are exactly `StripSamples` |
| GlPlayer.KeyEffect | src/player.c:19-29 | reference definition of how one key event changes the flags; its properties are stated by `GlPlayer.PressSetsOwnFlag`, `GlPlayer.ReleaseClearsOwnFlag`, `GlPlayer.OtherEventsIgnored`, `GlPlayer.KeyEffectIdempotent` and `GlPlayer.Keyboard.HandleKeyboard` |
| GlPlayer.PressSetsOwnFlag | src/player.c:19-26 | a press of W, S, A or D sets its own flag and no other |
| GlPlayer.ReleaseClearsOwnFlag | src/player.c:22-29 | a release of W, S, A or D clears its own flag and no other |
| GlPlayer.OtherEventsIgnored | src/player.c:19-29 | any other key, and any action but press and release, leaves every flag unchanged |
| GlPlayer.KeyEffectIdempotent | src/player.c:19-29 | delivering an event twice is the same as delivering it once |
| GlPlayer.Keyboard.constructor | src/player.c:8-11 | all four flags start cleared |
| GlPlayer.Keyboard.HandleKeyboard | src/player.c:13-30 | the new flags are `KeyEffect` of the old ones and the event |
| GlPlayer.Settle | src/player.c:71-130 | reference definition of one frame of movement: split, resolve, clamp; its properties are stated by `GlPlayer.SettleInBounds`, `GlPlayer.SubPixelMoveStaysPut`, `GlPlayer.Step` and `GlPlayer.Movement.HandleMovement` |
| GlPlayer.Clamp | src/player.c:113-130 | reference definition of the four bound clamps; its properties are stated by `GlPlayer.ClampClears`, `GlPlayer.ClampKeepsCell` and `GlPlayer.ClampKeepsOpen` |
| GlPlayer.ClampClears | src/player.c:113-130 | a clamp that moves an axis clears that axis's remainder, and an axis no clamp moves keeps its remainder |
| GlPlayer.SettleInBounds | src/player.c:71-130 | whatever the map and the movement, the player ends in [0, 240) on both axes; each remainder is cleared or the fractional part of its movement, in (-1, 1) |
| GlPlayer.Resolve | src/player.c:82-111 | reference definition of the full, x-only, y-only collision chain; its properties are stated by `GlPlayer.ResolveAxes`, `GlPlayer.SlideX`, `GlPlayer.SlideY`, `GlPlayer.NoMove`, `GlPlayer.ResolveLandsOnTestedCell` and `GlPlayer.TryMove` |
| GlPlayer.ResolveAxes | src/player.c:82-111 | each axis either moves and keeps its remainder or stays and loses it; the full move is taken when its index passes; x moves only if the full or x-only test passed, y only if the full or y-only test passed |
| GlPlayer.SlideX | src/player.c:87-97 | when the full move is blocked and the x-only index passes, the player takes the new x, keeps the old y and loses the y remainder |
| GlPlayer.SlideY | src/player.c:87-104 | when the full and x-only moves are blocked and the y-only index passes, the player keeps the old x, takes the new y and loses the x remainder |
| GlPlayer.NoMove | src/player.c:87-109 | when all three indices fail, the player stays and both remainders are cleared |
| GlPlayer.ResolveLandsOnTestedCell | src/player.c:82-101 | the player either stays put or ends at a position whose flat index passed the test |
| GlPlayer.SubPixelMoveStaysPut | src/player.c:71-111 | a movement under one pixel on each axis leaves an in-bounds player where it is, on any map |
| GlPlayer.ColumnEightReadsNextRow | src/player.c:84-87 | a column index of 8 passes the flat range test and reads the first cell of the next row |
| GlPlayer.OpenCellIsInner | src/player.c:82-87 | on a map walled all round, an in-bounds player whose cell is open is in an inner cell |
| GlPlayer.SmallStepStaysOpen | src/player.c:77-130 | on a map walled all round, a whole-pixel move under a cell per axis keeps a player in an open cell |
| GlPlayer.SmallMoveStaysOpen | src/player.c:71-130 | on a map walled all round, a movement under 30 pixels per axis keeps a player in an open cell |
| GlPlayer.ClampKeepsCell | src/player.c:115-118 | clamping a coordinate whose truncated cell is on the grid keeps it in that cell |
| GlPlayer.ClampKeepsOpen | src/player.c:113-130 | clamping a position whose cell is open keeps it in that cell and puts it inside the map |
| GlPlayer.ResolveCheckedStaysOpen | src/player.c:82-130 | with row and column checked, a player in an open cell ends in an open cell inside the map, on any map and for any target position and remainders, so for any movement |
| GlPlayer.AliasedMoveEntersWall | src/player.c:82-130 | from (209, 45) on the built map, a 61-pixel move in x takes the player into the wall at column 7 of row 1; the checked test keeps it still |
| GlPlayer.AliasedPoseRayMisses | src/main.c:91-175 | from (239, 45), the pose the aliased move leaves, a ray along (1, 0.5) leaves the grid on its first step: no hit, `wall_type` stays -1 and the atlas index is negative |
| GlPlayer.TryMove | src/player.c:82-111 | the resolution chain computes `Resolve` |
| GlPlayer.Step | src/player.c:71-130 | splitting the movement, resolving it on the map array and clamping compute `Settle` |
| GlPlayer.Player.constructor | src/main.c:191-199 | the start pose: centre of the map, a 9 by 9 box, the given angle, direction 0 |
| GlPlayer.Movement.constructor | src/player.c:40-41 | both remainders start at 0 |
| GlPlayer.Movement.HandleMovement | src/player.c:58-130 | the new position and remainders are `Settle` of the old ones plus this frame's step; the player ends in [0, 240) on both axes; `w` and `h` are unchanged |

## Left out

- Rendering is left out: every SDL, GLFW and OpenGL call, the window set-up, the frame loops and the minimap drawing. They are I/O.
- `set_color` in `src/utils.c` is left out: it is a thin GL wrapper.
- `cos`, `sin` and `fmod` are left out, because the model has no floating-point trigonometry.
  - The ray direction (`rd_x`, `rd_y`) is an input.
  - So is the corrected distance.
  - So is the column read off the wall, before mirroring.
- The per-ray angle and its wrap into [0, 2π) are left out (`main.c:143-146`, `src/main.c:83-86`, `src/main.c:140-142`). The angle only feeds `cos` and `sin`.
- Float rounding is not modelled: floats are reals. In particular, `0.1f` is modelled as exactly 0.1.
- Integer overflow is not modelled: C's `int` is modelled as unbounded, and `(int)` of a float is assumed to fit.
- GlPlayer.Movement.HandleMovement: the rotation and the recomputation of `dx`/`dy` (`src/player.c:44-55`) are left out, because they are float trigonometry.
  - The flag-driven accumulation (`src/player.c:61-68`) is taken as the inputs `stepX` and `stepY`. These are `dx*d_time`, its negation, or 0 (both flags cancel), according to the flags.
- SdlMain.Player.MovePlayer: the code writes `player->x` before testing, and the model computes the new position in locals and writes it once. The collision test sees the same trial position either way.
- SdlMain.LineHeight: a corrected distance of exactly 0 is excluded, because the code then divides by zero. A negative distance gives a negative height, which the code's cap lets through; this is modelled.
- SdlMain.MAP_BLOCKS: `map_blocks` is `sqrt` of the map's length, taken as the constant 16. The other SDL members take any `map_blocks` that squares to the grid's length.
- GlMain.ATLAS_SIZE: the size of `all_textures` is assumed to be 61440 bytes, 20 textures of 32 by 32 three-byte texels, one per wall kind in [1, 20]. `textures.h`, which declares it, is not part of this model, so the size is inferred from the index arithmetic of `src/main.c:172` and the wall kinds of `src/main.c:205`.
- The texture atlas contents (`textures.h`) and the `* shade` colour scaling are left out. `textures.h` is not part of this model. The model keeps the index arithmetic and drops the bytes read.
- The `MIN` macros in `main.c` and `src/utils.h` are left out, because no modelled code uses them.
- GlPlayer.Movement.HandleMovement: the code writes `player->x` and `player->y` in the collision chain and again in the clamps. The model computes the final values in locals (`TryMove`, `Step`) and writes each field once. Each read of a field in the code sees the value its local holds in the model.
- GlPlayer.Movement.HandleMovement models the code as written, with the flat-index test. The corrected test (`SettleChecked`) is stated beside it and not used by the method.

## Findings

| source | as written | input that shows it | evidently intended | confidence | as-written member | corrected member |
|---|---|---|---|---|---|---|
| src/player.c:82-101 | the collision test range-checks only the flat index `block_y * 8 + block_x`, so a column index past the last column reads a cell of the next row | player at (209, 45) in the open cell at column 6, row 1 of the built map; accumulated movement 61 pixels in x (a frame of about 0.41 s at speed 150). The new x of 270 is in column 9. The flat index 17 reads the open cell at column 1, row 2, so the move is taken. The clamp then pulls x back to 239, into the wall at column 7, row 1. From there a ray along (1, 0.5) leaves the grid on its first step, and the strip reads the atlas at a negative index (`GlPlayer.AliasedPoseRayMisses`) | a cell is tried only when its column and row are both on the grid, so a player in an open cell stays in an open cell | medium, not executed | GlPlayer.AliasedMoveEntersWall | GlPlayer.ResolveCheckedStaysOpen |
