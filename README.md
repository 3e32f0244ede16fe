# Block-stacking game: a Dafny model of its game logic

The game stacks layers. A layer slides along one horizontal axis over the layer below it. On a click, a touch or the space bar, the layer is cut to the part that rests on the layer below, and the part that hangs over falls as an "overhang". Then a new layer of the cut size starts sliding along the other axis. A layer that overlaps nothing, or that slides past the play area, is a miss, and the miss ends the game. An autopilot plays from the start. It ends in one of two ways. A click, a touch or the space bar during autopilot reaches `eventHandler`, which starts a manual game (`src/main.js:202-205`). The R key starts a manual game at any time (`src/main.js:195-198`). Both go through `startGame`, which turns the autopilot off (`src/main.js:123`). While it plays, the autopilot stops each layer at the first animation frame in which the layer has reached a random offset `robotPrecision` past the layer below, and cuts there. The layer moves by one frame's step at a time, so it may stop past that offset by up to one step. Every tenth cut raises the level and the speed.

The model has four modules:

- `Geometry`: axes, vectors and one-dimensional spans (a block's footprint along one axis). JavaScript numbers are exact `real`s.
- `Boxes` (`src/box.js`): a block as a value (`BoxState`) and as the object the game changes in place (`class Block`).
  - `NewBox` and the `Block` constructor are the record part of `generateBox`: footprint, positions, half-extents and the mass rule.
  - `Block.Cut` is `cutBox`. It resizes and recentres the block in place and rebuilds its physics shape.
- `Rules`: the pure rules behind the game loop.
  - the overlap test;
  - the two pieces a cut leaves;
  - level and speed as functions of the number of cuts;
  - the removal of a handle from the physics world's or the scene's list.
- `Stacking` (`src/main.js`): `class Game`, whose fields are the module-level state of `main.js` (stack, overhangs, flags, speed, score, level, last time stamp).
  - The physics world and the scene become two fields, `bodies` and `meshes`. Each lists the blocks registered there, in order.
  - The methods are the game's functions.
  - Each method's contract ties the new state, `State()`, to the old one through a relation on `GameState` values: `CutDone`, `Missed`, `SplitDone`, `MovedOn`, `Animated`.
  - Lemmas on these relations prove that every operation keeps the game `Consistent`. In a consistent game, the two top layers are the layers of their positions, the moving layer sits over the one below, and score, level and speed match the number of cuts.
  - `Valid()` adds `Tower()` for the whole stack. Every block of the stack is the layer of its position, and no block occurs twice in the stack or also among the overhangs. So cutting or moving the top layer changes no other layer. Every operation keeps `Valid()`, and `LayersAlternate` reads the axes of all layers off it.
  - The methods that add a block say that it is a new object (`fresh`), so a new layer or overhang never aliases a block the game already holds.
  - Further lemmas say what a cut leaves behind and what an animation frame may do once the game is over.

A few things the code does may not match what one would expect of such a game. The model follows the code:

- A miss does not take the missed layer off the stack. It only removes that layer's body from the world and its mesh from the scene, then drops a falling copy of it as an overhang (`src/main.js:261-276`).
- The overhang of a cut is placed from the cut layer's new centre, because `cutBox` has already recentred the layer (`src/main.js:224-235`). This makes survivor and overhang abut exactly (`Rules.CutPieces`, `Stacking.CutLeavesPieces`).
- A perfect cut (delta 0) still adds an overhang of extent 0, with mass 0.
- After a miss the game stays over until it is restarted. In autopilot, a click, a touch or the space bar restarts it through `eventHandler` (`src/main.js:202-205`). In a manual game these reach only the split, which returns at once once the game is over. There only the R key restarts the game (`src/main.js:195-198`).
- Score and level are on-page text in the code. Here they are integer fields.
  - Their value before the first `startGame` is not set by the code. The constructor takes score 0 and level 1, the values `startGame` shows.
  - The speed and level update of a cut is guarded by the presence of the level element on the page. The model takes the element as present.
- `Animation` records the new time stamp before the frame's game logic rather than after it. Nothing in the frame reads the time stamp, so the outcome is the same.
- Several methods stand for one part of a source function each, so that each part can be proved on its own:
  - `ResetForManualGame`, `ClearWorldAndScene` and `AddBaseAndFirstLayer` are parts of `startGame`;
  - `CutTop`, `AddCutOverhang`, `CountCut`, `CountCutAndAddLayer`, `AddOverhangAndNextLayer` and `CutAndStack` are parts of `splitBlockAndAddNextOneIfOverlaps`;
  - `ShiftTop`, `MoveTop`, `AutopilotCut` and `AdvanceFrame` are parts of `animation`;
  - `RemoveTop` is the part of `missedTheSpot` after `addOverhang`.

## Model

| member | source | states |
|---|---|---|
| Boxes.Mass | src/box.js:30-32 | a fixed block weighs 0; a falling one weighs 5 scaled by width/3 and depth/3, positive exactly when its footprint is |
| Boxes.HalfExtents | src/box.js:27-29 | the physics box has the block's width and depth and height boxHeight |
| Boxes.NewBox | src/box.js:7-43 | a new block has footprint width along X and depth along Z centred at (x, z), mesh and body both at (x, y, z), an unscaled mesh, a body that fits, and mass by the mass rule |
| Boxes.Block.constructor | src/box.js:7-43 | the block object built is NewBox of the arguments |
| Boxes.CutBox | src/box.js:57-78 | along the block's direction the footprint becomes overlap long and moves back by delta/2, mesh and body alike; the mesh scale there becomes overlap/size; nothing moves or shrinks across it; the body is rebuilt to fit |
| Boxes.Block.Cut | src/box.js:57-78 | cutBox changes the block in place into CutBox of what it was |
| Rules.LayerAxisParity | src/main.js:241-246 | layers alternate axes, X on odd layers and Z on even ones from the first layer on |
| Rules.MeasureOverlap | src/main.js:216-221 | delta is the centre difference, overhangSize its absolute value, overlap + overhangSize == size, the overlap is what the two footprints have in common, and it is positive exactly when they properly intersect |
| Rules.CutPieces | src/main.js:223-239 | the survivor is exactly the part over the layer below, centred midway between the two centres; survivor and overhang abut and together cover the block before the cut; the overhang lies on the side the block overshot and over nothing |
| Rules.ProgressAfter | src/main.js:248-253 | after n cuts the level is 1 + n / 10 and the speed 0.008 + 0.001 * (n / 10) |
| Rules.Remove | src/main.js:137-147 | removing a handle shortens the list by one exactly when the handle is in it |
| Rules.RemoveOne | src/main.js:137-147 | removal takes out exactly one occurrence of the handle, and leaves a list without it unchanged |
| Stacking.LayerBox | src/main.js:164-169 | the block addLayer adds has the given footprint, sits at the stack's height, is fixed and has the given direction |
| Stacking.DroppedCopy | src/main.js:261-270 | the falling copy of a missed layer has its footprint on both axes, sits at the top layer's height, moves along no axis, and has a positive mass when the layer has a positive footprint |
| Stacking.Moved | src/main.js:295-298 | a move step shifts the mesh by the step along the axis and keeps it in place across the axis and in height; a body that was with the mesh stays with it; nothing else changes |
| Stacking.MovedShiftsBody | src/main.js:295-298 | a move step shifts the body by the step along the axis and keeps it in place across the axis and in height, whether or not it was with the mesh |
| Stacking.MovedStaysLayer | src/main.js:295-298 | a moved layer is still the layer of its position, over the same layer below |
| Stacking.CutOverhangPlaced | src/main.js:227-239 | the overhang is as long as the measured overhang size along the cut axis, and is placed from the cut layer's new centre. It lies flush against the cut layer on the side the layer overshot, or on its centre for a perfect cut. It is as wide as the cut layer across the axis, at the layer's height, with mesh and body together, moving along no axis and falling by the mass rule |
| Stacking.NextLayerPlaced | src/main.js:241-246 | the next layer moves along the other axis from -10, is level with the cut layer along the cut axis and as long as it on both axes (the addLayer call at src/main.js:255); it sits at height i and is fixed |
| Stacking.CutLeavesPieces | src/main.js:216-239 | after a cut, the layer and its overhang are exactly the two CutPieces along the axis, keep the layer's footprint across it, sit at the same height; the layer is still a layer; the overhang falls exactly when it has a size |
| Stacking.CutStaysLayer | src/box.js:58-64 | a block cut with a positive overlap keeps a positive width and depth and stays the layer it was |
| Stacking.NextLayerRests | src/main.js:241-255 | the next layer has the cut layer's size, the other direction, starts at -10 on its axis and keeps the cut layer's coordinate on the other |
| Stacking.MissedFrom | src/main.js:261-276 | a miss depends on the game's lists and counters, not on where the moving layer was before |
| Stacking.SplitIgnoresPrecision | src/main.js:208-259 | the split does not depend on the autopilot's precision |
| Stacking.ShouldMoveCases | src/main.js:287-293 | boxShouldMove is false once the game is over; in a manual game it holds exactly while the game is not over; in autopilot it is false once the layer is robotPrecision or more past the layer below |
| Stacking.ShouldMoveByDelta | src/main.js:287-293 | the autopilot stops the moving layer once its delta to the layer below reaches robotPrecision; otherwise it moves while the game is not over |
| Stacking.CutDoneConsistent | src/main.js:223-255 | a cut keeps the game consistent, adds one to the score and leaves the end-of-game flag alone |
| Stacking.SplitConsistent | src/main.js:208-259 | the split keeps the game consistent; it scores exactly on a cut, and the game is over after it exactly when it was over or the layer overlapped nothing |
| Stacking.MovedConsistent | src/main.js:295-303 | the move step keeps the game consistent and ends the game exactly when the layer passes 10 |
| Stacking.AnimatedConsistent | src/main.js:278-311 | every animation frame keeps the game consistent |
| Stacking.EndedGameStays | src/main.js:287-311 | once the game is over, a frame moves no layer, adds no block and keeps the game over |
| Stacking.Game.constructor | src/main.js:33-93 | init: autopilot on, the given precision set through SetRobotPrecision before any layer exists, the base and the first layer and nothing else, a consistent game |
| Stacking.Game.LayersAlternate | src/main.js:241-255 | in a valid game every layer has a positive footprint, the base moves along no axis, and the layers above it move along X and Z in turn, X first |
| Stacking.Game.SetRobotPrecision | src/main.js:29-31 | only the precision changes, to the drawn value in [-0.5, 0.5); callable before the stack has any layer, as init does; a valid game stays valid |
| Stacking.Game.GenerateBox | src/box.js:7-43 | a new block, NewBox of the arguments, registered last with the world and with the scene |
| Stacking.Game.AddLayer | src/main.js:164-169 | pushes a new fixed block at height stack.length with the given direction, registered with world and scene; a new object, and the stack stays a Tower when the new block is the layer of its position |
| Stacking.Game.AddOverhang | src/main.js:171-185 | appends a new falling block at the top layer's height, registered with world and scene; a new object, so the stack stays a Tower |
| Stacking.Game.AddBaseAndFirstLayer | src/main.js:149-153 | the stack becomes a 3 x 3 base at the origin and a 3 x 3 first layer at -10 moving along X, the only registered blocks; the two are a Tower |
| Stacking.Game.ClearWorldAndScene | src/main.js:135-147 | the removal loops empty the world and the scene |
| Stacking.Game.ResetForManualGame | src/main.js:123-133 | manual play, not over, no time stamp, speed 0.008, empty stack and overhangs, score 0, level 1 |
| Stacking.Game.StartGame | src/main.js:120-161 | a fresh manual game: two new layers as AddBaseAndFirstLayer puts them, nothing else registered, no overhangs, speed 0.008, score 0, level 1; consistent whenever the precision is in range |
| Stacking.Game.RemoveTop | src/main.js:271-274 | the moving layer's handle leaves the world's and the scene's lists, and the game is over |
| Stacking.Game.MissedTheSpot | src/main.js:261-276 | Missed: one falling copy of the moving layer, a new object, is appended at its height, the layer leaves world and scene but stays in the stack, the game ends, the counters stay; the stack stays a Tower |
| Stacking.Game.AddCutOverhang | src/main.js:226-239 | appends the CutOverhang of the cut layer, registered with world and scene |
| Stacking.Game.CountCut | src/main.js:248-253 | the score becomes stack.length - 1; level and speed rise by 1 and 0.001 exactly when it is a multiple of 10, so they stay where the score puts them |
| Stacking.Game.CountCutAndAddLayer | src/main.js:248-255 | CountCut followed by AddLayer |
| Stacking.Game.AddOverhangAndNextLayer | src/main.js:226-255 | the game is StackedOn the cut layer: its overhang and the NextLayer, both new objects, appended and registered, counters one cut further; the stack stays a Tower |
| Stacking.Game.CutTop | src/main.js:224 | only the moving layer changes, into its CutBox, and the stack stays a Tower |
| Stacking.Game.CutAndStack | src/main.js:223-255 | a cut: the moving layer becomes its CutBox, and the game is CutDone and valid; the new layer and overhang are new objects |
| Stacking.Game.SplitBlockAndAddNextOneIfOverlaps | src/main.js:208-259 | SplitDone: nothing once the game is over, a cut exactly when the overlap is positive, a miss otherwise; the game stays valid; an added layer or overhang is a new object |
| Stacking.Game.EventHandler | src/main.js:202-205 | in autopilot a restart into a manual game with two new layers, otherwise the split, keeping the precision; an added layer or overhang is a new object |
| Stacking.Game.ShiftTop | src/main.js:296-298 | only the moving layer changes, moved by the step along its axis, mesh and body alike, and the stack stays a Tower |
| Stacking.Game.MoveTop | src/main.js:295-303 | MovedOn: the moving layer moved by the step, and a miss exactly when it passes 10; the game stays valid; a dropped copy is a new object |
| Stacking.Game.AutopilotCut | src/main.js:304-311 | the split, then the new precision; the game stays valid; an added layer or overhang is a new object |
| Stacking.Game.AdvanceFrame | src/main.js:280-311 | Animated: a move by speed * timePassed while the layer should move, an autopilot cut when it stops, nothing once the game is over; the game stays valid; an added layer or overhang is a new object |
| Stacking.Game.Animation | src/main.js:278-323 | the first frame only records the time; later frames are Animated by the time passed; the time stamp becomes the frame's; the game stays valid; an added layer or overhang is a new object |

## Left out

- The bonus sphere of `cutBox` (`src/box.js:80-90`) and `generarNumeroAleatorio` (`src/box.js:45-55`) are not modelled. They are decoration with no effect on the game. `src/sphere.js` is not part of this model.
- Mesh geometry, materials and the colour of a block are not modelled. Render concerns are not modelled either: lights, the renderer, the camera and its follow rule (`src/main.js:314-316`), and the resize handler.
- The physics engine is not modelled: `world.step` and `updatePhysics` (`src/main.js:319`, `325-333`). Overhangs fall by physics that is not modelled, so after their creation the model says nothing about where overhangs are, and an animation frame leaves the latest overhang unconstrained.
- Page and input work is not modelled: the username prompt, the instructions and results panels, and the listener wiring (`src/main.js:41-43`, `130-131`, `187-200`, `275`). The R key calls `startGame`, which is modelled.
- Randomness and time are parameters. `Math.random` becomes the precision passed to the constructor, to `SetRobotPrecision` and to `Animation`, each in [-0.5, 0.5). The frame time stamp is the argument of `Animation`.
- Floating point rounding is not modelled: numbers are exact reals.
- The `if (world)`, `if (scene)` and `if (camera)` guards of `startGame` are dropped. All three always exist after `init`.
- Stacking.Game.MissedTheSpot: requires two layers where the code reads only the top one. Every game has at least two layers.
- Stacking.Game.Animation: the first frame is stated as "nothing the rules keep changes", not as a full heap equality. The frame clauses of the method say what else may change.
