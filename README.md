# Falling-block game engine (src/App.tsx)

A Dafny model of the game engine inside the React component `src/App.tsx`: a Tetris-style
session on a fixed 10 x 20 board with seven Celtic-named pieces (Spear, Shield, Triskele,
Serpent, Lightning, Crook, Flail).

- `Pieces` (pieces.dfy): the piece catalog and the clockwise quarter turn of a shape matrix.
- `Grid` (grid.dfy): the board, the collision test `canPlacePiece` and the copy-and-stamp
  `placePiece`. Stamping is a method with the source's nested loops, proved equal to a
  recursive specification `Stamp`.
- `LineClear` (lineclear.dfy): `clearLines`, which drops full rows and refills the top with
  empty rows.
- `Progression` (progression.dfy): the level and drop interval derived from the line count,
  and the points for one lock.
- `Game` (game.dfy): the session.
  - `Snapshot` is a value holding every state hook. `Inv` is the invariant every reachable
    state keeps.
  - `Step`, `Lock`, `Restart` and `KeyStep` are the pure transitions.
  - Class `Session` holds the hooks as fields. Its methods (`Move`, `LockPiece`, `Tick`,
    `TogglePause`, `StartNewGame`, `HandleKey`) update them step by step. Each method is
    proved to produce exactly the state the pure transition gives.

Modelling choices:

- A board cell is `Empty` (0 in the source) or `Block(kind)`. The source stores the piece's
  colour string, which is a function of the kind.
- The randomly drawn next piece (`getRandomPiece`, src/App.tsx:36-45) is a parameter `next`
  of every operation that may spawn a piece.
- In the source, the level effect (src/App.tsx:149-153) runs after the lock's state updates.
  So the score on line 120 uses the level in force before the lock. The model does the same:
  `LockPiece` adds the score first and then calls `SyncLevel`, and only when the line count
  changed.
- On game over the source keeps the locked piece as the current piece. So "the active piece
  fits the board" is an invariant only while the game is not over.
- The keyboard handler returns early while paused (src/App.tsx:158), before its `P` case. So
  the P key can pause a running game but cannot resume it; only the button at line 354 can.
  `PauseKeyOnlyPauses` states this.

## Model

| member | source | states |
|---|---|---|
| Pieces.ShapeOf | src/App.tsx:9-17 | the seven catalog shapes are non-empty 0/1 rectangles of at most 2 rows and 4 columns |
| Pieces.Spawned | src/App.tsx:39-44 | the drawn piece carries the drawn kind, which fixes its colour and name |
| Pieces.Reverse | src/App.tsx:95 | the reversed row has the same length and element k is element n-1-k of the input |
| Pieces.Rotate | src/App.tsx:93-96 | rotating an R x C rectangle gives a C x R rectangle |
| Pieces.RotateSpec | src/App.tsx:93-96 | the rotation's index formula new[i][j] == old[R-1-j][i]; a 0/1 shape stays 0/1 |
| Pieces.HalfTurn | src/App.tsx:93-96 | two quarter turns give the shape upside down and mirrored, with the original dimensions |
| Pieces.FullTurn | src/App.tsx:93-96 | four quarter turns give back the original shape |
| Pieces.ShieldIsRotationInvariant | src/App.tsx:11 | the Shield (O) shape is a fixed point of rotation |
| Pieces.Rotated | src/App.tsx:93-98 | rotating a piece keeps its kind (so its colour and name) and swaps its dimensions |
| Pieces.RotatedFourTimes | src/App.tsx:93-98 | four rotations of a piece give back the same piece |
| Grid.RowFits | src/App.tsx:50-59 | the inner `every` holds exactly when every non-zero cell of the row, from dx on, lands on a free, in-bounds board cell (RowFree) |
| Grid.RowsFit | src/App.tsx:49-60 | the outer `every` holds exactly when every non-zero cell of the rows from dy on lands on a free, in-bounds board cell (ShapeFree) |
| Grid.CanPlace | src/App.tsx:48-61 | no contract of its own: it is RowsFit from row 0, and CanPlaceSpec states its meaning |
| Grid.CanPlaceSpec | src/App.tsx:48-61 | canPlacePiece is true iff every 1-cell maps to an in-bounds empty cell; 0-cells impose nothing, even off the board |
| Grid.SpawnFitsOnEmptyBoard | src/App.tsx:191-196 | every catalog piece fits at (4, 0) on an empty board |
| Grid.WriteCell | src/App.tsx:71-73 | a guarded single-cell write keeps the board 20 x 10 |
| Grid.StampRow | src/App.tsx:67-75 | stamping the first k cells of one shape row keeps the board 20 x 10 |
| Grid.StampRows | src/App.tsx:66-76 | stamping the first k shape rows keeps the board 20 x 10 |
| Grid.Stamp | src/App.tsx:64-78 | the stamped board is 20 x 10; StampSpec gives its cells |
| Grid.StampRowAt | src/App.tsx:67-75 | after stamping the first k cells of a row, a cell holds the marker iff one of those cells covers it, and is unchanged otherwise |
| Grid.StampRowsAt | src/App.tsx:66-76 | after stamping the first k rows, a cell holds the marker iff one of those rows covers it, and is unchanged otherwise |
| Grid.StampSpec | src/App.tsx:64-78 | placePiece keeps the 20 x 10 dimensions, writes the marker at exactly the in-bounds cells under 1-cells, and leaves every other cell unchanged |
| Grid.PlacePiece | src/App.tsx:64-78 | the copy-then-write loops compute exactly the stamped board, which is 20 x 10 |
| Grid.StampKeepsLockedCells | src/App.tsx:48-78 | when the piece fits, stamping leaves every occupied cell alone and writes only over empty cells |
| LineClear.Survivors | src/App.tsx:82 | the filter keeps as many rows as the input has rows that are not full |
| LineClear.SurvivorsRows | src/App.tsx:82 | every kept row is a non-full row of the input |
| LineClear.SurvivorsAppend | src/App.tsx:82 | the filter distributes over concatenation, so surviving rows keep their relative order |
| LineClear.SurvivorsOfNoFull | src/App.tsx:82 | a board without full rows passes the filter unchanged |
| LineClear.NoFullRowCountsZero | src/App.tsx:82-83 | a board without full rows has no rows to count as cleared |
| LineClear.ClearLines | src/App.tsx:81-90 | the result has 20 rows of width 10, and clearedLines is the number of full rows of the input |
| LineClear.ClearLinesSpec | src/App.tsx:81-90 | the result is clearedLines empty rows above the surviving rows in order; with nothing cleared the board is returned as is |
| LineClear.ClearLinesLeavesNoFullRow | src/App.tsx:81-90 | no full row remains after a clear |
| LineClear.ClearLinesIdempotent | src/App.tsx:81-90 | a second clear removes nothing and returns the same board |
| Progression.LevelFor | src/App.tsx:150 | the level is at least 1 and is the unique l with 10(l-1) <= lines < 10l |
| Progression.DropTime | src/App.tsx:152 | the interval is the larger of 100 ms and 1000 - (level-1)*100 ms, and never more than 1000 ms from level 1 on |
| Progression.LockPoints | src/App.tsx:120 | a lock earns at least 10 points, and exactly 10 iff no row was cleared (or the level is 0) |
| Progression.MoreLinesFaster | src/App.tsx:149-153 | more cleared lines never lower the level and never lengthen the drop interval |
| Progression.HundredLines | src/App.tsx:149-153 | 100 lines give level 11 and 100 ms; 9 lines give level 1 and 10 lines give level 2 |
| Game.Initial | src/App.tsx:24-33 | the hooks' initial values satisfy the invariant, with no piece, not playing and not over |
| Game.Restart | src/App.tsx:190-204 | a new game has an empty 20 x 10 board, is running and unpaused with zero score and lines, level 1, 1000 ms and the drawn piece at (4, 0); it satisfies the invariant from any prior state |
| Game.Candidate | src/App.tsx:104 | the piece a move tries keeps the current kind and is a 0/1 rectangle, whether rotated or not |
| Game.Lock | src/App.tsx:114-132 | locking keeps the invariant, strictly increases the score, never lowers the line count and leaves pause alone |
| Game.Step | src/App.tsx:101-135 | one move keeps the invariant (so the active piece fits unless the game is over), and never lowers score or lines |
| Game.RejectedMoveIsNoOp | src/App.tsx:102-114 | with no piece, while paused or after game over, or for a blocked move with dy <= 0, nothing changes |
| Game.AcceptedMoveCommits | src/App.tsx:104-111 | a fitting move yields exactly the old state with the candidate (the rotated piece when rotating, the same piece otherwise) at the shifted position; every other field stays, and the new piece fits the board |
| Game.LockSpec | src/App.tsx:114-132 | locking stamps and clears the board, adds n lines and n*100*(pre-lock level)+10 points, sets level and interval from the new line count, and spawns `next` at (4, 0) iff it fits, otherwise the game ends and stops playing with the old piece kept |
| Game.BlockedDropLocks | src/App.tsx:113-114 | a downward move whose candidate does not fit is exactly the lock |
| Game.Apply | src/App.tsx:101-204 | every command (move, pause toggle, new game) keeps the invariant |
| Game.Run | src/App.tsx:101-204 | any sequence of commands keeps the invariant |
| Game.ProgressNeverDecreases | src/App.tsx:114-153 | without a restart, score, line count and level never go down |
| Game.KeyStep | src/App.tsx:157-182 | the keydown handler keeps the invariant |
| Game.PauseKeyOnlyPauses | src/App.tsx:158-181 | the P key pauses a running game and does nothing while paused |
| Game.Session.constructor | src/App.tsx:24-33 | the fields start at the hooks' initial values |
| Game.Session.SyncLevel | src/App.tsx:149-153 | after the effect, level and drop interval are those the line count determines |
| Game.Session.Move | src/App.tsx:101-135 | movePiece changes the fields exactly as Step says and returns whether the candidate was committed |
| Game.Session.LockPiece | src/App.tsx:114-132 | the lock path changes the fields exactly as Lock says, scoring with the pre-lock level |
| Game.Session.SpawnOrEnd | src/App.tsx:122-132 | the drawn piece enters at (4, 0) when it fits, otherwise the game is over and stops playing with the old piece kept |
| Game.Session.Tick | src/App.tsx:138-146 | one timer tick is a downward move while a game is running and changes nothing otherwise |
| Game.Session.TogglePause | src/App.tsx:354 | the pause button flips the paused flag and nothing else |
| Game.Session.StartNewGame | src/App.tsx:190-204 | startNewGame sets the fields to a fresh game with the drawn piece |
| Game.Session.HandleKey | src/App.tsx:156-182 | the keydown handler changes the fields exactly as KeyStep says |

## Left out

- Rendering: `renderBoard` and the JSX tree, including the overlay that redraws the current piece for display.
- `src/components/GaelicFace.tsx`: it maps a kind to an image and has no engine logic. It is not part of this model.
- Colour and name strings: a cell holds the piece kind, and the colour and name are functions of the kind.
- Randomness: `Math.random` in `getRandomPiece` is replaced by the parameter `next`.
- The timer: the `setInterval` / `clearInterval` scheduling is not modelled, so nothing says that ticks come `dropTime` milliseconds apart. The interval's value is modelled (`DropTime`, the `dropTime` field). A tick is one call of `Tick`.
- DOM listeners and `preventDefault`: only the key-to-command mapping is modelled.
- React hook mechanics: each handler call, with the level effect after it, is one atomic transition. Stale closures and batched updates are not modelled.
- "The input board is not modified" by `placePiece` holds because boards are values here. Aliasing of the source's row arrays is not modelled.
- Button visibility and disabling are not modelled. The "Start Game" / "New Game" button is shown only while no game is running, and the pause / resume button only while one is (src/App.tsx:344-360). The mobile move and rotate buttons are disabled unless a game is running, unpaused and not over (src/App.tsx:365-393). In the model `StartNewGame`, `TogglePause`, `Move` and the `PauseToggle` and `Shift` commands may fire from any state, including before the first game and after game over. Every invariant proved also holds over this larger set of states.
