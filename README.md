# boxbattle cursor and stage table, in Dafny

This project models the two pieces of logic in the boxbattle puzzle game's
front end that are not rendering or asset plumbing:

- **The selection cursor** (`Game.Cursor`, game.dfy). It is a box two cells wide whose
  left cell is `(x, y)`. Its setters silently drop a column outside
  `[0, width-2]` or a row outside `[0, height-1]`. An accepted value also moves
  the frame's pixel offset: `viewX = x*size` and `viewY = (height-y-1)*size`,
  so row 0 is drawn at the bottom. The keydown handler turns the four arrow keys into
  one-cell moves through those setters. The class keeps the source's mutable
  fields, and its methods change them in place. Each method is tied to a
  value-level specification: `WithX`/`WithY` for the setters, `Press` for one
  key and `PressAll` for a run of keys. The lemmas state the cursor's invariant
  (`Fits`), the edge behaviour and the round trips against that specification.
  The palette `BlockTypes` (red, yellow, green, blue, purple) is a constant.
- **The stage table** (`Puzzle.LoadPuzzleData`, puzzle.dfy). It is a total
  function from a stage number to the list of `(row, col, color)` blocks of
  that stage, or the error `"Unrecognized stage"`. The function is pure, so
  the same stage always gives the same result.

## Model

| member | source | states |
|---|---|---|
| `Game.KeyOf` | src/game.js:66-78 | the names ArrowUp, ArrowDown, ArrowLeft and ArrowRight decode to their keys, each only from its own name; every other name decodes to `Other` |
| `Game.Press` | src/game.js:65-81 | one key event keeps the cursor invariant (box on the board, frame in step); up/down never touch `x`/`viewX`; left/right never touch `y`/`viewY`; any other key changes nothing |
| `Game.ArrowMoves` | src/game.js:66-110 | ArrowUp asks for `y+1`, ArrowDown for `y-1`, ArrowLeft for `x-1` and ArrowRight for `x+1`; the move happens and the frame shifts by one cell unless the box is at that edge, where the key is a no-op |
| `Game.RightThenLeft` | src/game.js:73-98 | ArrowRight then ArrowLeft restores the whole cursor state whenever `x < width-2` beforehand |
| `Game.UpThenDown` | src/game.js:67-110 | ArrowUp then ArrowDown restores the whole cursor state whenever `y < height-1` beforehand |
| `Game.RightThenLeftAtEdge` | src/game.js:73-98 | at the right edge of a board at least three wide, the same pair leaves the box one column further left: the right move was dropped |
| `Game.ViewInRange` | src/game.js:92-110 | with a non-negative cell size, the frame offset of a valid cursor lies in `[0, (width-2)*size] × [0, (height-1)*size]` |
| `Game.PressAllKeepsFits` | src/game.js:65-110 | no sequence of key events takes the box off the board or puts the frame out of step with it |
| `Game.PressAllIndependent` | src/game.js:65-110 | a sequence of only horizontal (or other) keys never changes the row; one of only vertical (or other) keys never changes the column |
| `Game.Cursor.constructor` | src/game.js:46-54 | a new cursor is at `(0, 0)` with `viewX = 0` and `viewY = (height-1)*size`; it satisfies the invariant when `width >= 2` and `height >= 1` |
| `Game.Cursor.SetX` | src/game.js:92-98 | `x` becomes `val`, with `viewX = val*size`, exactly when `0 <= val <= width-2`; otherwise `x` and `viewX` keep their values; `y`/`viewY` never change; the invariant is kept |
| `Game.Cursor.SetY` | src/game.js:104-110 | `y` becomes `val`, with `viewY = (height-val-1)*size`, exactly when `0 <= val <= height-1`; otherwise `y` and `viewY` keep their values; `x`/`viewX` never change; the invariant is kept |
| `Game.Cursor.HandleKey` | src/game.js:65-81 | the new state is `Press` of the old state and the key, so every property of `Press` holds of the object; the invariant is kept |
| `Puzzle.LoadPuzzleData` | src/puzzle.js:1-23 | succeeds exactly for stages 1 and 2; every other stage fails with "Unrecognized stage". A success holds three placements on distinct cells, rows in {0,1} and columns in [0,3]. Each colour is a valid palette index naming green |
| `Puzzle.Stage1Layout` | src/puzzle.js:4-11 | stage 1 occupies exactly cells (0,0), (0,1), (0,3), all with colour 2 |
| `Puzzle.Stage2Layout` | src/puzzle.js:12-19 | stage 2 occupies exactly cells (0,0), (0,1), (1,1), all with colour 2 |

## Left out

- The playing field's sprite grid (src/game.js:9-43) is left out. It only draws cells with colours picked by a random number generator, and it has no state the game reads back.
- Drawing the cursor frame (src/game.js:52, 56-63) and the `view` getters are left out. Only the integer frame offsets `viewX`/`viewY` are kept. The PIXI container's initial offset of 0 is taken as given.
- Registering the keydown listener and `preventDefault` (src/game.js:65, 80) are left out. `HandleKey` is called with an already-decoded key instead.
- The `x`/`y` getters are not separate members: they are plain reads of the fields.
- The values are modelled as unbounded integers. JavaScript numbers can also be fractional, and `x` can be a non-number. `this.x++` on such values, and a width or height that is not an integer, are not modelled.
- `LoadPuzzleData` takes an integer stage. The source's `switch` uses strict equality, so a non-number such as the string "1" also fails. An integer parameter cannot express that input.
- The Promise around the stage table (src/puzzle.js:2) is left out. The model returns a plain `Ok`/`Err` value in place of resolve/reject.
- src/index.js (renderer creation, resize handling) and src/textures.js (texture loading) are not part of this model. They are I/O against the rendering library.
- There is no grid of blocks, gravity or match detection in the model: the game's `src/` has none of them yet.
