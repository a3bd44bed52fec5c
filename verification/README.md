# Stack Blocks: the game-rule engine in Dafny

This project models the rule engine of the browser game `StackBlocksGame` in
`script.js`. A block slides back and forth above a stack of blocks. A click freezes
it: the block is clipped to its overlap with the top of the stack and pushed onto
the stack, or, if there is no overlap, the game ends.

The model is a pure state machine over one immutable record, `Game.State`. Its
fields follow the game object's fields:
- `blocks`, `current` (the stored moving block), `currentX`, `direction`;
- `blockWidth`, `blockSpeed`, `score`, `highScore`;
- `gameRunning` and `gameOver`.

The canvas width and height are a `Canvas` parameter of every transition that reads the canvas. Positions
and the speed are exact `real`s, so the speed step of 0.1 is exact.

Modules:
- `Geometry` (`geometry.dfy`): blocks as rectangles and their one-dimensional overlap.
- `Oscillator` (`oscillator.dfy`): one frame of horizontal motion, with a bounce and a
  clamp at the canvas edges.
- `Game` (`game.dfy`): the transitions. These are construction (`Init`), the start
  button (`Reset`, `Start`), an animation frame (`Update`), a canvas click (`Click`,
  `PlaceBlock`) and the end of a run (`EndGame`).
- `Lifecycle` (`lifecycle.dfy`): event sequences and the invariant `Valid` that every
  reachable state keeps. It also holds the lemmas that follow from `Valid`.

Three points where the code behaves differently from what a player would expect:

- **The overlap ignores where the block is.** `placeBlock` measures the overlap of
  the stored moving block with the top of the stack. That block's `x` is set to 0
  when it is created and is changed only after the overlap has been computed. So
  the overlap is always taken between `[0, blockWidth]` and the top block. The new
  block is then pushed at `currentX`, with that overlap as its width. The model keeps
  `current.x` and `currentX` as separate fields and reproduces this exactly. A
  player would expect the overlap to be taken at `currentX`, where the block is
  drawn. `Lifecycle.ClickIgnoresPosition` and `Lifecycle.ClickAfterFirstPlacement`
  state the consequences.
- **A start runs one frame at once.** `startGame` enters the game loop directly, and
  the loop's first frame calls `update` before the first scheduled frame. So
  `Start` is `Update` applied to the reset state, and after a start `currentX` is
  2, not 0, on any canvas wider than 202.
- **Start is not limited to restarts.** The start button is honoured in every state
  where no run is in progress: before the first game and after a lost game alike.
  The game-over dialog's restart button (`restartGame`) is only one way to reach
  `startGame`.

## Model

| member | source | states |
|---|---|---|
| Geometry.Overlap | script.js:120-130 | The overlap is never negative and is at most either block's width. It is positive exactly when both blocks have positive width and their spans properly intersect, so blocks that only touch at an edge give 0. When one span contains the other, the overlap is the inner block's whole width. |
| Geometry.OverlapSymmetric | script.js:120-130 | Swapping the moving block and the top block gives the same overlap. |
| Geometry.OverlapIsCommonSpan | script.js:120-130 | When the overlap is positive, the points covered by both blocks are exactly one span: it starts at the larger left edge and its length is the overlap. |
| Geometry.NoOverlapSharesAtMostAPoint | script.js:120-130 | When the overlap is 0, the two blocks share at most one point. |
| Oscillator.Advance | script.js:136-142 | The direction reverses exactly when the tentative position (old position plus speed times direction) touches or passes an edge. Away from the edges the block moves to the tentative position. At the left edge it is clamped to 0, and at the right edge to the last position where it fits. It never leaves `[0, max(0, W - width)]`. |
| Oscillator.AdvanceKeepsUnitDirection | script.js:140 | A direction of +1 or -1 stays +1 or -1. |
| Game.BaseBlock | script.js:43-49 | The base block is centred on the canvas and rests on its bottom edge. |
| Game.Init | script.js:2-32 | A new game is idle: one base block 200 wide, no moving block, score 0, speed 2, and the stored high score. |
| Game.CreateFirstBlock | script.js:42-50 | The stack becomes a single centred base block as wide as the current block width. Nothing else changes. |
| Game.CreateNewBlock | script.js:67-77 | The new moving block is stored at x = 0, as wide as the current block width, one level above the stack. `currentX` becomes 0 and the direction +1. Nothing else changes. |
| Game.Reset | script.js:55-62 | A fresh run: running and not over, score 0, width 200, speed 2, a single base block, and a moving block at x = 0 travelling right. The high score is kept. |
| Game.Start | script.js:52-65 | Start does nothing while a run is in progress. Otherwise it resets the game and runs the loop's first frame. On a canvas wider than 202, that frame leaves the block at `currentX` = 2, still travelling right. |
| Game.Update | script.js:132-143 | A frame does nothing unless the game is running and not over. Only `currentX` and `direction` change. Away from the edges the block moves by its speed in its direction. The block stays within the canvas, and the direction flips exactly when the tentative position hits an edge. |
| Game.EndGame | script.js:234-241 | The game stops running and is over. The high score becomes the larger of the old high score and the score, and nothing else changes. |
| Game.PlaceBlock | script.js:85-118 | With no overlap, the game ends: the high score becomes exactly the larger of the old high score and the score, and every other field (stack, score, width, speed, moving block, `currentX`, direction) is kept. With an overlap, exactly one block is pushed at `currentX` with the overlap as its width. Then the score rises by 10 and the width becomes the overlap, which is never larger than before. The speed becomes old + 0.1, capped at 8, and the next moving block is at x = 0, travelling right. |
| Game.Click | script.js:79-83 | A click does nothing unless the game is running and not over. The stack grows by at most one block, and the high score never drops. |
| Lifecycle.Apply | script.js:34-40 | Each input (canvas click, start button, animation frame) maps to its transition and keeps a top block available whenever a block is moving. |
| Lifecycle.Run | script.js:287-297 | Any sequence of inputs, applied in order, keeps a top block available whenever a block is moving. |
| Lifecycle.SpeedAfter | script.js:113 | The speed after any number of placements in a run lies in [2, 8]. |
| Lifecycle.InitValid | script.js:2-32 | The constructed game satisfies the reachable-state invariant. |
| Lifecycle.ResetValid | script.js:52-62 | The state after a reset satisfies the invariant, whatever came before. |
| Lifecycle.UpdateValid | script.js:132-143 | A frame preserves the invariant. In particular the block stays within `[0, max(0, W - blockWidth)]` and the direction stays +1 or -1. |
| Lifecycle.SpeedAfterStep | script.js:113 | Raising the speed by 0.1 with a cap of 8 after n placements gives the speed after n + 1 placements. |
| Lifecycle.PlaceBlockValid | script.js:85-118 | A placement during a run preserves the invariant. Each block sits one level above the previous one, is positive in width and no wider than the block below, and the score stays 10 per placed block. |
| Lifecycle.PlacedValid | script.js:100-116 | A successful placement keeps the invariant: the pushed block sits one level above the old top, is positive in width and no wider than it, lies at a non-negative `x`, and the score and speed move on by one placement. |
| Lifecycle.ApplyValid | script.js:34-40 | Every input (start button, frame, canvas click) preserves the invariant. |
| Lifecycle.RunValid | script.js:52-143 | Every state reached by any sequence of inputs from a valid state is valid. |
| Lifecycle.ReachableFacts | script.js:52-143 | From the initial state, the game is never both running and over. The block stays on the canvas, the speed stays in [2, 8], the block width stays in (0, 200], and the score is 10 per placed block. |
| Lifecycle.WidthBounded | script.js:109 | In a valid stack, no block is wider than the base. |
| Lifecycle.HighScoreMonotone | script.js:238-241 | The high score never decreases over any sequence of inputs. |
| Lifecycle.SpeedNonDecreasing | script.js:113 | Within a run, frames and clicks never lower the speed. |
| Lifecycle.ClickIgnoresPosition | script.js:88-103 | The block's position when the player clicks does not affect whether the placement succeeds or the new width and score. |
| Lifecycle.ClickAfterFirstPlacement | script.js:88-109 | Once one block has been placed, a click succeeds exactly when the top block lies less than its own width from the left edge. The next width is then the top block's width minus that distance. |
| Lifecycle.RestartAfterGameOver | script.js:301-304 | A restart after a lost game starts a fresh run: a single base block, score 0, speed 2 and width 200, with the high score kept (and at least the lost game's score). |

## Left out

- Drawing (`render`, `drawBlock`), the score display (`updateDisplay`), the game-over dialog (`showGameOver`) and the button styling in `toggleRainbow` and `toggleSound`. These are drawing-surface and page side effects with no game logic.
- Colours (`getRandomColor`, `getRainbowColor`, the rainbow flag). They depend on a random source and the clock and are cosmetic, so blocks carry no colour.
- `playSound` and the sound flag. This is a foreign audio call.
- Reading and writing the stored high score (script.js:6, 240). The stored value enters `Init` as an integer, and writing it back is not modelled. The browser store returns a string that the game compares with the score after a numeric conversion. The model assumes that conversion yields the stored integer, so a non-numeric stored value is not modelled.
- `animateGameOver`. It is a timer-driven wobble that shifts the stacked blocks' `x` by floating-point sine amounts. Its interval callback (script.js:251-256) reads the stack afresh on each of about 34 ticks of 50 ms (roughly 1.7 s), and `startGame` never clears it. If the player restarts inside that window, the timer also shifts the new run's base block and any block placed meanwhile, so the first overlap of that run differs from the model's. Lifecycle.Valid (whose stack starts with the unshifted base block), Lifecycle.RunValid and Lifecycle.ReachableFacts hold only for runs without this interleaving.
- The scheduler (`gameLoop`, `requestAnimationFrame`, the unused `deltaTime`). Each scheduled frame is one `Frame` event applying `Update`; the loop's own gate on `gameRunning` is covered by `Update`'s gate. A frame left pending from a run that has ended, and then delivered after a quick restart, starts a second loop; its extra updates are just more `Frame` events in the input sequence, so Lifecycle.RunValid and Lifecycle.ReachableFacts still hold in that case. Only the timing of frames is not modelled.
- Event-listener wiring and the global `restartGame`/`window.game`. A restart is the start transition applied to a game-over state.
- Floating-point arithmetic. The speed ramp and positions use exact reals, so repeated additions of 0.1 reach 8 exactly, with no rounding.
- Game.PlaceBlock: requires a non-empty stack whenever there is a moving block. The source would fail reading the top of an empty stack. Lifecycle.Valid shows that this state is unreachable.
