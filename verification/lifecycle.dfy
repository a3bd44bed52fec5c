/** The game as a sequence of events (start button, animation frame, canvas click)
    and the invariant every reachable state keeps. */
module Lifecycle {
  import opened Geometry
  import opened Game

  /** The inputs that drive the game: the start (and restart) button, one frame of
      the animation loop, and a click on the canvas. */
  datatype Event = StartPressed | Frame | CanvasClicked

  function Apply(c: Canvas, s: State, e: Event): (r: State)
    requires Placeable(s)
    ensures Placeable(r)
  {
    match e
    case StartPressed => Start(c, s)
    case Frame => Update(c, s)
    case CanvasClicked => Click(c, s)
  }

  /** The state after the events `es`, applied in order. */
  function Run(c: Canvas, s: State, es: seq<Event>): (r: State)
    requires Placeable(s)
    ensures Placeable(r)
    decreases |es|
  {
    if es == [] then s else Run(c, Apply(c, s, es[0]), es[1..])
  }

  /** Speed after `n` successful placements in a run: 0.1 faster each time, capped at 8. */
  function SpeedAfter(n: nat): (v: real)
    ensures InitialSpeed <= v <= MaxSpeed
  {
    Min(InitialSpeed + n as real * SpeedStep, MaxSpeed)
  }

  /** The stack rests on a base block and each block sits on the previous one, all of
      them with positive width and none wider than the block below. */
  predicate WellStacked(c: Canvas, blocks: seq<Rect>)
  {
    && |blocks| >= 1
    && blocks[0] == BaseBlock(c, InitialWidth)
    && (forall i :: 0 <= i < |blocks| ==>
          blocks[i].y == LevelY(c, i) && blocks[i].height == BlockHeight && blocks[i].width > 0.0)
    && (forall i :: 1 <= i < |blocks| ==>
          blocks[i].x >= 0.0 && blocks[i].width <= blocks[i - 1].width)
  }

  /** What holds of every state the game can reach from its initial state. */
  predicate Valid(c: Canvas, s: State)
  {
    && !(s.gameRunning && s.gameOver)
    && WellStacked(c, s.blocks)
    && s.blockWidth == s.blocks[|s.blocks| - 1].width
    && s.score == PointsPerBlock * (|s.blocks| - 1)
    && s.blockSpeed == SpeedAfter(|s.blocks| - 1)
    && (s.direction == 1 || s.direction == -1)
    && 0.0 <= s.currentX <= Max(0.0, c.width - s.blockWidth)
    && (s.current.Some? ==>
          s.current.value == Rect(0.0, LevelY(c, |s.blocks|), s.blockWidth, BlockHeight))
    && (s.current.None? ==> !s.gameRunning && !s.gameOver)
    && (s.gameOver ==> s.highScore >= s.score)
  }

  lemma InitValid(c: Canvas, storedHighScore: int)
    ensures Valid(c, Init(c, storedHighScore))
  {
  }

  lemma ResetValid(c: Canvas, s: State)
    ensures Valid(c, Reset(c, s))
  {
  }

  lemma UpdateValid(c: Canvas, s: State)
    requires Valid(c, s)
    ensures Valid(c, Update(c, s))
  {
  }

  /** The speed after one more placement is the speed the invariant predicts. */
  lemma SpeedAfterStep(n: nat)
    ensures Min(SpeedAfter(n) + SpeedStep, MaxSpeed) == SpeedAfter(n + 1)
  {
  }

  lemma PlaceBlockValid(c: Canvas, s: State)
    requires Valid(c, s) && !s.gameOver
    ensures Valid(c, PlaceBlock(c, s))
  {
    if s.current.Some? && TopOverlap(s) > 0.0 {
      PlacedValid(c, s);
    }
  }

  /** A successful placement keeps the stack well formed and the counters in step. */
  lemma PlacedValid(c: Canvas, s: State)
    requires Valid(c, s) && !s.gameOver
    requires s.current.Some? && TopOverlap(s) > 0.0
    ensures Valid(c, PlaceBlock(c, s))
  {
    var r := PlaceBlock(c, s);
    var n := |s.blocks|;
    SpeedAfterStep(n - 1);
    assert r.blocks[..n] == s.blocks;
    forall i | 0 <= i < |r.blocks|
      ensures r.blocks[i].y == LevelY(c, i) && r.blocks[i].height == BlockHeight
              && r.blocks[i].width > 0.0
    {
      if i < n {
        assert r.blocks[i] == s.blocks[i];
      }
    }
    forall i | 1 <= i < |r.blocks|
      ensures r.blocks[i].x >= 0.0 && r.blocks[i].width <= r.blocks[i - 1].width
    {
      if i < n {
        assert r.blocks[i] == s.blocks[i] && r.blocks[i - 1] == s.blocks[i - 1];
      } else {
        assert r.blocks[i - 1] == s.blocks[n - 1];
      }
    }
  }

  lemma ApplyValid(c: Canvas, s: State, e: Event)
    requires Valid(c, s)
    ensures Valid(c, Apply(c, s, e))
  {
    match e
    case StartPressed =>
      if !s.gameRunning {
        ResetValid(c, s);
        UpdateValid(c, Reset(c, s));
      }
    case Frame => UpdateValid(c, s);
    case CanvasClicked =>
      if s.gameRunning && !s.gameOver {
        PlaceBlockValid(c, s);
      }
  }

  /** Every state reached by any sequence of events is valid. */
  lemma {:induction false} RunValid(c: Canvas, s: State, es: seq<Event>)
    requires Valid(c, s)
    ensures Valid(c, Run(c, s, es))
    decreases |es|
  {
    if es != [] {
      ApplyValid(c, s, es[0]);
      RunValid(c, Apply(c, s, es[0]), es[1..]);
    }
  }

  /** From the initial state, no sequence of events leads to a game that is both
      running and over; the moving block stays on the canvas, the speed stays in
      [2, 8], and the score is 10 points per placed block. */
  lemma ReachableFacts(c: Canvas, storedHighScore: int, es: seq<Event>)
    ensures var r := Run(c, Init(c, storedHighScore), es);
            && !(r.gameRunning && r.gameOver)
            && 0.0 <= r.currentX <= Max(0.0, c.width - r.blockWidth)
            && InitialSpeed <= r.blockSpeed <= MaxSpeed
            && 0.0 < r.blockWidth <= InitialWidth
            && r.score == PointsPerBlock * (|r.blocks| - 1)
  {
    InitValid(c, storedHighScore);
    RunValid(c, Init(c, storedHighScore), es);
    var r := Run(c, Init(c, storedHighScore), es);
    WidthBounded(c, r.blocks, |r.blocks| - 1);
  }

  /** In a well-stacked tower no block is wider than the base. */
  lemma {:induction false} WidthBounded(c: Canvas, blocks: seq<Rect>, i: nat)
    requires WellStacked(c, blocks)
    requires i < |blocks|
    ensures blocks[i].width <= InitialWidth
    decreases i
  {
    if i > 0 {
      WidthBounded(c, blocks, i - 1);
    }
  }

  /** The high score never decreases, whatever happens. */
  lemma {:induction false} HighScoreMonotone(c: Canvas, s: State, es: seq<Event>)
    requires Placeable(s)
    ensures Run(c, s, es).highScore >= s.highScore
    decreases |es|
  {
    if es != [] {
      var s1 := Apply(c, s, es[0]);
      assert s1.highScore >= s.highScore;
      HighScoreMonotone(c, s1, es[1..]);
    }
  }

  /** Within a run, frames and clicks never slow the block down; only a start resets
      the speed. */
  lemma SpeedNonDecreasing(c: Canvas, s: State, e: Event)
    requires Valid(c, s)
    requires e != StartPressed
    ensures Apply(c, s, e).blockSpeed >= s.blockSpeed
  {
  }

  /** Where the block is when the player clicks does not decide whether the placement
      succeeds, nor how wide the next block is: only where the block is stored as
      having been created counts. */
  lemma ClickIgnoresPosition(c: Canvas, s: State, x1: real, x2: real)
    requires Placeable(s)
    ensures var r1 := Click(c, s.(currentX := x1));
            var r2 := Click(c, s.(currentX := x2));
            && |r1.blocks| == |r2.blocks| && r1.gameOver == r2.gameOver
            && r1.blockWidth == r2.blockWidth && r1.score == r2.score
  {
  }

  /** After the first placement, a click during a run succeeds exactly when the top
      block was placed less than its own width from the left edge, and the next
      block is narrower by that distance. */
  lemma ClickAfterFirstPlacement(c: Canvas, s: State)
    requires Valid(c, s)
    requires s.gameRunning && |s.blocks| >= 2
    ensures var top := s.blocks[|s.blocks| - 1];
            var r := Click(c, s);
            && (|r.blocks| == |s.blocks| + 1 <==> top.x < top.width)
            && (r.gameOver <==> top.x >= top.width)
            && (top.x < top.width ==> r.blockWidth == top.width - top.x)
  {
    var top := s.blocks[|s.blocks| - 1];
    assert s.current.Some?;
    assert TopOverlap(s) == Max(0.0, top.width - top.x);
  }

  /** A restart after a lost game begins a fresh run on the single base block and
      keeps the high score. */
  lemma RestartAfterGameOver(c: Canvas, s: State)
    requires Valid(c, s) && s.gameOver
    ensures var r := Apply(c, s, StartPressed);
            && r.gameRunning && !r.gameOver
            && r.blocks == [BaseBlock(c, InitialWidth)]
            && r.score == 0 && r.blockSpeed == InitialSpeed && r.blockWidth == InitialWidth
            && r.highScore == s.highScore && r.highScore >= s.score
  {
  }
}
