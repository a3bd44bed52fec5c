/** The rule engine of the stacking game as a pure state machine: a game state is
    an immutable record, and each user action or animation frame maps one state to
    the next. The canvas dimensions are a parameter of every transition that reads them. */
module Game {
  import opened Geometry
  import Oscillator

  datatype Option<T> = None | Some(value: T)

  /** Dimensions of the drawing surface. */
  datatype Canvas = Canvas(width: real, height: real)

  const BlockHeight: real := 30.0
  const InitialWidth: real := 200.0
  const InitialSpeed: real := 2.0
  const SpeedStep: real := 0.1
  const MaxSpeed: real := 8.0
  const PointsPerBlock: int := 10

  /** Everything the game rules read or write.
      `current` is the moving block as stored by the game (its `x` is the position
      it was created at); `currentX` is where the block is actually drawn. */
  datatype State = State(
    blocks: seq<Rect>,
    current: Option<Rect>,
    currentX: real,
    direction: int,
    blockWidth: real,
    blockSpeed: real,
    score: int,
    highScore: int,
    gameRunning: bool,
    gameOver: bool)

  /** The base of the stack: centred horizontally, resting on the canvas bottom. */
  function BaseBlock(c: Canvas, width: real): (b: Rect)
    ensures b.x + b.width / 2.0 == c.width / 2.0
    ensures b.y + b.height == c.height
    ensures b.width == width && b.height == BlockHeight
  {
    Rect(c.width / 2.0 - width / 2.0, c.height - BlockHeight, width, BlockHeight)
  }

  /** Vertical position of the block that sits on top of `n` stacked blocks. */
  function LevelY(c: Canvas, n: nat): real
  {
    c.height - (n + 1) as real * BlockHeight
  }

  /** The state right after the game object is constructed: idle, with only the base
      block, and the high score read from storage. */
  function Init(c: Canvas, storedHighScore: int): (s: State)
    ensures s.blocks == [BaseBlock(c, InitialWidth)]
    ensures s.current.None?
    ensures !s.gameRunning && !s.gameOver
    ensures s.score == 0 && s.highScore == storedHighScore
    ensures s.blockWidth == InitialWidth && s.blockSpeed == InitialSpeed
  {
    var s := State([], None, 0.0, 1, InitialWidth, InitialSpeed, 0, storedHighScore, false, false);
    CreateFirstBlock(c, s)
  }

  /** Replaces the stack by a single base block as wide as the current block width. */
  function CreateFirstBlock(c: Canvas, s: State): (r: State)
    ensures |r.blocks| == 1
    ensures r.blocks[0].width == s.blockWidth && r.blocks[0].height == BlockHeight
    ensures r.blocks[0].x + s.blockWidth / 2.0 == c.width / 2.0
    ensures r.blocks[0].y == LevelY(c, 0)
    ensures r == s.(blocks := r.blocks)
  {
    s.(blocks := [BaseBlock(c, s.blockWidth)])
  }

  /** Spawns the next moving block at the left edge, one level above the stack,
      travelling right. */
  function CreateNewBlock(c: Canvas, s: State): (r: State)
    ensures r.current.Some?
    ensures r.current.value.x == 0.0 && r.currentX == 0.0 && r.direction == 1
    ensures r.current.value.width == s.blockWidth && r.current.value.height == BlockHeight
    ensures r.current.value.y + (|s.blocks| + 1) as real * BlockHeight == c.height
    ensures r == s.(current := r.current, currentX := 0.0, direction := 1)
  {
    var block := Rect(0.0, LevelY(c, |s.blocks|), s.blockWidth, BlockHeight);
    s.(current := Some(block), currentX := 0.0, direction := 1)
  }

  /** The body of a start: a fresh run with the initial width and speed, a single base
      block and a new moving block. */
  function Reset(c: Canvas, s: State): (r: State)
    ensures r.gameRunning && !r.gameOver
    ensures r.score == 0 && r.blockWidth == InitialWidth && r.blockSpeed == InitialSpeed
    ensures r.blocks == [BaseBlock(c, InitialWidth)]
    ensures r.current == Some(Rect(0.0, LevelY(c, 1), InitialWidth, BlockHeight))
    ensures r.currentX == 0.0 && r.direction == 1
    ensures r.highScore == s.highScore
  {
    var s1 := s.(gameRunning := true, gameOver := false, score := 0, blocks := [],
                 blockWidth := InitialWidth, blockSpeed := InitialSpeed);
    CreateNewBlock(c, CreateFirstBlock(c, s1))
  }

  /** The start button. Ignored while a run is in progress; otherwise the state is
      reset and the game loop is entered, whose first frame runs at once. */
  function Start(c: Canvas, s: State): (r: State)
    ensures s.gameRunning ==> r == s
    ensures !s.gameRunning ==> r == Update(c, Reset(c, s))
    ensures !s.gameRunning ==>
              && r.gameRunning && !r.gameOver
              && r.score == 0 && r.blockWidth == InitialWidth && r.blockSpeed == InitialSpeed
              && r.blocks == [BaseBlock(c, InitialWidth)]
              && r.current == Some(Rect(0.0, LevelY(c, 1), InitialWidth, BlockHeight))
              && r.highScore == s.highScore
    // on a canvas wider than one block plus one frame of travel, the first frame
    // just moves the new block right
    ensures !s.gameRunning && c.width > InitialWidth + InitialSpeed ==>
              r.currentX == InitialSpeed && r.direction == 1
  {
    if s.gameRunning then s else Update(c, Reset(c, s))
  }

  /** Where the moving block would be after one more frame, before any bounce. */
  function NextX(s: State): real
  {
    Oscillator.Tentative(Oscillator.Motion(s.currentX, s.direction), s.blockSpeed)
  }

  /** One animation frame: while a run is in progress the moving block advances and
      bounces; in any other state nothing changes. */
  function Update(c: Canvas, s: State): (r: State)
    ensures !s.gameRunning || s.gameOver ==> r == s
    // only the position and direction of the moving block change
    ensures r == s.(currentX := r.currentX, direction := r.direction)
    ensures s.gameRunning && !s.gameOver ==>
              && 0.0 <= r.currentX <= Max(0.0, c.width - s.blockWidth)
              && (s.blockWidth <= c.width ==> r.currentX + s.blockWidth <= c.width)
              && (r.direction == s.direction || r.direction == -s.direction)
    // away from the edges the block moves by its speed in its direction
    ensures s.gameRunning && !s.gameOver && !Oscillator.HitsEdge(NextX(s), s.blockWidth, c.width)
            ==> r.currentX == NextX(s)
    ensures s.gameRunning && !s.gameOver && s.direction != 0 ==>
              (r.direction != s.direction <==> Oscillator.HitsEdge(NextX(s), s.blockWidth, c.width))
  {
    if !s.gameRunning || s.gameOver then s
    else
      var m := Oscillator.Advance(Oscillator.Motion(s.currentX, s.direction),
                                  s.blockSpeed, s.blockWidth, c.width);
      s.(currentX := m.x, direction := m.direction)
  }

  /** Ends the run. The high score becomes the larger of the old high score and the
      final score; nothing else but the two flags changes. */
  function EndGame(s: State): (r: State)
    ensures !r.gameRunning && r.gameOver
    ensures r.highScore >= s.highScore && r.highScore >= s.score
    ensures r.highScore == s.highScore || r.highScore == s.score
    ensures r == s.(gameRunning := false, gameOver := true, highScore := r.highScore)
  {
    var s1 := s.(gameRunning := false, gameOver := true);
    if s1.score > s1.highScore then s1.(highScore := s1.score) else s1
  }

  /** A placement can look at the top of the stack whenever there is a moving block. */
  predicate Placeable(s: State)
  {
    s.current.None? || |s.blocks| > 0
  }

  /** Overlap of the stored moving block with the top of the stack. */
  function TopOverlap(s: State): real
    requires s.current.Some? && |s.blocks| > 0
  {
    Overlap(s.current.value, s.blocks[|s.blocks| - 1])
  }

  /** Freezes the moving block. The overlap is measured with the moving block as
      stored, whose left edge is the position it was created at, not `currentX`.
      With no overlap the run ends; otherwise a block as wide as the overlap is
      pushed at `currentX`, the score and speed rise, and a narrower block spawns. */
  function PlaceBlock(c: Canvas, s: State): (r: State)
    requires Placeable(s)
    ensures s.current.None? ==> r == s
    // a failed placement ends the run and keeps the stack, score, width and speed
    ensures s.current.Some? && TopOverlap(s) <= 0.0 ==>
              && !r.gameRunning && r.gameOver
              && r.blocks == s.blocks && r.score == s.score
              && r.blockWidth == s.blockWidth && r.blockSpeed == s.blockSpeed
              && r.highScore >= s.highScore && r.highScore >= s.score
              && (r.highScore == s.highScore || r.highScore == s.score)
              && r == s.(gameRunning := false, gameOver := true, highScore := r.highScore)
    // a successful placement pushes exactly one block, at currentX with the overlap's width
    ensures s.current.Some? && TopOverlap(s) > 0.0 ==>
              && |r.blocks| == |s.blocks| + 1
              && r.blocks[..|s.blocks|] == s.blocks
              && r.blocks[|s.blocks|].x == s.currentX
              && r.blocks[|s.blocks|].width == TopOverlap(s)
              && r.blocks[|s.blocks|].y == s.current.value.y
              && r.blockWidth == TopOverlap(s)
              && 0.0 < r.blockWidth <= s.current.value.width
              && r.score == s.score + PointsPerBlock
              && (s.blockSpeed + SpeedStep <= MaxSpeed ==> r.blockSpeed == s.blockSpeed + SpeedStep)
              && (s.blockSpeed + SpeedStep > MaxSpeed ==> r.blockSpeed == MaxSpeed)
              && r.current == Some(Rect(0.0, LevelY(c, |r.blocks|), r.blockWidth, BlockHeight))
              && r.currentX == 0.0 && r.direction == 1
              && r.gameRunning == s.gameRunning && r.gameOver == s.gameOver
              && r.highScore == s.highScore
  {
    if s.current.None? then s
    else
      var overlap := TopOverlap(s);
      if overlap <= 0.0 then EndGame(s)
      else
        var placed := s.current.value.(x := s.currentX, width := overlap);
        var s1 := s.(blocks := s.blocks + [placed], blockWidth := overlap,
                     score := s.score + PointsPerBlock,
                     blockSpeed := Min(s.blockSpeed + SpeedStep, MaxSpeed));
        CreateNewBlock(c, s1)
  }

  /** A click on the canvas places the block, but only during a run. */
  function Click(c: Canvas, s: State): (r: State)
    requires Placeable(s)
    ensures !s.gameRunning || s.gameOver ==> r == s
    ensures s.gameRunning && !s.gameOver ==> r == PlaceBlock(c, s)
    ensures r.highScore >= s.highScore
    ensures |r.blocks| == |s.blocks| || |r.blocks| == |s.blocks| + 1
  {
    if !s.gameRunning || s.gameOver then s else PlaceBlock(c, s)
  }
}
