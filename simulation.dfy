/** The game panel's simulation as pure functions over a snapshot of its
    state. Each function gives the state after one operation of the panel
    (a tick, a pipe spawn, a start, a key press); the class in the Panel
    module is proved to follow them. The lemmas state what the operations
    promise and the invariant they keep. */
module Simulation {
  import opened Entities

  const GRAVITY: int := 1
  /** Horizontal pipe speed at construction: pipes move left. */
  const INITIAL_VELOCITY_X: int := -4
  const JUMP_VELOCITY: int := -9
  /** The vertical gap between the two pipes of a pair. */
  const OPENING_SPACE: int := BOARD_HEIGHT / 4
  /** Game loop delays in milliseconds: 60 and, after the speed-up, 75 frames a second. */
  const INITIAL_DELAY: int := 1000 / 60
  const FAST_DELAY: int := 1000 / 75
  /** The speed-up threshold, a score of 1000, counted in half-points. */
  const SPEED_UP_HALF_POINTS: nat := 2 * 1000
  /** The key code of the space bar. */
  const VK_SPACE: int := 32

  datatype GameState = Menu | Playing | GameOver

  /** Everything the simulation reads or writes. The score is counted in
      half-points: it only ever grows by 0.5 or is reset to 0. The two timers
      are reduced to whether they run, and the game loop's delay. The sound
      counters count the "scored" and "died" sounds requested. */
  datatype Session = Session(
    bird: Bird,
    velocityX: int,
    velocityY: int,
    pipes: seq<Pipe>,
    score: nat,
    gameOver: bool,
    state: GameState,
    gameLoopRunning: bool,
    pipeTimerRunning: bool,
    gameLoopDelay: int,
    scoreSounds: nat,
    dieSounds: nat)

  /** The state the panel's constructor leaves: in the menu, timers created
      but not started. */
  function Initial(): Session
  {
    Session(NewBird(), INITIAL_VELOCITY_X, 0, [], 0, false, Menu,
            false, false, INITIAL_DELAY, 0, 0)
  }

  // ---------------------------------------------------------------------
  // The per-pipe part of a tick

  /** The pipe, once moved by vx, is newly behind the bird. */
  predicate ScoresNow(p: Pipe, birdX: int, vx: int)
  {
    !p.passed && birdX > p.x + vx + p.width
  }

  /** One pipe in one tick: it moves by vx, then is marked passed when the
      bird is past its right edge. */
  function StepPipe(p: Pipe, birdX: int, vx: int): Pipe
  {
    var moved := p.(x := p.x + vx);
    if ScoresNow(p, birdX, vx) then moved.(passed := true) else moved
  }

  /** Every pipe in the list after one tick, in the same order. */
  function Scrolled(ps: seq<Pipe>, birdX: int, vx: int): (qs: seq<Pipe>)
    ensures |qs| == |ps|
  {
    if ps == [] then []
    else Scrolled(ps[..|ps| - 1], birdX, vx) + [StepPipe(ps[|ps| - 1], birdX, vx)]
  }

  /** How many pipes of the list score in this tick. */
  function NewlyPassed(ps: seq<Pipe>, birdX: int, vx: int): nat
  {
    if ps == [] then 0
    else NewlyPassed(ps[..|ps| - 1], birdX, vx) + (if ScoresNow(ps[|ps| - 1], birdX, vx) then 1 else 0)
  }

  /** How many pipes of the list are marked passed. */
  function PassedCount(ps: seq<Pipe>): nat
  {
    if ps == [] then 0
    else PassedCount(ps[..|ps| - 1]) + (if ps[|ps| - 1].passed then 1 else 0)
  }

  /** How many pipes of the list the bird overlaps once they are moved in
      this tick. */
  function HitCount(b: Bird, ps: seq<Pipe>, vx: int): nat
  {
    if ps == [] then 0
    else HitCount(b, ps[..|ps| - 1], vx) + (if Collision(b, StepPipe(ps[|ps| - 1], b.x, vx)) then 1 else 0)
  }

  predicate HitsSomePipe(b: Bird, ps: seq<Pipe>)
  {
    exists j :: 0 <= j < |ps| && Collision(b, ps[j])
  }

  // ---------------------------------------------------------------------
  // The operations

  /** Pipes move 2 faster and the game loop's delay becomes the 75 Hz one. */
  function IncreaseGameSpeed(s: Session): Session
  {
    s.(velocityX := s.velocityX - 2, gameLoopDelay := FAST_DELAY)
  }

  /** Gravity on the bird, which cannot rise above the top of the board. */
  function Fall(s: Session): Session
  {
    var velocityY := s.velocityY + GRAVITY;
    s.(velocityY := velocityY, bird := s.bird.(y := Max(s.bird.y + velocityY, 0)))
  }

  /** The pipe loop of a tick: every pipe moves and may score, and a pipe
      that the bird overlaps ends the game. */
  function ScrollPipes(s: Session): Session
  {
    var scored := NewlyPassed(s.pipes, s.bird.x, s.velocityX);
    var hits := HitCount(s.bird, s.pipes, s.velocityX);
    s.(pipes := Scrolled(s.pipes, s.bird.x, s.velocityX),
       score := s.score + scored,
       scoreSounds := s.scoreSounds + scored,
       gameOver := s.gameOver || hits > 0,
       state := if hits > 0 then GameOver else s.state,
       dieSounds := s.dieSounds + hits)
  }

  /** Below the bottom of the board the game ends. */
  function HitGround(s: Session): Session
  {
    if s.bird.y > BOARD_HEIGHT then s.(gameOver := true, state := GameOver, dieSounds := s.dieSounds + 1)
    else s
  }

  /** The part of a tick in play before the speed-up. */
  function Tick(s: Session): Session
  {
    HitGround(ScrollPipes(Fall(s)))
  }

  /** One game tick. Outside play it does nothing. In play it ticks, and at
      1000 points or more the speed goes up (on every such tick). */
  function Move(s: Session): Session
  {
    if s.state != Playing then s
    else
      var ticked := Tick(s);
      if ticked.score >= SPEED_UP_HALF_POINTS then IncreaseGameSpeed(ticked) else ticked
  }

  /** The pipe-timer action: a new top/bottom pair at the right edge, the top
      edge drawn from random in [0, 1). */
  function PlacePipes(s: Session, random: real): Session
    requires 0.0 <= random < 1.0
  {
    var top := NewPipe().(y := RandomPipeY(random));
    var bottom := NewPipe().(y := top.y + PIPE_HEIGHT + OPENING_SPACE);
    s.(pipes := s.pipes + [top, bottom])
  }

  /** Start (or restart) a game. The pipe speed and the loop delay are not
      reset. */
  function StartGame(s: Session): Session
  {
    s.(state := Playing,
       bird := s.bird.Reset(),
       velocityY := 0,
       pipes := [],
       score := 0,
       gameOver := false,
       gameLoopRunning := true,
       pipeTimerRunning := true)
  }

  /** The game-loop action: a tick, then both timers stop if the game is over. */
  function ActionPerformed(s: Session): Session
  {
    var moved := Move(s);
    if moved.gameOver then moved.(pipeTimerRunning := false, gameLoopRunning := false) else moved
  }

  /** Space jumps in play and starts the game from the menu; anything else is
      ignored. */
  function KeyPressed(s: Session, keyCode: int): Session
  {
    if keyCode != VK_SPACE then s
    else if s.state == Playing then s.(velocityY := JUMP_VELOCITY)
    else if s.state == Menu then StartGame(s)
    else s
  }

  // ---------------------------------------------------------------------
  // The invariant

  /** The two pipes of one spawned pair: same column, fixed size, the fixed
      gap between them, the top edge in the spawn range, passed together. */
  predicate WellFormedPair(top: Pipe, bottom: Pipe)
  {
    && top.x == bottom.x
    && top.width == PIPE_WIDTH && bottom.width == PIPE_WIDTH
    && top.height == PIPE_HEIGHT && bottom.height == PIPE_HEIGHT
    && bottom.y == top.y + PIPE_HEIGHT + OPENING_SPACE
    && -383 <= top.y <= -128
    && top.passed == bottom.passed
  }

  predicate PairAt(ps: seq<Pipe>, k: int)
  {
    0 <= k && 2 * k + 1 < |ps| && WellFormedPair(ps[2 * k], ps[2 * k + 1])
  }

  /** The list is a run of spawned pairs. */
  predicate Paired(ps: seq<Pipe>)
  {
    |ps| % 2 == 0 && forall k :: 0 <= k < |ps| / 2 ==> PairAt(ps, k)
  }

  /** Older pipes (earlier in the list) are never to the right of newer ones. */
  predicate OrderedByX(ps: seq<Pipe>)
  {
    forall i, j :: 0 <= i < j < |ps| ==> ps[i].x <= ps[j].x
  }

  /** No pipe is to the right of the spawn column. */
  predicate NotPastSpawn(ps: seq<Pipe>)
  {
    forall i :: 0 <= i < |ps| ==> ps[i].x <= PIPE_X
  }

  /** What holds of every state the panel reaches. */
  predicate Inv(s: Session)
  {
    && (s.gameOver <==> s.state == GameOver)
    && s.bird.x == BIRD_X && s.bird.width == BIRD_WIDTH && s.bird.height == BIRD_HEIGHT
    && s.bird.y >= 0
    && s.velocityX <= INITIAL_VELOCITY_X
    && (s.gameLoopDelay == INITIAL_DELAY || s.gameLoopDelay == FAST_DELAY)
    && s.gameLoopRunning == s.pipeTimerRunning
    && s.score == PassedCount(s.pipes)
    && Paired(s.pipes)
    && OrderedByX(s.pipes)
    && NotPastSpawn(s.pipes)
  }

  // ---------------------------------------------------------------------
  // Lemmas about the pipe list

  lemma {:induction false} PassedCountScrolled(ps: seq<Pipe>, birdX: int, vx: int)
    ensures PassedCount(Scrolled(ps, birdX, vx)) == PassedCount(ps) + NewlyPassed(ps, birdX, vx)
  {
    if ps != [] {
      var n := |ps| - 1;
      PassedCountScrolled(ps[..n], birdX, vx);
    }
  }

  /** Pipe j of the moved list is pipe j of the old list, stepped. */
  lemma {:induction false} ScrolledAt(ps: seq<Pipe>, birdX: int, vx: int, j: int)
    requires 0 <= j < |ps|
    ensures Scrolled(ps, birdX, vx)[j] == StepPipe(ps[j], birdX, vx)
  {
    if j < |ps| - 1 {
      ScrolledAt(ps[..|ps| - 1], birdX, vx, j);
    }
  }

  lemma ScrolledPointwise(ps: seq<Pipe>, birdX: int, vx: int)
    ensures forall j :: 0 <= j < |ps| ==> Scrolled(ps, birdX, vx)[j] == StepPipe(ps[j], birdX, vx)
  {
    forall j | 0 <= j < |ps|
      ensures Scrolled(ps, birdX, vx)[j] == StepPipe(ps[j], birdX, vx)
    {
      ScrolledAt(ps, birdX, vx, j);
    }
  }

  /** The counts over a prefix grow by the next pipe's share. */
  lemma PrefixStep(ps: seq<Pipe>, i: nat, b: Bird, vx: int)
    requires i < |ps|
    ensures NewlyPassed(ps[..i + 1], b.x, vx) ==
            NewlyPassed(ps[..i], b.x, vx) + (if ScoresNow(ps[i], b.x, vx) then 1 else 0)
    ensures HitCount(b, ps[..i + 1], vx) ==
            HitCount(b, ps[..i], vx) + (if Collision(b, StepPipe(ps[i], b.x, vx)) then 1 else 0)
    ensures Scrolled(ps[..i + 1], b.x, vx) == Scrolled(ps[..i], b.x, vx) + [StepPipe(ps[i], b.x, vx)]
  {
    assert ps[..i + 1][..i] == ps[..i];
  }

  /** Each pipe counts for at most one passing. */
  lemma {:induction false} PassedCountBound(ps: seq<Pipe>)
    ensures PassedCount(ps) <= |ps|
  {
    if ps != [] {
      PassedCountBound(ps[..|ps| - 1]);
    }
  }

  /** A pipe already passed does not score again: a tick scores at most the
      pipes not yet passed. */
  lemma {:induction false} NewlyPassedBound(ps: seq<Pipe>, birdX: int, vx: int)
    ensures PassedCount(ps) + NewlyPassed(ps, birdX, vx) <= |ps|
  {
    if ps != [] {
      NewlyPassedBound(ps[..|ps| - 1], birdX, vx);
    }
  }

  lemma {:induction false} PassedCountAppend(ps: seq<Pipe>, qs: seq<Pipe>)
    ensures PassedCount(ps + qs) == PassedCount(ps) + PassedCount(qs)
  {
    if qs == [] {
      assert ps + qs == ps;
    } else {
      var n := |qs| - 1;
      PassedCountAppend(ps, qs[..n]);
      assert (ps + qs)[..|ps + qs| - 1] == ps + qs[..n];
      assert (ps + qs)[|ps + qs| - 1] == qs[n];
    }
  }

  /** Some pipe is hit in this tick exactly when the bird overlaps some
      pipe of the moved list. */
  lemma {:induction false} HitCountPositive(b: Bird, ps: seq<Pipe>, vx: int)
    ensures HitCount(b, ps, vx) > 0 <==> HitsSomePipe(b, Scrolled(ps, b.x, vx))
  {
    if ps != [] {
      var n := |ps| - 1;
      var init := ps[..n];
      var qs := Scrolled(ps, b.x, vx);
      var rs := Scrolled(init, b.x, vx);
      assert qs == rs + [StepPipe(ps[n], b.x, vx)];
      assert forall j :: 0 <= j < n ==> rs[j] == qs[j];
      assert qs[n] == StepPipe(ps[n], b.x, vx);
      HitCountPositive(b, init, vx);
      if HitsSomePipe(b, rs) {
        var j :| 0 <= j < n && Collision(b, rs[j]);
        assert Collision(b, qs[j]);
      }
      if HitsSomePipe(b, qs) && !Collision(b, qs[n]) {
        var j :| 0 <= j < |qs| && Collision(b, qs[j]);
        assert j < n && Collision(b, rs[j]);
      }
    }
  }

  /** Moving every pipe by the same amount keeps their left-to-right order. */
  lemma ScrolledKeepsOrder(ps: seq<Pipe>, birdX: int, vx: int)
    requires OrderedByX(ps)
    ensures OrderedByX(Scrolled(ps, birdX, vx))
  {
    ScrolledPointwise(ps, birdX, vx);
  }

  /** Moving every pipe leftwards (or not at all) keeps them within the spawn column. */
  lemma ScrolledStaysLeft(ps: seq<Pipe>, birdX: int, vx: int)
    requires NotPastSpawn(ps) && vx <= 0
    ensures NotPastSpawn(Scrolled(ps, birdX, vx))
  {
    ScrolledPointwise(ps, birdX, vx);
  }

  lemma ScrolledKeepsPairs(ps: seq<Pipe>, birdX: int, vx: int)
    requires Paired(ps)
    ensures Paired(Scrolled(ps, birdX, vx))
  {
    var qs := Scrolled(ps, birdX, vx);
    ScrolledPointwise(ps, birdX, vx);
    forall k | 0 <= k < |qs| / 2
      ensures PairAt(qs, k)
    {
      assert PairAt(ps, k);
    }
  }

  /** In a list of pairs, whole pairs are passed, so the half-point score
      is even. */
  lemma {:induction false} PairedPassedCountEven(ps: seq<Pipe>)
    requires Paired(ps)
    ensures PassedCount(ps) % 2 == 0
  {
    if ps != [] {
      var n := |ps| - 2;
      var init := ps[..n];
      assert Paired(init) by {
        forall k | 0 <= k < |init| / 2
          ensures PairAt(init, k)
        {
          assert PairAt(ps, k);
        }
      }
      PairedPassedCountEven(init);
      assert PairAt(ps, n / 2);
      assert ps[..n + 1][..n] == init;
    }
  }

  // ---------------------------------------------------------------------
  // What a tick does

  /** Outside play a tick changes nothing. */
  lemma MoveOutsidePlaying(s: Session)
    requires s.state != Playing
    ensures Move(s) == s
  {
  }

  /** A tick in play: gravity, the top clamp, the bird stays in its column,
      every pipe moves by exactly the old horizontal speed (also the ones
      after a pipe the bird hit), the passed flags only go up, the score
      does not go down, and the timers are untouched. */
  lemma MoveWhilePlaying(s: Session)
    requires s.state == Playing
    ensures Move(s).velocityY == s.velocityY + GRAVITY
    ensures Move(s).bird.y == Max(s.bird.y + Move(s).velocityY, 0) && Move(s).bird.y >= 0
    ensures Move(s).bird.x == s.bird.x
    ensures Move(s).bird.width == s.bird.width && Move(s).bird.height == s.bird.height
    ensures |Move(s).pipes| == |s.pipes|
    ensures forall j :: 0 <= j < |s.pipes| ==>
      && Move(s).pipes[j].x == s.pipes[j].x + s.velocityX
      && Move(s).pipes[j].y == s.pipes[j].y
      && Move(s).pipes[j].width == s.pipes[j].width
      && Move(s).pipes[j].height == s.pipes[j].height
      && (Move(s).pipes[j].passed <==>
            s.pipes[j].passed || s.bird.x > Move(s).pipes[j].x + Move(s).pipes[j].width)
    ensures Move(s).score == s.score + NewlyPassed(s.pipes, s.bird.x, s.velocityX) >= s.score
    ensures Move(s).scoreSounds == s.scoreSounds + NewlyPassed(s.pipes, s.bird.x, s.velocityX)
    ensures Move(s).gameLoopRunning == s.gameLoopRunning
    ensures Move(s).pipeTimerRunning == s.pipeTimerRunning
  {
    ScrolledPointwise(s.pipes, s.bird.x, s.velocityX);
  }

  /** A tick in play ends the game exactly when the bird, after falling,
      overlaps some pipe at its moved position or is below the board;
      otherwise play goes on. A "died" sound is requested for every pipe hit
      and once more for the fall. */
  lemma MoveEndsGameIff(s: Session)
    requires s.state == Playing
    ensures Move(s).state == GameOver <==>
      HitsSomePipe(Move(s).bird, Move(s).pipes) || Move(s).bird.y > BOARD_HEIGHT
    ensures Move(s).state == GameOver || Move(s).state == Playing
    ensures Move(s).gameOver == (s.gameOver || Move(s).state == GameOver)
    ensures !s.gameOver ==> (Move(s).gameOver <==> Move(s).state == GameOver)
    ensures Move(s).dieSounds == s.dieSounds + HitCount(Move(s).bird, s.pipes, s.velocityX)
                                 + (if Move(s).bird.y > BOARD_HEIGHT then 1 else 0)
    ensures Move(s).dieSounds > s.dieSounds <==> Move(s).state == GameOver
  {
    HitCountPositive(Move(s).bird, s.pipes, s.velocityX);
  }

  /** After a tick in play with the score at 1000 or more, pipes are 2
      faster than before and the loop runs at 75 Hz; below it neither
      changes. */
  lemma MoveSpeedUp(s: Session)
    requires s.state == Playing
    ensures Move(s).score >= SPEED_UP_HALF_POINTS ==>
      Move(s).velocityX == s.velocityX - 2 && Move(s).gameLoopDelay == FAST_DELAY
    ensures Move(s).score < SPEED_UP_HALF_POINTS ==>
      Move(s).velocityX == s.velocityX && Move(s).gameLoopDelay == s.gameLoopDelay
  {
  }

  /** The speed-up is applied again on every tick past the threshold: two
      ticks in play from a score of 1000 make pipes 4 faster. */
  lemma SpeedUpRepeatsEveryTick(s: Session)
    requires s.state == Playing && s.score >= SPEED_UP_HALF_POINTS
    requires Move(s).state == Playing
    ensures Move(Move(s)).velocityX == s.velocityX - 4
    ensures Move(Move(s)).gameLoopDelay == FAST_DELAY
  {
  }

  // ---------------------------------------------------------------------
  // What the other operations do

  /** A spawn appends exactly one pair and leaves the older pipes and
      everything else as they were. */
  lemma PlacePipesAppendsPair(s: Session, random: real)
    requires 0.0 <= random < 1.0
    ensures |PlacePipes(s, random).pipes| == |s.pipes| + 2
    ensures PlacePipes(s, random).pipes[..|s.pipes|] == s.pipes
    ensures PlacePipes(s, random).(pipes := s.pipes) == s
    ensures
      var top := PlacePipes(s, random).pipes[|s.pipes|];
      var bottom := PlacePipes(s, random).pipes[|s.pipes| + 1];
      && top.x == PIPE_X == bottom.x == 360
      && top.width == bottom.width == 64
      && top.height == bottom.height == 512
      && !top.passed && !bottom.passed
      && bottom.y - top.y == 672
      && -383 <= top.y <= -128
  {
  }

  /** Starting resets the bird, its vertical speed, the pipes, the score and
      the game-over flag and starts both timers; the pipe speed, the loop
      delay and the sound counters keep their values. */
  lemma StartGameResets(s: Session)
    ensures StartGame(s).state == Playing && !StartGame(s).gameOver
    ensures StartGame(s).bird == s.bird.(x := 50, y := 320)
    ensures StartGame(s).velocityY == 0
    ensures StartGame(s).pipes == [] && StartGame(s).score == 0
    ensures StartGame(s).gameLoopRunning && StartGame(s).pipeTimerRunning
    ensures StartGame(s).velocityX == s.velocityX
    ensures StartGame(s).gameLoopDelay == s.gameLoopDelay
    ensures StartGame(s).scoreSounds == s.scoreSounds && StartGame(s).dieSounds == s.dieSounds
  {
  }

  /** Space in play only sets the vertical speed to the jump impulse; space
      in the menu starts the game; space after a game over, or any other
      key, changes nothing. */
  lemma KeyPressedCases(s: Session, keyCode: int)
    ensures keyCode == VK_SPACE && s.state == Playing ==>
      KeyPressed(s, keyCode) == s.(velocityY := -9)
    ensures keyCode == VK_SPACE && s.state == Menu ==>
      KeyPressed(s, keyCode) == StartGame(s)
    ensures keyCode != VK_SPACE || s.state == GameOver ==>
      KeyPressed(s, keyCode) == s
  {
  }

  /** The game-loop action is a tick after which both timers are stopped
      exactly when the game-over flag is set. */
  lemma ActionPerformedStopsTimers(s: Session)
    ensures ActionPerformed(s).(gameLoopRunning := Move(s).gameLoopRunning,
                                pipeTimerRunning := Move(s).pipeTimerRunning) == Move(s)
    ensures ActionPerformed(s).gameLoopRunning == (Move(s).gameLoopRunning && !Move(s).gameOver)
    ensures ActionPerformed(s).pipeTimerRunning == (Move(s).pipeTimerRunning && !Move(s).gameOver)
  {
  }

  // ---------------------------------------------------------------------
  // The invariant is established and kept

  lemma InitialSatisfiesInv()
    ensures Inv(Initial())
  {
  }

  lemma FallPreservesInv(s: Session)
    requires Inv(s)
    ensures Inv(Fall(s))
  {
  }

  lemma ScrollPipesPreservesInv(s: Session)
    requires Inv(s)
    ensures Inv(ScrollPipes(s))
  {
    var bx := s.bird.x;
    PassedCountScrolled(s.pipes, bx, s.velocityX);
    ScrolledKeepsOrder(s.pipes, bx, s.velocityX);
    ScrolledStaysLeft(s.pipes, bx, s.velocityX);
    ScrolledKeepsPairs(s.pipes, bx, s.velocityX);
  }

  lemma HitGroundPreservesInv(s: Session)
    requires Inv(s)
    ensures Inv(HitGround(s))
  {
  }

  lemma IncreaseGameSpeedPreservesInv(s: Session)
    requires Inv(s)
    ensures Inv(IncreaseGameSpeed(s))
  {
  }

  lemma MovePreservesInv(s: Session)
    requires Inv(s)
    ensures Inv(Move(s))
  {
    if s.state == Playing {
      FallPreservesInv(s);
      ScrollPipesPreservesInv(Fall(s));
      HitGroundPreservesInv(ScrollPipes(Fall(s)));
      if Tick(s).score >= SPEED_UP_HALF_POINTS {
        IncreaseGameSpeedPreservesInv(Tick(s));
      }
    }
  }

  /** Appending a fresh pair at the spawn column keeps the list's shape. */
  lemma AppendPairKeepsShape(ps: seq<Pipe>, top: Pipe, bottom: Pipe)
    requires Paired(ps) && OrderedByX(ps) && NotPastSpawn(ps)
    requires WellFormedPair(top, bottom) && top.x == PIPE_X
    ensures Paired(ps + [top, bottom])
    ensures OrderedByX(ps + [top, bottom])
    ensures NotPastSpawn(ps + [top, bottom])
  {
    var qs := ps + [top, bottom];
    forall k | 0 <= k < |qs| / 2
      ensures PairAt(qs, k)
    {
      if 2 * k < |ps| {
        assert PairAt(ps, k);
      }
    }
  }

  /** A fresh pair adds nothing to the passed count. */
  lemma AppendPairKeepsPassedCount(ps: seq<Pipe>, top: Pipe, bottom: Pipe)
    requires !top.passed && !bottom.passed
    ensures PassedCount(ps + [top, bottom]) == PassedCount(ps)
  {
    PassedCountAppend(ps, [top, bottom]);
    assert [top][..0] == [];
    assert PassedCount([top]) == 0;
    assert [top, bottom][..1] == [top];
    assert PassedCount([top, bottom]) == 0;
  }

  lemma PlacePipesPreservesInv(s: Session, random: real)
    requires Inv(s) && 0.0 <= random < 1.0
    ensures Inv(PlacePipes(s, random))
  {
    var top := NewPipe().(y := RandomPipeY(random));
    var bottom := NewPipe().(y := top.y + PIPE_HEIGHT + OPENING_SPACE);
    AppendPairKeepsShape(s.pipes, top, bottom);
    AppendPairKeepsPassedCount(s.pipes, top, bottom);
  }

  lemma StartGamePreservesInv(s: Session)
    requires Inv(s)
    ensures Inv(StartGame(s))
  {
  }

  lemma KeyPressedPreservesInv(s: Session, keyCode: int)
    requires Inv(s)
    ensures Inv(KeyPressed(s, keyCode))
  {
  }

  /** The game-loop action keeps the invariant, and after it a finished game
      has both timers stopped. */
  lemma ActionPerformedPreservesInv(s: Session)
    requires Inv(s)
    ensures Inv(ActionPerformed(s))
    ensures ActionPerformed(s).state == GameOver ==>
      !ActionPerformed(s).gameLoopRunning && !ActionPerformed(s).pipeTimerRunning
  {
    MovePreservesInv(s);
  }

  /** Consequences of the invariant: the score is one half-point per passed
      pipe, so at most one per pipe, and always a whole number of points;
      pipes stay in left-to-right order. */
  lemma InvConsequences(s: Session)
    requires Inv(s)
    ensures s.score <= |s.pipes|
    ensures s.score % 2 == 0
    ensures forall i, j :: 0 <= i < j < |s.pipes| ==> s.pipes[i].x <= s.pipes[j].x
  {
    PassedCountBound(s.pipes);
    PairedPassedCountEven(s.pipes);
  }
}
