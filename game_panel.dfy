/** The game panel as an object whose methods update its fields in place.
    Each method is proved to leave the state that the matching function of
    the Simulation module gives, and to keep the invariant Simulation.Inv. */
module Panel {
  import opened Entities
  import opened Simulation

  /** The loop over the pipe list in one tick: each pipe moves by vx, a pipe
      not yet passed whose right edge the bird has cleared is marked passed
      and counts as scored, and each moved pipe the bird overlaps counts as
      a hit. The list is a local copy, updated at each index. */
  method ScrollPipeList(pipes: seq<Pipe>, bird: Bird, vx: int)
    returns (ps: seq<Pipe>, scored: nat, hits: nat)
    ensures ps == Scrolled(pipes, bird.x, vx)
    ensures scored == NewlyPassed(pipes, bird.x, vx)
    ensures hits == HitCount(bird, pipes, vx)
  {
    ps, scored, hits := pipes, 0, 0;
    var i := 0;
    while i < |ps|
      invariant 0 <= i <= |ps| == |pipes|
      invariant forall j :: 0 <= j < i ==> ps[j] == StepPipe(pipes[j], bird.x, vx)
      invariant forall j :: i <= j < |ps| ==> ps[j] == pipes[j]
      invariant scored == NewlyPassed(pipes[..i], bird.x, vx)
      invariant hits == HitCount(bird, pipes[..i], vx)
    {
      PrefixStep(pipes, i, bird, vx);
      var pipe := ps[i];
      pipe := pipe.(x := pipe.x + vx);

      if !pipe.passed && bird.x > pipe.x + pipe.width {
        scored := scored + 1;
        pipe := pipe.(passed := true);
      }

      if Collision(bird, pipe) {
        hits := hits + 1;
      }

      ps := ps[i := pipe];
      i := i + 1;
    }
    assert pipes[..i] == pipes;
    ScrolledPointwise(pipes, bird.x, vx);
  }

  class GamePanel {
    var bird: Bird
    var velocityX: int
    var velocityY: int
    var pipes: seq<Pipe>
    /** In half-points. */
    var score: nat
    var gameOver: bool
    var currentState: GameState
    var gameLoopRunning: bool
    var pipeTimerRunning: bool
    var gameLoopDelay: int
    /** How many "scored" and "died" sounds were requested. */
    ghost var scoreSounds: nat
    ghost var dieSounds: nat

    /** The whole simulation state, as one value. */
    ghost function Abs(): Session
      reads this
    {
      Session(bird, velocityX, velocityY, pipes, score, gameOver, currentState,
              gameLoopRunning, pipeTimerRunning, gameLoopDelay, scoreSounds, dieSounds)
    }

    ghost predicate Valid()
      reads this
    {
      Inv(Abs())
    }

    /** The simulation part of the panel's construction: the bird at its
        start, no pipes, the menu shown, both timers created but stopped. */
    constructor ()
      ensures Abs() == Initial()
      ensures Valid()
    {
      bird := NewBird();
      velocityX := INITIAL_VELOCITY_X;
      velocityY := 0;
      pipes := [];
      score := 0;
      gameOver := false;
      currentState := Menu;
      gameLoopRunning := false;
      pipeTimerRunning := false;
      gameLoopDelay := INITIAL_DELAY;
      scoreSounds := 0;
      dieSounds := 0;
      InitialSatisfiesInv();
    }

    method StartGame()
      modifies this
      ensures Abs() == Simulation.StartGame(old(Abs()))
      ensures old(Valid()) ==> Valid()
    {
      ghost var before := Abs();
      currentState := Playing;
      bird := bird.Reset();
      velocityY := 0;
      pipes := [];
      score := 0;
      gameOver := false;
      gameLoopRunning := true;
      pipeTimerRunning := true;
      if Inv(before) {
        StartGamePreservesInv(before);
      }
    }

    /** Spawns a pipe pair; random stands for the draw from [0, 1). */
    method PlacePipes(random: real)
      requires 0.0 <= random < 1.0
      modifies this
      ensures Abs() == Simulation.PlacePipes(old(Abs()), random)
      ensures old(Valid()) ==> Valid()
    {
      ghost var before := Abs();
      var randomPipeY := RandomPipeY(random);
      var openingSpace := BOARD_HEIGHT / 4;

      var topPipe := NewPipe();
      topPipe := topPipe.(y := randomPipeY);
      pipes := pipes + [topPipe];

      var bottomPipe := NewPipe();
      bottomPipe := bottomPipe.(y := topPipe.y + PIPE_HEIGHT + openingSpace);
      pipes := pipes + [bottomPipe];

      assert pipes == before.pipes + [topPipe, bottomPipe];
      if Inv(before) {
        PlacePipesPreservesInv(before, random);
      }
    }

    /** One game tick. */
    method Move()
      modifies this
      ensures Abs() == Simulation.Move(old(Abs()))
      ensures old(Valid()) ==> Valid()
    {
      ghost var before := Abs();
      if currentState == Playing {
        velocityY := velocityY + GRAVITY;
        bird := bird.(y := bird.y + velocityY);
        bird := bird.(y := Max(bird.y, 0));
        assert Abs() == Fall(before);

        MovePipes();

        if bird.y > BOARD_HEIGHT {
          gameOver := true;
          currentState := GameOver;
          dieSounds := dieSounds + 1;
        }
        assert Abs() == Tick(before);

        if score >= SPEED_UP_HALF_POINTS {
          IncreaseGameSpeed();
        }
      }
      if Inv(before) {
        MovePreservesInv(before);
      }
    }

    /** The pipe loop of a tick, written back to the panel: the points
        scored are added, and any collision ends the game. */
    method MovePipes()
      modifies this
      ensures Abs() == ScrollPipes(old(Abs()))
      ensures old(Valid()) ==> Valid()
    {
      ghost var target := ScrollPipes(Abs());
      var moved, scored, hits := ScrollPipeList(pipes, bird, velocityX);
      pipes := moved;
      score := score + scored;
      scoreSounds := scoreSounds + scored;
      if hits > 0 {
        gameOver := true;
        currentState := GameOver;
      }
      dieSounds := dieSounds + hits;
      assert pipes == target.pipes && score == target.score && dieSounds == target.dieSounds;
      if Inv(old(Abs())) {
        ScrollPipesPreservesInv(old(Abs()));
      }
    }

    method IncreaseGameSpeed()
      modifies this
      ensures Abs() == Simulation.IncreaseGameSpeed(old(Abs()))
      ensures old(Valid()) ==> Valid()
    {
      ghost var before := Abs();
      velocityX := velocityX - 2;
      gameLoopDelay := 1000 / 75;
      if Inv(before) {
        IncreaseGameSpeedPreservesInv(before);
      }
    }

    /** The game-loop timer's action. */
    method ActionPerformed()
      modifies this
      ensures Abs() == Simulation.ActionPerformed(old(Abs()))
      ensures old(Valid()) ==> Valid()
      ensures old(Valid()) && currentState == GameOver ==> !gameLoopRunning && !pipeTimerRunning
    {
      ghost var before := Abs();
      Move();
      if gameOver {
        pipeTimerRunning := false;
        gameLoopRunning := false;
      }
      if Inv(before) {
        ActionPerformedPreservesInv(before);
      }
    }

    method KeyPressed(keyCode: int)
      modifies this
      ensures Abs() == Simulation.KeyPressed(old(Abs()), keyCode)
      ensures old(Valid()) ==> Valid()
    {
      ghost var before := Abs();
      if keyCode == VK_SPACE {
        if currentState == Playing {
          velocityY := JUMP_VELOCITY;
        } else if currentState == Menu {
          StartGame();
        }
      }
      if Inv(before) {
        KeyPressedPreservesInv(before, keyCode);
      }
    }
  }
}
