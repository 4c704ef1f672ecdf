/** The plain data of the game panel: the board geometry, the bird and the
    pipes, the rectangle overlap test, and the placement of a new pipe pair's
    top edge from a random draw. */
module Entities {

  // Board geometry
  const BOARD_WIDTH: int := 360
  const BOARD_HEIGHT: int := 640

  // Where the bird starts, and its bounding box
  const BIRD_X: int := 50
  const BIRD_Y: int := BOARD_HEIGHT / 2
  const BIRD_WIDTH: int := 34
  const BIRD_HEIGHT: int := 24

  // Where a new pipe starts, and its bounding box
  const PIPE_X: int := BOARD_WIDTH
  const PIPE_Y: int := 0
  const PIPE_WIDTH: int := 64
  const PIPE_HEIGHT: int := 512

  /** The player's avatar; the image is cosmetic and left out. */
  datatype Bird = Bird(x: int, y: int, width: int, height: int)
  {
    /** Puts the bird back at its starting position; its size stays. */
    function Reset(): (b: Bird)
      ensures b.x == BIRD_X && b.y == BIRD_Y
      ensures b.width == width && b.height == height
    {
      this.(x := BIRD_X, y := BIRD_Y)
    }
  }

  /** The bird as the panel's constructor creates it. */
  function NewBird(): (b: Bird)
    ensures b == b.Reset() && b.width == BIRD_WIDTH && b.height == BIRD_HEIGHT
  {
    Bird(BIRD_X, BIRD_Y, BIRD_WIDTH, BIRD_HEIGHT)
  }

  /** One obstacle; the top/bottom image is cosmetic and left out. */
  datatype Pipe = Pipe(x: int, y: int, width: int, height: int, passed: bool)

  /** A pipe with the field initialisers of the Pipe class: at the spawn
      column, on the top edge of the board, 64 x 512, not yet passed. */
  function NewPipe(): (p: Pipe)
    ensures p.x == BOARD_WIDTH == 360 && p.y == 0
    ensures p.width == 64 && p.height == 512 && !p.passed
  {
    Pipe(PIPE_X, PIPE_Y, PIPE_WIDTH, PIPE_HEIGHT, false)
  }

  /** Strict overlap of the two boxes on both axes. Boxes can only overlap
      when their combined width and combined height are positive. */
  predicate Collision(a: Bird, b: Pipe)
    ensures Collision(a, b) ==> a.width + b.width > 0 && a.height + b.height > 0
  {
    a.x < b.x + b.width &&
    a.x + a.width > b.x &&
    a.y < b.y + b.height &&
    a.y + a.height > b.y
  }

  /** The integer point (px, py) lies in the half-open box
      [left, left + width) x [top, top + height). */
  predicate InBox(left: int, top: int, width: int, height: int, px: int, py: int)
  {
    left <= px < left + width && top <= py < top + height
  }

  function Max(a: int, b: int): (m: int)
    ensures m >= a && m >= b && (m == a || m == b)
  {
    if a >= b then a else b
  }

  /** For boxes of positive size, the overlap test holds exactly when the two
      half-open boxes share a point. */
  lemma CollisionIffCommonPoint(a: Bird, b: Pipe)
    requires a.width > 0 && a.height > 0 && b.width > 0 && b.height > 0
    ensures Collision(a, b) <==>
      exists px, py :: InBox(a.x, a.y, a.width, a.height, px, py) &&
                       InBox(b.x, b.y, b.width, b.height, px, py)
  {
    if Collision(a, b) {
      var px, py := Max(a.x, b.x), Max(a.y, b.y);
      assert InBox(a.x, a.y, a.width, a.height, px, py);
      assert InBox(b.x, b.y, b.width, b.height, px, py);
    }
  }

  /** Boxes that only touch along an edge do not collide. */
  lemma EdgeContactIsNoCollision(a: Bird, b: Pipe)
    requires a.x + a.width == b.x || b.x + b.width == a.x ||
             a.y + a.height == b.y || b.y + b.height == a.y
    ensures !Collision(a, b)
  {
  }

  /** A narrowing cast from a floating-point value to an integer, which
      truncates toward zero (the value is assumed to be in range). */
  function TruncateToInt(v: real): (n: int)
    ensures v >= 0.0 ==> n as real <= v < n as real + 1.0
    ensures v < 0.0 ==> n as real - 1.0 < v <= n as real
  {
    if v >= 0.0 then v.Floor else -((-v).Floor)
  }

  /** The top edge of a new upper pipe for a random draw in [0, 1): the
      baseline, less a quarter of the pipe height, less a uniform share of
      half the pipe height, truncated. The result lies in [-383, -128] and
      equals -128 minus the whole part of random * 256. */
  function RandomPipeY(random: real): (y: int)
    requires 0.0 <= random < 1.0
    ensures y == PIPE_Y - PIPE_HEIGHT / 4 - (random * (PIPE_HEIGHT / 2) as real).Floor
    ensures -383 <= y <= -128
  {
    assert (PIPE_HEIGHT / 2) as real == 256.0;
    var share := random * (PIPE_HEIGHT / 2) as real;
    assert 0.0 <= share < 256.0;
    TruncateToInt((PIPE_Y - PIPE_HEIGHT / 4) as real - share)
  }
}
