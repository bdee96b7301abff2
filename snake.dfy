/**
 * The per-tick simulation of a grid snake game: steering from the arrow keys,
 * a move on every call whose new tick is a multiple of 5, wall and self collisions, growth on food and
 * food placement by rejection sampling.
 *
 * `Step` is the specification of one call of the game's update callback on a
 * value `State`; the class `Game` holds the same fields as mutable state and
 * its methods are proved to follow `Step` and `Spawn`.
 */
module Snake {

  // ---------------------------------------------------------------------------
  // Grid geometry and cadence
  // ---------------------------------------------------------------------------

  const ScreenWidth: int := 400
  const ScreenHeight: int := 400
  const GridSize: int := 20
  /** Number of cells per row and per column of the board. */
  const Cols: int := ScreenWidth / GridSize
  const Rows: int := ScreenHeight / GridSize

  datatype Point = Point(x: int, y: int)

  predicate InGrid(p: Point)
  {
    0 <= p.x < Cols && 0 <= p.y < Rows
  }

  /** A cell of the board: what one pair of `rand.Intn(Cols)`, `rand.Intn(Rows)` draws yields. */
  type Cell = p: Point | InGrid(p) witness Point(0, 0)

  const Up := Point(0, -1)
  const Down := Point(0, 1)
  const Left := Point(-1, 0)
  const Right := Point(1, 0)

  predicate IsUnit(d: Point)
  {
    d == Up || d == Down || d == Left || d == Right
  }

  function Opposite(d: Point): Point
  {
    Point(-d.x, -d.y)
  }

  function Add(p: Point, d: Point): Point
  {
    Point(p.x + d.x, p.y + d.y)
  }

  /** Which arrow keys are held during one call of the update callback. */
  datatype Keys = Keys(up: bool, down: bool, left: bool, right: bool)

  const NoKeys := Keys(false, false, false, false)

  /** No two segments of the body occupy the same cell. */
  predicate Distinct(body: seq<Point>)
  {
    forall i, j :: 0 <= i < j < |body| ==> body[i] != body[j]
  }

  predicate AllInGrid(body: seq<Point>)
  {
    forall i :: 0 <= i < |body| ==> InGrid(body[i])
  }

  // ---------------------------------------------------------------------------
  // Steering
  // ---------------------------------------------------------------------------

  /** The direction after the else-if chain over the arrow keys, with the chain's own tests. */
  function Steer(d: Point, k: Keys): (r: Point)
    ensures r == d || r in Held(k)
  {
    if k.up && d.y != 1 then Up
    else if k.down && d.y != -1 then Down
    else if k.left && d.x != 1 then Left
    else if k.right && d.x != -1 then Right
    else d
  }

  /** The directions of the held keys, in priority order Up, Down, Left, Right. */
  function Held(k: Keys): seq<Point>
  {
    (if k.up then [Up] else []) + (if k.down then [Down] else [])
    + (if k.left then [Left] else []) + (if k.right then [Right] else [])
  }

  /** Reference rule: the first request that does not reverse `d`, or `d` when there is none. */
  function FirstAllowed(requests: seq<Point>, d: Point): Point
  {
    if requests == [] then d
    else if requests[0] != Opposite(d) then requests[0]
    else FirstAllowed(requests[1..], d)
  }

  /**
   * For a unit direction, the key chain picks the first held key, in the
   * order Up, Down, Left, Right, that is not the reverse of the current
   * direction, and keeps the direction when no held key qualifies.
   */
  lemma SteerIsFirstAllowed(d: Point, k: Keys)
    requires IsUnit(d)
    ensures Steer(d, k) == FirstAllowed(Held(k), d)
  {
  }

  /** Steering keeps a unit direction a unit direction and never reverses it. */
  lemma SteerKeepsUnit(d: Point, k: Keys)
    requires IsUnit(d)
    ensures IsUnit(Steer(d, k))
    ensures Steer(d, k) != Opposite(d)
  {
  }

  // ---------------------------------------------------------------------------
  // Food placement by rejection sampling
  // ---------------------------------------------------------------------------

  /** Some draw of the stream lands on a cell the body does not occupy. */
  predicate HasFree(draws: seq<Cell>, body: seq<Point>)
  {
    exists i :: 0 <= i < |draws| && draws[i] !in body
  }

  /** Index of the first draw not on the body, or |draws| when every draw is rejected. */
  function Sample(draws: seq<Cell>, body: seq<Point>): (k: nat)
    ensures k <= |draws|
  {
    if draws == [] then 0
    else if draws[0] !in body then 0
    else 1 + Sample(draws[1..], body)
  }

  /** Sampling stops at the first draw off the body, and stops inside the stream exactly when one exists. */
  lemma {:induction false} SampleIsFirstFree(draws: seq<Cell>, body: seq<Point>)
    ensures Sample(draws, body) < |draws| <==> HasFree(draws, body)
    ensures Sample(draws, body) < |draws| ==> draws[Sample(draws, body)] !in body
    ensures forall j :: 0 <= j < Sample(draws, body) ==> draws[j] in body
  {
    if draws != [] && draws[0] in body {
      var tail := draws[1..];
      SampleIsFirstFree(tail, body);
      if HasFree(draws, body) {
        var i :| 0 <= i < |draws| && draws[i] !in body;
        assert tail[i - 1] !in body;
      }
      if HasFree(tail, body) {
        var i :| 0 <= i < |tail| && tail[i] !in body;
        assert draws[i + 1] !in body;
      }
      forall j | 0 <= j < Sample(draws, body)
        ensures draws[j] in body
      {
        if j > 0 {
          assert draws[j] == tail[j - 1];
        }
      }
    }
  }

  /** Any index holding a free draw with only rejected draws before it is the one sampling stops at. */
  lemma SampleUnique(draws: seq<Cell>, body: seq<Point>, i: nat)
    requires i < |draws| && draws[i] !in body
    requires forall j :: 0 <= j < i ==> draws[j] in body
    ensures Sample(draws, body) == i
  {
    SampleIsFirstFree(draws, body);
  }

  /** The cell the rejection-sampling loop settles on. */
  function Spawn(draws: seq<Cell>, body: seq<Point>): (food: Cell)
    requires HasFree(draws, body)
    ensures food !in body
    ensures exists i :: 0 <= i < |draws| && food == draws[i] && forall j :: 0 <= j < i ==> draws[j] in body
  {
    SampleIsFirstFree(draws, body);
    draws[Sample(draws, body)]
  }

  // ---------------------------------------------------------------------------
  // The game state and one step of the simulation
  // ---------------------------------------------------------------------------

  datatype State = State(snake: seq<Point>, direction: Point, food: Point, score: nat, tick: nat, gameOver: bool)

  /** Snake of one segment at (5, 5), heading right, score 0, then a first food placement. */
  function Initial(draws: seq<Cell>): (s: State)
    requires HasFree(draws, [Point(5, 5)])
    ensures |s.snake| == 1 && InGrid(s.food) && s.food !in s.snake
  {
    State([Point(5, 5)], Right, Spawn(draws, [Point(5, 5)]), 0, 0, false)
  }

  /** Whether this call of the update callback reaches the move. */
  predicate Moves(s: State)
  {
    !s.gameOver && (s.tick + 1) % 5 == 0
  }

  /** Where the head goes if this call moves. */
  function NextHead(s: State, k: Keys): Point
    requires |s.snake| >= 1
  {
    Add(s.snake[0], Steer(s.direction, k))
  }

  /** The move ends the game: the new head leaves the board or lands on a current segment. */
  predicate Collides(s: State, k: Keys)
    requires |s.snake| >= 1
  {
    Moves(s) && (!InGrid(NextHead(s, k)) || NextHead(s, k) in s.snake)
  }

  /** The move lands on the food. */
  predicate Eats(s: State, k: Keys)
    requires |s.snake| >= 1
  {
    Moves(s) && !Collides(s, k) && NextHead(s, k) == s.food
  }

  /**
   * What a call of the update callback needs: a head to move from, and, when
   * the move eats, a stream of draws in which the grown snake leaves a cell free.
   */
  predicate CanStep(s: State, k: Keys, draws: seq<Cell>)
  {
    |s.snake| >= 1 && (Moves(s) ==> CanMove(Advance(s, k), draws))
  }

  /** What the move needs: a head to move from, and a free cell for the food if the new head eats. */
  predicate CanMove(s: State, draws: seq<Cell>)
  {
    |s.snake| >= 1 &&
    var h := Add(s.snake[0], s.direction);
    InGrid(h) && h !in s.snake && h == s.food ==> HasFree(draws, [h] + s.snake)
  }

  /** The part of a call before the cadence test: steer, then count the tick. */
  function Advance(s: State, k: Keys): (r: State)
    ensures r.tick > s.tick
    ensures IsUnit(s.direction) ==> IsUnit(r.direction) && r.direction != Opposite(s.direction)
  {
    s.(direction := Steer(s.direction, k), tick := s.tick + 1)
  }

  /** The move itself, once the cadence test has passed. */
  function Move(s: State, draws: seq<Cell>): (r: State)
    requires CanMove(s, draws)
    ensures |r.snake| >= |s.snake| && |r.snake| - r.score == |s.snake| - s.score
    ensures r.direction == s.direction && r.tick == s.tick
    ensures r.gameOver || r.snake[0] == Add(s.snake[0], s.direction)
  {
    var newHead := Add(s.snake[0], s.direction);
    if !InGrid(newHead) || newHead in s.snake then s.(gameOver := true)
    else if newHead == s.food then
      var grown := [newHead] + s.snake;
      s.(snake := grown, score := s.score + 1, food := Spawn(draws, grown))
    else
      s.(snake := [newHead] + s.snake[..|s.snake| - 1])
  }

  /** A move whose new head leaves the board or lands on the body only ends the game. */
  lemma MoveCollides(s: State, draws: seq<Cell>)
    requires CanMove(s, draws)
    requires var h := Add(s.snake[0], s.direction); !InGrid(h) || h in s.snake
    ensures Move(s, draws) == s.(gameOver := true)
  {
  }

  /** A free move that misses the food shifts the body by one cell. */
  lemma MoveSlides(s: State, draws: seq<Cell>)
    requires CanMove(s, draws)
    requires var h := Add(s.snake[0], s.direction); InGrid(h) && h !in s.snake && h != s.food
    ensures Move(s, draws) == s.(snake := [Add(s.snake[0], s.direction)] + s.snake[..|s.snake| - 1])
  {
  }

  /** A free move onto the food grows the body, scores, and places food off the grown body. */
  lemma MoveEats(s: State, draws: seq<Cell>)
    requires CanMove(s, draws)
    requires var h := Add(s.snake[0], s.direction); InGrid(h) && h !in s.snake && h == s.food
    ensures var grown := [Add(s.snake[0], s.direction)] + s.snake;
      Move(s, draws) == s.(snake := grown, score := s.score + 1, food := Spawn(draws, grown))
  {
  }

  /** One call of the update callback. */
  function Step(s: State, k: Keys, draws: seq<Cell>): (r: State)
    requires CanStep(s, k, draws)
    ensures s.gameOver ==> r.gameOver
    ensures |r.snake| >= |s.snake| && r.score >= s.score
    ensures |r.snake| - r.score == |s.snake| - s.score
  {
    if s.gameOver then s
    else if Advance(s, k).tick % 5 != 0 then Advance(s, k)
    else Move(Advance(s, k), draws)
  }

  /**
   * The snake invariant: at least one segment, every segment on the board,
   * no two segments on one cell, the food on the board and off the snake, a
   * unit direction, and one point of score per segment grown.
   */
  predicate Inv(s: State)
  {
    |s.snake| >= 1 && AllInGrid(s.snake) && Distinct(s.snake)
    && InGrid(s.food) && s.food !in s.snake
    && IsUnit(s.direction) && s.score == |s.snake| - 1
  }

  // ---------------------------------------------------------------------------
  // Properties of a step
  // ---------------------------------------------------------------------------

  lemma InitialInv(draws: seq<Cell>)
    requires HasFree(draws, [Point(5, 5)])
    ensures Inv(Initial(draws))
    ensures !Initial(draws).gameOver && Initial(draws).tick == 0
  {
  }

  /** A finished game is frozen: nothing changes, not even the tick or the direction. */
  lemma StepFrozenWhenOver(s: State, k: Keys, draws: seq<Cell>)
    requires CanStep(s, k, draws) && s.gameOver
    ensures Step(s, k, draws) == s
  {
  }

  /** While playing, every call steers and advances the tick by exactly one. */
  lemma StepSteersAndTicks(s: State, k: Keys, draws: seq<Cell>)
    requires CanStep(s, k, draws) && !s.gameOver
    ensures Step(s, k, draws).direction == Steer(s.direction, k)
    ensures Step(s, k, draws).tick == s.tick + 1
  {
  }

  /** Between moves the snake, the food, the score and the flag stay as they are. */
  lemma StepBetweenMoves(s: State, k: Keys, draws: seq<Cell>)
    requires CanStep(s, k, draws) && !s.gameOver && (s.tick + 1) % 5 != 0
    ensures Step(s, k, draws) == s.(direction := Steer(s.direction, k), tick := s.tick + 1)
  {
  }

  /** The game ends on this call exactly when the move collides with a wall or with the body. */
  lemma StepEndsGameIffCollides(s: State, k: Keys, draws: seq<Cell>)
    requires CanStep(s, k, draws) && !s.gameOver
    ensures Step(s, k, draws).gameOver <==> Collides(s, k)
  {
  }

  /** A collision leaves snake, food and score as they were. */
  lemma StepCollision(s: State, k: Keys, draws: seq<Cell>)
    requires CanStep(s, k, draws) && Collides(s, k)
    ensures Step(s, k, draws) == s.(direction := Steer(s.direction, k), tick := s.tick + 1, gameOver := true)
  {
  }

  /** A move that does not eat puts the new head in front and drops the tail. */
  lemma StepSlide(s: State, k: Keys, draws: seq<Cell>)
    requires CanStep(s, k, draws) && Moves(s) && !Collides(s, k) && NextHead(s, k) != s.food
    ensures Step(s, k, draws).snake == [NextHead(s, k)] + s.snake[..|s.snake| - 1]
    ensures |Step(s, k, draws).snake| == |s.snake|
    ensures Step(s, k, draws).score == s.score && Step(s, k, draws).food == s.food
    ensures !Step(s, k, draws).gameOver
  {
  }

  /** A move onto the food keeps the whole old body behind the new head, scores one, and places new food off the snake. */
  lemma StepEat(s: State, k: Keys, draws: seq<Cell>)
    requires CanStep(s, k, draws) && Eats(s, k)
    ensures Step(s, k, draws).snake == [NextHead(s, k)] + s.snake
    ensures |Step(s, k, draws).snake| == |s.snake| + 1
    ensures Step(s, k, draws).score == s.score + 1
    ensures Step(s, k, draws).food == Spawn(draws, [NextHead(s, k)] + s.snake)
    ensures InGrid(Step(s, k, draws).food) && Step(s, k, draws).food !in Step(s, k, draws).snake
    ensures !Step(s, k, draws).gameOver
  {
  }

  /** Every step keeps the snake invariant, whether it ends the game or not. */
  lemma StepPreservesInv(s: State, k: Keys, draws: seq<Cell>)
    requires CanStep(s, k, draws) && Inv(s)
    ensures Inv(Step(s, k, draws))
  {
  }

  // ---------------------------------------------------------------------------
  // The game as mutable state
  // ---------------------------------------------------------------------------

  class Game {
    var snake: seq<Point>
    var direction: Point
    var food: Point
    var score: nat
    var tick: nat
    var gameOver: bool

    /** The fields as a value. */
    function Model(): State
      reads this
    {
      State(snake, direction, food, score, tick, gameOver)
    }

    ghost predicate Valid()
      reads this
    {
      Inv(Model())
    }

    /** The start of a session: snake at (5, 5), heading right, score 0, then a first food placement. */
    constructor (draws: seq<Cell>)
      requires HasFree(draws, [Point(5, 5)])
      ensures Model() == Initial(draws)
      ensures Valid()
    {
      snake := [Point(5, 5)];
      direction := Right;
      food := Point(0, 0);
      score := 0;
      tick := 0;
      gameOver := false;
      new;
      SpawnFood(draws);
      InitialInv(draws);
    }

    /** Draw candidate cells until one misses the snake, and put the food there. */
    method SpawnFood(draws: seq<Cell>)
      requires HasFree(draws, snake)
      modifies this`food
      ensures food == Spawn(draws, snake)
      ensures InGrid(food) && food !in snake
    {
      var i := 0;
      while true
        invariant 0 <= i < |draws|
        invariant forall j :: 0 <= j < i ==> draws[j] in snake
        decreases |draws| - i
      {
        var candidate := draws[i];
        var collision := false;
        var n := 0;
        while n < |snake|
          invariant 0 <= n <= |snake|
          invariant !collision
          invariant forall m :: 0 <= m < n ==> snake[m] != candidate
        {
          if snake[n] == candidate {
            collision := true;
            break;
          }
          n := n + 1;
        }
        if !collision {
          food := candidate;
          SampleUnique(draws, snake, i);
          break;
        }
        i := i + 1;
      }
    }

    /** The arrow-key chain at the top of the update callback: the first key that passes its reversal test wins. */
    method Turn(up: bool, down: bool, left: bool, right: bool)
      modifies this`direction
      ensures direction == Steer(old(direction), Keys(up, down, left, right))
    {
      if up && direction.y != 1 {
        direction := Up;
      } else if down && direction.y != -1 {
        direction := Down;
      } else if left && direction.x != 1 {
        direction := Left;
      } else if right && direction.x != -1 {
        direction := Right;
      }
    }

    /** One call of the update callback, with the four arrow-key states and the draws for a food placement. */
    method Update(up: bool, down: bool, left: bool, right: bool, draws: seq<Cell>)
      requires CanStep(Model(), Keys(up, down, left, right), draws)
      modifies this
      ensures Model() == Step(old(Model()), Keys(up, down, left, right), draws)
      ensures old(Valid()) ==> Valid()
    {
      ghost var before := Model();
      if Inv(before) {
        StepPreservesInv(before, Keys(up, down, left, right), draws);
      }
      if gameOver {
        return;
      }

      Turn(up, down, left, right);
      ghost var keys := Keys(up, down, left, right);

      tick := tick + 1;
      ghost var advanced := Advance(before, keys);
      assert Model() == advanced;
      if tick % 5 != 0 {
        return;
      }

      var head := snake[0];
      var newHead := Point(head.x + direction.x, head.y + direction.y);
      assert CanMove(Model(), draws);

      if newHead.x < 0 || newHead.y < 0 || newHead.x >= ScreenWidth / GridSize || newHead.y >= ScreenHeight / GridSize {
        gameOver := true;
        MoveCollides(advanced, draws);
        return;
      }

      var i := 0;
      while i < |snake|
        invariant 0 <= i <= |snake|
        invariant forall j :: 0 <= j < i ==> snake[j] != newHead
        invariant Model() == advanced
      {
        if snake[i] == newHead {
          gameOver := true;
          MoveCollides(advanced, draws);
          return;
        }
        i := i + 1;
      }

      snake := [newHead] + snake;

      if newHead == food {
        score := score + 1;
        SpawnFood(draws);
        MoveEats(advanced, draws);
      } else {
        snake := snake[..|snake| - 1];
        assert snake == [newHead] + before.snake[..|before.snake| - 1];
        MoveSlides(advanced, draws);
      }
    }
  }
}
