/**
 * Several calls of the update callback in a row: the host drives the game
 * by calling it once per frame, with the keys held during that frame and
 * the random draws that frame's food placement would use, so these lemmas
 * follow the state across calls rather than within one.
 */
module SnakeRuns {
  import opened Snake

  /**
   * One call per element of `ks`: call `i` sees the keys `ks[i]` and the
   * draws `ds[i]`. The run stops early at a call whose food placement its
   * draws cannot satisfy.
   */
  function Run(s: State, ks: seq<Keys>, ds: seq<seq<Cell>>): State
    requires |ks| == |ds|
    decreases |ks|
  {
    if ks == [] || !CanStep(s, ks[0], ds[0]) then s
    else Run(Step(s, ks[0], ds[0]), ks[1..], ds[1..])
  }

  /** Every call of the run has the head and the draws it needs, so none is cut short. */
  predicate Completes(s: State, ks: seq<Keys>, ds: seq<seq<Cell>>)
    requires |ks| == |ds|
    decreases |ks|
  {
    ks == [] || (CanStep(s, ks[0], ds[0]) && Completes(Step(s, ks[0], ds[0]), ks[1..], ds[1..]))
  }

  /** No arrow key is held on any call of the run. */
  predicate Idle(ks: seq<Keys>)
  {
    forall i :: 0 <= i < |ks| ==> ks[i] == NoKeys
  }

  /** A run that completes, followed by a second run, is the run of both input sequences joined. */
  lemma {:induction false} RunAppend(s: State, ks1: seq<Keys>, ds1: seq<seq<Cell>>, ks2: seq<Keys>, ds2: seq<seq<Cell>>)
    requires |ks1| == |ds1| && |ks2| == |ds2|
    requires Completes(s, ks1, ds1)
    ensures Run(s, ks1 + ks2, ds1 + ds2) == Run(Run(s, ks1, ds1), ks2, ds2)
    decreases |ks1|
  {
    if ks1 != [] {
      assert (ks1 + ks2)[0] == ks1[0] && (ds1 + ds2)[0] == ds1[0];
      assert (ks1 + ks2)[1..] == ks1[1..] + ks2;
      assert (ds1 + ds2)[1..] == ds1[1..] + ds2;
      RunAppend(Step(s, ks1[0], ds1[0]), ks1[1..], ds1[1..], ks2, ds2);
    } else {
      assert ks1 + ks2 == ks2 && ds1 + ds2 == ds2;
    }
  }

  /** A finished game stays exactly as it is, whatever keys and draws the further calls bring. */
  lemma {:induction false} RunFrozen(s: State, ks: seq<Keys>, ds: seq<seq<Cell>>)
    requires |ks| == |ds|
    requires s.gameOver
    ensures Run(s, ks, ds) == s
    decreases |ks|
  {
    if ks != [] && CanStep(s, ks[0], ds[0]) {
      RunFrozen(Step(s, ks[0], ds[0]), ks[1..], ds[1..]);
    }
  }

  /** The snake invariant holds after any sequence of calls, whatever keys are held on each. */
  lemma {:induction false} RunPreservesInv(s: State, ks: seq<Keys>, ds: seq<seq<Cell>>)
    requires |ks| == |ds|
    requires Inv(s)
    ensures Inv(Run(s, ks, ds))
    decreases |ks|
  {
    if ks != [] && CanStep(s, ks[0], ds[0]) {
      StepPreservesInv(s, ks[0], ds[0]);
      RunPreservesInv(Step(s, ks[0], ds[0]), ks[1..], ds[1..]);
    }
  }

  /** Calls with no key held whose new tick is not a multiple of 5 only count ticks. */
  lemma {:induction false} IdleTicks(s: State, ks: seq<Keys>, ds: seq<seq<Cell>>)
    requires |ks| == |ds| && Idle(ks)
    requires |s.snake| >= 1 && !s.gameOver
    requires s.tick % 5 + |ks| < 5
    ensures Completes(s, ks, ds)
    ensures Run(s, ks, ds) == s.(tick := s.tick + |ks|)
    decreases |ks|
  {
    if ks != [] {
      assert ks[0] == NoKeys;
      assert (s.tick + 1) % 5 == s.tick % 5 + 1;
      assert Step(s, ks[0], ds[0]) == s.(tick := s.tick + 1);
      IdleTicks(s.(tick := s.tick + 1), ks[1..], ds[1..]);
    }
  }

  /**
   * From a tick that is a multiple of 5, with no key held, four calls
   * leave the snake where it is and the fifth call makes the move with the
   * fifth call's draws.
   */
  lemma FifthCallMoves(s: State, ks: seq<Keys>, ds: seq<seq<Cell>>)
    requires |ks| == |ds| == 5 && Idle(ks)
    requires |s.snake| >= 1 && !s.gameOver && s.tick % 5 == 0
    requires CanMove(s.(tick := s.tick + 5), ds[4])
    ensures Run(s, ks[..4], ds[..4]) == s.(tick := s.tick + 4)
    ensures Completes(s, ks, ds)
    ensures Run(s, ks, ds) == Move(s.(tick := s.tick + 5), ds[4])
  {
    var s4 := s.(tick := s.tick + 4);
    IdleTicks(s, ks[..4], ds[..4]);
    assert ks[..4] + ks[4..] == ks && ds[..4] + ds[4..] == ds;
    RunAppend(s, ks[..4], ds[..4], ks[4..], ds[4..]);
    assert ks[4] == NoKeys;
    assert Moves(s4);
    assert Advance(s4, NoKeys) == s.(tick := s.tick + 5);
    assert CanStep(s4, NoKeys, ds[4]);
    assert Run(s4, ks[4..], ds[4..]) == Step(s4, NoKeys, ds[4]);
    assert Completes(s4, ks[4..], ds[4..]);
    CompletesAppend(s, ks[..4], ds[..4], ks[4..], ds[4..]);
  }

  /** A completed run followed by a run that completes from where it ended is a completed run. */
  lemma {:induction false} CompletesAppend(s: State, ks1: seq<Keys>, ds1: seq<seq<Cell>>, ks2: seq<Keys>, ds2: seq<seq<Cell>>)
    requires |ks1| == |ds1| && |ks2| == |ds2|
    requires Completes(s, ks1, ds1) && Completes(Run(s, ks1, ds1), ks2, ds2)
    ensures Completes(s, ks1 + ks2, ds1 + ds2)
    decreases |ks1|
  {
    if ks1 != [] {
      assert (ks1 + ks2)[0] == ks1[0] && (ds1 + ds2)[0] == ds1[0];
      assert (ks1 + ks2)[1..] == ks1[1..] + ks2;
      assert (ds1 + ds2)[1..] == ds1[1..] + ds2;
      CompletesAppend(Step(s, ks1[0], ds1[0]), ks1[1..], ds1[1..], ks2, ds2);
    } else {
      assert ks1 + ks2 == ks2 && ds1 + ds2 == ds2;
    }
  }

  /** Five idle calls from a one-segment snake heading right that does not reach the food slide it one cell right. */
  lemma OpeningSlide(s: State, ks: seq<Keys>, ds: seq<seq<Cell>>, x: int)
    requires s == State([Point(x, 5)], Right, Point(8, 5), 0, s.tick, false)
    requires 0 <= x < 7 && s.tick % 5 == 0
    requires |ks| == |ds| == 5 && Idle(ks)
    ensures Completes(s, ks, ds)
    ensures Run(s, ks, ds) == s.(snake := [Point(x + 1, 5)], tick := s.tick + 5)
  {
    FifthCallMoves(s, ks, ds);
    MoveSlides(s.(tick := s.tick + 5), ds[4]);
  }

  /** Five idle calls from a one-segment snake just left of the food eat it. */
  lemma OpeningEat(s: State, ks: seq<Keys>, ds: seq<seq<Cell>>)
    requires s == State([Point(7, 5)], Right, Point(8, 5), 0, s.tick, false)
    requires s.tick % 5 == 0
    requires |ks| == |ds| == 5 && Idle(ks)
    requires HasFree(ds[4], [Point(8, 5), Point(7, 5)])
    ensures var grown := [Point(8, 5), Point(7, 5)];
      Run(s, ks, ds) == s.(snake := grown, score := 1, tick := s.tick + 5, food := Spawn(ds[4], grown))
  {
    FifthCallMoves(s, ks, ds);
    MoveEats(s.(tick := s.tick + 5), ds[4]);
  }

  /**
   * The opening: one segment at (5, 5) heading right with food at (8, 5).
   * Fifteen calls with no key held bring the head onto the food; the snake
   * then has two segments, the score is 1, and the food has moved off the snake.
   */
  lemma OpeningMeal(start: State, ks: seq<Keys>, ds: seq<seq<Cell>>)
    requires start == State([Point(5, 5)], Right, Point(8, 5), 0, 0, false)
    requires |ks| == |ds| == 15 && Idle(ks)
    requires HasFree(ds[14], [Point(8, 5), Point(7, 5)])
    ensures var s := Run(start, ks, ds);
      s.snake == [Point(8, 5), Point(7, 5)] && s.score == 1 && !s.gameOver
      && s.food != Point(8, 5) && s.food !in s.snake
  {
    var k1, k2, k3 := ks[..5], ks[5..10], ks[10..];
    var d1, d2, d3 := ds[..5], ds[5..10], ds[10..];
    assert Idle(k1) && Idle(k2) && Idle(k3);
    assert d3[4] == ds[14];
    OpeningSlide(start, k1, d1, 5);
    var s5 := Run(start, k1, d1);
    OpeningSlide(s5, k2, d2, 6);
    var s10 := Run(s5, k2, d2);
    OpeningEat(s10, k3, d3);
    RunAppend(start, k1, d1, k2, d2);
    CompletesAppend(start, k1, d1, k2, d2);
    assert k1 + k2 + k3 == ks && d1 + d2 + d3 == ds;
    RunAppend(start, k1 + k2, d1 + d2, k3, d3);
  }

  /**
   * A reversal needs two calls: from heading right, Left is refused, but Up
   * on a call that does not move followed by Left on the moving call turns
   * the head back onto the neck, and the game ends with the snake in place.
   */
  lemma NeckTurn()
    ensures Steer(Right, Keys(false, false, true, false)) == Right
    ensures var s := State([Point(5, 5), Point(4, 5), Point(3, 5)], Right, Point(10, 10), 2, 3, false);
      var s1 := Step(s, Keys(true, false, false, false), []);
      s1 == s.(direction := Up, tick := 4)
      && Step(s1, Keys(false, false, true, false), []) == s.(direction := Left, tick := 5, gameOver := true)
      && Run(s, [Keys(true, false, false, false), Keys(false, false, true, false)], [[], []])
         == s.(direction := Left, tick := 5, gameOver := true)
  {
    var s := State([Point(5, 5), Point(4, 5), Point(3, 5)], Right, Point(10, 10), 2, 3, false);
    var ks := [Keys(true, false, false, false), Keys(false, false, true, false)];
    var ds: seq<seq<Cell>> := [[], []];
    var s1 := s.(direction := Up, tick := 4);
    assert Step(s, ks[0], ds[0]) == s1;
    assert ks[1..] == [ks[1]] && ds[1..] == [ds[1]];
    assert Step(s1, ks[1], ds[1]) == s.(direction := Left, tick := 5, gameOver := true);
  }
}
