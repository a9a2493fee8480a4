/** Short games followed through the contracts. */
module Scenarios {
  import opened Cells
  import opened Worms
  import opened Grids
  import opened Games

  /** `n` copies of one draw. */
  function Repeat(d: Draw, n: nat): (r: seq<Draw>)
    requires IsDraw(d)
    ensures |r| == n && AllDraws(r)
    ensures forall i :: 0 <= i < n ==> r[i] == d
  {
    seq(n, _ => d)
  }

  /** A fresh worm steps right from (1, 1), leaving (1, 1) behind. */
  method FreshWormMoves() {
    var w := new Worm();
    w.Move();
    assert w.head == Cell(2, 1);
    assert w.tail == [Cell(1, 1)];
  }

  /** Down right after Up is dropped; the worm still goes right first,
      then up. */
  method ReverseIsDropped() {
    var w := new Worm();
    w.SetDirection(Up);
    w.SetDirection(Down);
    assert w.directions == [Right, Up];
    w.Move();
    assert w.head == Cell(2, 1) && w.directions == [Up];
    w.Move();
    assert w.head == Cell(2, 0) && w.directions == [Up];
  }

  /** All five first apples fall on (2, 1), the worm's first stop. The first
      move eats all of them at once, which empties the grid and starts
      level 1: 1100 points, a 93 ms interval and ten new apples. */
  lemma EatingTheLastAppleLevelsUp()
    ensures
      var draws := Repeat(Draw(0.2, 0.1), 50);
      var s := Initial(14, draws).(running := true, nextMove := 0.0);
      var r := Tick(s, 0.0, draws);
      && r.head == Cell(2, 1) && r.tail == [Cell(1, 1)]
      && r.score == 1100 && r.level == 1 && r.speed == 93 && r.size == 6
      && r.running && |r.apples| == 10 && r.nextMove == 100.0
      && Repaints(s, 0.0)
  {
    var draws := Repeat(Draw(0.2, 0.1), 50);
    var s := Initial(14, draws).(running := true, nextMove := 0.0);
    assert Place(Draw(0.2, 0.1), WIDTH, 14) == Cell(2, 1);
    assert s.apples[0] == Cell(2, 1);
    WithoutOnly(s.apples, Cell(2, 1));
    TickLevelsUp(s, 0.0, draws);
  }

  /** A game object: nothing moves before `Start`, the first frame after it
      moves at once, and a frame before the next deadline only asks for
      another frame. */
  method FramesBeforeTheDeadlineWait() {
    var draws := Repeat(Draw(0.9, 0.9), 50);
    var g := new Game(14, draws);
    var rescheduled, painted := g.Loop(0.0, draws);
    assert !rescheduled && !painted && g.worm.head == Cell(1, 1);
    g.Start();
    assert Place(Draw(0.9, 0.9), WIDTH, 14) == Cell(12, 12);
    assert Cell(2, 1) !in g.grid.apples;
    rescheduled, painted := g.Loop(10.0, draws);
    assert rescheduled && painted && g.worm.head == Cell(2, 1) && g.nextMove == 110.0;
    rescheduled, painted := g.Loop(60.0, draws);
    assert rescheduled && !painted && g.worm.head == Cell(2, 1);
  }

  /** Apples far away, at (12, 12). */
  function FarDraws(): (r: seq<Draw>)
    ensures EnoughDraws(r)
  {
    Repeat(Draw(0.9, 0.9), 50)
  }

  /** A running game whose touch started at (0, 200). */
  function Swiping(): (s: State)
    ensures Invariant(s) && s.running && s.touch.Some?
  {
    Initial(14, FarDraws()).(running := true, nextMove := 0.0, touch := Some(Point(0.0, 200.0)))
  }

  /** A swipe upwards queues Up behind Right; the first frame still moves
      right, then only Up is left. */
  lemma SwipeUpTurnsAfterOneMove()
    ensures
      var s1 := TouchEnded(Swiping(), Point(30.0, 0.0));
      && s1 == Swiping().(directions := [Right, Up])
      && Tick(s1, 0.0, FarDraws()) ==
           s1.(head := Cell(2, 1), tail := [Cell(1, 1)], directions := [Up], nextMove := 100.0)
  {
    var s0 := Swiping();
    assert Place(Draw(0.9, 0.9), WIDTH, 14) == Cell(12, 12);
    assert forall c :: c in s0.apples ==> c == Cell(12, 12);
  }

  /** Heading up from (2, 1), the worm leaves the grid at (2, -1): the game
      stops without a repaint and without points, and later frames change
      nothing. */
  lemma LeavingTheGridEndsTheGame()
    ensures
      var draws := FarDraws();
      var s2 := Swiping().(head := Cell(2, 1), tail := [Cell(1, 1)], directions := [Up], nextMove := 100.0);
      var s3 := Tick(s2, 100.0, draws);
      var s4 := Tick(s3, 200.0, draws);
      && s3.head == Cell(2, 0) && s4.head == Cell(2, -1)
      && Repaints(s2, 100.0) && !Repaints(s3, 200.0)
      && !s4.running && s4.score == 0
      && Tick(s4, 300.0, draws) == s4
  {
    var draws := FarDraws();
    var s2 := Swiping().(head := Cell(2, 1), tail := [Cell(1, 1)], directions := [Up], nextMove := 100.0);
    assert Place(Draw(0.9, 0.9), WIDTH, 14) == Cell(12, 12);
    assert forall c :: c in s2.apples ==> c == Cell(12, 12);
    var s3 := Tick(s2, 100.0, draws);
    assert s3 == s2.(head := Cell(2, 0), tail := [Cell(1, 1), Cell(2, 1)], nextMove := 200.0);
    var s4 := Tick(s3, 200.0, draws);
    assert s4 == s3.(head := Cell(2, -1), tail := [Cell(1, 1), Cell(2, 1), Cell(2, 0)], nextMove := 300.0, running := false);
  }
}
