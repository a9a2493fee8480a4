/** The game: a configuration (level, move interval, grid size, background
    colour), the score, the running flag, the time the next move is due, the
    worm and the apples, advanced one animation frame at a time.

    `State` is the whole game as a value; the functions over it (`Tick`,
    `LevelledUp`, `TouchEnded`, ...) specify what the methods of `Game` do
    to the objects, and the lemmas state what the game promises. */
module Games {
  import opened Cells
  import opened Worms
  import opened Grids

  /** Cells across the grid; the number of rows comes from the screen. */
  const WIDTH := 14
  /** The initial move interval, in milliseconds. */
  const SPEED := 100
  const MAX_LEVEL := 10
  /** Level background colours, one per level below `MAX_LEVEL`. */
  const COLORS: seq<string> := [
    "#fafafa", "#ffffcc", "#ffe6ee", "#e6f2ff", "#e6ffe6",
    "#fff0e6", "#e6e6ff", "#f9f2ec", "#e6ffe6", "#ff4d4d"
  ]
  const APPLE_POINTS := 100
  const LEVEL_POINTS := 1000
  /** How much shorter, in milliseconds, the move interval gets per level. */
  const SPEEDUP := 7
  /** The shortest displacement, in pixels, that counts as a swipe. */
  const SWIPE := 100.0

  /** What `checkState` reports. */
  const DEAD := -1
  const NOTHING := 0
  const APPLE := 1

  /** A touch point, in page pixels. */
  datatype Point = Point(pageX: real, pageY: real)

  /** Everything a game holds, as one value. */
  datatype State = State(
    head: Cell, tail: seq<Cell>, directions: seq<Direction>, size: int,
    apples: seq<Cell>,
    level: nat, speed: int, color: string, nbCellsX: int, nbCellsY: int,
    score: nat, running: bool, nextMove: real, touch: Option<Point>)

  /** The heading queue is never empty, the tail is within its size, and
      every apple lies inside a grid that is not empty. */
  predicate Invariant(s: State) {
    && |s.directions| > 0
    && |s.tail| <= s.size
    && s.nbCellsX > 0 && s.nbCellsY > 0
    && forall c :: c in s.apples ==> InBounds(c, s.nbCellsX, s.nbCellsY)
  }

  /** Draws enough for any reseeding: a level below `MAX_LEVEL` needs at most
      `APPLES * MAX_LEVEL` apples. */
  predicate EnoughDraws(draws: seq<Draw>) {
    AllDraws(draws) && |draws| >= APPLES * MAX_LEVEL
  }

  /** A game on a grid `WIDTH` cells across and `nbCellsY` cells down,
      stopped, at level 0, with its first apples placed by `draws`. */
  function Initial(nbCellsY: int, draws: seq<Draw>): (s: State)
    requires nbCellsY > 0 && AllDraws(draws) && |draws| >= Quota(0)
    ensures Invariant(s) && !s.running && s.score == 0 && |s.apples| == APPLES
  {
    State(INITIAL_POSITION, [], [INITIAL_DIRECTION], INITIAL_SIZE,
          Placed(draws[..Quota(0)], WIDTH, nbCellsY),
          0, SPEED, COLORS[0], WIDTH, nbCellsY,
          0, false, 0.0, None)
  }

  /** What the head landing on `head` means: -1 when it left the grid or
      runs into the tail, otherwise 1 when an apple is there, otherwise 0. */
  function Outcome(head: Cell, tail: seq<Cell>, apples: seq<Cell>, nbCellsX: int, nbCellsY: int): int {
    if !InBounds(head, nbCellsX, nbCellsY) || head in tail then DEAD
    else if head in apples then APPLE
    else NOTHING
  }

  function StateOutcome(s: State): int {
    Outcome(s.head, s.tail, s.apples, s.nbCellsX, s.nbCellsY)
  }

  /** The state after the worm moves once. */
  function Moved(s: State): State
    requires |s.directions| > 0
  {
    s.(head := Step(s.head, s.directions[0]),
       tail := Trim(s.tail + [s.head], s.size),
       directions := Advance(s.directions))
  }

  /** The state after the head eats: three more cells of length, 100
      points, and no apple left on the head's cell. */
  function Ate(s: State): State {
    s.(size := s.size + GROWTH, score := s.score + APPLE_POINTS,
       apples := Without(s.apples, s.head))
  }

  /** `levelUp`. */
  function LevelledUp(s: State, draws: seq<Draw>): State
    requires s.nbCellsX > 0 && s.nbCellsY > 0 && EnoughDraws(draws)
  {
    var level := s.level + 1;
    var t := s.(score := s.score + LEVEL_POINTS, level := level);
    if level < MAX_LEVEL then
      t.(speed := s.speed - SPEEDUP, color := COLORS[level],
         apples := s.apples + Placed(draws[..Quota(level)], s.nbCellsX, s.nbCellsY))
    else
      t.(running := false)
  }

  /** Whether a frame at `time` moves the worm. */
  predicate Due(s: State, time: real) {
    s.running && time >= s.nextMove
  }

  /** The `switch` on `checkState` after a move: a fatal move stops the
      game; eating an apple grows the worm, scores and may level up. */
  function Settled(m: State, draws: seq<Draw>): (r: State)
    requires Invariant(m) && EnoughDraws(draws)
    ensures Invariant(r)
    ensures r.score >= m.score
  {
    var outcome := StateOutcome(m);
    if outcome == DEAD then m.(running := false)
    else if outcome == APPLE then
      var e := Ate(m);
      if e.apples == [] then LevelledUp(e, draws) else e
    else m
  }

  /** One frame of `loop` at `time`, drawing `paint` aside. */
  function Tick(s: State, time: real, draws: seq<Draw>): (r: State)
    requires Invariant(s) && EnoughDraws(draws)
    ensures Invariant(r)
    ensures r.score >= s.score
  {
    if !Due(s, time) then s
    else
      TrimBounded(s.tail, s.head, s.size);
      Settled(Moved(s).(nextMove := time + s.speed as real), draws)
  }

  /** Whether a frame at `time` repaints: when it moves and the worm
      survives. A fatal move breaks out of the `switch` before `paint`;
      eating falls through to it. */
  predicate Repaints(s: State, time: real)
    requires |s.directions| > 0
  {
    Due(s, time) && StateOutcome(Moved(s)) != DEAD
  }

  function Abs(r: real): real {
    if r < 0.0 then -r else r
  }

  /** The heading a swipe asks for. A long enough horizontal displacement
      wins even when the vertical one is longer. */
  function Swipe(distX: real, distY: real): (r: Option<Direction>)
    ensures r == Some(Left) <==> distX <= -SWIPE
    ensures r == Some(Right) <==> distX >= SWIPE
    ensures r == Some(Up) <==> -SWIPE < distX < SWIPE && distY <= -SWIPE
    ensures r == Some(Down) <==> -SWIPE < distX < SWIPE && distY >= SWIPE
    ensures r == None <==> -SWIPE < distX < SWIPE && -SWIPE < distY < SWIPE
  {
    if Abs(distX) >= SWIPE then Some(if distX < 0.0 then Left else Right)
    else if Abs(distY) >= SWIPE then Some(if distY < 0.0 then Up else Down)
    else None
  }

  /** `onTouchEnd` at `end`: the swipe from the recorded start, if any,
      becomes a heading request. */
  function TouchEnded(s: State, end: Point): State
    requires |s.directions| > 0
  {
    if s.touch.None? then s
    else
      match Swipe(end.pageX - s.touch.value.pageX, end.pageY - s.touch.value.pageY)
      case None => s
      case Some(d) => s.(directions := Request(s.directions, d))
  }

  // ---------------------------------------------------------------------
  // What the game promises

  /** A frame that is not due, or comes after the game stopped, changes
      nothing. */
  lemma IdleTickChangesNothing(s: State, time: real, draws: seq<Draw>)
    requires Invariant(s) && EnoughDraws(draws)
    requires !s.running || time < s.nextMove
    ensures Tick(s, time, draws) == s
  {
  }

  /** A due frame moves the worm exactly once, one cell in the heading at
      the front of the queue, and schedules the next move `speed`
      milliseconds after this frame (not after the missed deadline). */
  lemma DueTickMovesOnce(s: State, time: real, draws: seq<Draw>)
    requires Invariant(s) && EnoughDraws(draws)
    requires Due(s, time)
    ensures var r := Tick(s, time, draws);
      && r.head == Step(s.head, s.directions[0])
      && IsUnitStep(s.head, r.head)
      && r.directions == Advance(s.directions)
      && r.tail == Trim(s.tail + [s.head], s.size)
      && r.nextMove == time + s.speed as real
      && r.touch == s.touch
  {
  }

  /** The score only grows, by 0, 100 or 1100 points per frame; a fatal
      move stops the game and scores nothing. */
  lemma TickScore(s: State, time: real, draws: seq<Draw>)
    requires Invariant(s) && EnoughDraws(draws)
    ensures var r := Tick(s, time, draws);
      && (r.score == s.score || r.score == s.score + APPLE_POINTS ||
          r.score == s.score + APPLE_POINTS + LEVEL_POINTS)
      && (Due(s, time) && StateOutcome(Moved(s)) == DEAD ==>
            !r.running && r.score == s.score && r.apples == s.apples && r.size == s.size)
      && (Due(s, time) && StateOutcome(Moved(s)) == NOTHING ==>
            r.running && r.score == s.score && r.apples == s.apples && r.size == s.size)
  {
  }

  /** Eating an apple that is not the last one: the worm grows by 3, the
      score by 100, and no apple is left on the head's cell while all the
      others stay, in order. */
  lemma TickEats(s: State, time: real, draws: seq<Draw>)
    requires Invariant(s) && EnoughDraws(draws)
    requires Due(s, time) && StateOutcome(Moved(s)) == APPLE
    requires Without(s.apples, Moved(s).head) != []
    ensures var r := Tick(s, time, draws);
      && r.running && r.size == s.size + GROWTH && r.score == s.score + APPLE_POINTS
      && r.apples == Without(s.apples, r.head) && r.head !in r.apples
      && r.level == s.level && r.speed == s.speed
  {
  }

  /** Eating the last apple levels up: 1100 points in all and the next
      level. Below `MAX_LEVEL` the interval shrinks by 7 ms and a fresh,
      non-empty set of apples appears; at `MAX_LEVEL` the game is won and
      stops with the speed unchanged. */
  lemma TickLevelsUp(s: State, time: real, draws: seq<Draw>)
    requires Invariant(s) && EnoughDraws(draws)
    requires Due(s, time) && StateOutcome(Moved(s)) == APPLE
    requires Without(s.apples, Moved(s).head) == []
    ensures var r := Tick(s, time, draws);
      && r.score == s.score + APPLE_POINTS + LEVEL_POINTS
      && r.level == s.level + 1 && r.size == s.size + GROWTH
      && (r.level < MAX_LEVEL ==>
            && r.running && r.speed == s.speed - SPEEDUP && r.color == COLORS[r.level]
            && |r.apples| == Quota(r.level))
      && (r.level >= MAX_LEVEL ==>
            !r.running && r.speed == s.speed && r.apples == [])
  {
  }

  /** `levelUp` on its own: 1000 points and the next level. Below
      `MAX_LEVEL` the interval shrinks by 7 ms, the colour follows the level
      and `APPLES * (level + 1)` new apples are appended inside the grid
      after the ones already there; at `MAX_LEVEL` the game stops and
      nothing else changes. */
  lemma LevelledUpEffect(s: State, draws: seq<Draw>)
    requires Invariant(s) && EnoughDraws(draws)
    ensures var r := LevelledUp(s, draws);
      && r.score == s.score + LEVEL_POINTS && r.level == s.level + 1
      && r.head == s.head && r.tail == s.tail && r.size == s.size
      && (r.level < MAX_LEVEL ==>
            && r.running == s.running && r.speed == s.speed - SPEEDUP
            && r.color == COLORS[r.level]
            && |r.apples| == |s.apples| + Quota(r.level)
            && r.apples[..|s.apples|] == s.apples
            && forall c :: c in r.apples ==> InBounds(c, s.nbCellsX, s.nbCellsY))
      && (r.level >= MAX_LEVEL ==>
            r == s.(score := r.score, level := r.level, running := false))
  {
    var r := LevelledUp(s, draws);
    if r.level < MAX_LEVEL {
      var added := Placed(draws[..Quota(r.level)], s.nbCellsX, s.nbCellsY);
      assert r.apples == s.apples + added;
      forall c | c in r.apples
        ensures InBounds(c, s.nbCellsX, s.nbCellsY)
      {
        if c !in s.apples {
          var i :| 0 <= i < |r.apples| && r.apples[i] == c;
          assert added[i - |s.apples|] == c;
        }
      }
    }
  }

  /** A touch end changes at most the heading queue, and only by a request
      the swipe asked for. */
  lemma TouchEndedRequests(s: State, end: Point)
    requires Invariant(s)
    ensures Invariant(TouchEnded(s, end))
    ensures TouchEnded(s, end) == s.(directions := TouchEnded(s, end).directions)
    ensures s.touch.None? ==> TouchEnded(s, end) == s
    ensures s.touch.Some? ==>
      var swipe := Swipe(end.pageX - s.touch.value.pageX, end.pageY - s.touch.value.pageY);
      TouchEnded(s, end).directions ==
        if swipe.Some? then Request(s.directions, swipe.value) else s.directions
  {
  }

  // ---------------------------------------------------------------------
  // The game object

  class Game {
    var touch: Option<Point>
    var score: nat
    var running: bool
    const grid: Grid
    const worm: Worm
    var level: nat
    var speed: int
    const nbCellsX: int
    const nbCellsY: int
    var color: string
    var nextMove: real

    ghost function Snapshot(): State
      reads this, worm, grid
    {
      State(worm.head, worm.tail, worm.directions, worm.size,
            grid.apples,
            level, speed, color, nbCellsX, nbCellsY,
            score, running, nextMove, touch)
    }

    ghost predicate Valid()
      reads this, worm, grid
    {
      Invariant(Snapshot())
    }

    constructor (nbCellsY: int, draws: seq<Draw>)
      requires nbCellsY > 0
      requires AllDraws(draws) && |draws| >= Quota(0)
      ensures Valid() && fresh(worm) && fresh(grid)
      ensures Snapshot() == Initial(nbCellsY, draws)
    {
      touch := None;
      score := 0;
      running := false;
      nextMove := 0.0;
      level := 0;
      speed := SPEED;
      this.nbCellsX := WIDTH;
      this.nbCellsY := nbCellsY;
      color := COLORS[0];
      worm := new Worm();
      grid := new Grid(WIDTH, nbCellsY, 0, draws);
    }

    /** Makes the next frame move at once. */
    method Start()
      requires Valid()
      modifies this
      ensures Valid()
      ensures Snapshot() == old(Snapshot()).(running := true, nextMove := 0.0)
    {
      nextMove := 0.0;
      running := true;
    }

    method Stop()
      requires Valid()
      modifies this
      ensures Valid()
      ensures Snapshot() == old(Snapshot()).(running := false)
    {
      running := false;
    }

    /** Ends the game after the last level. */
    method Win()
      requires Valid()
      modifies this
      ensures Valid()
      ensures Snapshot() == old(Snapshot()).(running := false)
    {
      Stop();
    }

    /** Ends the game after a collision. */
    method Die()
      requires Valid()
      modifies this
      ensures Valid()
      ensures Snapshot() == old(Snapshot()).(running := false)
    {
      Stop();
    }

    predicate IsOutside(cell: Cell): (r: bool)
      ensures r <==> !InBounds(cell, nbCellsX, nbCellsY)
    {
      cell.x < 0 || cell.x >= nbCellsX || cell.y < 0 || cell.y >= nbCellsY
    }

    /** Classifies the head cell: -1 for death, 1 for an apple, 0 else. */
    function CheckState(): (r: int)
      reads worm, grid
      ensures r == Outcome(worm.head, worm.tail, grid.apples, nbCellsX, nbCellsY)
      ensures r == DEAD <==> !InBounds(worm.head, nbCellsX, nbCellsY) || worm.head in worm.tail
      ensures r == APPLE <==>
        InBounds(worm.head, nbCellsX, nbCellsY) && worm.head !in worm.tail && worm.head in grid.apples
      ensures r == NOTHING <==>
        InBounds(worm.head, nbCellsX, nbCellsY) && worm.head !in worm.tail && worm.head !in grid.apples
    {
      var cell := worm.GetHead();
      if IsOutside(cell) || worm.IsWorm(cell) then DEAD
      else if grid.IsApple(cell) then APPLE
      else NOTHING
    }

    /** 1000 points and the next level; below `MAX_LEVEL` the game speeds
        up, changes colour and seeds more apples, otherwise it is won. */
    method LevelUp(draws: seq<Draw>)
      requires Valid() && EnoughDraws(draws)
      modifies this, grid
      ensures Valid()
      ensures Snapshot() == LevelledUp(old(Snapshot()), draws)
    {
      score := score + LEVEL_POINTS;
      level := level + 1;
      if level < MAX_LEVEL {
        speed := speed - SPEEDUP;
        color := COLORS[level];
        grid.Seed(nbCellsX, nbCellsY, level, draws);
      } else {
        Win();
      }
    }

    /** One animation frame at `time`. While running it asks for the next
        frame; when the next move is due it plays the move. */
    method Loop(time: real, draws: seq<Draw>) returns (rescheduled: bool, painted: bool)
      requires Valid() && EnoughDraws(draws)
      modifies this, worm, grid
      ensures Snapshot() == Tick(old(Snapshot()), time, draws)
      ensures Valid()
      ensures rescheduled == old(running)
      ensures painted == Repaints(old(Snapshot()), time)
    {
      rescheduled := running;
      painted := false;
      if running {
        if time >= nextMove {
          painted := Play(time, draws);
        }
      }
    }

    /** The body of a due frame: schedules the next move `speed` after
        `time`, moves the worm once and settles the outcome; the frame is
        painted unless the move was fatal. */
    method Play(time: real, draws: seq<Draw>) returns (painted: bool)
      requires Valid() && EnoughDraws(draws) && Due(Snapshot(), time)
      modifies this, worm, grid
      ensures Snapshot() == Tick(old(Snapshot()), time, draws)
      ensures Valid()
      ensures painted == Repaints(old(Snapshot()), time)
    {
      ghost var s := Snapshot();
      nextMove := time + speed as real;
      worm.Move();
      assert Snapshot() == Moved(s).(nextMove := time + s.speed as real);
      painted := Settle(draws);
    }

    /** The `switch` on `checkState` after a move; `painted` tells whether
        it falls through to `paint`. */
    method Settle(draws: seq<Draw>) returns (painted: bool)
      requires Valid() && EnoughDraws(draws)
      modifies this, worm, grid
      ensures Snapshot() == Settled(old(Snapshot()), draws)
      ensures Valid()
      ensures painted == (StateOutcome(old(Snapshot())) != DEAD)
    {
      var state := CheckState();
      if state == DEAD {
        Die();
        painted := false;
      } else if state == APPLE {
        ghost var m := Snapshot();
        worm.Grow();
        score := score + APPLE_POINTS;
        grid.Eat(worm.GetHead());
        assert Snapshot() == Ate(m);
        if grid.IsDone() {
          LevelUp(draws);
        }
        painted := true;
      } else {
        painted := true;
      }
    }

    method OnTouchStart(start: Point)
      requires Valid()
      modifies this
      ensures Valid()
      ensures Snapshot() == old(Snapshot()).(touch := Some(start))
    {
      touch := Some(start);
    }

    /** Turns the swipe from the recorded touch start to `end` into a
        heading request. */
    method OnTouchEnd(end: Point)
      requires Valid()
      modifies worm
      ensures Valid()
      ensures Snapshot() == TouchEnded(old(Snapshot()), end)
    {
      if touch.Some? {
        var distX := end.pageX - touch.value.pageX;
        var distY := end.pageY - touch.value.pageY;
        var direction := Swipe(distX, distY);
        if direction.Some? {
          worm.SetDirection(direction.value);
        }
      }
    }
  }
}
