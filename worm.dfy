/** The worm: its head, the cells it has left behind (oldest first), the
    queue of headings it has been asked to take, and the length its tail
    may reach. */
module Worms {
  import opened Cells

  const INITIAL_SIZE := 3
  const INITIAL_DIRECTION := Right
  const INITIAL_POSITION := Cell(1, 1)
  /** The default amount of `grow` and `shrink`. */
  const GROWTH := 3

  /** A request is dropped when it repeats the last queued heading or
      reverses it. */
  predicate Rejects(last: Direction, d: Direction) {
    d == last || d == Opposite(last)
  }

  /** The queue after asking for `d`. */
  function Request(q: seq<Direction>, d: Direction): seq<Direction>
    requires |q| > 0
  {
    if Rejects(q[|q| - 1], d) then q else q + [d]
  }

  /** The queue after one move: the front is consumed only when another
      heading waits behind it. */
  function Advance(q: seq<Direction>): seq<Direction>
    requires |q| > 0
  {
    if |q| > 1 then q[1..] else q
  }

  /** The tail after one move, once the old head has been appended: the
      oldest cell goes when the tail has become longer than `size`. */
  function Trim(tail: seq<Cell>, size: int): seq<Cell>
    requires |tail| > 0
  {
    if |tail| > size then tail[1..] else tail
  }

  /** A request either leaves the queue as it was or appends exactly `d`,
      and afterwards `d` (or its reverse, when that was last) ends the queue. */
  lemma RequestEffect(q: seq<Direction>, d: Direction)
    requires |q| > 0
    ensures Request(q, d) == q || Request(q, d) == q + [d]
    ensures Request(q, d) == q <==> (q[|q| - 1] == d || q[|q| - 1] == Opposite(d))
    ensures |Request(q, d)| > 0
  {
  }

  /** Asking for a heading and then for its reverse queues the first one
      only: the second request is always dropped. */
  lemma RequestThenReverse(q: seq<Direction>, d: Direction)
    requires |q| > 0
    ensures Request(Request(q, d), Opposite(d)) == Request(q, d)
  {
  }

  /** A move never empties the queue and keeps a lone heading. */
  lemma AdvanceKeepsOne(q: seq<Direction>)
    requires |q| > 0
    ensures |Advance(q)| > 0
    ensures |q| == 1 ==> Advance(q) == q
    ensures |q| > 1 ==> |Advance(q)| == |q| - 1 && q[1..] == Advance(q)
  {
  }

  /** Appending one cell and trimming keeps a tail within its bound: the
      tail grows by the appended cell until it reaches `size`, and from then
      on loses its oldest cell at each move. */
  lemma TrimBounded(tail: seq<Cell>, head: Cell, size: int)
    requires |tail| <= size
    ensures |Trim(tail + [head], size)| <= size
    ensures |tail| < size ==> Trim(tail + [head], size) == tail + [head]
    ensures |tail| == size ==> Trim(tail + [head], size) == (tail + [head])[1..]
  {
  }

  class Worm {
    var head: Cell
    var tail: seq<Cell>
    var directions: seq<Direction>
    var size: int

    /** The queue of headings is never empty. */
    ghost predicate Valid()
      reads this
    {
      |directions| > 0
    }

    /** The tail is no longer than `size`. Every operation but `Shrink`
        keeps this. */
    ghost predicate Bounded()
      reads this
    {
      |tail| <= size
    }

    constructor ()
      ensures Valid() && Bounded()
      ensures head == INITIAL_POSITION && tail == []
      ensures directions == [INITIAL_DIRECTION] && size == INITIAL_SIZE
    {
      size := INITIAL_SIZE;
      directions := [INITIAL_DIRECTION];
      head := INITIAL_POSITION;
      tail := [];
    }

    /** Queues `d` unless it repeats or reverses the last queued heading;
        a rejected request is dropped without notice. */
    method SetDirection(d: Direction)
      requires Valid()
      modifies this
      ensures Valid()
      ensures directions == Request(old(directions), d)
      ensures head == old(head) && tail == old(tail) && size == old(size)
    {
      var last := directions[|directions| - 1];
      if last == Up && (d == Down || d == Up) {
        return;
      }
      if last == Down && (d == Up || d == Down) {
        return;
      }
      if last == Left && (d == Right || d == Left) {
        return;
      }
      if last == Right && (d == Left || d == Right) {
        return;
      }
      directions := directions + [d];
    }

    /** Moves one cell in the heading at the front of the queue: the old
        head becomes the newest tail cell and the oldest tail cell goes once
        the tail is longer than `size`. */
    method Move()
      requires Valid()
      modifies this
      ensures Valid()
      ensures head == Step(old(head), old(directions)[0])
      ensures IsUnitStep(old(head), head)
      ensures directions == Advance(old(directions))
      ensures tail == Trim(old(tail) + [old(head)], size)
      ensures size == old(size)
      ensures old(Bounded()) ==> Bounded()
    {
      tail := tail + [head];
      head := GetNext();
      if |tail| > size {
        tail := tail[1..];
      }
    }

    /** The neighbour of the head in the front heading, consuming that
        heading when another one is queued. */
    method GetNext() returns (next: Cell)
      requires Valid()
      modifies this
      ensures Valid()
      ensures next == Step(head, old(directions)[0])
      ensures directions == Advance(old(directions))
      ensures head == old(head) && tail == old(tail) && size == old(size)
    {
      var direction;
      if |directions| > 1 {
        direction := directions[0];
        directions := directions[1..];
      } else {
        direction := directions[0];
      }
      match direction
      case Up => next := Cell(head.x, head.y - 1);
      case Right => next := Cell(head.x + 1, head.y);
      case Down => next := Cell(head.x, head.y + 1);
      case Left => next := Cell(head.x - 1, head.y);
    }

    method Grow(qty: int := GROWTH)
      modifies this
      ensures size == old(size) + qty
      ensures head == old(head) && tail == old(tail) && directions == old(directions)
      ensures qty >= 0 && old(Bounded()) ==> Bounded()
    {
      size := size + qty;
    }

    /** `size` has no lower bound, as in the game. Shrinking below the tail's
        length breaks `Bounded()` for good: a move appends one cell and
        trims at most one, so the tail never gets shorter. */
    method Shrink(qty: int := GROWTH)
      modifies this
      ensures size == old(size) - qty
      ensures head == old(head) && tail == old(tail) && directions == old(directions)
    {
      size := size - qty;
    }

    function GetHead(): Cell
      reads this
    {
      head
    }

    /** Whether `cell` is one of the tail cells; the head is not compared. */
    predicate IsWorm(cell: Cell): (r: bool)
      reads this
      ensures r <==> cell in tail
    {
      Find(tail, cell).Some?
    }
  }
}
