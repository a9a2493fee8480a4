/** Grid coordinates, the four headings of the worm, and the two searches the
    game runs over lists of cells: `find` by coordinates and `filter` that
    drops every cell with given coordinates. */
module Cells {

  datatype Option<T> = None | Some(value: T)

  /** A grid coordinate. Two cells are the same cell when both coordinates
      agree, which is the only comparison the game ever makes. Coordinates
      may be negative: a head that has left the grid still has a position. */
  datatype Cell = Cell(x: int, y: int)

  datatype Direction = Up | Right | Down | Left

  function Opposite(d: Direction): (r: Direction)
    ensures r != d
  {
    match d
    case Up => Down
    case Down => Up
    case Left => Right
    case Right => Left
  }

  lemma OppositeInvolution(d: Direction)
    ensures Opposite(Opposite(d)) == d
  {
  }

  predicate InBounds(c: Cell, nbCellsX: int, nbCellsY: int) {
    0 <= c.x < nbCellsX && 0 <= c.y < nbCellsY
  }

  /** `b` is one cell away from `a`, along exactly one axis. */
  predicate IsUnitStep(a: Cell, b: Cell) {
    (a.x == b.x && (b.y == a.y + 1 || b.y == a.y - 1)) ||
    (a.y == b.y && (b.x == a.x + 1 || b.x == a.x - 1))
  }

  /** The neighbour of `c` in direction `d`; y grows downwards. The contract
      fixes the result: a unit step, on the vertical axis exactly for Up and
      Down, and towards larger coordinates exactly for Right and Down. */
  function Step(c: Cell, d: Direction): (r: Cell)
    ensures IsUnitStep(c, r)
    ensures r.x == c.x <==> (d == Up || d == Down)
    ensures r.x + r.y == c.x + c.y + 1 <==> (d == Right || d == Down)
  {
    match d
    case Up => Cell(c.x, c.y - 1)
    case Right => Cell(c.x + 1, c.y)
    case Down => Cell(c.x, c.y + 1)
    case Left => Cell(c.x - 1, c.y)
  }

  /** A step followed by a step the opposite way returns to the start, and
      the four directions lead to four different cells. */
  lemma StepReversible(c: Cell, d: Direction, e: Direction)
    ensures Step(Step(c, d), Opposite(d)) == c
    ensures d != e ==> Step(c, d) != Step(c, e)
  {
  }

  /** `cells.find(el => cell.x === el.x && cell.y === el.y)`: the first cell
      with the coordinates of `c`, if there is one. */
  function Find(cells: seq<Cell>, c: Cell): (r: Option<Cell>)
    ensures r.Some? <==> c in cells
    ensures r.Some? ==> r.value == c
  {
    if cells == [] then None
    else if cells[0] == c then Some(cells[0])
    else Find(cells[1..], c)
  }

  /** `cells.filter(el => c.x !== el.x || c.y !== el.y)`: every cell other
      than `c`, each kept as often as it occurs, in the original order. */
  function Without(cells: seq<Cell>, c: Cell): (r: seq<Cell>)
    ensures c !in r
    ensures forall e :: e in r ==> e in cells
    ensures forall e :: e != c ==> multiset(r)[e] == multiset(cells)[e]
    ensures |r| == |cells| - multiset(cells)[c]
  {
    if cells == [] then []
    else
      assert cells == [cells[0]] + cells[1..];
      if cells[0] == c then Without(cells[1..], c)
      else [cells[0]] + Without(cells[1..], c)
  }

  /** Filtering distributes over concatenation, so the survivors keep their
      relative order. */
  lemma {:induction false} WithoutAppend(a: seq<Cell>, b: seq<Cell>, c: Cell)
    ensures Without(a + b, c) == Without(a, c) + Without(b, c)
  {
    if a == [] {
      assert a + b == b;
    } else {
      assert (a + b)[1..] == a[1..] + b;
      WithoutAppend(a[1..], b, c);
    }
  }

  /** Filtering out a cell that does not occur changes nothing. */
  lemma {:induction false} WithoutAbsent(cells: seq<Cell>, c: Cell)
    requires c !in cells
    ensures Without(cells, c) == cells
  {
    if cells != [] {
      WithoutAbsent(cells[1..], c);
    }
  }

  /** Filtering out the only cell that occurs leaves nothing, however often
      it occurs. */
  lemma {:induction false} WithoutOnly(cells: seq<Cell>, c: Cell)
    requires forall e :: e in cells ==> e == c
    ensures Without(cells, c) == []
  {
    if cells != [] {
      assert cells[0] in cells;
      assert forall e :: e in cells[1..] ==> e in cells;
      WithoutOnly(cells[1..], c);
    }
  }

  /** Filtering twice by the same cell is filtering once. */
  lemma WithoutIdempotent(cells: seq<Cell>, c: Cell)
    ensures Without(Without(cells, c), c) == Without(cells, c)
  {
    WithoutAbsent(Without(cells, c), c);
  }
}
