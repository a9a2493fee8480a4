/** The apples on the playing field: seeded at random cells inside the grid,
    looked up and eaten by coordinates. */
module Grids {
  import opened Cells

  /** Apples seeded per level: `APPLES * (level + 1)`. */
  const APPLES := 5

  /** The two results of `Math.random()` that place one apple, each in
      [0, 1). The model takes them from the caller instead of a generator. */
  datatype Draw = Draw(rx: real, ry: real)

  predicate IsDraw(d: Draw) {
    0.0 <= d.rx < 1.0 && 0.0 <= d.ry < 1.0
  }

  predicate AllDraws(draws: seq<Draw>) {
    forall i :: 0 <= i < |draws| ==> IsDraw(draws[i])
  }

  function Quota(level: nat): (n: nat)
    ensures n >= APPLES
  {
    APPLES * (level + 1)
  }

  /** `Math.floor(r * n)` for a random `r` lands in [0, n). */
  function Scale(r: real, n: int): (k: int)
    requires 0.0 <= r < 1.0 && n > 0
    ensures 0 <= k < n
  {
    ScaleBelow(r, n);
    (r * n as real).Floor
  }

  lemma ScaleBelow(r: real, n: int)
    requires 0.0 <= r < 1.0 && n > 0
    ensures 0.0 <= r * n as real < n as real
  {
    assert r * n as real <= 1.0 * n as real - (1.0 - r) * n as real;
  }

  /** The apple one draw places. */
  function Place(d: Draw, nbCellsX: int, nbCellsY: int): (c: Cell)
    requires IsDraw(d) && nbCellsX > 0 && nbCellsY > 0
    ensures InBounds(c, nbCellsX, nbCellsY)
  {
    Cell(Scale(d.rx, nbCellsX), Scale(d.ry, nbCellsY))
  }

  /** The apples a run of draws places, one per draw, in draw order, and all
      inside the grid. */
  function Placed(draws: seq<Draw>, nbCellsX: int, nbCellsY: int): (r: seq<Cell>)
    requires AllDraws(draws) && nbCellsX > 0 && nbCellsY > 0
    ensures |r| == |draws|
    ensures forall i :: 0 <= i < |r| ==> r[i] == Place(draws[i], nbCellsX, nbCellsY)
    ensures forall i :: 0 <= i < |r| ==> InBounds(r[i], nbCellsX, nbCellsY)
  {
    if draws == [] then []
    else Placed(draws[..|draws| - 1], nbCellsX, nbCellsY) + [Place(draws[|draws| - 1], nbCellsX, nbCellsY)]
  }

  class Grid {
    var apples: seq<Cell>

    /** A new grid is seeded at once for the level given. */
    constructor (nbCellsX: int, nbCellsY: int, level: nat, draws: seq<Draw>)
      requires nbCellsX > 0 && nbCellsY > 0
      requires AllDraws(draws) && |draws| >= Quota(level)
      ensures apples == Placed(draws[..Quota(level)], nbCellsX, nbCellsY)
    {
      apples := [];
      new;
      Seed(nbCellsX, nbCellsY, level, draws);
    }

    /** Appends `APPLES * (level + 1)` apples, one per draw, to those already
        there; nothing is cleared first. */
    method Seed(nbCellsX: int, nbCellsY: int, level: nat, draws: seq<Draw>)
      requires nbCellsX > 0 && nbCellsY > 0
      requires AllDraws(draws) && |draws| >= Quota(level)
      modifies this
      ensures apples == old(apples) + Placed(draws[..Quota(level)], nbCellsX, nbCellsY)
      ensures |apples| == |old(apples)| + Quota(level)
      ensures forall i :: |old(apples)| <= i < |apples| ==> InBounds(apples[i], nbCellsX, nbCellsY)
    {
      var nbApples := APPLES * (level + 1);
      var count := 0;
      while count < nbApples
        invariant 0 <= count <= nbApples
        invariant apples == old(apples) + Placed(draws[..count], nbCellsX, nbCellsY)
      {
        var x := Scale(draws[count].rx, nbCellsX);
        var y := Scale(draws[count].ry, nbCellsY);
        assert draws[..count + 1][..count] == draws[..count];
        apples := apples + [Cell(x, y)];
        count := count + 1;
      }
    }

    predicate IsApple(cell: Cell): (r: bool)
      reads this
      ensures r <==> cell in apples
    {
      Find(apples, cell).Some?
    }

    /** Removes every apple at the coordinates of `cell` and keeps the others
        in their order. */
    method Eat(cell: Cell)
      modifies this
      ensures apples == Without(old(apples), cell)
      ensures !IsApple(cell)
    {
      apples := Without(apples, cell);
    }

    predicate IsDone(): (r: bool)
      reads this
      ensures r <==> forall c :: !IsApple(c)
    {
      assert |apples| > 0 ==> IsApple(apples[0]);
      |apples| == 0
    }
  }
}
