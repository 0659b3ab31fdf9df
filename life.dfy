/** The Life rules of the match, as pure functions on a grid of cell owners
    (0 = empty, k > 0 = a cell of player k): the toroidal neighbour count,
    the per-cell rule, one player's pass over the whole grid, and one
    generation made of the passes of every player in turn order. */
module Life {

  type Grid = seq<seq<int>>

  /** `g` has `h` rows of `w` cells each. */
  predicate IsGrid(g: Grid, h: int, w: int)
  {
    |g| == h && forall y :: 0 <= y < |g| ==> |g[y]| == w
  }

  /** The row length the passes use: that of the first row. */
  function Width(g: Grid): nat
  {
    if |g| == 0 then 0 else |g[0]|
  }

  predicate IsRect(g: Grid)
  {
    IsGrid(g, |g|, Width(g))
  }

  /** A rectangular grid with at least one cell, on which indices wrap. */
  predicate IsTorus(g: Grid)
  {
    IsRect(g) && |g| > 0 && Width(g) > 0
  }

  /** Every cell is empty or the id of one of `n` players. */
  predicate CellsIn(g: Grid, n: int)
  {
    forall y, x :: 0 <= y < |g| && 0 <= x < |g[y]| ==> 0 <= g[y][x] <= n
  }

  /** The cell at (x, y) with both indices taken modulo the grid's size.
      Python's % and Dafny's % agree when the modulus is positive. */
  function Wrapped(g: Grid, x: int, y: int): int
    requires IsTorus(g)
  {
    g[y % |g|][x % Width(g)]
  }

  /** 1 if the wrapped cell at (x, y) belongs to player `p`, else 0. */
  function Own(g: Grid, p: int, x: int, y: int): nat
    requires IsTorus(g)
  {
    if Wrapped(g, x, y) == p then 1 else 0
  }

  /** How many of the eight toroidal neighbours of (x, y) belong to `p`. */
  function NeighborCount(g: Grid, p: int, x: int, y: int): (n: nat)
    requires IsTorus(g)
    ensures n <= 8
  {
    Own(g, p, x - 1, y - 1) + Own(g, p, x, y - 1) + Own(g, p, x + 1, y - 1)
    + Own(g, p, x - 1, y) + Own(g, p, x + 1, y)
    + Own(g, p, x - 1, y + 1) + Own(g, p, x, y + 1) + Own(g, p, x + 1, y + 1)
  }

  /** Partial sums of the scan the source makes over the 3 x 3 window: the
      cells (x', y) with cx - 1 <= x' < xEnd, the centre excluded. */
  function RowCount(g: Grid, p: int, cx: int, cy: int, y: int, xEnd: int): nat
    requires IsTorus(g) && cx - 1 <= xEnd
    decreases xEnd - cx
  {
    if xEnd == cx - 1 then 0
    else RowCount(g, p, cx, cy, y, xEnd - 1) + (if xEnd - 1 != cx || y != cy then Own(g, p, xEnd - 1, y) else 0)
  }

  /** The rows cy - 1 <= y' < yEnd of the same scan. */
  function WindowCount(g: Grid, p: int, cx: int, cy: int, yEnd: int): nat
    requires IsTorus(g) && cy - 1 <= yEnd
    decreases yEnd - cy
  {
    if yEnd == cy - 1 then 0
    else WindowCount(g, p, cx, cy, yEnd - 1) + RowCount(g, p, cx, cy, yEnd - 1, cx + 2)
  }

  /** One row of the scan: all three cells, or the two beside the centre. */
  lemma RowCountFull(g: Grid, p: int, cx: int, cy: int, y: int)
    requires IsTorus(g)
    ensures RowCount(g, p, cx, cy, y, cx + 2)
            == if y != cy then Own(g, p, cx - 1, y) + Own(g, p, cx, y) + Own(g, p, cx + 1, y)
               else Own(g, p, cx - 1, y) + Own(g, p, cx + 1, y)
  {
    assert RowCount(g, p, cx, cy, y, cx - 1) == 0;
    assert RowCount(g, p, cx, cy, y, cx) == Own(g, p, cx - 1, y);
  }

  /** The complete scan counts exactly the eight neighbours. */
  lemma WindowIsNeighborCount(g: Grid, p: int, cx: int, cy: int)
    requires IsTorus(g)
    ensures WindowCount(g, p, cx, cy, cy + 2) == NeighborCount(g, p, cx, cy)
  {
    RowCountFull(g, p, cx, cy, cy - 1);
    RowCountFull(g, p, cx, cy, cy);
    RowCountFull(g, p, cx, cy, cy + 1);
    assert WindowCount(g, p, cx, cy, cy - 1) == 0;
    assert WindowCount(g, p, cx, cy, cy) == RowCount(g, p, cx, cy, cy - 1, cx + 2);
  }

  /** A product of a positive factor and a factor of at least 1. */
  lemma {:induction false} MulAtLeast(d: int, m: int)
    requires d >= 1 && m > 0
    ensures d * m >= m
    decreases d
  {
    if d > 1 {
      MulAtLeast(d - 1, m);
      assert d * m == (d - 1) * m + m;
    }
  }

  /** Division with remainder is unique. */
  lemma ModUnique(a: int, m: int, q: int, r: int)
    requires m > 0 && 0 <= r < m && a == q * m + r
    ensures a % m == r
  {
    var q2, r2 := a / m, a % m;
    assert a == q2 * m + r2;
    var d := q - q2;
    assert d * m == r2 - r;
    if d > 0 {
      MulAtLeast(d, m);
    } else if d < 0 {
      MulAtLeast(-d, m);
    }
  }

  /** Python's % on a positive modulus is periodic, as Dafny's is. */
  lemma ModShift(a: int, m: int)
    requires m > 0
    ensures (a + m) % m == a % m
  {
    var q := a / m;
    assert a == q * m + a % m;
    assert a + m == (q + 1) * m + a % m;
    ModUnique(a + m, m, q + 1, a % m);
  }

  /** Neighbour counting wraps: shifting a cell by the width or the height
      of the grid gives the same count, so an edge cell sees the cells on
      the opposite edge. */
  lemma NeighborCountWraps(g: Grid, p: int, x: int, y: int)
    requires IsTorus(g)
    ensures NeighborCount(g, p, x + Width(g), y) == NeighborCount(g, p, x, y)
    ensures NeighborCount(g, p, x, y + |g|) == NeighborCount(g, p, x, y)
  {
    var w, h := Width(g), |g|;
    ModShift(x - 1, w); ModShift(x, w); ModShift(x + 1, w);
    ModShift(y - 1, h); ModShift(y, h); ModShift(y + 1, h);
    assert x + w - 1 == x - 1 + w && x + w + 1 == x + 1 + w;
    assert y + h - 1 == y - 1 + h && y + h + 1 == y + 1 + h;
  }

  /** The rule for one cell holding `c` with `n` neighbours of player `p`:
      a cell of `p` survives with 2 or 3 such neighbours and dies otherwise;
      any other cell becomes `p`'s with exactly 3 and is left alone otherwise. */
  function CellRule(c: int, n: int, p: int): (r: int)
    ensures c == p && 2 <= n <= 3 ==> r == c
    ensures c == p && !(2 <= n <= 3) ==> r == 0
    ensures c != p && n == 3 ==> r == p
    ensures c != p && n != 3 ==> r == c
  {
    if c == p then
      if 2 <= n <= 3 then c else 0
    else if n == 3 then p else c
  }

  /** The new value of cell (x, y) after `p`'s pass over `g`. */
  function NextCell(g: Grid, p: int, x: int, y: int): int
    requires IsTorus(g) && 0 <= y < |g| && 0 <= x < Width(g)
  {
    CellRule(g[y][x], NeighborCount(g, p, x, y), p)
  }

  /** The first k cells of row y of `p`'s pass over `g`, each computed
      from `g` itself, the grid before the pass. */
  function PassRow(g: Grid, p: int, y: int, k: int): (row: seq<int>)
    requires IsRect(g) && 0 <= y < |g| && 0 <= k <= Width(g)
    ensures |row| == k
    decreases k
  {
    if k == 0 then [] else PassRow(g, p, y, k - 1) + [NextCell(g, p, k - 1, y)]
  }

  /** The first k rows of `p`'s pass over `g`. */
  function PassRows(g: Grid, p: int, k: int): (r: Grid)
    requires IsRect(g) && 0 <= k <= |g|
    ensures IsGrid(r, k, Width(g))
    decreases k
  {
    if k == 0 then [] else PassRows(g, p, k - 1) + [PassRow(g, p, k - 1, Width(g))]
  }

  /** One player's pass over the whole grid. */
  function PlayerPass(g: Grid, p: int): (r: Grid)
    requires IsRect(g)
    ensures IsGrid(r, |g|, Width(g))
  {
    PassRows(g, p, |g|)
  }

  lemma {:induction false} PassRowAt(g: Grid, p: int, y: int, k: int, x: int)
    requires IsRect(g) && 0 <= y < |g| && 0 <= x < k <= Width(g)
    ensures PassRow(g, p, y, k)[x] == NextCell(g, p, x, y)
    decreases k
  {
    if x < k - 1 {
      PassRowAt(g, p, y, k - 1, x);
    }
  }

  lemma {:induction false} PassRowsAt(g: Grid, p: int, k: int, y: int)
    requires IsRect(g) && 0 <= y < k <= |g|
    ensures PassRows(g, p, k)[y] == PassRow(g, p, y, Width(g))
    decreases k
  {
    if y < k - 1 {
      PassRowsAt(g, p, k - 1, y);
    }
  }

  /** Every cell of the pass is computed from the grid before the pass. */
  lemma PassCell(g: Grid, p: int, x: int, y: int)
    requires IsRect(g) && 0 <= y < |g| && 0 <= x < Width(g)
    ensures PlayerPass(g, p)[y][x] == NextCell(g, p, x, y)
  {
    PassRowsAt(g, p, |g|, y);
    PassRowAt(g, p, y, Width(g), x);
  }

  /** One generation: the passes of `queue`'s players in order, each pass
      applied to the output of the one before. */
  function Generation(g: Grid, queue: seq<int>): (r: Grid)
    requires IsRect(g)
    ensures IsGrid(r, |g|, Width(g))
    decreases |queue|
  {
    if queue == [] then g
    else PlayerPass(Generation(g, queue[..|queue| - 1]), queue[|queue| - 1])
  }

  /** A pass changes a cell only by killing one of `p`'s cells or by giving
      a cell to `p`: no other player's cell is ever written except by being
      taken over. */
  lemma PassChangesOnlyByRule(g: Grid, p: int, x: int, y: int)
    requires IsRect(g) && 0 <= y < |g| && 0 <= x < Width(g) && p > 0
    ensures var r := PlayerPass(g, p);
            r[y][x] != g[y][x] ==> (g[y][x] == p && r[y][x] == 0) || (g[y][x] != p && r[y][x] == p)
    ensures var r := PlayerPass(g, p);
            r[y][x] == p <==> (g[y][x] == p && 2 <= NeighborCount(g, p, x, y) <= 3)
                              || (g[y][x] != p && NeighborCount(g, p, x, y) == 3)
  {
    PassCell(g, p, x, y);
  }

  /** A wrapped cell is a cell of the grid. */
  lemma WrappedInGrid(g: Grid, x: int, y: int)
    requires IsTorus(g)
    ensures 0 <= y % |g| < |g| && 0 <= x % Width(g) < |g[y % |g|]|
  {
  }

  /** A player with no cells anywhere changes nothing. */
  lemma PassWithoutCellsIsIdentity(g: Grid, p: int)
    requires IsRect(g)
    requires forall y, x :: 0 <= y < |g| && 0 <= x < |g[y]| ==> g[y][x] != p
    ensures PlayerPass(g, p) == g
  {
    var r := PlayerPass(g, p);
    forall y | 0 <= y < |g|
      ensures r[y] == g[y]
    {
      forall x | 0 <= x < Width(g)
        ensures r[y][x] == g[y][x]
      {
        PassCell(g, p, x, y);
        forall a, b ensures Own(g, p, a, b) == 0 {
          WrappedInGrid(g, a, b);
        }
      }
    }
  }

  /** A pass by one of `n` players keeps every cell in 0..n. */
  lemma PassKeepsCells(g: Grid, p: int, n: int)
    requires IsRect(g) && CellsIn(g, n) && 1 <= p <= n
    ensures CellsIn(PlayerPass(g, p), n)
  {
    var r := PlayerPass(g, p);
    forall y, x | 0 <= y < |r| && 0 <= x < |r[y]|
      ensures 0 <= r[y][x] <= n
    {
      PassCell(g, p, x, y);
    }
  }

  /** A generation over ids in 1..n keeps every cell in 0..n. */
  lemma {:induction false} GenerationKeepsCells(g: Grid, queue: seq<int>, n: int)
    requires IsRect(g) && CellsIn(g, n)
    requires forall i :: 0 <= i < |queue| ==> 1 <= queue[i] <= n
    ensures CellsIn(Generation(g, queue), n)
  {
    if queue != [] {
      var front := queue[..|queue| - 1];
      GenerationKeepsCells(g, front, n);
      PassKeepsCells(Generation(g, front), queue[|queue| - 1], n);
    }
  }

  /** Passes compose: running `first` and then `rest` is the generation of
      the two queues joined. */
  lemma {:induction false} GenerationAppend(g: Grid, first: seq<int>, rest: seq<int>)
    requires IsRect(g)
    ensures Generation(g, first + rest) == Generation(Generation(g, first), rest)
    decreases |rest|
  {
    if rest == [] {
      assert first + rest == first;
    } else {
      var last := rest[|rest| - 1];
      var front := rest[..|rest| - 1];
      assert (first + rest)[..|first + rest| - 1] == first + front;
      GenerationAppend(g, first, front);
    }
  }
}
