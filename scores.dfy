/** Live-cell counts per player and the leader list derived from them
    (GameOfLife.__setCounts and GameOfLife.__setWinner in game/game.py). */
module Scores {
  import opened Life

  /** Cells of `row` equal to `p`. */
  function CountRow(row: seq<int>, p: int): (n: nat)
    ensures n <= |row|
    decreases |row|
  {
    if row == [] then 0
    else CountRow(row[..|row| - 1], p) + (if row[|row| - 1] == p then 1 else 0)
  }

  /** Cells of `g` equal to `p`. */
  function CountGrid(g: Grid, p: int): nat
    decreases |g|
  {
    if g == [] then 0
    else CountGrid(g[..|g| - 1], p) + CountRow(g[|g| - 1], p)
  }

  /** The positions of the cells of `g` that hold `p`. */
  ghost function CellsOf(g: Grid, p: int): set<(int, int)>
  {
    set y, x | 0 <= y < |g| && 0 <= x < |g[y]| && g[y][x] == p :: (y, x)
  }

  /** The positions of row `k` that hold `p`. */
  ghost function RowCells(row: seq<int>, p: int, k: int): set<(int, int)>
  {
    set x | 0 <= x < |row| && row[x] == p :: (k, x)
  }

  /** The scan of a row counts exactly the positions holding `p`. */
  lemma {:induction false} CountRowIsCellCount(row: seq<int>, p: int, k: int)
    ensures CountRow(row, p) == |RowCells(row, p, k)|
    decreases |row|
  {
    if row != [] {
      var front := row[..|row| - 1];
      CountRowIsCellCount(front, p, k);
      if row[|row| - 1] == p {
        assert RowCells(row, p, k) == RowCells(front, p, k) + {(k, |row| - 1)};
      } else {
        assert RowCells(row, p, k) == RowCells(front, p, k);
      }
    }
  }

  /** The positions holding `p`, the last row split off. */
  lemma CellsOfSplit(g: Grid, p: int)
    requires g != []
    ensures CellsOf(g, p) == CellsOf(g[..|g| - 1], p) + RowCells(g[|g| - 1], p, |g| - 1)
  {
  }

  /** The scan of a grid counts exactly the positions holding `p`, which is
      what counts[p] means. */
  lemma {:induction false} CountGridIsCellCount(g: Grid, p: int)
    ensures CountGrid(g, p) == |CellsOf(g, p)|
    decreases |g|
  {
    if g != [] {
      var k := |g| - 1;
      CountGridIsCellCount(g[..k], p);
      CountRowIsCellCount(g[k], p, k);
      CellsOfSplit(g, p);
      assert CellsOf(g[..k], p) !! RowCells(g[k], p, k);
    }
  }

  /** __setCounts: counts[0] is a placeholder that stays 0, counts[p] is the
      number of cells of player p, for the ids 1..n. */
  function CountsOf(g: Grid, n: nat): (c: seq<int>)
    ensures |c| == n + 1 && c[0] == 0 && IsCounts(c)
    ensures forall p :: 1 <= p <= n ==> c[p] == CountGrid(g, p)
  {
    [0] + seq(n, i requires 0 <= i < n => CountGrid(g, i + 1))
  }

  /** A counts list: the unused slot 0 holds 0 and no count is negative. */
  predicate IsCounts(c: seq<int>)
  {
    |c| >= 1 && c[0] == 0 && forall i :: 0 <= i < |c| ==> c[i] >= 0
  }

  /** The largest of 0 and the counts of ids 1..k-1. */
  function PrefixMax(c: seq<int>, k: int): (m: int)
    requires 1 <= k <= |c|
    ensures m >= 0
    ensures forall i :: 1 <= i < k ==> c[i] <= m
    ensures m == 0 || exists i :: 1 <= i < k && c[i] == m
    decreases k
  {
    if k == 1 then 0
    else if c[k - 1] > PrefixMax(c, k - 1) then c[k - 1]
    else PrefixMax(c, k - 1)
  }

  /** The ids among 1..k-1 whose count is `m`, in ascending order. */
  function IdsWithCount(c: seq<int>, k: int, m: int): (ids: seq<int>)
    requires 1 <= k <= |c|
    ensures forall j :: 0 <= j < |ids| ==> 1 <= ids[j] < k && c[ids[j]] == m
    ensures forall i :: 1 <= i < k && c[i] == m ==> i in ids
    ensures forall i, j :: 0 <= i < j < |ids| ==> ids[i] < ids[j]
    decreases k
  {
    if k == 1 then []
    else IdsWithCount(c, k - 1, m) + (if c[k - 1] == m then [k - 1] else [])
  }

  /** The leader list after looking at ids 1..k-1: [0] while nobody has a
      cell, otherwise every id holding the largest count. */
  function LeadersUpTo(c: seq<int>, k: int): seq<int>
    requires 1 <= k <= |c|
  {
    var m := PrefixMax(c, k);
    if m == 0 then [0] else IdsWithCount(c, k, m)
  }

  /** The leader list __setWinner leaves in cur_winner. */
  function Leaders(c: seq<int>): (w: seq<int>)
    requires |c| >= 1
    ensures forall j :: 0 <= j < |w| ==> 0 <= w[j] < |c|
  {
    LeadersUpTo(c, |c|)
  }

  /** The head of the leader list holds the largest count so far. */
  lemma LeadersHead(c: seq<int>, k: int)
    requires IsCounts(c) && 1 <= k <= |c|
    ensures var w := LeadersUpTo(c, k);
            |w| > 0 && 0 <= w[0] < k && c[w[0]] == PrefixMax(c, k)
  {
    var m := PrefixMax(c, k);
    if m > 0 {
      var i :| 1 <= i < k && c[i] == m;
      assert i in IdsWithCount(c, k, m);
    }
  }

  /** One step of the scan in __setWinner: a strictly larger count replaces
      the list, an equal positive count is appended, anything else is
      skipped. */
  lemma LeadersStep(c: seq<int>, k: int)
    requires IsCounts(c) && 2 <= k <= |c|
    ensures var w := LeadersUpTo(c, k - 1);
            |w| > 0 && 0 <= w[0] < k - 1 && LeadersUpTo(c, k) == ScanStep(w, c, k - 1)
  {
    var j := k - 1;
    LeadersHead(c, j);
    var m := PrefixMax(c, j);
    if c[j] > m {
      NoIdsAboveMax(c, j, c[j]);
    } else if c[j] > 0 && c[j] == m {
      assert IdsWithCount(c, k, m) == IdsWithCount(c, j, m) + [j];
    } else if m > 0 {
      assert IdsWithCount(c, k, m) == IdsWithCount(c, j, m);
    }
  }

  /** One step of the scan in __setWinner, over id k. */
  function ScanStep(w: seq<int>, c: seq<int>, k: int): seq<int>
    requires 0 <= k < |c| && |w| > 0 && 0 <= w[0] < |c|
  {
    if c[k] > c[w[0]] then [k]
    else if c[k] > 0 && c[k] == c[w[0]] then w + [k]
    else w
  }

  /** The list the scan in __setWinner holds once it has seen ids 1..k-1. */
  function Scan(c: seq<int>, k: int): (w: seq<int>)
    requires 1 <= k <= |c|
    ensures |w| > 0 && 0 <= w[0] < k
    decreases k
  {
    if k == 1 then [0] else ScanStep(Scan(c, k - 1), c, k - 1)
  }

  /** The scan computes the leader list. */
  lemma {:induction false} ScanIsLeaders(c: seq<int>, k: int)
    requires IsCounts(c) && 1 <= k <= |c|
    ensures Scan(c, k) == LeadersUpTo(c, k)
    decreases k
  {
    if k == 1 {
      LeadersStart(c);
    } else {
      ScanIsLeaders(c, k - 1);
      LeadersStep(c, k);
    }
  }

  /** No id below k holds a count above the largest so far. */
  lemma NoIdsAboveMax(c: seq<int>, k: int, v: int)
    requires 1 <= k <= |c| && v > PrefixMax(c, k)
    ensures IdsWithCount(c, k, v) == []
  {
  }

  /** Before any id is seen the leader list is the sentinel [0]. */
  lemma LeadersStart(c: seq<int>)
    requires IsCounts(c)
    ensures LeadersUpTo(c, 1) == [0]
  {
  }

  /** What the leader list means: [0] exactly when no player has a cell;
      otherwise exactly the ids whose count is positive and not beaten by
      any other id, in ascending order. */
  lemma LeadersMeaning(c: seq<int>)
    requires IsCounts(c)
    ensures Leaders(c) == [0] <==> forall p :: 1 <= p < |c| ==> c[p] == 0
    ensures Leaders(c) != [0] ==>
              forall p :: p in Leaders(c) <==>
                1 <= p < |c| && c[p] > 0 && forall q :: 1 <= q < |c| ==> c[q] <= c[p]
    ensures forall i, j :: 0 <= i < j < |Leaders(c)| ==> Leaders(c)[i] < Leaders(c)[j]
  {
    var m := PrefixMax(c, |c|);
    if m > 0 {
      var i :| 1 <= i < |c| && c[i] == m;
      assert i in IdsWithCount(c, |c|, m);
      assert Leaders(c)[0] >= 1;
    }
  }

  /** The fixture of the unit tests: 10 cells for player 1 against 8. */
  lemma LeadersSingle()
    ensures Leaders([0, 10, 8]) == [1]
  {
    var c := [0, 10, 8];
    assert PrefixMax(c, 2) == 10;
    assert PrefixMax(c, 3) == 10;
    assert IdsWithCount(c, 2, 10) == [1];
    assert IdsWithCount(c, 3, 10) == [1];
  }

  /** Nobody has a cell: the sentinel [0]. */
  lemma LeadersNoLife()
    ensures Leaders([0, 0, 0]) == [0]
  {
    var c := [0, 0, 0];
    assert PrefixMax(c, 2) == 0;
    assert PrefixMax(c, 3) == 0;
  }

  /** A tie lists both ids in ascending order. */
  lemma LeadersTie()
    ensures Leaders([0, 3, 5, 5]) == [2, 3]
  {
    var c := [0, 3, 5, 5];
    assert PrefixMax(c, 2) == 3;
    assert PrefixMax(c, 3) == 5;
    assert PrefixMax(c, 4) == 5;
    assert IdsWithCount(c, 2, 5) == [];
    assert IdsWithCount(c, 3, 5) == [2];
    assert IdsWithCount(c, 4, 5) == [2, 3];
  }
}
