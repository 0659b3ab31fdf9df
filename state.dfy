/** The mutable match snapshot (class GameState in game/game.py). Its setter
    validates every write and silently ignores the ones it rejects; a list is
    checked element by element and one bad element rejects the whole list. */
module State {
  import opened PyValues

  /** The attribute name a write targets; any other name is ignored. */
  datatype StateName =
    | Grid
    | Phase
    | PlayersTurnQueue
    | CurPlayerIndex
    | CurRound
    | CurRoundGeneration
    | CurWinner
    | CurPlayerAddedCells
    | Unknown(name: string)

  /** A list whose elements are all ints of at least `least`. */
  predicate IsIntList(v: PyValue, least: int)
  {
    v.PyList? && forall i :: 0 <= i < |v.items| ==> v.items[i].PyInt? && v.items[i].n >= least
  }

  /** A list of lists of non-negative ints. */
  predicate IsGridValue(v: PyValue)
  {
    v.PyList? && forall y :: 0 <= y < |v.items| ==> IsIntList(v.items[y], 0)
  }

  function IntsOf(v: PyValue): (r: seq<int>)
    requires v.PyList? && forall i :: 0 <= i < |v.items| ==> v.items[i].PyInt?
    ensures |r| == |v.items| && forall i :: 0 <= i < |r| ==> r[i] == v.items[i].n
  {
    seq(|v.items|, i requires 0 <= i < |v.items| => v.items[i].n)
  }

  function GridOf(v: PyValue): (r: seq<seq<int>>)
    requires IsGridValue(v)
    ensures |r| == |v.items| && forall y :: 0 <= y < |r| ==> r[y] == IntsOf(v.items[y])
  {
    seq(|v.items|, y requires 0 <= y < |v.items| => IntsOf(v.items[y]))
  }

  class GameState {
    var grid: seq<seq<int>>
    var phase: int                 // -1 finished, 0 adding cells, 1 generation steps
    var playersTurnQueue: seq<int>
    var curPlayerIndex: int
    var curRound: int
    var curRoundGeneration: int
    var curWinner: seq<int>
    var curPlayerAddedCells: int

    /** Every field holds a value its validator accepts. */
    predicate FieldsValid()
      reads this
    {
      && (forall y, x :: 0 <= y < |grid| && 0 <= x < |grid[y]| ==> grid[y][x] >= 0)
      && -1 <= phase <= 1
      && (forall i :: 0 <= i < |playersTurnQueue| ==> playersTurnQueue[i] > 0)
      && curPlayerIndex >= 0
      && curRound > 0
      && curRoundGeneration > 0
      && (forall i :: 0 <= i < |curWinner| ==> curWinner[i] >= 0)
      && curPlayerAddedCells >= 0
    }

    constructor ()
      ensures FieldsValid()
      ensures grid == [] && phase == 0 && playersTurnQueue == [] && curPlayerIndex == 0
      ensures curRound == 1 && curRoundGeneration == 1 && curWinner == [] && curPlayerAddedCells == 0
    {
      grid := [];
      phase := 0;
      playersTurnQueue := [];
      curPlayerIndex := 0;
      curRound := 1;
      curRoundGeneration := 1;
      curWinner := [];
      curPlayerAddedCells := 0;
    }

    /** __validateGrid */
    static method ValidateGrid(v: PyValue) returns (ok: bool)
      ensures ok <==> IsGridValue(v)
    {
      if !v.PyList? {
        return false;
      }
      for y := 0 to |v.items|
        invariant forall k :: 0 <= k < y ==> IsIntList(v.items[k], 0)
      {
        var row := v.items[y];
        if !row.PyList? {
          return false;
        }
        for x := 0 to |row.items|
          invariant forall k :: 0 <= k < x ==> row.items[k].PyInt? && row.items[k].n >= 0
        {
          var cell := IntOf(row.items[x]);
          if cell.None? || cell.value < 0 {
            return false;
          }
        }
      }
      return true;
    }

    /** The loop shared by __validatePlayersTurnQueue (least 1) and
        __validateCurWinner (least 0). */
    static method ValidateIntList(v: PyValue, least: int) returns (ok: bool)
      ensures ok <==> IsIntList(v, least)
    {
      if !v.PyList? {
        return false;
      }
      for i := 0 to |v.items|
        invariant forall k :: 0 <= k < i ==> v.items[k].PyInt? && v.items[k].n >= least
      {
        var p := IntOf(v.items[i]);
        if p.None? || p.value < least {
          return false;
        }
      }
      return true;
    }

    /** __setattr__: write `v` to attribute `name` if its validator accepts
        it, otherwise change nothing. */
    method TrySet(name: StateName, v: PyValue)
      modifies this
      ensures old(FieldsValid()) ==> FieldsValid()
      ensures grid == if name == Grid && IsGridValue(v) then GridOf(v) else old(grid)
      ensures phase == if name == Phase && v.PyInt? && -1 <= v.n <= 1 then v.n else old(phase)
      ensures playersTurnQueue ==
                if name == PlayersTurnQueue && IsIntList(v, 1) then IntsOf(v) else old(playersTurnQueue)
      ensures curPlayerIndex ==
                if name == CurPlayerIndex && v.PyInt? && v.n >= 0 then v.n else old(curPlayerIndex)
      ensures curRound == if name == CurRound && v.PyInt? && v.n > 0 then v.n else old(curRound)
      ensures curRoundGeneration ==
                if name == CurRoundGeneration && v.PyInt? && v.n > 0 then v.n else old(curRoundGeneration)
      ensures curWinner == if name == CurWinner && IsIntList(v, 0) then IntsOf(v) else old(curWinner)
      ensures curPlayerAddedCells ==
                if name == CurPlayerAddedCells && v.PyInt? && v.n >= 0 then v.n else old(curPlayerAddedCells)
    {
      if name.Unknown? {
        return;
      }
      if name == Grid {
        var ok := ValidateGrid(v);
        if ok {
          grid := GridOf(v);
        }
      } else if name == PlayersTurnQueue {
        var ok := ValidateIntList(v, 1);
        if ok {
          playersTurnQueue := IntsOf(v);
        }
      } else if name == CurWinner {
        var ok := ValidateIntList(v, 0);
        if ok {
          curWinner := IntsOf(v);
        }
      } else {
        var n := IntOf(v);
        if n.None? {
          return;
        }
        var val := n.value;
        if name == Phase {
          if -1 <= val <= 1 {
            phase := val;
          }
        } else if name == CurPlayerIndex {
          if val >= 0 {
            curPlayerIndex := val;
          }
        } else if name == CurPlayerAddedCells {
          if val >= 0 {
            curPlayerAddedCells := val;
          }
        } else if name == CurRound {
          if val > 0 {
            curRound := val;
          }
        } else if name == CurRoundGeneration {
          if val > 0 {
            curRoundGeneration := val;
          }
        }
      }
    }
  }
}
