/** The rules engine (class GameOfLife in game/game.py): a phase machine over
    one GameState, 0 = players add cells, 1 = generation steps,
    -1 = match over. */
module Engine {
  import opened PyValues
  import opened Settings
  import opened State
  import opened Life
  import opened Scores

  /** error_message, by the failure it reports ('' is NoError). */
  datatype ErrorKind =
    | NoError
    | AddCellsFirst        // Move outside phase 1
    | GenerationsPhase     // AddCell outside phase 0
    | NotYourTurn
    | BadCoordinates
    | CellOccupied

  /** GetNextAction's 'game_over', 'add_cell' and 'wait'. */
  datatype Action = GameOver | Add | Wait

  /** WinnerMessage: a tie, a winner (match over) or a leader (match on),
      or no life at all. */
  datatype Standing = Tie(players: seq<int>) | Winner(player: int) | Leader(player: int) | NoLife

  /** Status: the match is over, generations are running, or a player is
      adding cells with `remaining` still to place. */
  datatype Status = Over(standing: Standing) | GenerationsProceeding | Adding(player: int, remaining: int)

  /** The player ids 1..n in order. */
  function Ids(n: nat): (ids: seq<int>)
    ensures |ids| == n && forall i :: 0 <= i < n ==> ids[i] == i + 1
  {
    seq(n, i => i + 1)
  }

  /** `q` is an ordering of the player ids 1..n. */
  predicate IsTurnOrder(q: seq<int>, n: nat)
  {
    multiset(q) == multiset(Ids(n))
  }

  /** A turn order has one entry per player and holds only ids 1..n. */
  lemma TurnOrderMembers(q: seq<int>, n: nat)
    requires IsTurnOrder(q, n)
    ensures |q| == n
    ensures forall i :: 0 <= i < |q| ==> 1 <= q[i] <= n
  {
    assert |q| == |multiset(q)| == |multiset(Ids(n))| == n;
    forall i | 0 <= i < |q|
      ensures 1 <= q[i] <= n
    {
      assert q[i] in multiset(q);
      assert q[i] in multiset(Ids(n));
    }
  }

  /** random.shuffle: the exchange loop that permutes a list, with the
      random draws passed in; a missing draw leaves that position alone. */
  method Shuffle(q: seq<int>, draws: seq<nat>) returns (r: seq<int>)
    ensures multiset(r) == multiset(q)
  {
    r := q;
    var i := |r| - 1;
    while i > 0
      invariant i < |r| == |q|
      invariant multiset(r) == multiset(q)
    {
      var k := |r| - 1 - i;
      var j := if k < |draws| then draws[k] % (i + 1) else i;
      r := r[i := r[j]][j := r[i]];
      i := i - 1;
    }
  }

  /** Where AddCell's `grid[int(cell_y)][int(cell_x)]` lands as (row, column),
      with Python's indexing (negative indices count from the end), or None
      where the conversion or the indexing raises. */
  function CellAt(g: Grid, cellX: PyValue, cellY: PyValue): (r: Option<(nat, nat)>)
    ensures r.Some? ==> r.value.0 < |g| && r.value.1 < |g[r.value.0]|
    ensures r.Some? <==>
              cellX.PyInt? && cellY.PyInt? && 0 - |g| <= cellY.n < |g|
              && 0 - |g[PyIndex(cellY.n, |g|).value]| <= cellX.n < |g[PyIndex(cellY.n, |g|).value]|
    ensures r.Some? ==>
              r.value == (PyIndex(cellY.n, |g|).value, PyIndex(cellX.n, |g[PyIndex(cellY.n, |g|).value]|).value)
  {
    match (IntOf(cellX), IntOf(cellY))
    case (Some(x), Some(y)) =>
      (match PyIndex(y, |g|)
       case None => None
       case Some(row) =>
         match PyIndex(x, |g[row]|)
         case None => None
         case Some(col) => Some((row, col)))
    case _ => None
  }

  /** WinnerMessage's case split on the leader list. */
  function StandingOf(winner: seq<int>, phase: int): Standing
  {
    if |winner| > 1 then Tie(winner)
    else if |winner| == 1 && winner[0] != 0 then
      (if phase == -1 then Winner(winner[0]) else Leader(winner[0]))
    else NoLife
  }

  /** Player p holds the largest count. */
  ghost predicate IsTop(c: seq<int>, p: int)
    requires 0 <= p < |c|
  {
    forall q :: 1 <= q < |c| ==> c[q] <= c[p]
  }

  /** What WinnerMessage reports after a generation: no life exactly when
      nobody has a cell; a tie exactly when two players share a positive
      largest count; a single winner or leader exactly when one player's
      count beats all others; "winner" only once the match is over. */
  lemma StandingOfLeaders(c: seq<int>, phase: int)
    requires IsCounts(c)
    ensures StandingOf(Leaders(c), phase) == NoLife <==> forall p :: 1 <= p < |c| ==> c[p] == 0
    ensures StandingOf(Leaders(c), phase).Tie? <==>
              exists p, q :: 1 <= p < q < |c| && c[p] > 0 && c[q] == c[p] && IsTop(c, p)
    ensures (StandingOf(Leaders(c), phase).Winner? || StandingOf(Leaders(c), phase).Leader?) <==>
              exists p :: 1 <= p < |c| && c[p] > 0 && forall q :: 1 <= q < |c| && q != p ==> c[q] < c[p]
    ensures StandingOf(Leaders(c), phase).Winner? ==> phase == -1
  {
    LeadersMeaning(c);
    var w := Leaders(c);
    var s := StandingOf(w, phase);
    if w != [0] {
      assert |w| >= 1 by {
        var m := PrefixMax(c, |c|);
        var i :| 1 <= i < |c| && c[i] == m;
        assert i in w;
      }
      assert w[0] in w;
      if |w| > 1 {
        assert w[1] in w;
        assert 1 <= w[0] < w[1] < |c| && c[w[1]] == c[w[0]] && c[w[0]] > 0 && IsTop(c, w[0]);
      } else {
        forall p, q | 1 <= p < q < |c| && c[p] > 0 && c[q] == c[p] && IsTop(c, p)
          ensures p in w && q in w
        {
        }
        forall q | 1 <= q < |c| && q != w[0]
          ensures c[q] < c[w[0]]
        {
        }
      }
    }
  }

  /** The grid has the configured size and holds only empty cells and ids
      of the configured players. */
  ghost predicate GridFits(s: GameSettings, st: GameState)
    reads st
  {
    IsGrid(st.grid, s.gridHeight, s.gridWidth) && CellsIn(st.grid, s.playersNumber)
  }

  /** The turn order lists every player once; while cells are being added
      the index points at a player who still has cells to place, otherwise
      it has run past the end of the queue. */
  ghost predicate TurnFits(s: GameSettings, st: GameState)
    reads st
  {
    && s.playersNumber >= 0
    && IsTurnOrder(st.playersTurnQueue, s.playersNumber)
    && -1 <= st.phase <= 1
    && 0 <= st.curPlayerIndex
    && (st.phase == 0 ==>
          st.curPlayerIndex < |st.playersTurnQueue| && st.curPlayerAddedCells < s.newCellsPerRound)
    && (st.phase != 0 ==> st.curPlayerIndex == |st.playersTurnQueue|)
    && 0 <= st.curPlayerAddedCells <= s.newCellsPerRound
  }

  /** The round and generation counters stay in range, and the match is
      over exactly when the round counter has passed the last round. */
  ghost predicate ClockFits(s: GameSettings, st: GameState)
    reads st
  {
    && 1 <= st.curRoundGeneration <= s.generationsPerRound
    && 1 <= st.curRound <= s.roundsNumber + 1
    && (st.phase == -1 <==> st.curRound > s.roundsNumber)
  }

  /** The leader list holds 0 or player ids. */
  ghost predicate WinnerFits(s: GameSettings, st: GameState)
    reads st
  {
    forall i :: 0 <= i < |st.curWinner| ==> 0 <= st.curWinner[i] <= s.playersNumber
  }

  /** Everything the engine's own operations keep true of a match. */
  ghost predicate Consistent(s: GameSettings, st: GameState)
    reads st
  {
    GridFits(s, st) && TurnFits(s, st) && ClockFits(s, st) && WinnerFits(s, st)
  }

  /** In a consistent match every field holds a value the validated setter
      of GameState accepts, so the engine's direct writes never store what
      the setter would have refused. */
  lemma ConsistentFieldsValid(s: GameSettings, st: GameState)
    requires Consistent(s, st)
    ensures st.FieldsValid()
  {
    TurnOrderMembers(st.playersTurnQueue, s.playersNumber);
  }

  class GameOfLife {
    const settings: GameSettings
    const state: GameState
    var errorMessage: ErrorKind
    var counts: seq<int>

    /** The settings are in range, the match is in a state the operations
        reach, and counts has a slot per player. */
    ghost predicate Valid()
      reads this, state
    {
      && Settings.Valid(settings)
      && Consistent(settings, state)
      && |counts| == settings.playersNumber + 1
    }

    /** A new match: __resetGrid, __setPlayersQueue, then __setCounts. */
    constructor New(settings: Option<GameSettings>, draws: seq<nat>)
      requires settings.Some? ==> Settings.Valid(settings.value)
      ensures Valid() && fresh(state)
      ensures this.settings == if settings.Some? then settings.value else DefaultSettings()
      ensures forall y, x :: 0 <= y < |state.grid| && 0 <= x < |state.grid[y]| ==> state.grid[y][x] == 0
      ensures state.phase == 0 && state.curPlayerIndex == 0 && state.curPlayerAddedCells == 0
      ensures state.curRound == 1 && state.curRoundGeneration == 1 && state.curWinner == []
      ensures errorMessage == NoError && counts == CountsOf(state.grid, this.settings.playersNumber)
    {
      this.settings := if settings.Some? then settings.value else DefaultSettings();
      state := new GameState();
      errorMessage := NoError;
      counts := [];
      new;
      ResetGrid();
      SetPlayersQueue(draws);
      SetCounts();
      TurnOrderMembers(state.playersTurnQueue, this.settings.playersNumber);
    }

    /** A resumed match: the saved state is used as it is. */
    constructor Resume(settings: Option<GameSettings>, saved: GameState)
      requires settings.Some? ==> Settings.Valid(settings.value)
      requires Consistent(if settings.Some? then settings.value else DefaultSettings(), saved)
      ensures Valid() && state == saved
      ensures this.settings == if settings.Some? then settings.value else DefaultSettings()
      ensures errorMessage == NoError && counts == CountsOf(state.grid, this.settings.playersNumber)
    {
      this.settings := if settings.Some? then settings.value else DefaultSettings();
      state := saved;
      errorMessage := NoError;
      counts := [];
      new;
      SetCounts();
    }

    /** The player whose turn it is. */
    function CurrentPlayer(): int
      reads this, state
      requires 0 <= state.curPlayerIndex < |state.playersTurnQueue|
    {
      state.playersTurnQueue[state.curPlayerIndex]
    }

    /** __resetGrid: grid_size[1] rows of grid_size[0] empty cells. */
    method ResetGrid()
      requires Settings.Valid(settings)
      modifies state`grid
      ensures IsGrid(state.grid, settings.gridHeight, settings.gridWidth)
      ensures forall y, x :: 0 <= y < |state.grid| && 0 <= x < |state.grid[y]| ==> state.grid[y][x] == 0
    {
      var grid: seq<seq<int>> := [];
      for y := 0 to settings.gridHeight
        invariant IsGrid(grid, y, settings.gridWidth)
        invariant forall k, x :: 0 <= k < y && 0 <= x < |grid[k]| ==> grid[k][x] == 0
      {
        var row: seq<int> := [];
        for x := 0 to settings.gridWidth
          invariant |row| == x && forall k :: 0 <= k < x ==> row[k] == 0
        {
          row := row + [0];
        }
        grid := grid + [row];
      }
      state.grid := grid;
    }

    /** __setPlayersQueue: the ids 1..players_number, shuffled. */
    method SetPlayersQueue(draws: seq<nat>)
      requires Settings.Valid(settings)
      modifies state`playersTurnQueue
      ensures IsTurnOrder(state.playersTurnQueue, settings.playersNumber)
    {
      var queue: seq<int> := [];
      for p := 0 to settings.playersNumber
        invariant queue == Ids(p)
      {
        queue := queue + [p + 1];
      }
      state.playersTurnQueue := Shuffle(queue, draws);
    }

    /** __getACCPNeighborsCount: the source's scan of the 3 x 3 window around
        (cellX, cellY), centre excluded, indices wrapped, counting the cells
        of the current player. */
    method NeighborsCount(cellX: int, cellY: int) returns (count: int)
      requires IsTorus(state.grid) && 0 <= state.curPlayerIndex < |state.playersTurnQueue|
      ensures count == NeighborCount(state.grid, CurrentPlayer(), cellX, cellY)
    {
      count := 0;
      for y := cellY - 1 to cellY + 2
        invariant count == WindowCount(state.grid, CurrentPlayer(), cellX, cellY, y)
      {
        for x := cellX - 1 to cellX + 2
          invariant count == WindowCount(state.grid, CurrentPlayer(), cellX, cellY, y)
                             + RowCount(state.grid, CurrentPlayer(), cellX, cellY, y, x)
        {
          if x != cellX || y != cellY {
            var cell := state.grid[y % |state.grid|][x % |state.grid[0]|];
            if cell == state.playersTurnQueue[state.curPlayerIndex] {
              count := count + 1;
            }
          }
        }
      }
      WindowIsNeighborCount(state.grid, CurrentPlayer(), cellX, cellY);
    }

    /** __getCellNewStatus: the value of cell (cellX, cellY) after the
        current player's pass. */
    method CellNewStatus(cellX: int, cellY: int) returns (c: int)
      requires IsTorus(state.grid) && 0 <= state.curPlayerIndex < |state.playersTurnQueue|
      requires 0 <= cellY < |state.grid| && 0 <= cellX < Width(state.grid)
      ensures c == NextCell(state.grid, CurrentPlayer(), cellX, cellY)
    {
      c := state.grid[cellY][cellX];
      var neighbors := NeighborsCount(cellX, cellY);
      if c == state.playersTurnQueue[state.curPlayerIndex] {
        if !(2 <= neighbors <= 3) {
          c := 0;
        }
      } else {
        if neighbors == 3 {
          c := state.playersTurnQueue[state.curPlayerIndex];
        }
      }
    }

    /** __playerMove: the current player's pass, built row by row from the
        grid as it was before the pass. */
    method PlayerMove()
      requires IsRect(state.grid) && 0 <= state.curPlayerIndex < |state.playersTurnQueue|
      modifies state`grid
      ensures state.grid == PlayerPass(old(state.grid), CurrentPlayer())
    {
      var grid: seq<seq<int>> := [];
      for y := 0 to |state.grid|
        invariant state.grid == old(state.grid)
        invariant grid == PassRows(state.grid, CurrentPlayer(), y)
      {
        var row: seq<int> := [];
        for x := 0 to |state.grid[0]|
          invariant state.grid == old(state.grid)
          invariant row == PassRow(state.grid, CurrentPlayer(), y, x)
        {
          var c := CellNewStatus(x, y);
          row := row + [c];
        }
        grid := grid + [row];
      }
      state.grid := grid;
    }

    /** __setCounts: counts[p] is the number of cells of player p. */
    method SetCounts()
      requires CellsIn(state.grid, settings.playersNumber) && settings.playersNumber >= 0
      modifies this`counts
      ensures counts == CountsOf(state.grid, settings.playersNumber)
    {
      var n := settings.playersNumber;
      var g := state.grid;
      counts := [0];
      for i := 0 to n
        invariant |counts| == i + 1 && forall k :: 0 <= k <= i ==> counts[k] == 0
      {
        counts := counts + [0];
      }
      for y := 0 to |g|
        invariant |counts| == n + 1 && counts[0] == 0
        invariant forall p :: 1 <= p <= n ==> counts[p] == CountGrid(g[..y], p)
      {
        var row := g[y];
        for x := 0 to |row|
          invariant |counts| == n + 1 && counts[0] == 0
          invariant forall p :: 1 <= p <= n ==> counts[p] == CountGrid(g[..y], p) + CountRow(row[..x], p)
        {
          assert row[..x + 1][..x] == row[..x];
          var cell := row[x];
          if cell > 0 {
            counts := counts[cell := counts[cell] + 1];
          }
        }
        assert row[..|row|] == row;
        assert g[..y + 1][..y] == g[..y];
      }
      assert g[..|g|] == g;
    }

    /** __setWinner: recount, then scan the counts for the leaders. */
    method SetWinner()
      requires CellsIn(state.grid, settings.playersNumber) && settings.playersNumber >= 0
      modifies this`counts, state`curWinner
      ensures counts == CountsOf(state.grid, settings.playersNumber)
      ensures state.curWinner == Leaders(counts)
    {
      SetCounts();
      ScanWinner();
    }

    /** The loop of __setWinner: the ids in ascending order, keeping the
        list of those with the largest positive count. */
    method ScanWinner()
      requires IsCounts(counts)
      modifies state`curWinner
      ensures state.curWinner == Leaders(counts)
    {
      state.curWinner := [0];
      for i := 1 to |counts|
        invariant state.curWinner == Scan(counts, i)
      {
        if counts[i] > counts[state.curWinner[0]] {
          state.curWinner := [i];
        } else if counts[i] > 0 && counts[i] == counts[state.curWinner[0]] {
          state.curWinner := state.curWinner + [i];
        }
      }
      ScanIsLeaders(counts, |counts|);
    }

    /** The loop at the head of Move: every player's pass, in turn order,
        each on the grid the previous pass left. */
    method PlayersMove()
      requires IsRect(state.grid)
      modifies state`grid, state`curPlayerIndex
      ensures state.grid == Generation(old(state.grid), state.playersTurnQueue)
      ensures state.curPlayerIndex == |state.playersTurnQueue|
    {
      state.curPlayerIndex := 0;
      while state.curPlayerIndex < |state.playersTurnQueue|
        invariant 0 <= state.curPlayerIndex <= |state.playersTurnQueue|
        invariant state.grid == Generation(old(state.grid), state.playersTurnQueue[..state.curPlayerIndex])
        decreases |state.playersTurnQueue| - state.curPlayerIndex
      {
        ghost var done := state.playersTurnQueue[..state.curPlayerIndex];
        PlayerMove();
        state.curPlayerIndex := state.curPlayerIndex + 1;
        assert state.playersTurnQueue[..state.curPlayerIndex][..state.curPlayerIndex - 1] == done;
      }
      assert state.playersTurnQueue[..state.curPlayerIndex] == state.playersTurnQueue;
    }

    /** The part of Move between its phase check and the round rollover:
        every player's pass, the generation counter, and the counts and the
        leaders of the new grid. */
    method Generate()
      requires Valid() && state.phase == 1
      modifies this`counts, state`grid, state`curPlayerIndex, state`curRoundGeneration, state`curWinner
      ensures GridFits(settings, state) && WinnerFits(settings, state)
      ensures state.grid == Generation(old(state.grid), state.playersTurnQueue)
      ensures state.curPlayerIndex == |state.playersTurnQueue|
      ensures state.curRoundGeneration == old(state.curRoundGeneration) + 1
      ensures counts == CountsOf(state.grid, settings.playersNumber)
      ensures state.curWinner == Leaders(counts)
    {
      ghost var start := state.grid;
      var n := settings.playersNumber;
      TurnOrderMembers(state.playersTurnQueue, n);
      PlayersMove();
      GenerationKeepsCells(start, state.playersTurnQueue, n);
      state.curRoundGeneration := state.curRoundGeneration + 1;
      SetWinner();
    }

    /** Move: one generation. Each player's pass runs in turn order on the
        previous pass's output; then the generation counter, the counts and
        the leaders are updated, and the round or the match may end. */
    method Move(draws: seq<nat>) returns (ok: bool)
      requires Valid()
      modifies this, state
      ensures Valid()
      ensures ok <==> old(state.phase) == 1
      ensures !ok ==> errorMessage == AddCellsFirst && unchanged(state) && counts == old(counts)
      ensures ok ==> errorMessage == old(errorMessage)
      ensures ok ==> state.grid == Generation(old(state.grid), old(state.playersTurnQueue))
      ensures ok ==> counts == CountsOf(state.grid, settings.playersNumber)
      ensures ok ==> state.curWinner == Leaders(counts)
      ensures ok && old(state.curRoundGeneration) + 1 <= settings.generationsPerRound ==>
                && state.curRoundGeneration == old(state.curRoundGeneration) + 1
                && state.curRound == old(state.curRound) && state.phase == 1
                && state.playersTurnQueue == old(state.playersTurnQueue)
                && state.curPlayerIndex == |state.playersTurnQueue|
                && state.curPlayerAddedCells == old(state.curPlayerAddedCells)
      ensures ok && old(state.curRoundGeneration) + 1 > settings.generationsPerRound ==>
                && state.curRoundGeneration == 1 && state.curRound == old(state.curRound) + 1
      ensures ok && old(state.curRoundGeneration) + 1 > settings.generationsPerRound
                 && old(state.curRound) + 1 > settings.roundsNumber ==>
                && state.phase == -1
                && state.playersTurnQueue == old(state.playersTurnQueue)
                && state.curPlayerIndex == |state.playersTurnQueue|
                && state.curPlayerAddedCells == old(state.curPlayerAddedCells)
      ensures ok && old(state.curRoundGeneration) + 1 > settings.generationsPerRound
                 && old(state.curRound) + 1 <= settings.roundsNumber ==>
                && state.phase == 0
                && multiset(state.playersTurnQueue) == multiset(old(state.playersTurnQueue))
                && state.curPlayerIndex == 0 && state.curPlayerAddedCells == 0
    {
      if state.phase != 1 {
        errorMessage := AddCellsFirst;
        return false;
      }
      Generate();
      if state.curRoundGeneration > settings.generationsPerRound {
        NextRound(draws);
      }
      return true;
    }

    /** The round rollover at the end of Move, once the last generation of
        a round has run: the round counter advances, and either the match is
        over or a new round of adding cells starts in a reshuffled order. */
    method NextRound(draws: seq<nat>)
      requires Settings.Valid(settings) && |counts| == settings.playersNumber + 1
      requires GridFits(settings, state) && TurnFits(settings, state) && WinnerFits(settings, state)
      requires state.phase == 1 && 1 <= state.curRound <= settings.roundsNumber
      requires state.curRoundGeneration == settings.generationsPerRound + 1
      modifies state`curRound, state`curRoundGeneration, state`phase
      modifies state`playersTurnQueue, state`curPlayerIndex, state`curPlayerAddedCells
      ensures Valid()
      ensures state.curRoundGeneration == 1 && state.curRound == old(state.curRound) + 1
      ensures state.curRound > settings.roundsNumber ==>
                && state.phase == -1
                && state.playersTurnQueue == old(state.playersTurnQueue)
                && state.curPlayerIndex == old(state.curPlayerIndex)
                && state.curPlayerAddedCells == old(state.curPlayerAddedCells)
      ensures state.curRound <= settings.roundsNumber ==>
                && state.phase == 0
                && multiset(state.playersTurnQueue) == multiset(old(state.playersTurnQueue))
                && state.curPlayerIndex == 0 && state.curPlayerAddedCells == 0
    {
      state.curRound := state.curRound + 1;
      state.curRoundGeneration := 1;
      if IsOver() {
        state.phase := -1;
        return;
      }
      state.phase := 0;
      state.playersTurnQueue := Shuffle(state.playersTurnQueue, draws);
      state.curPlayerIndex := 0;
      state.curPlayerAddedCells := 0;
      TurnOrderMembers(state.playersTurnQueue, settings.playersNumber);
    }

    /** AddCell: the current player puts one cell on an empty square. The
        checks run in the source's order and a failed one changes nothing
        but errorMessage. Reaching the quota hands the turn on; after the
        last player the match moves to the generation phase. */
    method AddCell(cellX: PyValue, cellY: PyValue, player: int) returns (ok: bool)
      requires Valid()
      modifies this`errorMessage, state`grid, state`curPlayerIndex, state`phase, state`curPlayerAddedCells
      ensures Valid()
      ensures old(state.phase) != 0 ==> !ok && errorMessage == GenerationsPhase
      ensures old(state.phase) == 0 && player != old(CurrentPlayer()) ==> !ok && errorMessage == NotYourTurn
      ensures (old(state.phase) == 0 && player == old(CurrentPlayer())
               && CellAt(old(state.grid), cellX, cellY).None?) ==> !ok && errorMessage == BadCoordinates
      ensures (old(state.phase) == 0 && player == old(CurrentPlayer()) && CellAt(old(state.grid), cellX, cellY).Some?
               && (var (row, col) := CellAt(old(state.grid), cellX, cellY).value; old(state.grid)[row][col] != 0))
              ==> !ok && errorMessage == CellOccupied
      ensures ok <==> old(GetNextAction(player)) == Add && CellAt(old(state.grid), cellX, cellY).Some?
                      && (var (row, col) := CellAt(old(state.grid), cellX, cellY).value; old(state.grid)[row][col] == 0)
      ensures !ok ==> state.grid == old(state.grid) && state.phase == old(state.phase)
                      && state.curPlayerIndex == old(state.curPlayerIndex)
                      && state.curPlayerAddedCells == old(state.curPlayerAddedCells)
      ensures ok ==> errorMessage == old(errorMessage)
      ensures ok ==> var (row, col) := CellAt(old(state.grid), cellX, cellY).value;
                     state.grid == old(state.grid)[row := old(state.grid)[row][col := player]]
      ensures ok && old(state.curPlayerAddedCells) + 1 < settings.newCellsPerRound ==>
                && state.curPlayerAddedCells == old(state.curPlayerAddedCells) + 1
                && state.curPlayerIndex == old(state.curPlayerIndex) && state.phase == 0
      ensures ok && old(state.curPlayerAddedCells) + 1 >= settings.newCellsPerRound
                 && old(state.curPlayerIndex) + 1 < |state.playersTurnQueue| ==>
                && state.curPlayerAddedCells == 0
                && state.curPlayerIndex == old(state.curPlayerIndex) + 1 && state.phase == 0
      ensures ok && old(state.curPlayerAddedCells) + 1 >= settings.newCellsPerRound
                 && old(state.curPlayerIndex) + 1 >= |state.playersTurnQueue| ==>
                && state.curPlayerAddedCells == settings.newCellsPerRound
                && state.curPlayerIndex == |state.playersTurnQueue| && state.phase == 1
    {
      if state.phase != 0 {
        errorMessage := GenerationsPhase;
        return false;
      }
      if player != state.playersTurnQueue[state.curPlayerIndex] {
        errorMessage := NotYourTurn;
        return false;
      }
      var at := CellAt(state.grid, cellX, cellY);
      if at.None? {
        errorMessage := BadCoordinates;
        return false;
      }
      var (row, col) := at.value;
      if state.grid[row][col] != 0 {
        errorMessage := CellOccupied;
        return false;
      }
      TurnOrderMembers(state.playersTurnQueue, settings.playersNumber);
      state.grid := state.grid[row := state.grid[row][col := state.playersTurnQueue[state.curPlayerIndex]]];
      state.curPlayerAddedCells := state.curPlayerAddedCells + 1;
      if state.curPlayerAddedCells >= settings.newCellsPerRound {
        state.curPlayerIndex := state.curPlayerIndex + 1;
        if state.curPlayerIndex >= |state.playersTurnQueue| {
          state.phase := 1;
        } else {
          state.curPlayerAddedCells := 0;
        }
      }
      return true;
    }

    /** GetNextAction: 'game_over' once the match is over, 'add_cell' for
        the player whose turn it is to add cells, 'wait' otherwise. */
    function GetNextAction(player: int): (a: Action)
      reads this, state
      requires state.phase == 0 ==> 0 <= state.curPlayerIndex < |state.playersTurnQueue|
      ensures a == GameOver <==> state.phase == -1
      ensures a == Add <==> state.phase == 0 && CurrentPlayer() == player
    {
      if state.phase == -1 then GameOver
      else if state.phase == 0 && state.playersTurnQueue[state.curPlayerIndex] == player then Add
      else Wait
    }

    /** GridIsActual: the client's grid equals the authoritative one, row
        count, row lengths and cells. */
    method GridIsActual(grid: seq<seq<int>>) returns (actual: bool)
      ensures actual <==> grid == state.grid
    {
      if |grid| != |state.grid| {
        return false;
      }
      for y := 0 to |grid|
        invariant forall k :: 0 <= k < y ==> grid[k] == state.grid[k]
      {
        if |grid[y]| != |state.grid[y]| {
          return false;
        }
        for x := 0 to |grid[y]|
          invariant forall k :: 0 <= k < x ==> grid[y][k] == state.grid[y][k]
        {
          if grid[y][x] != state.grid[y][x] {
            return false;
          }
        }
      }
      return true;
    }

    /** IsOver: the round counter has run past the number of rounds, which
        in every reachable state is exactly phase -1. */
    function IsOver(): (over: bool)
      reads this, state
      ensures Valid() ==> (over <==> state.phase == -1)
    {
      state.curRound > settings.roundsNumber
    }

    /** WinnerMessage, as its case split. */
    function WinnerMessage(): (s: Standing)
      reads this, state
      ensures s.Winner? ==> state.phase == -1
      ensures s.Leader? ==> state.phase != -1
    {
      StandingOf(state.curWinner, state.phase)
    }

    /** Status: the match result, the generation phase, or who is adding
        cells and how many remain. */
    function Status(): (s: Status)
      reads this, state
      requires state.phase != -1 && state.phase != 1 ==> 0 <= state.curPlayerIndex < |state.playersTurnQueue|
      ensures s.Over? <==> state.phase == -1
      ensures s.GenerationsProceeding? <==> state.phase == 1
      ensures s.Over? ==> s.standing == WinnerMessage()
      ensures s.Adding? ==>
                && s.player == CurrentPlayer()
                && s.remaining == settings.newCellsPerRound - state.curPlayerAddedCells
      ensures Valid() && s.Adding? ==>
                && GetNextAction(s.player) == Add
                && 1 <= s.remaining <= settings.newCellsPerRound
    {
      if state.phase == -1 then Over(WinnerMessage())
      else if state.phase == 1 then GenerationsProceeding
      else Adding(CurrentPlayer(), settings.newCellsPerRound - state.curPlayerAddedCells)
    }
  }
}
