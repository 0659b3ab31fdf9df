# Multiplayer Game of Life: rules engine

This project models the rules engine of a multiplayer Game of Life web game (`game/game.py`).

The rules are these:
- Up to five players share one toroidal grid. A cell holds 0 for empty or the id of the player who owns it.
- A match runs a configured number of rounds.
- Each round starts with an adding phase: in a shuffled turn order, every player places a fixed number of cells on empty squares.
- A fixed number of generations follows.
- In each generation every player, in turn order, applies Conway's rule, counting only their own cells as neighbours. A player's cell survives with two or three such neighbours and otherwise dies. Any other cell, empty or another player's, is taken over by the acting player when it has exactly three of that player's neighbours, and is otherwise left alone.
- Each pass reads the grid that the previous player's pass produced.
- After every generation the live cells of each player are counted. The ids holding the largest positive count become the current leaders.

The model has three parts:
- `PyValues` (`values.dfy`): the Python values the engine inspects, with `int()` conversion and Python's negative indexing.
- `Settings` (`settings.dfy`) and `State` (`state.dfy`): the two record classes. Every write goes through a validating setter that silently drops out-of-range values. `GameSettings` is a value, so it becomes a datatype, and its setter becomes the function `TrySet`. `GameState` is updated in place, so it becomes a class with a `TrySet` method.
- The engine: the pure Life rules (`Life`, `life.dfy`), the counting and leader scan (`Scores`, `scores.dfy`), and class `GameOfLife` (`Engine`, `engine.dfy`).
  - `GameOfLife` keeps the loops of the source.
  - Each loop is proved against a specification function.
  - Properties are proved about those functions as lemmas.
- `LifeFixtures` (`fixtures.dfy`) checks single cells of the unit-test grid against the rules.

Further modelling choices:
- `Engine.GameOfLife.Valid()` holds every invariant the operations keep:
  - the grid has the configured size and holds only 0 or player ids;
  - the turn queue is a permutation of the ids `1..players_number`;
  - the turn index, the added-cells counter and the round and generation counters stay in range;
  - the match is over (phase -1) exactly when the round counter has passed the last round.
- `Move` and `AddCell` are proved to keep it.
- `Engine.ConsistentFieldsValid` shows that every field value the engine writes directly is one that `GameState`'s validating setter would accept.
- `Move`'s body is split into three helper methods:
  - `PlayersMove`: the loop over the players;
  - `Generate`: the passes, the counters and the leaders;
  - `NextRound`: the round rollover.
  These follow the source's own blocks (lines 197-202 and 205-214) in the same order.

## Model

| member | source | states |
|---|---|---|
| PyValues.PyIndex | game/game.py:231-233 | Python indexing `s[i]` succeeds exactly when `-len <= i < len`. It addresses `i` for `i >= 0` and `len + i` for negative `i`, always inside the sequence. |
| Settings.TrySet | game/game.py:35-71 | A write changes exactly the named field, and only when the table of admissible values `Accepts` allows it. The grid size must be a pair of ints of at least 10. Players must be 1..5, rounds 1..30, generations 1..50 and new cells 5..30. A rejected write, or a write to an unknown name, leaves every field unchanged. Valid settings stay valid. |
| Settings.NewSettings | game/game.py:24-32 | Construction succeeds exactly when all three pacing arguments are admissible. The result is then valid, with a 30 x 20 grid, 2 players and the three given values. Otherwise an attribute stays unset (None). |
| Settings.DefaultSettings | game/game.py:24-32 | The default arguments give valid settings: 30 x 20, 2 players, 10 rounds, 20 generations, 20 new cells. |
| Settings.FixtureGridSizeRejected | game/tests.py:215-220 | The settings of the unit tests exist. Their write of grid size (10, 6) is rejected, so the grid stays 30 x 20. |
| State.GameState.constructor | game/game.py:79-87 | A fresh state is empty, in phase 0, with round and generation 1, and every field passes its validator. |
| State.GameState.ValidateGrid | game/game.py:119-134 | Accepts exactly a list of lists of ints that are all non-negative. |
| State.GameState.ValidateIntList | game/game.py:137-164 | Accepts exactly a list of ints that are all at least the bound: 1 for the turn queue, 0 for the leader list. |
| State.GameState.TrySet | game/game.py:90-116 | A write changes exactly the named field, and only when its validator accepts the value. Every other field is unchanged. A state whose fields are all valid stays valid. |
| Life.NeighborCount | game/game.py:294-302 | A cell has at most 8 neighbours of a player. |
| Life.WindowIsNeighborCount | game/game.py:296-301 | The row-by-row scan of the 3 x 3 window, with the centre skipped, equals the neighbour count. |
| Life.NeighborCountWraps | game/game.py:299 | The count is toroidal: shifting a cell's coordinates by whole grid widths or heights does not change its neighbour count. |
| Life.CellRule | game/game.py:305-326 | The rule for one cell. The player's own cell survives exactly with 2 or 3 neighbours and otherwise becomes 0. Any other cell becomes the player's exactly with 3 neighbours and otherwise keeps its value. |
| Life.PlayerPass | game/game.py:329-335 | A pass yields a grid of the same height and width. |
| Life.PassCell | game/game.py:329-335 | Each cell of a pass is the rule applied to the same cell of the grid before the pass. |
| Life.PassChangesOnlyByRule | game/game.py:320-325 | A pass changes a cell only in two ways: it kills one of the player's cells (to 0), or it gives a cell that is not the player's to the player. A cell ends as the player's exactly when it was theirs with 2 or 3 neighbours, or was not theirs with exactly 3. |
| Life.PassWithoutCellsIsIdentity | game/game.py:320-325 | The pass of a player with no cell on the grid leaves the grid unchanged. |
| Life.PassKeepsCells | game/game.py:320-325 | A pass by player `p` in `1..n` keeps every cell in `0..n`. |
| Life.Generation | game/game.py:196-200 | A generation of passes keeps the grid's dimensions. |
| Life.GenerationKeepsCells | game/game.py:196-200 | A whole generation keeps every cell in `0..n`. |
| Life.GenerationAppend | game/game.py:196-200 | Passes compose in turn order: running the queue `first + rest` is running `rest` on the result of `first`. |
| Scores.CountGridIsCellCount | game/game.py:339-346 | The row-by-row count of a player equals the number of grid positions holding that player. |
| Scores.CountsOf | game/game.py:339-346 | The counts list has one slot per player plus slot 0. Slot 0 holds 0, no slot is negative, and slot `p` is player `p`'s count. |
| Scores.LeadersStep | game/game.py:352-356 | One scan step: a strictly larger count replaces the list, an equal positive count is appended, and anything else is skipped. This carries the leader list for ids below `k` to the list for ids up to `k`. |
| Scores.Scan | game/game.py:349-356 | The scan's list is never empty and its head is an id already seen. |
| Scores.ScanIsLeaders | game/game.py:349-356 | The scan computes the leader list for every prefix of ids. |
| Scores.LeadersMeaning | game/game.py:349-356 | The leader list is `[0]` exactly when no player has a cell. Otherwise an id is in it exactly when its count is positive and not beaten by any other id. The ids are in ascending order. |
| Scores.LeadersSingle | game/tests.py:186 | Counts 10 against 8 give the leader list `[1]`. |
| Scores.LeadersNoLife | game/game.py:349-356 | All-zero counts give `[0]`. |
| Scores.LeadersTie | game/game.py:352-356 | Counts 3, 5, 5 give the tie `[2, 3]`. |
| Engine.TurnOrderMembers | game/game.py:286-290 | A turn order has one entry per player, and every entry is an id in `1..players_number`. |
| Engine.Shuffle | game/game.py:290 | The shuffled list is a permutation of the input. |
| Engine.CellAt | game/game.py:230-236 | The coordinates address a cell exactly when both are ints that index the grid in Python's sense. The addressed cell lies inside the grid: row `y`, or `len + y` for negative `y`, and likewise for the column within that row. |
| Engine.StandingOfLeaders | game/game.py:368-376 | After the leader scan the message is "no life" exactly when nobody has a cell. It is a tie exactly when two players share a positive largest count. It names one player exactly when one count beats all others. It says "winner" only once the match is over. |
| Engine.ConsistentFieldsValid | game/game.py:90-164 | In every consistent match each field holds a value the validating setter accepts. |
| Engine.GameOfLife.New | game/game.py:171-187 | A new match has the given or default settings and an all-empty grid of the configured size. Its turn queue is a permutation of the players, it is in phase 0 with the first player to add cells, round and generation are 1, and the counts match the grid. |
| Engine.GameOfLife.Resume | game/game.py:171-187 | A resumed match uses the saved state itself, with counts recomputed from its grid. |
| Engine.GameOfLife.ResetGrid | game/game.py:278-283 | The grid has `grid_size[1]` rows of `grid_size[0]` cells, all 0. |
| Engine.GameOfLife.SetPlayersQueue | game/game.py:286-290 | The queue is a permutation of the ids `1..players_number`. |
| Engine.GameOfLife.NeighborsCount | game/game.py:294-302 | The loop returns the current player's toroidal neighbour count. |
| Engine.GameOfLife.CellNewStatus | game/game.py:305-326 | The method returns the rule's value for the cell. |
| Engine.GameOfLife.PlayerMove | game/game.py:329-335 | The new grid is the current player's pass over the old grid. |
| Engine.GameOfLife.SetCounts | game/game.py:339-346 | The counts are those of the grid. |
| Engine.GameOfLife.SetWinner | game/game.py:349-356 | The counts are recounted from the grid, and the leader list is the one `LeadersMeaning` characterises for those counts. |
| Engine.GameOfLife.ScanWinner | game/game.py:351-356 | The scan loop leaves in the leader field exactly the leader list of the counts. |
| Engine.GameOfLife.PlayersMove | game/game.py:196-200 | The grid becomes the generation of the whole turn queue, and the index ends past the queue. |
| Engine.GameOfLife.Generate | game/game.py:196-202 | The grid becomes the generation of the whole turn queue and stays in range. The generation counter advances, and the counts and leaders are those of the new grid. |
| Engine.GameOfLife.NextRound | game/game.py:205-214 | The round advances and the generation resets to 1. After the last round the match is over and nothing else changes. Otherwise phase 0 starts with a reshuffled queue, index 0 and no cells added. The invariant holds again. |
| Engine.GameOfLife.Move | game/game.py:190-216 | Succeeds exactly in phase 1; otherwise it sets the error and leaves the state untouched. On success the grid is the generation of the turn queue, and the counts and leaders are those of the new grid. The three cases apply: the round continues; the match ends after the last round; or a new round of adding cells begins in a permuted order. The invariant is kept. |
| Engine.GameOfLife.AddCell | game/game.py:219-251 | The checks report in the source's order: generation phase, not your turn, bad coordinates, occupied cell. It succeeds exactly when the player may add and the addressed cell is empty, and a failure changes nothing but the error. A success sets exactly that one cell to the player. The player keeps the turn below the quota, hands it on at the quota, and after the last player the match enters phase 1. The invariant is kept. |
| Engine.GameOfLife.GetNextAction | game/game.py:254-260 | "game_over" exactly when phase is -1. "add_cell" exactly in phase 0 for the player whose turn it is. |
| Engine.GameOfLife.GridIsActual | game/game.py:263-274 | True exactly when the client's grid equals the engine's grid. |
| Engine.GameOfLife.IsOver | game/game.py:360-361 | In every consistent match, "round counter past the last round" is exactly phase -1. |
| Engine.GameOfLife.WinnerMessage | game/game.py:368-376 | "Winner" only in phase -1, "Leader" only outside it. |
| Engine.GameOfLife.Status | game/game.py:379-385 | "Game over" exactly in phase -1, carrying the winner message. "Generations proceeding" exactly in phase 1. Otherwise it names the player whose turn it is, with `new_cells_per_round - cur_player_added_cells` cells remaining; in a valid match that player may add, and 1 to `new_cells_per_round` cells remain. |
| LifeFixtures.CornerNeighbors | game/tests.py:24-37 | On the 10 x 6 test grid the corner (0, 0) sees one cell of player 1 across the edges. |
| LifeFixtures.InnerNeighbors | game/tests.py:24-37 | Cell (1, 1) has four neighbours of player 1. |
| LifeFixtures.SecondPlayerNeighbors | game/tests.py:39-50 | Cell (6, 1) has four neighbours of player 2. |
| LifeFixtures.FixtureBirth | game/tests.py:52-61 | Cell (1, 0) is born to player 1. |
| LifeFixtures.FixtureDeath | game/tests.py:52-61 | Cell (1, 1) dies of overcrowding. |
| LifeFixtures.FixtureOtherPlayerKept | game/tests.py:52-61 | Player 1's pass keeps player 2's cell (6, 0). |
| LifeFixtures.FixtureSecondPassBirth | game/tests.py:63-79 | On the grid player 1's pass left, cell (5, 0) is born to player 2. |

## Left out

- `int()` of strings, floats and booleans: the only convertible values modelled are ints (`PyInt`). Every other value is `PyOther` and is rejected where Python would raise.
- The grid-size tuple and the grid are stored as the converted ints. Python stores the value as given, which differs only for the non-int values above.
- `random.shuffle`: the randomness is a parameter (`draws`), consumed by a Fisher–Yates exchange loop.
- Engine.Shuffle: promises only that its result is a permutation, which is all the engine relies on. Uniformity of the distribution is not modelled.
- Engine.GameOfLife.New: requires valid settings. A `GameSettings` object whose slots were left unset is `None` in `Settings.NewSettings`, and reading it raises in Python. That crash is not modelled.
- Engine.GameOfLife.Resume: requires the saved state to satisfy the invariant the engine keeps. Python checks nothing about a stored record. Some records outside the invariant raise later: a cell id above `players_number` when counting (game/game.py:346), or phase 0 with the turn index past the queue (game/game.py:226). Others are processed without error but with behaviour the model does not describe, for example a grid whose size differs from the settings, phase 1 with the turn index at 0, or a queue with repeated ids. The application stores only records the engine itself produced, and those satisfy the invariant.
- Message texts: the error messages and the status and winner strings are enumerations (`ErrorKind`, `Action`, `Standing`, `Status`) rather than formatted text.
- `JSONable.ToJSON`, the Flask routes, the forms, the database models and the JavaScript client sit outside the rules engine.
- The engine writes `GameState` fields directly rather than through `GameState.TrySet`. `Engine.ConsistentFieldsValid` shows that the setter would accept every such write.
- The unit tests' method-level scenarios (`test_AddCell`, `test_GameProcess`) are not covered. They start from a state outside `Valid()`: a 10 x 6 grid under 30 x 20 settings, since the write of (10, 6) is rejected (`Settings.FixtureGridSizeRejected`), and phase 1 with the turn index at 0. The contracts of `Move` and `AddCell` require `Valid()`, so they say nothing about these states. Single cells of the test grid are checked as `LifeFixtures` lemmas, against the pure rule functions. Whole-grid evaluation of the 10 x 6 fixture is not proved.
- Concurrency between requests and persistence of the state are not modelled.
