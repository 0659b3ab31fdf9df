/** Single cells of the unit-test fixture (game/tests.py): the 10 x 6 start
    grid with players 1 and 2, and the grid after player 1's pass. */
module LifeFixtures {
  import opened Life

  /** The start grid of the fixture. */
  function Start(): (g: Grid)
    ensures IsTorus(g) && |g| == 6 && Width(g) == 10
  {
    [ [1, 0, 0, 0, 0, 0, 2, 2, 0, 0],
      [0, 1, 1, 0, 0, 2, 2, 0, 0, 0],
      [1, 1, 0, 0, 0, 0, 1, 2, 0, 0],
      [0, 2, 2, 0, 0, 0, 0, 1, 1, 0],
      [2, 2, 0, 0, 0, 0, 1, 1, 0, 0],
      [0, 0, 2, 0, 0, 0, 0, 0, 0, 0] ]
  }

  /** The fixture after player 1's pass. */
  function AfterFirstPass(): (g: Grid)
    ensures IsTorus(g) && |g| == 6 && Width(g) == 10
  {
    [ [0, 1, 0, 0, 0, 0, 2, 2, 0, 0],
      [0, 0, 1, 0, 0, 2, 2, 0, 0, 0],
      [1, 1, 1, 0, 0, 0, 0, 1, 0, 0],
      [0, 2, 2, 0, 0, 0, 0, 0, 1, 0],
      [2, 2, 0, 0, 0, 0, 1, 1, 1, 0],
      [0, 0, 2, 0, 0, 0, 0, 0, 0, 0] ]
  }

  /** The corner (0, 0) sees across both edges: its one neighbour of
      player 1 is (1, 1). */
  lemma CornerNeighbors()
    ensures NeighborCount(Start(), 1, 0, 0) == 1
  {
  }

  /** Player 1's count at (1, 1), inside the grid: four neighbours. */
  lemma InnerNeighbors()
    ensures NeighborCount(Start(), 1, 1, 1) == 4
  {
  }

  /** Player 2's count at (6, 1): four neighbours. */
  lemma SecondPlayerNeighbors()
    ensures NeighborCount(Start(), 2, 6, 1) == 4
  {
  }

  /** (1, 0) is empty with three neighbours of player 1: a birth. */
  lemma FixtureBirth()
    ensures NextCell(Start(), 1, 1, 0) == 1
  {
    var g := Start();
    assert Own(g, 1, 0, -1) == 0 && Own(g, 1, 1, -1) == 0 && Own(g, 1, 2, -1) == 0 by {
      assert -1 % 6 == 5;
    }
  }

  /** (1, 1) is player 1's with four neighbours: it dies of overcrowding. */
  lemma FixtureDeath()
    ensures NextCell(Start(), 1, 1, 1) == 0
  {
    InnerNeighbors();
  }

  /** (6, 0) is player 2's: player 1's pass leaves it alone. */
  lemma FixtureOtherPlayerKept()
    ensures NextCell(Start(), 1, 6, 0) == 2
  {
  }

  /** On the grid player 1's pass left, (5, 0) becomes player 2's. */
  lemma FixtureSecondPassBirth()
    ensures NextCell(AfterFirstPass(), 2, 5, 0) == 2
  {
    var g := AfterFirstPass();
    assert Own(g, 2, 4, -1) == 0 && Own(g, 2, 5, -1) == 0 && Own(g, 2, 6, -1) == 0 by {
      assert -1 % 6 == 5;
    }
  }
}
