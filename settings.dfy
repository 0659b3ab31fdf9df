/** Match parameters (class GameSettings in game/game.py). Every write goes
    through a validating setter that silently ignores values out of range. */
module Settings {
  import opened PyValues

  datatype GameSettings = GameSettings(
    gridWidth: int,            // grid_size[0]
    gridHeight: int,           // grid_size[1]
    playersNumber: int,
    roundsNumber: int,
    generationsPerRound: int,
    newCellsPerRound: int)

  /** The attribute name a write targets; any other name is ignored. */
  datatype SettingName =
    | GridSize
    | PlayersNumber
    | RoundsNumber
    | GenerationsPerRound
    | NewCellsPerRound
    | Unknown(name: string)

  /** Every field lies in its documented range. */
  predicate Valid(s: GameSettings)
  {
    && s.gridWidth >= 10 && s.gridHeight >= 10
    && 1 <= s.playersNumber <= 5
    && 1 <= s.roundsNumber <= 30
    && 1 <= s.generationsPerRound <= 50
    && 5 <= s.newCellsPerRound <= 30
  }

  /** The table of writes the setter accepts, one line per attribute. */
  predicate Accepts(name: SettingName, v: PyValue)
  {
    match name
    case GridSize =>
      && v.PyTuple? && |v.items| == 2
      && v.items[0].PyInt? && v.items[0].n >= 10
      && v.items[1].PyInt? && v.items[1].n >= 10
    case PlayersNumber => v.PyInt? && 1 <= v.n <= 5
    case RoundsNumber => v.PyInt? && 1 <= v.n <= 30
    case GenerationsPerRound => v.PyInt? && 1 <= v.n <= 50
    case NewCellsPerRound => v.PyInt? && 5 <= v.n <= 30
    case Unknown(_) => false
  }

  /** __validateGridSize: a tuple of length two whose parts convert to
      integers of at least 10. */
  function ValidateGridSize(v: PyValue): bool
  {
    if !(v.PyTuple? && |v.items| == 2) then false
    else
      match (IntOf(v.items[0]), IntOf(v.items[1]))
      case (Some(x), Some(y)) => x >= 10 && y >= 10
      case _ => false
  }

  /** __setattr__: the settings after writing `v` to attribute `name`. A
      rejected write, or one to an unknown name, leaves every field as it was. */
  function TrySet(s: GameSettings, name: SettingName, v: PyValue): (r: GameSettings)
    ensures !Accepts(name, v) ==> r == s
    ensures Accepts(name, v) && name == GridSize ==>
              r == s.(gridWidth := v.items[0].n, gridHeight := v.items[1].n)
    ensures Accepts(name, v) && name == PlayersNumber ==> r == s.(playersNumber := v.n)
    ensures Accepts(name, v) && name == RoundsNumber ==> r == s.(roundsNumber := v.n)
    ensures Accepts(name, v) && name == GenerationsPerRound ==> r == s.(generationsPerRound := v.n)
    ensures Accepts(name, v) && name == NewCellsPerRound ==> r == s.(newCellsPerRound := v.n)
    ensures Valid(s) ==> Valid(r)
  {
    if name.Unknown? then s
    else if name == GridSize then
      if ValidateGridSize(v) then s.(gridWidth := v.items[0].n, gridHeight := v.items[1].n) else s
    else
      match IntOf(v)
      case None => s
      case Some(n) =>
        match name
        case PlayersNumber => if 1 <= n <= 5 then s.(playersNumber := n) else s
        case GenerationsPerRound => if 1 <= n <= 50 then s.(generationsPerRound := n) else s
        case RoundsNumber => if 1 <= n <= 30 then s.(roundsNumber := n) else s
        case NewCellsPerRound => if 5 <= n <= 30 then s.(newCellsPerRound := n) else s
  }

  /** __init__: a 30 x 20 grid and two players, then the three pacing values
      through the setter. Python leaves an attribute unset when its first
      write is rejected, and every later read of it raises; that object is
      None here. */
  function NewSettings(generationsPerRound: PyValue, roundsNumber: PyValue, newCellsPerRound: PyValue)
    : (r: Option<GameSettings>)
    ensures r.Some? <==>
              && Accepts(GenerationsPerRound, generationsPerRound)
              && Accepts(RoundsNumber, roundsNumber)
              && Accepts(NewCellsPerRound, newCellsPerRound)
    ensures r.Some? ==> Valid(r.value)
    ensures r.Some? ==>
              && r.value.gridWidth == 30 && r.value.gridHeight == 20 && r.value.playersNumber == 2
              && r.value.generationsPerRound == generationsPerRound.n
              && r.value.roundsNumber == roundsNumber.n
              && r.value.newCellsPerRound == newCellsPerRound.n
  {
    match (IntOf(generationsPerRound), IntOf(roundsNumber), IntOf(newCellsPerRound))
    case (Some(g), Some(k), Some(c)) =>
      if 1 <= g <= 50 && 1 <= k <= 30 && 5 <= c <= 30 then Some(GameSettings(30, 20, 2, k, g, c))
      else None
    case _ => None
  }

  /** GameSettings() with its default arguments 20, 10 and 20. */
  function DefaultSettings(): (s: GameSettings)
    ensures Valid(s)
    ensures s == GameSettings(30, 20, 2, 10, 20, 20)
  {
    NewSettings(PyInt(20), PyInt(10), PyInt(20)).value
  }

  /** The fixture of the unit tests: the write of (10, 6) is rejected because
      6 < 10, so the grid stays 30 x 20. */
  lemma FixtureGridSizeRejected()
    ensures NewSettings(PyInt(2), PyInt(2), PyInt(5)).Some?
    ensures TrySet(NewSettings(PyInt(2), PyInt(2), PyInt(5)).value, GridSize, PyTuple([PyInt(10), PyInt(6)]))
            == GameSettings(30, 20, 2, 2, 2, 5)
  {
  }
}
