/** The records shared by the schedule builder and the outcome generator:
    one game record, the winner-bias selector, one draw of the three ratios,
    the ranges the ratios are drawn from, and the game list that both
    components receive by reference. */
module GameTypes {

  /** One game. The three ratios are home-to-away ratios; the C++ fields are
      `float`, modelled here as reals. */
  datatype GameData = GameData(
    gameNum: int,
    homeCode: int,
    awayCode: int,
    wipRatio: real,
    rbiRatio: real,
    warRatio: real,
    homeWin: bool)

  /** The winner-bias selector. The program casts any integer to the enum, so
      codes other than the five enumerators are kept as `Unlisted`. */
  datatype WinnerBias = None | PreferWip | PreferRbi | PreferWar | PreferAvg | Unlisted(code: int)
  {
    /** An `Unlisted` value never carries the code of an enumerator. */
    predicate WellFormed() {
      Unlisted? ==> !(0 <= code <= 4)
    }

    /** The integer value of the selector. */
    function Code(): int {
      match this
      case None => 0
      case PreferWip => 1
      case PreferRbi => 2
      case PreferWar => 3
      case PreferAvg => 4
      case Unlisted(c) => c
    }

    /** True when the decision falls to the `default` branch of the switch:
        the explicit `None` and every value the switch does not list. */
    predicate FlipsCoin() {
      None? || Unlisted?
    }
  }

  /** The selectors that can arise from a cast: `Unlisted` never repeats an
      enumerator's code. */
  type Bias = b: WinnerBias | b.WellFormed() witness None

  /** The selector an integer code stands for. */
  function BiasOfCode(code: int): (b: Bias)
    ensures b.WellFormed() && b.Code() == code
    ensures b.FlipsCoin() <==> !(1 <= code <= 4)
  {
    if code == 0 then None
    else if code == 1 then PreferWip
    else if code == 2 then PreferRbi
    else if code == 3 then PreferWar
    else if code == 4 then PreferAvg
    else Unlisted(code)
  }

  /** Reading a well-formed selector's code back gives the same selector. */
  lemma BiasCodeRoundTrip(b: WinnerBias)
    requires b.WellFormed()
    ensures BiasOfCode(b.Code()) == b
  {
  }

  const MIN_WIP_RATIO: real := 0.75
  const MAX_WIP_RATIO: real := 1.25
  const MIN_RBI_RATIO: real := 0.75
  const MAX_RBI_RATIO: real := 1.25
  const MIN_WAR_RATIO: real := 0.75
  const MAX_WAR_RATIO: real := 1.25

  /** The three ratios drawn for one game, in the order they are drawn. */
  datatype RatioDraw = RatioDraw(wip: real, rbi: real, war: real)
  {
    /** Each ratio lies in the half-open range of its uniform distribution. */
    predicate InRange() {
      && MIN_WIP_RATIO <= wip < MAX_WIP_RATIO
      && MIN_RBI_RATIO <= rbi < MAX_RBI_RATIO
      && MIN_WAR_RATIO <= war < MAX_WAR_RATIO
    }
  }

  /** The list of games that the program owns and hands to both components by
      reference. */
  class GameList {
    var games: seq<GameData>

    constructor ()
      ensures games == []
    {
      games := [];
    }

    /** Appends one record at the end. */
    method PushBack(g: GameData)
      modifies this
      ensures games == old(games) + [g]
    {
      games := games + [g];
    }
  }
}
