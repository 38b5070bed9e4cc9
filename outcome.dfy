/** The outcome generator (`generateGameData`): every record gets three
    freshly drawn ratios and a home-win flag decided by the winner bias. The
    ratio draws and the coin flips are input streams. */
module Outcome {
  import opened GameTypes
  import Schedule

  /** The number of statistics the average is taken over. */
  const NUM_STATS: real := 3.0

  /** The bias switch: a ratio rule compares one ratio, or the mean of the
      three, strictly with 1.0; `None` and every unlisted value take the coin. */
  function HomeWins(bias: Bias, wip: real, rbi: real, war: real, coin: bool): (win: bool)
    ensures bias.PreferWip? ==> (win <==> wip > 1.0)
    ensures bias.PreferRbi? ==> (win <==> rbi > 1.0)
    ensures bias.PreferWar? ==> (win <==> war > 1.0)
    ensures bias.PreferAvg? ==> (win <==> wip + rbi + war > 3.0)
    ensures bias.FlipsCoin() ==> win == coin
  {
    match bias
    case PreferWip => wip > 1.0
    case PreferRbi => rbi > 1.0
    case PreferWar => war > 1.0
    case PreferAvg => (war + rbi + wip) / NUM_STATS > 1.0
    case _ => coin
  }

  /** A finished record's outcome is the switch applied to its own ratios. */
  predicate FollowsBias(bias: Bias, g: GameData, coin: bool) {
    g.homeWin == HomeWins(bias, g.wipRatio, g.rbiRatio, g.warRatio, coin)
  }

  /** A ratio of exactly 1.0 is a home loss under every ratio rule, and so is
      a mean of exactly 1.0. */
  lemma TieIsHomeLoss(bias: Bias, wip: real, rbi: real, war: real, coin: bool)
    ensures bias.PreferWip? && wip == 1.0 ==> !HomeWins(bias, wip, rbi, war, coin)
    ensures bias.PreferRbi? && rbi == 1.0 ==> !HomeWins(bias, wip, rbi, war, coin)
    ensures bias.PreferWar? && war == 1.0 ==> !HomeWins(bias, wip, rbi, war, coin)
    ensures bias.PreferAvg? && wip + rbi + war == 3.0 ==> !HomeWins(bias, wip, rbi, war, coin)
  {
  }

  /** Under the coin rule the ratios play no part. */
  lemma CoinIgnoresRatios(bias: Bias, wip: real, rbi: real, war: real,
                          wip': real, rbi': real, war': real, coin: bool)
    requires bias.FlipsCoin()
    ensures HomeWins(bias, wip, rbi, war, coin) == HomeWins(bias, wip', rbi', war', coin)
  {
  }

  /** Under a ratio rule the coin plays no part. */
  lemma RatioRuleIgnoresCoin(bias: Bias, wip: real, rbi: real, war: real)
    requires !bias.FlipsCoin()
    ensures HomeWins(bias, wip, rbi, war, true) == HomeWins(bias, wip, rbi, war, false)
  {
  }

  /** Under a ratio rule, better ratios for the home team never turn a home
      win into a loss. */
  lemma RatioRuleMonotone(bias: Bias, wip: real, rbi: real, war: real,
                          wip': real, rbi': real, war': real, coin: bool)
    requires !bias.FlipsCoin()
    requires wip <= wip' && rbi <= rbi' && war <= war'
    ensures HomeWins(bias, wip, rbi, war, coin) ==> HomeWins(bias, wip', rbi', war', coin)
  {
  }

  /** One record after the loop body: the three draws overwrite the ratios
      and the bias decides the outcome; the team codes and the game number
      are left as they were. */
  function Resolve(g: GameData, d: RatioDraw, bias: Bias, coin: bool): (r: GameData)
    ensures r.gameNum == g.gameNum && r.homeCode == g.homeCode && r.awayCode == g.awayCode
    ensures r.wipRatio == d.wip && r.rbiRatio == d.rbi && r.warRatio == d.war
    ensures FollowsBias(bias, r, coin)
  {
    g.(wipRatio := d.wip, rbiRatio := d.rbi, warRatio := d.war,
       homeWin := HomeWins(bias, d.wip, d.rbi, d.war, coin))
  }

  /** The list after `generateGameData`: record `i` gets draw `i` and, when
      the bias takes the coin, flip `i`. */
  function Resolved(games: seq<GameData>, bias: Bias, draws: nat -> RatioDraw, coins: nat -> bool): (r: seq<GameData>)
    ensures |r| == |games|
    ensures forall i :: 0 <= i < |r| ==>
      && r[i].gameNum == games[i].gameNum
      && r[i].homeCode == games[i].homeCode
      && r[i].awayCode == games[i].awayCode
    ensures forall i :: 0 <= i < |r| ==>
      r[i].wipRatio == draws(i).wip && r[i].rbiRatio == draws(i).rbi && r[i].warRatio == draws(i).war
    ensures forall i :: 0 <= i < |r| ==> FollowsBias(bias, r[i], coins(i))
  {
    var r := seq(|games|, i requires 0 <= i < |games| => Resolve(games[i], draws(i), bias, coins(i)));
    assert forall i :: 0 <= i < |r| ==> r[i] == Resolve(games[i], draws(i), bias, coins(i));
    r
  }

  /** The outcome generator. It walks the list once and overwrites each
      record in place; a coin is flipped only when the bias falls to the
      default branch, and `flips` is the number of flips drawn. */
  method GenerateGameData(gameData: GameList, bias: Bias, draws: nat -> RatioDraw, coins: nat -> bool)
    returns (flips: nat)
    modifies gameData
    ensures gameData.games == Resolved(old(gameData.games), bias, draws, coins)
    ensures flips == if bias.FlipsCoin() then |old(gameData.games)| else 0
  {
    ghost var before := gameData.games;
    flips := 0;
    var i := 0;
    while i < |gameData.games|
      invariant 0 <= i <= |gameData.games| == |before|
      invariant flips == if bias.FlipsCoin() then i else 0
      invariant forall m :: 0 <= m < i ==> gameData.games[m] == Resolve(before[m], draws(m), bias, coins(m))
      invariant forall m :: i <= m < |before| ==> gameData.games[m] == before[m]
    {
      var d := draws(i);
      var g := gameData.games[i].(wipRatio := d.wip, rbiRatio := d.rbi, warRatio := d.war);
      var coin := false;
      if bias.FlipsCoin() {
        coin := coins(flips);
        flips := flips + 1;
      }
      g := g.(homeWin := HomeWins(bias, g.wipRatio, g.rbiRatio, g.warRatio, coin));
      assert g == Resolve(before[i], d, bias, coins(i));
      gameData.games := gameData.games[i := g];
      i := i + 1;
    }
    assert gameData.games == Resolved(before, bias, draws, coins);
  }

  // ---------------------------------------------------------------------
  // Properties of the finished list

  /** Every ratio lies in its distribution's range when every draw does. */
  lemma ResolvedRatiosInRange(games: seq<GameData>, bias: Bias, draws: nat -> RatioDraw,
                              coins: nat -> bool, i: nat)
    requires i < |games|
    requires draws(i).InRange()
    ensures var g := Resolved(games, bias, draws, coins)[i];
      && MIN_WIP_RATIO <= g.wipRatio < MAX_WIP_RATIO
      && MIN_RBI_RATIO <= g.rbiRatio < MAX_RBI_RATIO
      && MIN_WAR_RATIO <= g.warRatio < MAX_WAR_RATIO
  {
    assert Resolved(games, bias, draws, coins)[i] == Resolve(games[i], draws(i), bias, coins(i));
  }

  /** The generator leaves the schedule alone: the same games between the
      same teams, in the same order. */
  lemma ResolvedKeepsMatchups(games: seq<GameData>, bias: Bias, draws: nat -> RatioDraw, coins: nat -> bool)
    ensures Schedule.Matchups(Resolved(games, bias, draws, coins)) == Schedule.Matchups(games)
  {
    var r := Resolved(games, bias, draws, coins);
    forall i | 0 <= i < |games|
      ensures Schedule.Matchups(r)[i] == Schedule.Matchups(games)[i]
    {
      assert Schedule.MatchupOf(r[i]) == Schedule.MatchupOf(games[i]);
    }
  }

  /** What the records held before (ratios, outcome) has no influence: two
      lists with the same game numbers and team codes come out the same. */
  lemma ResolvedOverwritesOutcomes(games: seq<GameData>, games': seq<GameData>, bias: Bias,
                                   draws: nat -> RatioDraw, coins: nat -> bool)
    requires |games| == |games'|
    requires forall i :: 0 <= i < |games| ==>
      games[i].gameNum == games'[i].gameNum && games[i].homeCode == games'[i].homeCode
      && games[i].awayCode == games'[i].awayCode
    ensures Resolved(games, bias, draws, coins) == Resolved(games', bias, draws, coins)
  {
    var r, r' := Resolved(games, bias, draws, coins), Resolved(games', bias, draws, coins);
    forall i | 0 <= i < |games|
      ensures r[i] == r'[i]
    {
      assert r[i] == Resolve(games[i], draws(i), bias, coins(i));
      assert r'[i] == Resolve(games'[i], draws(i), bias, coins(i));
    }
  }

  /** The program's two stages one after the other: `k * n*(n-1)/2` games,
      each between two distinct teams of `[0, n)`, each pair played exactly
      `k` times, each outcome following the bias. */
  lemma FinishedDataset(n: nat, k: int, scheduleCoins: nat -> bool, blank: GameData,
                        bias: Bias, draws: nat -> RatioDraw, coins: nat -> bool, p: Schedule.Matchup)
    ensures var games := Resolved(Schedule.ScheduleOf(n, k, scheduleCoins, blank), bias, draws, coins);
      && |games| == Schedule.GameCount(n, k)
      && (forall i :: 0 <= i < |games| ==>
            games[i].homeCode != games[i].awayCode && 0 <= games[i].homeCode < n && 0 <= games[i].awayCode < n)
      && multiset(Schedule.Matchups(games))[p] == (if Schedule.IsPair(p, n) && k > 0 then k else 0)
      && (forall i :: 0 <= i < |games| ==> FollowsBias(bias, games[i], coins(i)))
  {
    var scheduled := Schedule.ScheduleOf(n, k, scheduleCoins, blank);
    var games := Resolved(scheduled, bias, draws, coins);
    Schedule.ScheduleSize(n, k, scheduleCoins, blank);
    forall i | 0 <= i < |games|
      ensures games[i].homeCode != games[i].awayCode && 0 <= games[i].homeCode < n && 0 <= games[i].awayCode < n
    {
      Schedule.ScheduleRecords(n, k, scheduleCoins, blank, i);
    }
    ResolvedKeepsMatchups(scheduled, bias, draws, coins);
    Schedule.PairsPlayedKTimes(n, k, scheduleCoins, blank, p);
  }
}
