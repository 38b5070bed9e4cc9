/** The schedule builder (`determineTeamPermutations`): for each of the
    requested passes, every team plays every higher-indexed team once, and a
    coin decides which of the two is home. The coin flips are an input stream,
    one flip consumed per generated game, in order. */
module Schedule {
  import opened GameTypes

  /** One generated matchup: `team` is the current team of the pass and
      `partner` the higher-indexed team it plays (`j + 1` in the source). */
  datatype Matchup = Matchup(team: int, partner: int)

  /** A matchup between two distinct teams of `[0, n)`, lower index first. */
  predicate IsPair(p: Matchup, n: int) {
    0 <= p.team < p.partner < n
  }

  /** The order in which matchups are generated: by current team, then by
      partner. */
  predicate Precedes(p: Matchup, q: Matchup) {
    p.team < q.team || (p.team == q.team && p.partner < q.partner)
  }

  predicate Increasing(s: seq<Matchup>) {
    forall i, j :: 0 <= i < j < |s| ==> Precedes(s[i], s[j])
  }

  /** The number of unordered pairs of `n` teams. */
  function PairCount(n: int): int {
    n * (n - 1) / 2
  }

  /** The number of games `numGamesPerTeam` passes over `numTeams` teams
      generate. */
  function GameCount(n: int, k: int): int {
    if k <= 0 then 0 else k * PairCount(n)
  }

  /** The matchups the inner loop generates for current team `t` while `j + 1`
      runs up to `m - 1`: partners `t + 1`, ..., `m - 1`. The whole inner loop
      is `RowTo(t, n)`. */
  function RowTo(t: int, m: int): (r: seq<Matchup>)
    decreases m - t
    ensures |r| == if m > t + 1 then m - t - 1 else 0
    ensures forall i :: 0 <= i < |r| ==> r[i] == Matchup(t, t + 1 + i)
  {
    if m <= t + 1 then [] else RowTo(t, m - 1) + [Matchup(t, m - 1)]
  }

  /** The matchups of one pass with current teams `0`, ..., `c - 1` done. */
  function Rows(c: nat, n: int): (r: seq<Matchup>)
    requires c <= n
    ensures forall i :: 0 <= i < |r| ==> IsPair(r[i], n) && r[i].team < c
  {
    if c == 0 then [] else Rows(c - 1, n) + RowTo(c - 1, n)
  }

  /** Row `t` holds `n - 1 - t` matchups, so rows `0` to `c - 1` hold
      `c * (2n - c - 1) / 2` of them. */
  lemma {:induction false} RowsLength(c: nat, n: int)
    requires c <= n
    ensures 2 * |Rows(c, n)| == c * (2 * n - c - 1)
  {
    if c > 0 {
      RowsLength(c - 1, n);
      assert |Rows(c, n)| == |Rows(c - 1, n)| + (n - c);
      assert c * (2 * n - c - 1) == (c - 1) * (2 * n - c) + 2 * (n - c);
    }
  }

  /** The matchups of one full pass over `n` teams. */
  function Pass(n: nat): (r: seq<Matchup>)
    ensures forall i :: 0 <= i < |r| ==> IsPair(r[i], n)
  {
    Rows(n, n)
  }

  /** A pass holds `n * (n - 1) / 2` matchups. */
  lemma PassSize(n: nat)
    ensures |Pass(n)| == PairCount(n)
  {
    RowsLength(n, n);
  }

  /** The matchups of `k` passes, pass after pass; none when `k <= 0`. */
  function Rounds(n: nat, k: int): (r: seq<Matchup>)
    decreases k
    ensures forall i :: 0 <= i < |r| ==> IsPair(r[i], n)
  {
    if k <= 0 then [] else Rounds(n, k - 1) + Pass(n)
  }

  /** `k` passes hold `k * n * (n - 1) / 2` matchups, none when `k <= 0`. */
  lemma {:induction false} RoundsSize(n: nat, k: int)
    decreases k
    ensures |Rounds(n, k)| == GameCount(n, k)
  {
    if k > 0 {
      RoundsSize(n, k - 1);
      PassSize(n);
      assert GameCount(n, k) == GameCount(n, k - 1) + PairCount(n);
    }
  }

  /** The two records differ at most in their team codes. */
  predicate SameExceptCodes(g: GameData, h: GameData) {
    g.(homeCode := h.homeCode, awayCode := h.awayCode) == h
  }

  /** The record pushed for a matchup: the coin makes the current team home
      when it shows 1 and the partner home otherwise; every other field keeps
      the value the local record `newData` started with (`blank`). */
  function Orient(p: Matchup, coin: bool, blank: GameData): (g: GameData)
    ensures SameExceptCodes(g, blank)
    ensures coin ==> g.homeCode == p.team && g.awayCode == p.partner
    ensures !coin ==> g.homeCode == p.partner && g.awayCode == p.team
  {
    if coin then blank.(homeCode := p.team, awayCode := p.partner)
    else blank.(homeCode := p.partner, awayCode := p.team)
  }

  /** The records for a sequence of matchups, the `i`-th oriented by flip
      `start + i`. */
  function Assign(ms: seq<Matchup>, coins: nat -> bool, start: nat, blank: GameData): (games: seq<GameData>)
    ensures |games| == |ms|
    ensures forall i :: 0 <= i < |ms| ==>
      && SameExceptCodes(games[i], blank)
      && (coins(start + i) ==> games[i].homeCode == ms[i].team && games[i].awayCode == ms[i].partner)
      && (!coins(start + i) ==> games[i].homeCode == ms[i].partner && games[i].awayCode == ms[i].team)
  {
    var games := seq(|ms|, i requires 0 <= i < |ms| => Orient(ms[i], coins(start + i), blank));
    assert forall i :: 0 <= i < |ms| ==> games[i] == Orient(ms[i], coins(start + i), blank);
    games
  }

  /** The records `determineTeamPermutations` appends. */
  function ScheduleOf(n: nat, k: int, coins: nat -> bool, blank: GameData): seq<GameData> {
    Assign(Rounds(n, k), coins, 0, blank)
  }

  /** The unordered pair of teams a record is about, lower index first. */
  function MatchupOf(g: GameData): (p: Matchup)
    ensures {p.team, p.partner} == {g.homeCode, g.awayCode}
    ensures p.team <= p.partner
  {
    if g.homeCode < g.awayCode then Matchup(g.homeCode, g.awayCode)
    else Matchup(g.awayCode, g.homeCode)
  }

  function Matchups(games: seq<GameData>): (ps: seq<Matchup>)
    ensures |ps| == |games|
  {
    seq(|games|, i requires 0 <= i < |games| => MatchupOf(games[i]))
  }

  /** The builder. The list is only appended to; what it held before stays
      in front, unchanged. */
  method DetermineTeamPermutations(numTeams: int, numGamesPerTeam: int, coins: nat -> bool,
                                   blank: GameData, gameData: GameList)
    requires numTeams >= 0
    modifies gameData
    ensures gameData.games == old(gameData.games) + ScheduleOf(numTeams, numGamesPerTeam, coins, blank)
  {
    ghost var before := gameData.games;
    ghost var done: seq<Matchup> := [];
    var newData := blank;
    var flips: nat := 0;
    var i := 0;
    while i < numGamesPerTeam
      invariant 0 <= i && (i == 0 || i <= numGamesPerTeam)
      invariant done == Rounds(numTeams, i)
      invariant flips == |done|
      invariant gameData.games == before + Assign(done, coins, 0, blank)
      invariant SameExceptCodes(newData, blank)
    {
      ghost var passStart := done;
      var currTeam := 0;
      while currTeam != numTeams
        invariant 0 <= currTeam <= numTeams
        invariant done == passStart + Rows(currTeam, numTeams)
        invariant flips == |done|
        invariant gameData.games == before + Assign(done, coins, 0, blank)
        invariant SameExceptCodes(newData, blank)
      {
        ghost var row := RowTo(currTeam, numTeams);
        flips, newData := PlayRemainingTeams(currTeam, numTeams, coins, flips, newData, blank, gameData);
        AppendRecords(before, done, row, coins, blank);
        NextRow(passStart, currTeam, numTeams);
        done := done + row;
        currTeam := currTeam + 1;
      }
      i := i + 1;
    }
  }

  /** The inner loop of the builder: the current team plays each
      higher-indexed team once, in ascending order, consuming one flip per
      game from `flips0` on. */
  method PlayRemainingTeams(currTeam: int, numTeams: int, coins: nat -> bool, flips0: nat,
                            newData0: GameData, ghost blank: GameData, gameData: GameList)
    returns (flips: nat, newData: GameData)
    requires 0 <= currTeam < numTeams
    requires SameExceptCodes(newData0, blank)
    modifies gameData
    ensures flips == flips0 + |RowTo(currTeam, numTeams)|
    ensures gameData.games == old(gameData.games) + Assign(RowTo(currTeam, numTeams), coins, flips0, blank)
    ensures SameExceptCodes(newData, blank)
  {
    flips, newData := flips0, newData0;
    var j := currTeam;
    while j < numTeams - 1
      invariant currTeam <= j <= numTeams - 1
      invariant flips == flips0 + |RowTo(currTeam, j + 1)|
      invariant gameData.games == old(gameData.games) + Assign(RowTo(currTeam, j + 1), coins, flips0, blank)
      invariant SameExceptCodes(newData, blank)
    {
      var coinFlip := coins(flips);
      if coinFlip {
        newData := newData.(homeCode := currTeam, awayCode := j + 1);
      } else {
        newData := newData.(homeCode := j + 1, awayCode := currTeam);
      }
      assert newData == Orient(Matchup(currTeam, j + 1), coins(flips), blank);
      gameData.PushBack(newData);
      AppendRecord(old(gameData.games), currTeam, j, coins, flips0, blank);
      flips := flips + 1;
      j := j + 1;
    }
  }

  /** One pass of the middle loop of the builder extends the list by the
      records of one row. */
  lemma AppendRecords(before: seq<GameData>, done: seq<Matchup>, row: seq<Matchup>, coins: nat -> bool, blank: GameData)
    ensures before + Assign(done, coins, 0, blank) + Assign(row, coins, |done|, blank)
         == before + Assign(done + row, coins, 0, blank)
  {
    AssignConcat(done, row, coins, 0, blank);
  }

  /** One pass of the middle loop advances the matchups by one row. */
  lemma NextRow(start: seq<Matchup>, c: nat, n: int)
    requires c < n
    ensures start + Rows(c, n) + RowTo(c, n) == start + Rows(c + 1, n)
  {
  }

  /** One pass of the inner loop extends the list by one record. */
  lemma AppendRecord(before: seq<GameData>, t: int, j: int, coins: nat -> bool, start: nat, blank: GameData)
    requires t <= j
    ensures before + Assign(RowTo(t, j + 1), coins, start, blank)
              + [Orient(Matchup(t, j + 1), coins(start + |RowTo(t, j + 1)|), blank)]
         == before + Assign(RowTo(t, j + 2), coins, start, blank)
  {
    AssignConcat(RowTo(t, j + 1), [Matchup(t, j + 1)], coins, start, blank);
  }

  /** The records of two stretches of matchups, one after the other, are the
      records of their concatenation. */
  lemma AssignConcat(a: seq<Matchup>, b: seq<Matchup>, coins: nat -> bool, start: nat, blank: GameData)
    ensures Assign(a + b, coins, start, blank) == Assign(a, coins, start, blank) + Assign(b, coins, start + |a|, blank)
  {
    var lhs := Assign(a + b, coins, start, blank);
    var rhs := Assign(a, coins, start, blank) + Assign(b, coins, start + |a|, blank);
    assert |lhs| == |rhs|;
    forall i | 0 <= i < |lhs|
      ensures lhs[i] == rhs[i]
    {
      if i < |a| {
        assert (a + b)[i] == a[i];
      } else {
        assert (a + b)[i] == b[i - |a|];
      }
    }
  }

  // ---------------------------------------------------------------------
  // Cardinality

  /** The builder appends exactly `k * n*(n-1)/2` records, and none at all
      when there are fewer than two teams or no passes. */
  lemma ScheduleSize(n: nat, k: int, coins: nat -> bool, blank: GameData)
    ensures |ScheduleOf(n, k, coins, blank)| == GameCount(n, k)
    ensures n <= 1 || k <= 0 ==> ScheduleOf(n, k, coins, blank) == []
  {
    RoundsSize(n, k);
    if n <= 1 {
      assert PairCount(n) == 0;
    }
  }

  // ---------------------------------------------------------------------
  // The records themselves

  /** Every record is a game between two distinct teams of `[0, n)`; on flip
      1 the current (lower-indexed) team is home, otherwise the partner; and
      the record is game `i` of the pass-by-pass matchup sequence. */
  lemma ScheduleRecords(n: nat, k: int, coins: nat -> bool, blank: GameData, i: nat)
    requires i < |ScheduleOf(n, k, coins, blank)|
    ensures var g := ScheduleOf(n, k, coins, blank)[i];
      && g.homeCode != g.awayCode
      && 0 <= g.homeCode < n && 0 <= g.awayCode < n
      && MatchupOf(g) == Rounds(n, k)[i]
      && (coins(i) <==> g.homeCode < g.awayCode)
      && SameExceptCodes(g, blank)
  {
    var p := Rounds(n, k)[i];
    assert IsPair(p, n);
    assert ScheduleOf(n, k, coins, blank)[i] == Orient(p, coins(0 + i), blank);
  }

  /** The records, read as unordered pairs, are exactly the matchup sequence. */
  lemma ScheduleMatchups(n: nat, k: int, coins: nat -> bool, blank: GameData)
    ensures Matchups(ScheduleOf(n, k, coins, blank)) == Rounds(n, k)
  {
    var games := ScheduleOf(n, k, coins, blank);
    forall i | 0 <= i < |games|
      ensures Matchups(games)[i] == Rounds(n, k)[i]
    {
      ScheduleRecords(n, k, coins, blank, i);
    }
  }

  // ---------------------------------------------------------------------
  // Coverage: every pair exactly once per pass

  lemma {:induction false} RowToCount(t: int, m: int, p: Matchup)
    decreases m - t
    ensures multiset(RowTo(t, m))[p] == if p.team == t && t < p.partner < m then 1 else 0
  {
    if m > t + 1 {
      var prev := RowTo(t, m - 1);
      RowToCount(t, m - 1, p);
      assert RowTo(t, m) == prev + [Matchup(t, m - 1)];
      assert multiset(RowTo(t, m)) == multiset(prev) + multiset{Matchup(t, m - 1)};
    }
  }

  lemma {:induction false} RowsCount(c: nat, n: int, p: Matchup)
    requires c <= n
    ensures multiset(Rows(c, n))[p] == if IsPair(p, n) && p.team < c then 1 else 0
  {
    if c > 0 {
      var prev, row := Rows(c - 1, n), RowTo(c - 1, n);
      RowsCount(c - 1, n, p);
      RowToCount(c - 1, n, p);
      assert Rows(c, n) == prev + row;
      assert multiset(Rows(c, n))[p] == multiset(prev)[p] + multiset(row)[p];
    }
  }

  /** One pass holds every pair of distinct teams once and nothing else. */
  lemma PassCount(n: nat, p: Matchup)
    ensures multiset(Pass(n))[p] == if IsPair(p, n) then 1 else 0
  {
    RowsCount(n, n, p);
  }

  lemma {:induction false} RoundsCount(n: nat, k: int, p: Matchup)
    decreases k
    ensures multiset(Rounds(n, k))[p] == if IsPair(p, n) && k > 0 then k else 0
  {
    if k > 0 {
      RoundsCount(n, k - 1, p);
      PassCount(n, p);
    }
  }

  /** Over `k` passes, each unordered pair `{a, b}` of distinct teams of
      `[0, n)` is played exactly `k` times, and no other pair is played. */
  lemma PairsPlayedKTimes(n: nat, k: int, coins: nat -> bool, blank: GameData, p: Matchup)
    ensures multiset(Matchups(ScheduleOf(n, k, coins, blank)))[p] == if IsPair(p, n) && k > 0 then k else 0
  {
    ScheduleMatchups(n, k, coins, blank);
    RoundsCount(n, k, p);
  }

  // ---------------------------------------------------------------------
  // Order: pass-major, then current team, then partner

  lemma {:induction false} RowsIncreasing(c: nat, n: int)
    requires c <= n
    ensures Increasing(Rows(c, n))
  {
    if c > 0 {
      RowsIncreasing(c - 1, n);
      var a, b := Rows(c - 1, n), RowTo(c - 1, n);
      forall i, j | 0 <= i < j < |a + b|
        ensures Precedes((a + b)[i], (a + b)[j])
      {
        if j < |a| {
          assert (a + b)[i] == a[i] && (a + b)[j] == a[j];
        } else if i < |a| {
          assert (a + b)[i] == a[i] && (a + b)[j] == b[j - |a|];
        } else {
          assert (a + b)[i] == b[i - |a|] && (a + b)[j] == b[j - |a|];
        }
      }
    }
  }

  /** Within one pass the matchups come by ascending current team and, for
      one current team, by ascending partner; so no pair is generated twice
      in a pass. */
  lemma PassIncreasing(n: nat)
    ensures Increasing(Pass(n))
  {
    RowsIncreasing(n, n);
  }

  /** Game `r * |Pass(n)| + j` of the schedule is matchup `j` of pass `r`. */
  lemma {:induction false} RoundsAt(n: nat, k: int, r: nat, j: nat)
    requires r < k && j < |Pass(n)|
    decreases k
    ensures r * |Pass(n)| + j < |Rounds(n, k)| && Rounds(n, k)[r * |Pass(n)| + j] == Pass(n)[j]
  {
    var p := PairCount(n);
    var prev := Rounds(n, k - 1);
    RoundsSize(n, k - 1);
    PassSize(n);
    assert Rounds(n, k) == prev + Pass(n);
    assert |prev| == (k - 1) * p;
    if r < k - 1 {
      RoundsAt(n, k - 1, r, j);
    } else {
      assert r * p == |prev|;
    }
  }

  // ---------------------------------------------------------------------
  // Worked examples

  /** Four teams, one pass: the six pairs, in generation order. */
  lemma FourTeamsOnePass()
    ensures Rounds(4, 1) == [Matchup(0, 1), Matchup(0, 2), Matchup(0, 3),
                             Matchup(1, 2), Matchup(1, 3), Matchup(2, 3)]
  {
    assert RowTo(0, 4) == [Matchup(0, 1), Matchup(0, 2), Matchup(0, 3)];
    assert RowTo(1, 4) == [Matchup(1, 2), Matchup(1, 3)];
    assert RowTo(2, 4) == [Matchup(2, 3)];
    assert RowTo(3, 4) == [];
  }

  /** Two teams, three passes: three games, all between teams 0 and 1. */
  lemma TwoTeamsThreePasses()
    ensures Rounds(2, 3) == [Matchup(0, 1), Matchup(0, 1), Matchup(0, 1)]
  {
    assert Pass(2) == [Matchup(0, 1)];
  }
}
