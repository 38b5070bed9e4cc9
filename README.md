# Game data generator: a Dafny model

This project models the core of a small C++ program. The program makes a
labelled data set for a round-robin sports season. It has two stages.

- **Schedule builder** (`determineTeamPermutations`). For each of
  `numGamesPerTeam` passes, every team `currTeam` plays every team with a
  higher index once. A fair coin decides who is home. The records are
  appended to a list the caller owns.
- **Outcome generator** (`generateGameData`). It walks that list and
  overwrites each record. It draws a WIP, an RBI and a WAR ratio, then sets
  `homeWin` from a winner bias. The ratio biases compare one ratio, or the
  mean of the three, strictly with 1.0. `NONE` and any value the `switch`
  does not list fall to a coin flip.

Modules:

- `GameTypes` (game_types.dfy): the record `GameData_t` as `GameData`, with
  the float ratios as reals. The enum `WinnerBias` gets an explicit
  `Unlisted(code)` case, because the program casts any integer to the enum.
  The subset type `Bias` keeps only the selectors a cast can produce, so an
  `Unlisted` value never carries an enumerator's code.
  The ratio ranges are constants. `RatioDraw` holds the three ratios drawn
  for one game. `GameList` is a class holding the `std::list` as a
  `seq<GameData>` field that methods reassign.
- `Schedule` (schedule.dfy): the builder as a method with the source's
  nested loops, proved against the specification function `ScheduleOf`. The
  innermost `for` loop is its own method, `PlayRemainingTeams`. Lemmas
  about `ScheduleOf` give the number of records, the range of the codes,
  the pairs covered, the order and the coin's meaning.
- `Outcome` (outcome.dfy): the bias `switch` as the pure function
  `HomeWins`. The per-record loop is the method `GenerateGameData`, proved
  against the specification function `Resolved`. Lemmas cover the tie
  policy, independence from the coin or from the ratios, monotonicity, and
  what the loop leaves alone. One lemma covers both stages run in sequence.

Randomness is an input. The coin flips are a stream `nat -> bool`: flip `i`
is the `i`-th flip drawn. The ratio draws are a stream `nat -> RatioDraw`.
The C++ engines never run out, so an infinite stream models them without a
length precondition. A flip of `true` stands for the binomial draw `1`.

The local `newData` that the builder pushes is never initialised except for
its two codes. Its other fields are modelled as a parameter `blank`, and
every appended record equals `blank` apart from the codes.

Four points of the code's behaviour that are easy to miss:

- The ratios come from `uniform_real_distribution`, so each lies in the
  half-open range `[0.75, 1.25)`, not the closed one.
- Before the outcome stage, the ratio fields of a new record hold whatever
  `newData` held (`blank`), not zero.
- `main` does not reject bias codes outside 0-4. They reach the `switch`
  and take the coin, like `NONE`.
- With fewer than two teams or no passes the builder appends nothing. The
  code handles any `numGamesPerTeam`, including zero and negative values.

## Model

| member | source | states |
|---|---|---|
| `GameTypes.BiasOfCode` | GameDataGenerator/game_data_generator.cpp:40-46 | every integer names a well-formed selector with that code; it takes the coin exactly when the code is not 1-4 |
| `GameTypes.BiasCodeRoundTrip` | GameDataGenerator/game_data_generator.cpp:40-46 | reading a well-formed selector's code back gives the same selector |
| `GameTypes.GameList.constructor` | GameDataGenerator/game_data_generator.cpp:191 | a new list is empty |
| `GameTypes.GameList.PushBack` | GameDataGenerator/game_data_generator.cpp:164 | `push_back` adds one record at the end and changes nothing else |
| `Schedule.RowTo` | GameDataGenerator/game_data_generator.cpp:154-165 | the inner loop for `currTeam = t` yields the partners `t+1`, ..., `n-1` in order: `n-1-t` matchups, and none when `t >= n-1` |
| `Schedule.Rows` | GameDataGenerator/game_data_generator.cpp:150-167 | after current teams `0..c-1`, every matchup is between distinct teams of `[0, n)` with the lower-indexed team first, and its current team is below `c` |
| `Schedule.RowsLength` | GameDataGenerator/game_data_generator.cpp:150-167 | current teams `0..c-1` yield `c*(2n-c-1)/2` matchups |
| `Schedule.Pass` | GameDataGenerator/game_data_generator.cpp:150-167 | every matchup of one pass is between two distinct teams of `[0, n)`, lower index first |
| `Schedule.PassSize` | GameDataGenerator/game_data_generator.cpp:150-167 | one pass yields `n*(n-1)/2` matchups |
| `Schedule.Rounds` | GameDataGenerator/game_data_generator.cpp:149-168 | every matchup of the `k` passes is between distinct teams of `[0, n)` |
| `Schedule.RoundsSize` | GameDataGenerator/game_data_generator.cpp:149-168 | `k` passes yield `k*n*(n-1)/2` matchups, and none when `k <= 0` |
| `Schedule.Orient` | GameDataGenerator/game_data_generator.cpp:155-163 | a flip of 1 makes `currTeam` home and `j+1` away, otherwise the reverse; no other field of `newData` changes |
| `Schedule.Assign` | GameDataGenerator/game_data_generator.cpp:155-164 | one record per matchup, in order; record `i` equals `blank` apart from its codes, and flip `start+i` makes the matchup's current team home and its partner away, otherwise the reverse |
| `Schedule.DetermineTeamPermutations` | GameDataGenerator/game_data_generator.cpp:139-169 | the list afterwards is its old contents followed by `ScheduleOf(n, k, coins, blank)`: the old contents stay an unchanged prefix |
| `Schedule.PlayRemainingTeams` | GameDataGenerator/game_data_generator.cpp:154-165 | the inner loop appends the records of row `currTeam`, consuming one flip per game, and keeps `newData` equal to `blank` apart from the codes |
| `Schedule.ScheduleSize` | GameDataGenerator/game_data_generator.cpp:149-165 | the builder appends exactly `k*n*(n-1)/2` records, and nothing when `n <= 1` or `k <= 0` |
| `Schedule.ScheduleRecords` | GameDataGenerator/game_data_generator.cpp:154-163 | each appended record has `homeCode != awayCode`, both codes in `[0, n)`, the `i`-th matchup as its pair, the lower team home exactly when flip `i` is 1, and `blank`'s other fields |
| `Schedule.ScheduleMatchups` | GameDataGenerator/game_data_generator.cpp:149-165 | read as unordered pairs, the appended records are exactly the matchup sequence, in order |
| `Schedule.RowToCount` | GameDataGenerator/game_data_generator.cpp:154-165 | the inner loop for `t` yields each pair `(t, b)` with `t < b < m` exactly once |
| `Schedule.RowsCount` | GameDataGenerator/game_data_generator.cpp:152-167 | current teams `0..c-1` yield every pair with lower team below `c` exactly once, and no other pair |
| `Schedule.PassCount` | GameDataGenerator/game_data_generator.cpp:150-167 | one pass holds every pair `a < b` of `[0, n)` exactly once, and nothing else |
| `Schedule.RoundsCount` | GameDataGenerator/game_data_generator.cpp:149-168 | `k` passes hold every pair exactly `k` times (none if `k <= 0`), and nothing else |
| `Schedule.PairsPlayedKTimes` | GameDataGenerator/game_data_generator.cpp:149-165 | in the appended records, each unordered pair `{a, b}` of distinct teams is played exactly `k` times, and no other pair appears |
| `Schedule.RowsIncreasing` | GameDataGenerator/game_data_generator.cpp:152-167 | within a pass, matchups come by ascending `currTeam`, then ascending partner |
| `Schedule.PassIncreasing` | GameDataGenerator/game_data_generator.cpp:150-167 | one pass is strictly increasing in (current team, partner) order, so it repeats no pair |
| `Schedule.RoundsAt` | GameDataGenerator/game_data_generator.cpp:149-168 | pass-major order: game `r*P + j` of the schedule is matchup `j` of one pass, where `P` is the pass length |
| `Schedule.FourTeamsOnePass` | GameDataGenerator/game_data_generator.cpp:149-168 | four teams, one pass: `{0,1},{0,2},{0,3},{1,2},{1,3},{2,3}`, in that order |
| `Schedule.TwoTeamsThreePasses` | GameDataGenerator/game_data_generator.cpp:149-168 | two teams, three passes: three games, all between 0 and 1 |
| `Outcome.HomeWins` | GameDataGenerator/game_data_generator.cpp:112-129 | WIP, RBI and WAR: home wins iff that ratio is strictly above 1.0; AVG: iff the sum of the three exceeds 3.0, i.e. the mean exceeds 1.0; `NONE` and unlisted values: the coin |
| `Outcome.TieIsHomeLoss` | GameDataGenerator/game_data_generator.cpp:114-125 | a ratio (or mean) of exactly 1.0 is a home loss under its rule |
| `Outcome.CoinIgnoresRatios` | GameDataGenerator/game_data_generator.cpp:127-128 | under the default branch the outcome does not depend on the ratios |
| `Outcome.RatioRuleIgnoresCoin` | GameDataGenerator/game_data_generator.cpp:113-126 | under a ratio rule the outcome does not depend on the coin |
| `Outcome.RatioRuleMonotone` | GameDataGenerator/game_data_generator.cpp:114-125 | under a ratio rule, higher home ratios never turn a win into a loss |
| `Outcome.Resolve` | GameDataGenerator/game_data_generator.cpp:107-129 | one loop body: codes and game number kept, the three ratios taken from the draw, `homeWin` following the bias table |
| `Outcome.Resolved` | GameDataGenerator/game_data_generator.cpp:107-136 | same length; every record keeps its codes and game number, takes its ratios from its draw, and satisfies the bias table |
| `Outcome.GenerateGameData` | GameDataGenerator/game_data_generator.cpp:91-137 | the list afterwards is `Resolved` of the old list; the number of flips drawn is the list length when the bias takes the default branch, and zero otherwise |
| `Outcome.ResolvedRatiosInRange` | GameDataGenerator/game_data_generator.cpp:99-110 | a draw within `[0.75, 1.25)` gives a record whose three ratios lie in their ranges |
| `Outcome.ResolvedKeepsMatchups` | GameDataGenerator/game_data_generator.cpp:107-136 | the outcome stage leaves the schedule alone: same pairs, same order |
| `Outcome.ResolvedOverwritesOutcomes` | GameDataGenerator/game_data_generator.cpp:107-129 | earlier ratios and outcomes have no influence on the result |
| `Outcome.FinishedDataset` | GameDataGenerator/game_data_generator.cpp:193-197 | both stages in sequence: `k*n*(n-1)/2` games between distinct teams of `[0, n)`, each pair exactly `k` times, each outcome following the bias |

## Left out

- Command-line handling in `main` (arity check, `atoi`, `printUsage`, timing with `clock`): interface plumbing, not logic.
- `writeGameDataFiles`: file output through `ofstream` and number formatting with `std::to_string`. Its game number is the 0-based list position, not the `gameNum` field, which the core never writes.
- `std::random_device`, `mt19937`, `uniform_real_distribution` and `binomial_distribution`: foreign randomness, replaced by input streams. Nothing is claimed about fairness or distribution.
- In `generateGameData` the ratio draws and the coin flips come from one engine. The model gives each its own stream, so it does not capture how they interleave.
- Float rounding: the drawn doubles are stored as `float`, and the mean is a `float` division. Ratios are reals here, so behaviour bit-exactly near 1.0 (or a draw rounding up to 1.25) is not modelled.
- A negative number of teams: `while(currTeam != numTeams)` never stops there, so the builder requires `numTeams >= 0`. For `numTeams >= 0` no `int` arithmetic in the core can overflow, so integers are unbounded here.
- Bias codes outside the enum's value range are undefined behaviour in C++. The model treats every such code like the `default` branch.
- The unused bitmap prototypes and the unenforced `MAX_NUM_TEAMS`.
- The innermost loop of the builder is a separate method, `PlayRemainingTeams`, so that each method's proof stays small. The order of steps is the source's.
