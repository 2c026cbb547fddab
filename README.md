# Tournament score aggregation

A Dafny model of the statistics the score-dashboard server adds to every
tournament it lists (`getTournaments`). A tournament's `info` payload holds:

- the participating user ids (`players`);
- the number of planned rounds (`round_number`);
- the rounds played so far (`scores`). Each round has its own seating
  (`players`) and one score vector per game.

From the payload the handler derives five things:

- per-round totals, in each round's own seating order;
- per-player grand totals, in the tournament's player order;
- the champion: the first player with the highest grand total;
- the counters `player_count`, `total_rounds`, `completed_rounds` and
  `is_completed`;
- the user shown beside every score: the looked-up user, or a placeholder
  `{id, "unknown", "Unknown"}`.

Layout:

- `options.dfy`: `Option`, used for the absent payload and the absent champion.
- `types.dfy` (module `TournamentTypes`): the payload, the user rows and the output records.
- `scoring.dfy` (module `Scoring`): reference definitions. A player's game,
  round and grand sums are written as plain recursive sums. The champion is
  the strict-greater scan `Leader`, with the predicate `IsFirstMax` as its
  meaning. `Expected` is the whole output.
- `aggregation.dfy` (module `Aggregation`): the handler as it runs. It keeps a
  per-round map and a tournament-wide map, updates them in nested loops,
  appends round entries to a list and keeps a running maximum. Every method
  is proved to produce the values of `Scoring`.
- `facts.dfy` (module `ScoringFacts`): what those values mean. A round total
  is the sum of the player's score column. An unseated player gets 0. The
  champion is the first maximal player. There are also facts about every
  output field and user.
- `accounting.dfy` (module `Accounting`): the grand totals add up to the sum of
  all seated score entries, under the conditions that make this true, plus a
  counterexample without them.
- `examples.dfy` (module `Examples`): the sample payload of the server's type
  declarations, and a round that seats only some players.

The user lookup is an input `directory: map<int, UserRow>` (the user table).
The handler asks it only for the tournament's own `players`, as the source's
`WHERE id IN (…)` query does (`Scoring.UsersMap`).

Where the code and other descriptions of the system disagree, the model
follows the code:

- Game vectors are plain `seq<int>`, indexed by seat. The server's type file
  declares them as `{game, scores}` objects
  (apps/server/src/types/tournament.ts:15-18), but the code iterates them as
  number arrays.
- On the 75000 tie in the sample payload the champion is player 1, because
  the scan uses strict `>`. The sample result in the type file claims player
  2 (apps/server/src/types/tournament.ts:99). `Examples.TieGoesToFirst`
  proves player 1.
- A round's number in the output is its position plus one. The stored
  `round` field is never read.
- Only ids in the tournament's `players` are looked up. A player who is
  seated in some round but is not a tournament player always shows as the
  placeholder, even when the user table knows them.
- The sum of the grand totals equals the sum of all game scores only under
  three conditions: the tournament's players are distinct, every round seats
  only tournament players, and no game vector is longer than its seating.
  `Accounting.UnlistedSeatLeavesGrandTotals` shows the identity failing when
  a round seats a non-member. Duplicate seats inside a round do not break it:
  both seats add into one map entry, and that entry is carried once.
- A payload with an empty `players` list but stored rounds is not all zero
  and empty: the code still lists one entry per round (every user a
  placeholder, since nothing is looked up), sets `completed_rounds` to the
  number of rounds and `is_completed` to `completed_rounds >= round_number`,
  which can be true. Only the grand totals and the champion are empty.
- Player counts of 4 or 5, unique positive ids, `round_number` = 5 and the
  round order are not checked by the code. The model accepts any payload of
  the typed shape.

## Model

| member | source | states |
|---|---|---|
| `Scoring.UsersMap` | apps/server/src/routes/tournaments/getTournaments.ts:52-69 | the lookup holds exactly the ids that are both tournament players and in the user table, each as `{id, account, nickname}` of its row |
| `Aggregation.StartRound` | apps/server/src/routes/tournaments/getTournaments.ts:79-82 | before any game every seated id, and no other, is at 0, and the keys are listed in first-seating order without repeats (`FirstSeatings`) |
| `Aggregation.AccumulateRound` | apps/server/src/routes/tournaments/getTournaments.ts:77-93 | the round map has exactly the seated ids as keys, listed in first-seating order without repeats (`FirstSeatings`), and each maps to that player's round sum (entries past the seating ignored) |
| `Aggregation.CarryRound` | apps/server/src/routes/tournaments/getTournaments.ts:96-99 | carrying a round into the tournament map adds the round score to every key (absent counts as 0) and keeps every other key |
| `Aggregation.AccumulateRounds` | apps/server/src/routes/tournaments/getTournaments.ts:75-118 | the round loop yields one entry per stored round, numbered by position, whose row (built by the `.map` projection `Project` from the round map) equals the reference round row; the tournament map gives every id its reference grand sum |
| `Aggregation.FindChampion` | apps/server/src/routes/tournaments/getTournaments.ts:133-143 | the scan from -Infinity returns no champion exactly for an empty list, and otherwise the first entry whose score is the maximum |
| `Aggregation.ComputeStatistics` | apps/server/src/routes/tournaments/getTournaments.ts:52-158 | the handler's whole output equals `Scoring.Expected`, including the grand-total list that `Project` builds from the tournament map; it includes the counters, one round entry per stored round, and no champion exactly when the payload is absent or has no players |
| `ScoringFacts.GameSumUnseated` | apps/server/src/routes/tournaments/getTournaments.ts:85-92 | a game adds nothing to a player not seated in its round |
| `ScoringFacts.RoundSumUnseated` | apps/server/src/routes/tournaments/getTournaments.ts:79-93 | a player not seated in a round has round total 0 |
| `ScoringFacts.GrandSumNeverSeated` | apps/server/src/routes/tournaments/getTournaments.ts:96-99 | a player seated in no round has grand total 0 |
| `ScoringFacts.GameSumIgnoresOverflow` | apps/server/src/routes/tournaments/getTournaments.ts:86-88 | entries of a game vector past the end of the round's seating contribute nothing |
| `ScoringFacts.GameSumAtSeat` | apps/server/src/routes/tournaments/getTournaments.ts:85-92 | with distinct seats, seat i receives exactly entry i of a game, or 0 when the vector is shorter |
| `ScoringFacts.RoundSumAtSeat` | apps/server/src/routes/tournaments/getTournaments.ts:79-93 | with distinct seats, seat i's round total is the sum of column i over the round's games |
| `ScoringFacts.LeaderIsSomeFirstMax` | apps/server/src/routes/tournaments/getTournaments.ts:133-143 | the strict-greater scan ends on no one exactly for an empty list, otherwise on an entry that reaches the maximum score with every earlier entry strictly below it |
| `ScoringFacts.LeaderIsFirstMax` | apps/server/src/routes/tournaments/getTournaments.ts:133-143 | when entry k is the first entry reaching the maximum score, the scan ends on entry k (a later equal score never replaces it) |
| `ScoringFacts.RoundTotalsShape` | apps/server/src/routes/tournaments/getTournaments.ts:102-116 | one round entry per stored round; entry k is numbered k+1 and lists that round's own seats, in its order, each with its round sum |
| `ScoringFacts.PlayerTotalsShape` | apps/server/src/routes/tournaments/getTournaments.ts:121-130 | one grand-total entry per tournament player, in the tournament's order, holding the sum of the player's round totals |
| `ScoringFacts.NeverSeatedScoresZero` | apps/server/src/routes/tournaments/getTournaments.ts:121-130 | a listed player who never sits in a round is listed with 0 |
| `ScoringFacts.ChampionIsFirstMax` | apps/server/src/routes/tournaments/getTournaments.ts:133-143 | the champion is absent exactly when the payload is absent or has no players, otherwise it is the grand-total entry of the first player to reach the maximum |
| `ScoringFacts.ScalarStats` | apps/server/src/routes/tournaments/getTournaments.ts:149-152 | player_count, total_rounds, completed_rounds and is_completed come from the payload, and are 0, 0, 0 and false without one; totals and champion are then empty |
| `ScoringFacts.UsersResolved` | apps/server/src/routes/tournaments/getTournaments.ts:102-130 | every user shown, in round and grand totals alike, is the user-table row for its id when that id is a tournament player, else the placeholder |
| `ScoringFacts.RoundOnlyPlayerIsPlaceholder` | apps/server/src/routes/tournaments/getTournaments.ts:52-108 | a round seat that is not a tournament player always shows the placeholder user |
| `Accounting.AccountingIdentity` | apps/server/src/routes/tournaments/getTournaments.ts:85-130 | with distinct players and rounds seating only them, the grand totals sum to the sum of all seated game entries |
| `Accounting.AccountingAllScores` | apps/server/src/routes/tournaments/getTournaments.ts:85-130 | if also no game vector outgrows its seating, the grand totals sum to the sum of every game entry |
| `Accounting.UnlistedSeatLeavesGrandTotals` | apps/server/src/routes/tournaments/getTournaments.ts:96-130 | a round seating a non-player breaks the identity: grand totals 10 against game entries 30 |
| `Examples.Round1Totals` | apps/server/src/types/tournament.ts:88-92 | the sample's first round totals 55000, 45000, 35000, 25000 |
| `Examples.Round2Totals` | apps/server/src/types/tournament.ts:93-96 | the sample's second round totals 20000, 30000, 25000, 15000 |
| `Examples.GrandTotals` | apps/server/src/types/tournament.ts:98 | the sample's grand totals 75000, 75000, 60000, 40000, with unknown player 4 as the placeholder |
| `Examples.TieGoesToFirst` | apps/server/src/routes/tournaments/getTournaments.ts:133-143 | on the sample's 75000 tie the champion is player 1, the first of the tied players |
| `Examples.SampleStatistics` | apps/server/src/types/tournament.ts:55-100 | the full output for the sample payload: counters 4, 2, 2, completed; both round entries; grand totals; champion player 1 with 75000 |
| `Examples.PartialRound` | apps/server/src/routes/tournaments/getTournaments.ts:76-130 | a round seating players 1 and 3 lists just them in its own order; only they gain in the grand totals |

## Left out

- Database access: the SQL queries and the connection pool. The tournament row and the user table are inputs, and `UsersMap` replaces the loop over returned user rows.
- The HTTP handler: status codes, the JSON response, the error response and the `...tournament` spread of database columns.
- `Promise.all` over tournaments: each tournament is computed independently, so the model computes one.
- JavaScript numbers: scores are unbounded integers. NaN, floating-point rounding and the `|| 0` coercion of falsy values (other than an absent key) are not modelled.
- The `-Infinity` start of the champion scan is `None`; a champion is a `PlayerTotal` (user and score), the same data as the source's flattened `{...user, score}`.
- Payloads that are not of the typed shape (a missing `scores` array, non-array games) are not modelled; the payload is typed at the boundary.
- Writing payloads (create, update, delete tournament) and the category check are not part of this model.
