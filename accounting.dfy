/**
 * The accounting identity: when the tournament's players are distinct and
 * every round seats only tournament players, the grand totals add up to
 * exactly the sum of all score entries that sit under a seat.
 */
module Accounting {
  import opened Options
  import opened TournamentTypes
  import opened Scoring

  /** Every seat of a round holds one of the tournament's players. */
  ghost predicate SeatedAmong(seats: seq<int>, players: seq<int>) {
    forall j :: 0 <= j < |seats| ==> seats[j] in players
  }

  /** The sum of the entries of a game vector that sit under a seat. */
  function AlignedSum(seats: seq<int>, game: seq<int>): int
    decreases |game|
  {
    if |game| == 0 then 0
    else AlignedSum(seats, game[..|game| - 1]) + (if |game| - 1 < |seats| then game[|game| - 1] else 0)
  }

  function RoundAligned(seats: seq<int>, games: seq<seq<int>>): int
    decreases |games|
  {
    if |games| == 0 then 0
    else RoundAligned(seats, games[..|games| - 1]) + AlignedSum(seats, games[|games| - 1])
  }

  function TournamentAligned(rounds: seq<RoundScore>): int
    decreases |rounds|
  {
    if |rounds| == 0 then 0
    else
      var last := rounds[|rounds| - 1];
      TournamentAligned(rounds[..|rounds| - 1]) + RoundAligned(last.players, last.games)
  }

  /** The sum of every entry of every game vector of every round. */
  function VectorSum(game: seq<int>): int
    decreases |game|
  {
    if |game| == 0 then 0 else VectorSum(game[..|game| - 1]) + game[|game| - 1]
  }

  function RoundAll(games: seq<seq<int>>): int
    decreases |games|
  {
    if |games| == 0 then 0 else RoundAll(games[..|games| - 1]) + VectorSum(games[|games| - 1])
  }

  function TournamentAll(rounds: seq<RoundScore>): int
    decreases |rounds|
  {
    if |rounds| == 0 then 0
    else TournamentAll(rounds[..|rounds| - 1]) + RoundAll(rounds[|rounds| - 1].games)
  }

  /** The sum of the scores of a list of totals. */
  function TotalOf(totals: seq<PlayerTotal>): int
    decreases |totals|
  {
    if |totals| == 0 then 0 else TotalOf(totals[..|totals| - 1]) + totals[|totals| - 1].score
  }

  // Sums over the tournament's players of the per-player quantities of module Scoring.

  function SumShare(players: seq<int>, seats: seq<int>, i: int, x: int): int
    decreases |players|
  {
    if |players| == 0 then 0
    else SumShare(players[..|players| - 1], seats, i, x) + Share(seats, i, x, players[|players| - 1])
  }

  function SumGame(players: seq<int>, seats: seq<int>, game: seq<int>): int
    decreases |players|
  {
    if |players| == 0 then 0
    else SumGame(players[..|players| - 1], seats, game) + GameSum(seats, game, players[|players| - 1])
  }

  function SumRound(players: seq<int>, seats: seq<int>, games: seq<seq<int>>): int
    decreases |players|
  {
    if |players| == 0 then 0
    else SumRound(players[..|players| - 1], seats, games) + RoundSum(seats, games, players[|players| - 1])
  }

  function SumGrand(players: seq<int>, rounds: seq<RoundScore>): int
    decreases |players|
  {
    if |players| == 0 then 0
    else SumGrand(players[..|players| - 1], rounds) + GrandSum(rounds, players[|players| - 1])
  }

  /** An entry under a seat held by exactly one listed player counts once; any other entry not at all. */
  lemma {:induction false} SumShareOnce(players: seq<int>, seats: seq<int>, i: int, x: int)
    requires NoDuplicates(players)
    ensures SumShare(players, seats, i, x)
            == if 0 <= i < |seats| && seats[i] in players then x else 0
    decreases |players|
  {
    if |players| > 0 {
      var init := players[..|players| - 1];
      SumShareOnce(init, seats, i, x);
      assert players == init + [players[|players| - 1]];
    }
  }

  lemma {:induction false} SumGameStep(players: seq<int>, seats: seq<int>, game: seq<int>)
    requires |game| > 0
    ensures SumGame(players, seats, game)
            == SumGame(players, seats, game[..|game| - 1]) + SumShare(players, seats, |game| - 1, game[|game| - 1])
    decreases |players|
  {
    if |players| > 0 {
      SumGameStep(players[..|players| - 1], seats, game);
    }
  }

  lemma {:induction false} SumGameAligned(players: seq<int>, seats: seq<int>, game: seq<int>)
    requires NoDuplicates(players) && SeatedAmong(seats, players)
    ensures SumGame(players, seats, game) == AlignedSum(seats, game)
    decreases |game|
  {
    if |game| == 0 {
      SumGameOfEmpty(players, seats);
    } else {
      SumGameStep(players, seats, game);
      SumGameAligned(players, seats, game[..|game| - 1]);
      SumShareOnce(players, seats, |game| - 1, game[|game| - 1]);
    }
  }

  lemma {:induction false} SumGameOfEmpty(players: seq<int>, seats: seq<int>)
    ensures SumGame(players, seats, []) == 0
    decreases |players|
  {
    if |players| > 0 {
      SumGameOfEmpty(players[..|players| - 1], seats);
    }
  }

  lemma {:induction false} SumRoundStep(players: seq<int>, seats: seq<int>, games: seq<seq<int>>)
    requires |games| > 0
    ensures SumRound(players, seats, games)
            == SumRound(players, seats, games[..|games| - 1]) + SumGame(players, seats, games[|games| - 1])
    decreases |players|
  {
    if |players| > 0 {
      SumRoundStep(players[..|players| - 1], seats, games);
    }
  }

  lemma {:induction false} SumRoundOfEmpty(players: seq<int>, seats: seq<int>)
    ensures SumRound(players, seats, []) == 0
    decreases |players|
  {
    if |players| > 0 {
      SumRoundOfEmpty(players[..|players| - 1], seats);
    }
  }

  lemma {:induction false} SumRoundAligned(players: seq<int>, seats: seq<int>, games: seq<seq<int>>)
    requires NoDuplicates(players) && SeatedAmong(seats, players)
    ensures SumRound(players, seats, games) == RoundAligned(seats, games)
    decreases |games|
  {
    if |games| == 0 {
      SumRoundOfEmpty(players, seats);
    } else {
      SumRoundStep(players, seats, games);
      SumRoundAligned(players, seats, games[..|games| - 1]);
      SumGameAligned(players, seats, games[|games| - 1]);
    }
  }

  lemma {:induction false} SumGrandStep(players: seq<int>, rounds: seq<RoundScore>)
    requires |rounds| > 0
    ensures var last := rounds[|rounds| - 1];
      SumGrand(players, rounds)
      == SumGrand(players, rounds[..|rounds| - 1]) + SumRound(players, last.players, last.games)
    decreases |players|
  {
    if |players| > 0 {
      SumGrandStep(players[..|players| - 1], rounds);
    }
  }

  lemma {:induction false} SumGrandOfEmpty(players: seq<int>)
    ensures SumGrand(players, []) == 0
    decreases |players|
  {
    if |players| > 0 {
      SumGrandOfEmpty(players[..|players| - 1]);
    }
  }

  lemma {:induction false} SumGrandAligned(players: seq<int>, rounds: seq<RoundScore>)
    requires NoDuplicates(players)
    requires forall k :: 0 <= k < |rounds| ==> SeatedAmong(rounds[k].players, players)
    ensures SumGrand(players, rounds) == TournamentAligned(rounds)
    decreases |rounds|
  {
    if |rounds| == 0 {
      SumGrandOfEmpty(players);
    } else {
      var last := rounds[|rounds| - 1];
      SumGrandStep(players, rounds);
      SumGrandAligned(players, rounds[..|rounds| - 1]);
      SumRoundAligned(players, last.players, last.games);
    }
  }

  /** The grand-total list adds up to the sum of its players' grand totals. */
  lemma {:induction false} TotalOfGrandRow(users: map<int, UserInfo>, players: seq<int>, rounds: seq<RoundScore>)
    ensures TotalOf(GrandRow(users, players, rounds)) == SumGrand(players, rounds)
    decreases |players|
  {
    if |players| > 0 {
      var init := players[..|players| - 1];
      TotalOfGrandRow(users, init, rounds);
      assert GrandRow(users, players, rounds)[..|players| - 1] == GrandRow(users, init, rounds);
    }
  }

  /**
   * With distinct tournament players and every round seating only them, the
   * sum of the output grand totals is the sum of all seated score entries.
   */
  lemma AccountingIdentity(t: TournamentInfo, directory: map<int, UserRow>)
    requires NoDuplicates(t.players)
    requires forall k :: 0 <= k < |t.scores| ==> SeatedAmong(t.scores[k].players, t.players)
    ensures TotalOf(Expected(Some(t), directory).playerTotals) == TournamentAligned(t.scores)
  {
    TotalOfGrandRow(UsersMap(directory, t.players), t.players, t.scores);
    SumGrandAligned(t.players, t.scores);
  }

  /** When no game vector is longer than its round's seating, every entry sits under a seat. */
  lemma {:induction false} AlignedIsAll(rounds: seq<RoundScore>)
    requires forall k, g :: 0 <= k < |rounds| && 0 <= g < |rounds[k].games| ==>
      |rounds[k].games[g]| <= |rounds[k].players|
    ensures TournamentAligned(rounds) == TournamentAll(rounds)
    decreases |rounds|
  {
    if |rounds| > 0 {
      var last := rounds[|rounds| - 1];
      AlignedIsAll(rounds[..|rounds| - 1]);
      RoundAlignedIsAll(last.players, last.games);
    }
  }

  lemma {:induction false} RoundAlignedIsAll(seats: seq<int>, games: seq<seq<int>>)
    requires forall g :: 0 <= g < |games| ==> |games[g]| <= |seats|
    ensures RoundAligned(seats, games) == RoundAll(games)
    decreases |games|
  {
    if |games| > 0 {
      RoundAlignedIsAll(seats, games[..|games| - 1]);
      VectorAlignedIsAll(seats, games[|games| - 1]);
    }
  }

  lemma {:induction false} VectorAlignedIsAll(seats: seq<int>, game: seq<int>)
    requires |game| <= |seats|
    ensures AlignedSum(seats, game) == VectorSum(game)
    decreases |game|
  {
    if |game| > 0 {
      VectorAlignedIsAll(seats, game[..|game| - 1]);
    }
  }

  /**
   * The identity over all score entries: distinct players, rounds seating
   * only them, and no game vector longer than its round's seating.
   */
  lemma AccountingAllScores(t: TournamentInfo, directory: map<int, UserRow>)
    requires NoDuplicates(t.players)
    requires forall k :: 0 <= k < |t.scores| ==> SeatedAmong(t.scores[k].players, t.players)
    requires forall k, g :: 0 <= k < |t.scores| && 0 <= g < |t.scores[k].games| ==>
      |t.scores[k].games[g]| <= |t.scores[k].players|
    ensures TotalOf(Expected(Some(t), directory).playerTotals) == TournamentAll(t.scores)
  {
    AccountingIdentity(t, directory);
    AlignedIsAll(t.scores);
  }

  /**
   * Without the seating condition the identity fails: a round seating an id
   * the tournament does not list scores that id's entries in the round, but
   * they never reach the grand totals.
   */
  lemma UnlistedSeatLeavesGrandTotals()
    ensures var t := TournamentInfo([1], 5, [RoundScore(1, [1, 3], [[10, 20]])]);
      && TotalOf(Expected(Some(t), map[]).playerTotals) == 10
      && TournamentAll(t.scores) == 30
  {
    var r := RoundScore(1, [1, 3], [[10, 20]]);
    var t := TournamentInfo([1], 5, [r]);
    assert [10, 20][..1] == [10];
    assert [[10, 20]][..0] == [];
    assert [r][..0] == [];
    assert GameSum([1, 3], [10, 20], 1) == 10;
    assert GrandSum(t.scores, 1) == 10;
    assert Expected(Some(t), map[]).playerTotals[..0] == [];
    assert VectorSum([10, 20]) == 30;
  }
}
