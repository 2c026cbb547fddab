/**
 * The sample payload shipped with the server's type declarations, worked
 * through the reference definitions: two rounds of four players, with
 * players 1 and 2 tied on 75000.
 */
module Examples {
  import opened Options
  import opened TournamentTypes
  import opened Scoring
  import ScoringFacts

  function Round1(): RoundScore {
    RoundScore(1, [1, 2, 3, 4], [[25000, 20000, 15000, 10000], [30000, 25000, 20000, 15000]])
  }

  function Round2(): RoundScore {
    RoundScore(2, [1, 2, 3, 4], [[20000, 30000, 25000, 15000]])
  }

  function Sample(): TournamentInfo {
    TournamentInfo([1, 2, 3, 4], 2, [Round1(), Round2()])
  }

  /** A user table that knows players 1 to 3 but not player 4. */
  function Directory(): map<int, UserRow> {
    map[1 := UserRow("east", "East"), 2 := UserRow("south", "South"), 3 := UserRow("west", "West")]
  }

  lemma {:induction false} Round1Totals()
    ensures RoundRow(UsersMap(Directory(), Sample().players), Round1())
      == [PlayerTotal(UserInfo(1, "east", "East"), 55000), PlayerTotal(UserInfo(2, "south", "South"), 45000),
          PlayerTotal(UserInfo(3, "west", "West"), 35000), PlayerTotal(Placeholder(4), 25000)]
  {
    var r := Round1();
    var g0 := r.games[0];
    var g1 := r.games[1];
    assert r.games[..1] == [g0];
    forall i | 0 <= i < 4
      ensures RoundSum(r.players, r.games, r.players[i]) == g0[i] + g1[i]
    {
      ScoringFacts.RoundSumAtSeat(r.players, r.games, i);
    }
  }

  lemma {:induction false} Round2Totals()
    ensures RoundRow(UsersMap(Directory(), Sample().players), Round2())
      == [PlayerTotal(UserInfo(1, "east", "East"), 20000), PlayerTotal(UserInfo(2, "south", "South"), 30000),
          PlayerTotal(UserInfo(3, "west", "West"), 25000), PlayerTotal(Placeholder(4), 15000)]
  {
    var r := Round2();
    var g0 := r.games[0];
    assert r.games[..0] == [];
    forall i | 0 <= i < 4
      ensures RoundSum(r.players, r.games, r.players[i]) == g0[i]
    {
      ScoringFacts.RoundSumAtSeat(r.players, r.games, i);
    }
  }

  function SampleGrandTotals(): seq<PlayerTotal> {
    [PlayerTotal(UserInfo(1, "east", "East"), 75000), PlayerTotal(UserInfo(2, "south", "South"), 75000),
     PlayerTotal(UserInfo(3, "west", "West"), 60000), PlayerTotal(Placeholder(4), 40000)]
  }

  /** Each player's grand total is the sum of their two round totals. */
  lemma {:induction false} GrandTotals()
    ensures GrandRow(UsersMap(Directory(), Sample().players), Sample().players, Sample().scores)
            == SampleGrandTotals()
  {
    var t := Sample();
    var users := UsersMap(Directory(), t.players);
    Round1Totals();
    Round2Totals();
    assert t.scores[..1] == [Round1()];
    assert t.scores[..1][..0] == [];
    forall i | 0 <= i < 4
      ensures GrandSum(t.scores, t.players[i])
              == RoundRow(users, Round1())[i].score + RoundRow(users, Round2())[i].score
    {
    }
  }

  /** On the 75000 tie the scan keeps player 1, the first of the two in order. */
  lemma {:induction false} TieGoesToFirst()
    ensures Leader(SampleGrandTotals()) == Some(SampleGrandTotals()[0])
  {
    var totals := SampleGrandTotals();
    ScoringFacts.LeaderIsFirstMax(totals, 0);
  }

  /**
   * The whole sample: round totals 55000/45000/35000/25000 and
   * 20000/30000/25000/15000, grand totals 75000/75000/60000/40000, player 4
   * shown as the placeholder, champion player 1 with 75000, and two of two
   * planned rounds played.
   */
  lemma SampleStatistics()
    ensures var s := Expected(Some(Sample()), Directory());
      && s.playerCount == 4 && s.totalRounds == 2 && s.completedRounds == 2 && s.isCompleted
      && s.roundTotals == [RoundPlayerTotal(1, RoundRow(UsersMap(Directory(), Sample().players), Round1())),
                           RoundPlayerTotal(2, RoundRow(UsersMap(Directory(), Sample().players), Round2()))]
      && s.playerTotals == SampleGrandTotals()
      && s.champion == Some(PlayerTotal(UserInfo(1, "east", "East"), 75000))
  {
    GrandTotals();
    TieGoesToFirst();
  }

  /**
   * A round seating only players 1 and 3 scores them in its own order, and
   * only they gain in the grand totals.
   */
  lemma {:induction false} PartialRound()
    ensures var s := Expected(Some(TournamentInfo([1, 2, 3, 4], 5, [RoundScore(1, [1, 3], [[10, 20]])])), map[]);
      && s.roundTotals == [RoundPlayerTotal(1, [PlayerTotal(Placeholder(1), 10), PlayerTotal(Placeholder(3), 20)])]
      && [s.playerTotals[0].score, s.playerTotals[1].score, s.playerTotals[2].score, s.playerTotals[3].score]
         == [10, 0, 20, 0]
      && !s.isCompleted
  {
    var r := RoundScore(1, [1, 3], [[10, 20]]);
    assert [r][..0] == [];
    assert r.games[..0] == [];
    forall i | 0 <= i < 2
      ensures RoundSum(r.players, r.games, r.players[i]) == r.games[0][i]
    {
      ScoringFacts.RoundSumAtSeat(r.players, r.games, i);
    }
    ScoringFacts.RoundSumUnseated(r.players, r.games, 2);
    ScoringFacts.RoundSumUnseated(r.players, r.games, 4);
    var users := UsersMap(map[], [1, 2, 3, 4]);
    assert RoundRow(users, r) == [PlayerTotal(Placeholder(1), 10), PlayerTotal(Placeholder(3), 20)];
    assert RoundTotals(users, [r]) == [RoundPlayerTotal(1, RoundRow(users, r))];
  }
}
