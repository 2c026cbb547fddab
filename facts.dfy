/**
 * What the reference definitions of module Scoring mean: how a round total
 * reads off the score columns, who gets 0, how the champion relates to the
 * maximum, and what every field of the handler's output holds.
 */
module ScoringFacts {
  import opened Options
  import opened TournamentTypes
  import opened Scoring

  function Min(a: int, b: int): int {
    if a <= b then a else b
  }

  /** The sum of column `i` over a round's games; a game too short for `i` adds 0. */
  function ColumnSum(games: seq<seq<int>>, i: nat): int
    decreases |games|
  {
    if |games| == 0 then 0
    else
      var last := games[|games| - 1];
      ColumnSum(games[..|games| - 1], i) + (if i < |last| then last[i] else 0)
  }

  /** A player not seated in a round gets nothing from any of its games. */
  lemma {:induction false} GameSumUnseated(seats: seq<int>, game: seq<int>, p: int)
    requires p !in seats
    ensures GameSum(seats, game, p) == 0
    decreases |game|
  {
    if |game| > 0 {
      GameSumUnseated(seats, game[..|game| - 1], p);
    }
  }

  /** A player not seated in a round has round total 0. */
  lemma {:induction false} RoundSumUnseated(seats: seq<int>, games: seq<seq<int>>, p: int)
    requires p !in seats
    ensures RoundSum(seats, games, p) == 0
    decreases |games|
  {
    if |games| > 0 {
      RoundSumUnseated(seats, games[..|games| - 1], p);
      GameSumUnseated(seats, games[|games| - 1], p);
    }
  }

  /** A player seated in no round has grand total 0. */
  lemma {:induction false} GrandSumNeverSeated(rounds: seq<RoundScore>, p: int)
    requires forall k :: 0 <= k < |rounds| ==> p !in rounds[k].players
    ensures GrandSum(rounds, p) == 0
    decreases |rounds|
  {
    if |rounds| > 0 {
      var last := rounds[|rounds| - 1];
      GrandSumNeverSeated(rounds[..|rounds| - 1], p);
      RoundSumUnseated(last.players, last.games, p);
    }
  }

  /** Entries of a game vector past the end of the seating are ignored. */
  lemma {:induction false} GameSumIgnoresOverflow(seats: seq<int>, game: seq<int>, p: int)
    ensures GameSum(seats, game, p) == GameSum(seats, game[..Min(|game|, |seats|)], p)
    decreases |game|
  {
    if |game| > |seats| {
      var init := game[..|game| - 1];
      GameSumIgnoresOverflow(seats, init, p);
      assert init[..Min(|init|, |seats|)] == game[..Min(|game|, |seats|)];
    } else {
      assert game[..Min(|game|, |seats|)] == game;
    }
  }

  /**
   * With distinct seats, the player in seat `i` gets exactly the entry at
   * position `i` of a game, or 0 when the vector is shorter than that.
   */
  lemma {:induction false} GameSumAtSeat(seats: seq<int>, game: seq<int>, i: nat)
    requires NoDuplicates(seats) && i < |seats|
    ensures GameSum(seats, game, seats[i]) == if i < |game| then game[i] else 0
    decreases |game|
  {
    if |game| > 0 {
      var init := game[..|game| - 1];
      GameSumAtSeat(seats, init, i);
      if |game| - 1 < |seats| && |game| - 1 != i {
        assert seats[|game| - 1] != seats[i];
      }
    }
  }

  /** With distinct seats, the round total of seat `i` is the sum of column `i`. */
  lemma {:induction false} RoundSumAtSeat(seats: seq<int>, games: seq<seq<int>>, i: nat)
    requires NoDuplicates(seats) && i < |seats|
    ensures RoundSum(seats, games, seats[i]) == ColumnSum(games, i)
    decreases |games|
  {
    if |games| > 0 {
      RoundSumAtSeat(seats, games[..|games| - 1], i);
      GameSumAtSeat(seats, games[|games| - 1], i);
    }
  }

  /**
   * The strict-greater scan ends on no one exactly for an empty list, and
   * otherwise on some first entry with the highest score.
   */
  lemma {:induction false} LeaderIsSomeFirstMax(totals: seq<PlayerTotal>)
    ensures Leader(totals).None? <==> |totals| == 0
    ensures Leader(totals).Some? ==>
      exists k :: IsFirstMax(totals, k) && Leader(totals).value == totals[k]
    decreases |totals|
  {
    if |totals| > 0 {
      var n := |totals| - 1;
      var init := totals[..n];
      LeaderIsSomeFirstMax(init);
      assert forall j :: 0 <= j < n ==> init[j] == totals[j];
      if Leader(init).None? {
        assert IsFirstMax(totals, 0);
      } else {
        var k :| IsFirstMax(init, k) && Leader(init).value == init[k];
        if totals[n].score > init[k].score {
          assert IsFirstMax(totals, n);
        } else {
          assert IsFirstMax(totals, k);
        }
      }
    }
  }

  /** The strict-greater scan ends on the first entry with the highest score. */
  lemma LeaderIsFirstMax(totals: seq<PlayerTotal>, k: int)
    requires IsFirstMax(totals, k)
    ensures Leader(totals) == Some(totals[k])
  {
    LeaderIsSomeFirstMax(totals);
    var m :| IsFirstMax(totals, m) && Leader(totals).value == totals[m];
    assert totals[m].score == totals[k].score;
    assert !(m < k) && !(k < m);
  }

  /**
   * One round entry per stored round, in order and numbered by position
   * (the stored `round` field is not read); each lists that round's own
   * seats in their order with their round totals.
   */
  lemma RoundTotalsShape(t: TournamentInfo, directory: map<int, UserRow>, k: nat, i: nat)
    requires k < |t.scores| && i < |t.scores[k].players|
    ensures var s := Expected(Some(t), directory);
      && |s.roundTotals| == |t.scores|
      && s.roundTotals[k].round == k + 1
      && |s.roundTotals[k].playerTotals| == |t.scores[k].players|
      && s.roundTotals[k].playerTotals[i].user.id == t.scores[k].players[i]
      && s.roundTotals[k].playerTotals[i].score
         == RoundSum(t.scores[k].players, t.scores[k].games, t.scores[k].players[i])
  {
  }

  /**
   * Exactly one grand-total entry per listed player, in the tournament's
   * order, holding the sum of that player's round totals.
   */
  lemma PlayerTotalsShape(t: TournamentInfo, directory: map<int, UserRow>, i: nat)
    requires i < |t.players|
    ensures var s := Expected(Some(t), directory);
      && |s.playerTotals| == |t.players|
      && s.playerTotals[i].user.id == t.players[i]
      && s.playerTotals[i].score == GrandSum(t.scores, t.players[i])
  {
  }

  /** A listed player who sits in no round gets a grand total of 0. */
  lemma NeverSeatedScoresZero(t: TournamentInfo, directory: map<int, UserRow>, i: nat)
    requires i < |t.players|
    requires forall k :: 0 <= k < |t.scores| ==> t.players[i] !in t.scores[k].players
    ensures Expected(Some(t), directory).playerTotals[i].score == 0
  {
    GrandSumNeverSeated(t.scores, t.players[i]);
  }

  /**
   * The champion is absent exactly when there is no payload or no player;
   * otherwise it is the first player, in the tournament's order, whose grand
   * total is the maximum.
   */
  lemma ChampionIsFirstMax(info: Option<TournamentInfo>, directory: map<int, UserRow>)
    ensures var s := Expected(info, directory);
      && (s.champion.None? <==> info.None? || |info.value.players| == 0)
      && (forall k :: IsFirstMax(s.playerTotals, k) ==> s.champion == Some(s.playerTotals[k]))
  {
    var s := Expected(info, directory);
    LeaderIsSomeFirstMax(s.playerTotals);
    forall k | IsFirstMax(s.playerTotals, k) ensures s.champion == Some(s.playerTotals[k]) {
      LeaderIsFirstMax(s.playerTotals, k);
    }
  }

  /** The counters are read off the payload, and are all zero without one. */
  lemma ScalarStats(info: Option<TournamentInfo>, directory: map<int, UserRow>)
    ensures var s := Expected(info, directory);
      && s.playerCount == (if info.Some? then |info.value.players| else 0)
      && s.totalRounds == (if info.Some? then info.value.roundNumber else 0)
      && s.completedRounds == (if info.Some? then |info.value.scores| else 0)
      && (s.isCompleted <==> info.Some? && |info.value.scores| >= info.value.roundNumber)
      && (info.None? ==> s.roundTotals == [] && s.playerTotals == [] && s.champion == None)
  {
  }

  /** The user the output shows for `id`: the directory row when the lookup asked for it, else the placeholder. */
  function Shown(t: TournamentInfo, directory: map<int, UserRow>, id: int): UserInfo {
    if id in t.players && id in directory then UserInfo(id, directory[id].account, directory[id].nickname)
    else Placeholder(id)
  }

  /**
   * Every user in the output is the looked-up row for its id or the
   * placeholder; only the tournament's own players are looked up, so a
   * player seated only at round level always shows as the placeholder.
   */
  lemma UsersResolved(t: TournamentInfo, directory: map<int, UserRow>)
    ensures var s := Expected(Some(t), directory);
      && (forall i :: 0 <= i < |s.playerTotals| ==>
            s.playerTotals[i].user == Shown(t, directory, t.players[i]))
      && (forall k, i :: 0 <= k < |s.roundTotals| && 0 <= i < |s.roundTotals[k].playerTotals| ==>
            s.roundTotals[k].playerTotals[i].user == Shown(t, directory, t.scores[k].players[i]))
  {
  }

  lemma RoundOnlyPlayerIsPlaceholder(t: TournamentInfo, directory: map<int, UserRow>, k: nat, i: nat)
    requires k < |t.scores| && i < |t.scores[k].players| && t.scores[k].players[i] !in t.players
    ensures Expected(Some(t), directory).roundTotals[k].playerTotals[i].user
            == Placeholder(t.scores[k].players[i])
  {
  }
}
