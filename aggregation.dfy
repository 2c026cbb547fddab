/**
 * The tournament list handler's aggregation as it runs: maps updated in
 * place inside nested loops, a list built by appending, and a running
 * maximum. Each method is proved to produce the reference values of module
 * Scoring.
 */
module Aggregation {
  import opened Options
  import opened TournamentTypes
  import opened Scoring
  import ScoringFacts

  /**
   * A round's totals map before any game: every seated id at 0, keys in
   * the order of their first seat.
   */
  method StartRound(seats: seq<int>) returns (order: seq<int>, totals: map<int, int>)
    ensures order == FirstSeatings(seats)
    ensures NoDuplicates(order)
    ensures forall p :: p in order <==> p in seats
    ensures forall p :: p in totals <==> p in seats
    ensures forall p :: p in totals ==> totals[p] == 0
  {
    order, totals := [], map[];
    var i := 0;
    while i < |seats|
      invariant 0 <= i <= |seats|
      invariant order == FirstSeatings(seats[..i])
      invariant NoDuplicates(order)
      invariant forall p :: p in order <==> p in seats[..i]
      invariant forall p :: p in totals <==> p in seats[..i]
      invariant forall p :: p in totals ==> totals[p] == 0
    {
      var id := seats[i];
      assert seats[..i + 1][..i] == seats[..i];
      if id !in totals {
        order := order + [id];
      }
      totals := totals[id := 0];
      assert seats[..i + 1] == seats[..i] + [id];
      i := i + 1;
    }
    assert seats[..i] == seats;
  }

  /**
   * The totals map of one round: every seated id starts at 0, then each
   * game's entry at position i is added to the id seated at position i.
   * Like the source's insertion-ordered map, the result comes with its keys
   * in insertion order (first seating of each id).
   */
  method AccumulateRound(r: RoundScore) returns (order: seq<int>, totals: map<int, int>)
    ensures order == FirstSeatings(r.players)
    ensures NoDuplicates(order)
    ensures forall p :: p in order <==> p in r.players
    ensures forall p :: p in totals <==> p in r.players
    ensures forall p :: p in totals ==> totals[p] == RoundSum(r.players, r.games, p)
  {
    order, totals := StartRound(r.players);
    var g := 0;
    while g < |r.games|
      invariant 0 <= g <= |r.games|
      invariant forall p :: p in totals <==> p in r.players
      invariant forall p :: p in totals ==> totals[p] == RoundSum(r.players, r.games[..g], p)
    {
      var game := r.games[g];
      var k := 0;
      while k < |game|
        invariant 0 <= k <= |game|
        invariant forall p :: p in totals <==> p in r.players
        invariant forall p :: p in totals ==>
          totals[p] == RoundSum(r.players, r.games[..g], p) + GameSum(r.players, game[..k], p)
      {
        assert game[..k + 1][..k] == game[..k];
        if k < |r.players| {
          var id := r.players[k];
          if id in totals {
            totals := totals[id := totals[id] + game[k]];
          }
        }
        k := k + 1;
      }
      assert game[..k] == game;
      assert r.games[..g + 1][..g] == r.games[..g];
      g := g + 1;
    }
    assert r.games[..g] == r.games;
  }

  /**
   * Adds every entry of a round's totals map, in its key order, into the
   * tournament-wide map; an absent key counts as 0.
   */
  method CarryRound(grand: map<int, int>, order: seq<int>, round: map<int, int>) returns (next: map<int, int>)
    requires NoDuplicates(order)
    requires forall p :: p in round <==> p in order
    ensures forall p :: p in next <==> p in grand || p in round
    ensures forall p :: Get0(next, p) == Get0(grand, p) + Get0(round, p)
  {
    next := grand;
    var i := 0;
    while i < |order|
      invariant 0 <= i <= |order|
      invariant forall p :: p in next <==> p in grand || p in order[..i]
      invariant forall p :: Get0(next, p) == Get0(grand, p) + (if p in order[..i] then Get0(round, p) else 0)
    {
      var p := order[i];
      assert p !in order[..i];
      next := next[p := Get0(next, p) + round[p]];
      assert order[..i + 1] == order[..i] + [p];
      i := i + 1;
    }
    assert order[..i] == order;
  }

  /** The user/score list for `ids` in order, scores read from `scores` or 0. */
  function Project(ids: seq<int>, users: map<int, UserInfo>, scores: map<int, int>): seq<PlayerTotal> {
    seq(|ids|, i requires 0 <= i < |ids| => PlayerTotal(ResolveUser(users, ids[i]), Get0(scores, ids[i])))
  }

  /**
   * The loop over the payload's rounds: per round, accumulate its totals,
   * carry them into the tournament-wide map and append its projected entry.
   */
  method AccumulateRounds(rounds: seq<RoundScore>, users: map<int, UserInfo>)
    returns (roundTotals: seq<RoundPlayerTotal>, grand: map<int, int>)
    ensures roundTotals == RoundTotals(users, rounds)
    ensures forall p :: Get0(grand, p) == GrandSum(rounds, p)
  {
    roundTotals := [];
    grand := map[];
    var k := 0;
    while k < |rounds|
      invariant 0 <= k <= |rounds|
      invariant roundTotals == RoundTotals(users, rounds[..k])
      invariant forall p :: Get0(grand, p) == GrandSum(rounds[..k], p)
    {
      var r := rounds[k];
      var order, totals := AccumulateRound(r);
      forall p ensures Get0(totals, p) == RoundSum(r.players, r.games, p) {
        if p !in totals {
          ScoringFacts.RoundSumUnseated(r.players, r.games, p);
        }
      }
      grand := CarryRound(grand, order, totals);
      assert rounds[..k + 1][..k] == rounds[..k];
      var row := Project(r.players, users, totals);
      assert row == RoundRow(users, r);
      roundTotals := roundTotals + [RoundPlayerTotal(k + 1, row)];
      k := k + 1;
    }
    assert rounds[..k] == rounds;
  }

  /**
   * The champion scan: `highest` starts at -Infinity (`None`) and the
   * champion is replaced only by a strictly greater score.
   */
  method FindChampion(totals: seq<PlayerTotal>) returns (champion: Option<PlayerTotal>)
    ensures champion == Leader(totals)
    ensures champion.None? <==> |totals| == 0
    ensures champion.Some? ==> exists k :: IsFirstMax(totals, k) && champion.value == totals[k]
    ensures forall k :: IsFirstMax(totals, k) ==> champion == Some(totals[k])
  {
    champion := None;
    var highest: Option<int> := None;
    var i := 0;
    while i < |totals|
      invariant 0 <= i <= |totals|
      invariant champion == Leader(totals[..i])
      invariant highest == if champion.None? then None else Some(champion.value.score)
    {
      assert totals[..i + 1][..i] == totals[..i];
      if highest.None? || totals[i].score > highest.value {
        highest := Some(totals[i].score);
        champion := Some(totals[i]);
      }
      i := i + 1;
    }
    assert totals[..i] == totals;
    ScoringFacts.LeaderIsSomeFirstMax(totals);
    forall k | IsFirstMax(totals, k) ensures champion == Some(totals[k]) {
      ScoringFacts.LeaderIsFirstMax(totals, k);
    }
  }

  /** The statistics the handler attaches to one tournament with payload `info`. */
  method ComputeStatistics(info: Option<TournamentInfo>, directory: map<int, UserRow>)
    returns (s: Statistics)
    ensures s == Expected(info, directory)
    ensures s.playerCount == (if info.Some? then |info.value.players| else 0)
    ensures s.completedRounds == |s.roundTotals| == (if info.Some? then |info.value.scores| else 0)
    ensures s.isCompleted <==> info.Some? && |info.value.scores| >= info.value.roundNumber
    ensures s.champion.None? <==> info.None? || |info.value.players| == 0
  {
    var players := if info.Some? then info.value.players else [];
    var users := UsersMap(directory, players);
    var roundTotals: seq<RoundPlayerTotal> := [];
    var grand: map<int, int> := map[];
    if info.Some? {
      roundTotals, grand := AccumulateRounds(info.value.scores, users);
    }
    var playerTotals := Project(players, users, grand);
    var champion := FindChampion(playerTotals);
    match info
    case None =>
      s := Statistics(0, 0, 0, false, roundTotals, playerTotals, champion);
    case Some(t) =>
      assert playerTotals == GrandRow(users, t.players, t.scores);
      s := Statistics(|t.players|, t.roundNumber, |t.scores|, |t.scores| >= t.roundNumber,
                      roundTotals, playerTotals, champion);
  }
}
