/**
 * Reference definitions of what the tournament list handler derives from a
 * payload. Each is written as a plain sum or scan over the input, independent
 * of the maps the handler updates; the methods in module Aggregation are
 * proved to compute exactly these values.
 */
module Scoring {
  import opened Options
  import opened TournamentTypes

  /** No id is listed twice. */
  ghost predicate NoDuplicates(s: seq<int>) {
    forall i, j :: 0 <= i < j < |s| ==> s[i] != s[j]
  }

  /** The ids of a seating in the order of their first seat, each once. */
  function FirstSeatings(seats: seq<int>): seq<int>
    decreases |seats|
  {
    if |seats| == 0 then []
    else
      var init := seats[..|seats| - 1];
      var id := seats[|seats| - 1];
      if id in init then FirstSeatings(init) else FirstSeatings(init) + [id]
  }

  /** What score entry `x`, at position `i` of a game vector, adds to player `p`. */
  function Share(seats: seq<int>, i: int, x: int, p: int): int {
    if 0 <= i < |seats| && seats[i] == p then x else 0
  }

  /**
   * The sum of the entries of one game vector whose position seats player `p`.
   * Positions beyond `seats` belong to nobody.
   */
  function GameSum(seats: seq<int>, game: seq<int>, p: int): int
    decreases |game|
  {
    if |game| == 0 then 0
    else GameSum(seats, game[..|game| - 1], p) + Share(seats, |game| - 1, game[|game| - 1], p)
  }

  /** Player `p`'s total over all games of a round seated as `seats`. */
  function RoundSum(seats: seq<int>, games: seq<seq<int>>, p: int): int
    decreases |games|
  {
    if |games| == 0 then 0
    else RoundSum(seats, games[..|games| - 1], p) + GameSum(seats, games[|games| - 1], p)
  }

  /** Player `p`'s total over all rounds played. */
  function GrandSum(rounds: seq<RoundScore>, p: int): int
    decreases |rounds|
  {
    if |rounds| == 0 then 0
    else
      var last := rounds[|rounds| - 1];
      GrandSum(rounds[..|rounds| - 1], p) + RoundSum(last.players, last.games, p)
  }

  /** A score looked up in a map, 0 when the key is absent (the source's `get(id) || 0`). */
  function Get0(m: map<int, int>, p: int): int {
    if p in m then m[p] else 0
  }

  /**
   * The users the handler can resolve: the rows of `directory` whose id is
   * one of the tournament's `players` (the lookup asks only for those ids).
   */
  function UsersMap(directory: map<int, UserRow>, players: seq<int>): (users: map<int, UserInfo>)
    ensures forall id :: id in users <==> id in directory && id in players
    ensures forall id :: id in users ==>
      users[id] == UserInfo(id, directory[id].account, directory[id].nickname)
  {
    map id | id in directory && id in players :: UserInfo(id, directory[id].account, directory[id].nickname)
  }

  /** The user shown for `id`: its lookup entry, or the placeholder. */
  function ResolveUser(users: map<int, UserInfo>, id: int): UserInfo {
    if id in users then users[id] else Placeholder(id)
  }

  /** A round's totals in its own seating order, by the reference sums. */
  function RoundRow(users: map<int, UserInfo>, r: RoundScore): seq<PlayerTotal> {
    seq(|r.players|, i requires 0 <= i < |r.players| =>
      PlayerTotal(ResolveUser(users, r.players[i]), RoundSum(r.players, r.games, r.players[i])))
  }

  /** One entry per round, numbered by position from 1. */
  function RoundTotals(users: map<int, UserInfo>, rounds: seq<RoundScore>): seq<RoundPlayerTotal> {
    seq(|rounds|, k requires 0 <= k < |rounds| => RoundPlayerTotal(k + 1, RoundRow(users, rounds[k])))
  }

  /** The tournament's grand totals in the order of its `players`. */
  function GrandRow(users: map<int, UserInfo>, players: seq<int>, rounds: seq<RoundScore>): seq<PlayerTotal> {
    seq(|players|, i requires 0 <= i < |players| =>
      PlayerTotal(ResolveUser(users, players[i]), GrandSum(rounds, players[i])))
  }

  /**
   * The running leader of a left-to-right scan that replaces the leader only
   * on a strictly greater score; `None` stands for the -Infinity start.
   */
  function Leader(totals: seq<PlayerTotal>): Option<PlayerTotal>
    decreases |totals|
  {
    if |totals| == 0 then None
    else
      var prev := Leader(totals[..|totals| - 1]);
      var last := totals[|totals| - 1];
      if prev.None? || last.score > prev.value.score then Some(last) else prev
  }

  /** Entry `k` has the highest score, and every earlier entry scores strictly less. */
  ghost predicate IsFirstMax(totals: seq<PlayerTotal>, k: int) {
    && 0 <= k < |totals|
    && (forall j :: 0 <= j < |totals| ==> totals[j].score <= totals[k].score)
    && (forall j :: 0 <= j < k ==> totals[j].score < totals[k].score)
  }

  /** Everything the handler adds to a tournament whose payload is `info`. */
  function Expected(info: Option<TournamentInfo>, directory: map<int, UserRow>): Statistics {
    match info
    case None => Statistics(0, 0, 0, false, [], [], None)
    case Some(t) =>
      var users := UsersMap(directory, t.players);
      var totals := GrandRow(users, t.players, t.scores);
      Statistics(|t.players|, t.roundNumber, |t.scores|, |t.scores| >= t.roundNumber,
                 RoundTotals(users, t.scores), totals, Leader(totals))
  }
}
