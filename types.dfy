/**
 * The shapes the tournament list handler works on: the `info` payload stored
 * with each tournament, the user rows it looks up, and the derived statistics
 * it returns beside each tournament.
 */
module TournamentTypes {
  import opened Options

  /** A user as attached to a result: id, account name and display nickname. */
  datatype UserInfo = UserInfo(id: int, account: string, nickname: string)

  /** One row of the user table, keyed by its id in the lookup map. */
  datatype UserRow = UserRow(account: string, nickname: string)

  /**
   * One round of the payload. `round` is the stored round number (never read
   * by the aggregation), `players` the ids seated in this round, and `games`
   * one score vector per game, positionally aligned with `players`.
   */
  datatype RoundScore = RoundScore(round: int, players: seq<int>, games: seq<seq<int>>)

  /** The `info` payload: participants, planned rounds and the rounds played so far. */
  datatype TournamentInfo = TournamentInfo(players: seq<int>, roundNumber: int, scores: seq<RoundScore>)

  /** A user paired with a score: one entry of a round's or the tournament's totals. */
  datatype PlayerTotal = PlayerTotal(user: UserInfo, score: int)

  /** The totals of one round, in that round's own seating order. */
  datatype RoundPlayerTotal = RoundPlayerTotal(round: int, playerTotals: seq<PlayerTotal>)

  /** The fields the handler adds to every tournament it lists. */
  datatype Statistics = Statistics(
    playerCount: int,
    totalRounds: int,
    completedRounds: int,
    isCompleted: bool,
    roundTotals: seq<RoundPlayerTotal>,
    playerTotals: seq<PlayerTotal>,
    champion: Option<PlayerTotal>)

  /** The user shown for an id the lookup did not resolve. */
  function Placeholder(id: int): UserInfo {
    UserInfo(id, "unknown", "Unknown")
  }
}
