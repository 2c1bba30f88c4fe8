/**
 * The records the server stores and exchanges: players, game settings, hand
 * results, final results and stored games. Numbers are unbounded integers,
 * strings are sequences of characters, and a JSON `null` is `None`.
 */
module GameTypes {
  import opened Wrappers

  /** A registered player with running counters maintained by the server. */
  datatype User = User(
    id: string,
    name: string,
    gamesPlayedIds: seq<string>,
    gamesWon: int,
    gamesLost: int)

  /** The two players of a game, by identifier and by display name at the time of play. */
  datatype GameSettings = GameSettings(
    player1Id: string,
    player2Id: string,
    player1Name: string,
    player2Name: string)

  /** Who took a hand; a `null` winner is `None`. */
  datatype HandWinner = Player1 | Player2 | Tie

  datatype HandResult = HandResult(
    id: string,
    player1Score: int,
    player2Score: int,
    winner: Option<HandWinner>)

  /** The client-supplied outcome of a game; a `null` winner identifier denotes a tie. */
  datatype FinalGameResult = FinalGameResult(
    player1FinalScore: int,
    player2FinalScore: int,
    winnerName: string,
    winnerId: Option<string>,
    player1Name: string,
    player2Name: string,
    player1Id: string,
    player2Id: string,
    player1Cumulative: int,
    player2Cumulative: int,
    player1HandsWon: int,
    player2HandsWon: int,
    handWinBonus: int)

  /** A game as kept in the ledger; the narrative summary is absent until it is attached. */
  datatype StoredGame = StoredGame(
    id: string,
    date: string,
    settings: GameSettings,
    hands: seq<HandResult>,
    finalResult: FinalGameResult,
    aiSummary: Option<string>)

  /**
   * JavaScript truthiness of a value that is either a string or null/undefined:
   * null, undefined and the empty string are falsy, every other string is truthy.
   */
  predicate Truthy(s: Option<string>) {
    s.Some? && s.value != ""
  }

  /** The `===` test of a user's identifier (`u => u.id === id`). */
  function HasId(id: string): User -> bool {
    (u: User) => u.id == id
  }

  /** The `!==` test of a user's identifier (`u => u.id !== id`). */
  function HasOtherId(id: string): User -> bool {
    (u: User) => u.id != id
  }

  /** The `===` test of a game's identifier (`g => g.id === id`). */
  function GameHasId(id: string): StoredGame -> bool {
    (g: StoredGame) => g.id == id
  }

  /** A game in which `id` is either seat (`g.settings.player1Id === id || g.settings.player2Id === id`). */
  function Involves(id: string): StoredGame -> bool {
    (g: StoredGame) => g.settings.player1Id == id || g.settings.player2Id == id
  }

  /** A game whose final result names `id` as the winner (`g.finalResult.winnerId === id`). */
  function WonBy(id: string): StoredGame -> bool {
    (g: StoredGame) => g.finalResult.winnerId == Some(id)
  }
}
