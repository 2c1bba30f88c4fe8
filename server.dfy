/**
 * The server's two process-wide collections and the route handlers that read
 * and change them. Each handler is one atomic step: the uploads between its
 * synchronous parts are left out, so what is modelled is the in-memory state
 * the handler leaves behind and the response it sends.
 */
module Server {
  import opened Wrappers
  import opened Seqs
  import opened GameTypes
  import opened Storage
  import opened Statistics
  import opened Narrative

  /** A handler's response: its status code and its JSON body. */
  datatype Response<T> =
    | Created(body: T)             // 201
    | Ok(body: T)                  // 200
    | NoContent                    // 204
    | BadRequest(message: string)  // 400
    | NotFound(message: string)    // 404

  const NameRequired: string := "Name is required"
  const UserNotFound: string := "User not found"
  const InvalidGameData: string := "Invalid game data"
  const PlayersNotFound: string := "One or both players not found"
  const GameNotFound: string := "Game not found"

  /** The body of a game-recording request; a field that is absent or null is `None`. */
  datatype GameRequest = GameRequest(
    settings: Option<GameSettings>,
    hands: Option<seq<HandResult>>,
    finalResult: Option<FinalGameResult>)

  /** Every player has played at least as many games as they have won and lost. */
  predicate CountersConsistent(users: seq<User>) {
    forall k :: 0 <= k < |users| ==>
      users[k].gamesWon + users[k].gamesLost <= |users[k].gamesPlayedIds|
  }

  predicate DistinctUserIds(users: seq<User>) {
    forall i, j :: 0 <= i < j < |users| ==> users[i].id != users[j].id
  }

  predicate DistinctGameIds(games: seq<StoredGame>) {
    forall i, j :: 0 <= i < j < |games| ==> games[i].id != games[j].id
  }

  /** What recording one game adds to one player's record. */
  datatype Tally = Tally(played: nat, won: nat, lost: nat)

  /**
   * The share of the player at index `k` in a game whose first player was found
   * at `i1` and second at `i2` (the same index when both seats name one
   * player): one played game per seat taken; the first player's win when the
   * winner identifier is the first seat's, else the second player's win when it
   * is the second seat's, else no win or loss at all.
   */
  function OutcomeFor(k: int, i1: int, i2: int, p1Id: string, p2Id: string, winnerId: Option<string>): Tally {
    var p1Won := winnerId == Some(p1Id);
    var p2Won := !p1Won && winnerId == Some(p2Id);
    Tally(
      (if k == i1 then 1 else 0) + (if k == i2 then 1 else 0),
      (if k == i1 && p1Won then 1 else 0) + (if k == i2 && p2Won then 1 else 0),
      (if k == i2 && p1Won then 1 else 0) + (if k == i1 && p2Won then 1 else 0))
  }

  /** A player's record after a recorded game contributed the tally `t`. */
  function Credit(u: User, gameId: string, t: Tally): (r: User)
    ensures r.id == u.id && r.name == u.name
    ensures |r.gamesPlayedIds| == |u.gamesPlayedIds| + t.played
  {
    u.(gamesPlayedIds := u.gamesPlayedIds + Repeat(gameId, t.played),
       gamesWon := u.gamesWon + t.won,
       gamesLost := u.gamesLost + t.lost)
  }

  /** A recorded game never adds more wins and losses to a player than games played. */
  lemma OutcomeBalanced(k: int, i1: int, i2: int, p1Id: string, p2Id: string, winnerId: Option<string>)
    ensures var t := OutcomeFor(k, i1, i2, p1Id, p2Id, winnerId); t.won + t.lost <= t.played
  {
  }

  /**
   * Between two different players, a decisive game gives its winner one win and
   * the other one loss; any other winner identifier (a tie, or a stranger's
   * identifier) changes neither counter. Every player not seated is untouched.
   */
  lemma OutcomeOfDistinctPlayers(i1: int, i2: int, p1Id: string, p2Id: string, winnerId: Option<string>, k: int)
    requires i1 != i2 && p1Id != p2Id
    ensures winnerId == Some(p1Id) ==>
      OutcomeFor(i1, i1, i2, p1Id, p2Id, winnerId) == Tally(1, 1, 0) &&
      OutcomeFor(i2, i1, i2, p1Id, p2Id, winnerId) == Tally(1, 0, 1)
    ensures winnerId == Some(p2Id) ==>
      OutcomeFor(i1, i1, i2, p1Id, p2Id, winnerId) == Tally(1, 0, 1) &&
      OutcomeFor(i2, i1, i2, p1Id, p2Id, winnerId) == Tally(1, 1, 0)
    ensures winnerId != Some(p1Id) && winnerId != Some(p2Id) ==>
      OutcomeFor(i1, i1, i2, p1Id, p2Id, winnerId) == Tally(1, 0, 0) &&
      OutcomeFor(i2, i1, i2, p1Id, p2Id, winnerId) == Tally(1, 0, 0)
    ensures k != i1 && k != i2 ==> OutcomeFor(k, i1, i2, p1Id, p2Id, winnerId) == Tally(0, 0, 0)
  {
  }

  /**
   * When both seats name the same player, that player's record is updated
   * twice: the game identifier is listed twice, and a win for that identifier
   * is also counted as a loss.
   */
  lemma OutcomeOfSelfPlay(i: int, id: string, winnerId: Option<string>)
    ensures winnerId == Some(id) ==> OutcomeFor(i, i, i, id, id, winnerId) == Tally(2, 1, 1)
    ensures winnerId != Some(id) ==> OutcomeFor(i, i, i, id, id, winnerId) == Tally(2, 0, 0)
  {
  }

  /** The statistics bundle for a game `g` just appended to the ledger, between the players `p1` and `p2`. */
  function SummaryInputs(ledger: seq<StoredGame>, p1: User, p2: User, g: StoredGame): SummaryParams {
    var history := History(ledger, p1.id, p2.id);
    SummaryParams(
      p1.name, p2.name, g.finalResult, |g.hands|, TargetScore, HandWinBonus, history,
      StreakValue(history, g.finalResult.winnerId), IsShutout(g.finalResult),
      HeadToHeadWins(history, p1.id), HeadToHeadWins(history, p2.id))
  }

  /**
   * What the bundle says about a game `g` between `p1` and `p2` appended to
   * `games`: the history is the earlier history followed by `g`; the win counts
   * include `g`; a decisive game's streak is two more than the winner's
   * trailing wins before it; a tie's streak is zero; the shutout flag tests the
   * raw scores.
   */
  lemma {:induction false} SummaryInputsOfRecordedGame(games: seq<StoredGame>, p1: User, p2: User, g: StoredGame)
    requires g.settings.player1Id == p1.id && g.settings.player2Id == p2.id
    ensures var s := SummaryInputs(games + [g], p1, p2, g);
      s.gamesBetweenPlayersHistory == History(games, p1.id, p2.id) + [g] &&
      s.headToHeadP1Wins == HeadToHeadWins(History(games, p1.id, p2.id), p1.id) +
        (if g.finalResult.winnerId == Some(p1.id) then 1 else 0) &&
      s.headToHeadP2Wins == HeadToHeadWins(History(games, p1.id, p2.id), p2.id) +
        (if g.finalResult.winnerId == Some(p2.id) then 1 else 0) &&
      (Truthy(g.finalResult.winnerId) ==>
        s.currentWinStreak == 2 + TrailingWins(History(games, p1.id, p2.id), g.finalResult.winnerId.value)) &&
      (!Truthy(g.finalResult.winnerId) ==> s.currentWinStreak == 0) &&
      (s.shutout <==> g.finalResult.player1Cumulative == 0 || g.finalResult.player2Cumulative == 0)
  {
    HistoryAfterRecord(games, g, p1.id, p2.id);
    HeadToHeadCountsLastGame(History(games, p1.id, p2.id), g, p1.id);
    HeadToHeadCountsLastGame(History(games, p1.id, p2.id), g, p2.id);
    if Truthy(g.finalResult.winnerId) {
      StreakAfterDecisiveGame(games, g, p1.id, p2.id);
    }
  }

  /**
   * The statistics block of the game-recording handler, run on the ledger that
   * already holds `g`: the shutout test, the head-to-head history and win
   * counts, and the streak loop.
   */
  method DeriveSummaryParams(ledger: seq<StoredGame>, p1: User, p2: User, g: StoredGame)
    returns (params: SummaryParams)
    ensures params == SummaryInputs(ledger, p1, p2, g)
  {
    var calculatedFinalResult := g.finalResult;
    var shutout := calculatedFinalResult.player1Cumulative == 0 || calculatedFinalResult.player2Cumulative == 0;
    var history := Filter(ledger, SamePair(p1.id, p2.id));
    var headToHeadP1Wins := |Filter(history, WonBy(p1.id))|;
    var headToHeadP2Wins := |Filter(history, WonBy(p2.id))|;
    var currentWinStreak := WinStreak(history, calculatedFinalResult.winnerId);
    params := SummaryParams(
      p1.name, p2.name, calculatedFinalResult, |g.hands|, TargetScore, HandWinBonus,
      history, currentWinStreak, shutout, headToHeadP1Wins, headToHeadP2Wins);
  }

  /** A game request with none of its three fields missing. */
  predicate Complete(data: GameRequest) {
    data.settings.Some? && data.hands.Some? && data.finalResult.Some?
  }

  /** Both players the settings name are registered. */
  predicate PlayersRegistered(users: seq<User>, settings: GameSettings) {
    FirstIndex(users, HasId(settings.player1Id)) != -1 && FirstIndex(users, HasId(settings.player2Id)) != -1
  }

  /**
   * The game a complete request for two registered players is stored as: the
   * given identifier and date, the request's settings, hands and final result,
   * and the generator's summary of the statistics derived from the ledger that
   * holds the game (still without a summary) at its end.
   */
  function RecordedGame(
    games: seq<StoredGame>, users: seq<User>, data: GameRequest, id: string, date: string,
    apiKey: Option<string>, service: SummaryParams -> ServiceOutcome): StoredGame
    requires Complete(data) && PlayersRegistered(users, data.settings.value)
  {
    var settings := data.settings.value;
    RecordedGameOf(games, users[FirstIndex(users, HasId(settings.player1Id))],
      users[FirstIndex(users, HasId(settings.player2Id))], data, id, date, apiKey, service)
  }

  /** `RecordedGame` once the two players' records `p1` and `p2` have been found. */
  function RecordedGameOf(
    games: seq<StoredGame>, p1: User, p2: User, data: GameRequest, id: string, date: string,
    apiKey: Option<string>, service: SummaryParams -> ServiceOutcome): StoredGame
    requires Complete(data)
  {
    var pending := StoredGame(id, date, data.settings.value, data.hands.value, data.finalResult.value, None);
    pending.(aiSummary := Some(GenerateGameSummary(SummaryInputs(games + [pending], p1, p2, pending), apiKey, service)))
  }

  /**
   * `after` is `before` with every player credited with its share of a game
   * whose seats were found at `i1` and `i2`.
   */
  predicate CreditedAll(before: seq<User>, after: seq<User>, gameId: string, i1: int, i2: int, winnerId: Option<string>)
    requires 0 <= i1 < |before| && 0 <= i2 < |before|
  {
    |after| == |before| &&
    forall k :: 0 <= k < |after| ==>
      after[k] == Credit(before[k], gameId, OutcomeFor(k, i1, i2, before[i1].id, before[i2].id, winnerId))
  }

  /** Crediting a game keeps the counters consistent and the identifiers distinct. */
  lemma CreditKeepsInvariants(before: seq<User>, after: seq<User>, gameId: string, i1: int, i2: int, winnerId: Option<string>)
    requires 0 <= i1 < |before| && 0 <= i2 < |before|
    requires CreditedAll(before, after, gameId, i1, i2, winnerId)
    ensures CountersConsistent(before) ==> CountersConsistent(after)
    ensures DistinctUserIds(before) ==> DistinctUserIds(after)
  {
  }

  /**
   * The statistics block followed by the call of the generator, whose text the
   * handler stores as the game's summary.
   */
  method SummariseGame(
    ledger: seq<StoredGame>, p1: User, p2: User, g: StoredGame,
    apiKey: Option<string>, service: SummaryParams -> ServiceOutcome)
    returns (summary: string)
    ensures summary == GenerateGameSummary(SummaryInputs(ledger, p1, p2, g), apiKey, service)
  {
    var params := DeriveSummaryParams(ledger, p1, p2, g);
    summary := GenerateGameSummary(params, apiKey, service);
  }

  /** Writing a field of the entry just pushed is the same as having pushed the updated entry. */
  lemma ReplaceLast<T>(s: seq<T>, x: T, y: T)
    ensures (s + [x])[|s| := y] == s + [y]
  {
  }

  /** Appending a game with a fresh identifier keeps the game identifiers distinct. */
  lemma AppendKeepsDistinctGameIds(games: seq<StoredGame>, g: StoredGame)
    requires forall k :: 0 <= k < |games| ==> games[k].id != g.id
    ensures DistinctGameIds(games) ==> DistinctGameIds(games + [g])
  {
  }

  /** The in-memory state of the server: the player registry and the game ledger. */
  class GameStore {
    var users: seq<User>
    var games: seq<StoredGame>

    /** Start-up: each collection is whatever its document loads as. */
    constructor (usersDocument: Download<User>, gamesDocument: Download<StoredGame>)
      ensures users == LoadCollection(usersDocument)
      ensures games == LoadCollection(gamesDocument)
    {
      users := LoadCollection(usersDocument);
      games := LoadCollection(gamesDocument);
    }

    /**
     * POST /users. A falsy name is refused with 400 and nothing changes;
     * otherwise a new player with the given name and zeroed counters is
     * appended, and every existing player is left as it was.
     */
    method CreateUser(name: Option<string>, id: string) returns (r: Response<User>)
      requires forall k :: 0 <= k < |users| ==> users[k].id != id
      modifies this
      ensures games == old(games)
      ensures !Truthy(name) ==> r == BadRequest(NameRequired) && users == old(users)
      ensures Truthy(name) ==>
        r == Created(User(id, name.value, [], 0, 0)) && users == old(users) + [r.body]
      ensures CountersConsistent(old(users)) ==> CountersConsistent(users)
      ensures DistinctUserIds(old(users)) ==> DistinctUserIds(users)
    {
      if !(name.Some? && name.value != "") {
        return BadRequest(NameRequired);
      }
      var newUser := User(id, name.value, [], 0, 0);
      users := users + [newUser];
      r := Created(newUser);
    }

    /** GET /users: the whole registry in stored order. */
    method ListUsers() returns (r: Response<seq<User>>)
      ensures r == Ok(users)
    {
      r := Ok(users);
    }

    /** GET /users/:id: the first player with that identifier, or 404 when there is none. */
    method GetUser(id: string) returns (r: Response<User>)
      ensures r.NotFound? <==> forall k :: 0 <= k < |users| ==> users[k].id != id
      ensures r.NotFound? ==> r.message == UserNotFound
      ensures !r.NotFound? ==> r.Ok? && r.body.id == id
      ensures !r.NotFound? ==>
        exists i :: 0 <= i < |users| && users[i] == r.body && forall k :: 0 <= k < i ==> users[k].id != id
    {
      var i := FirstIndex(users, HasId(id));
      if i == -1 {
        return NotFound(UserNotFound);
      }
      r := Ok(users[i]);
    }

    /**
     * PUT /users/:id. 404, with nothing changed, exactly when no player has
     * that identifier. Otherwise only the first such player's name changes,
     * and only when the supplied name is truthy; the response is that player.
     */
    method UpdateUser(id: string, name: Option<string>) returns (r: Response<User>)
      modifies this
      ensures games == old(games)
      ensures r.NotFound? <==> forall k :: 0 <= k < |old(users)| ==> old(users)[k].id != id
      ensures r.NotFound? ==> r == NotFound(UserNotFound) && users == old(users)
      ensures !r.NotFound? ==>
        var i := FirstIndex(old(users), HasId(id));
        r.Ok? && 0 <= i < |old(users)| && old(users)[i].id == id &&
        users == old(users)[i := if Truthy(name) then old(users)[i].(name := name.value) else old(users)[i]] &&
        r.body == users[i]
      ensures CountersConsistent(old(users)) ==> CountersConsistent(users)
      ensures DistinctUserIds(old(users)) ==> DistinctUserIds(users)
    {
      var userIndex := FirstIndex(users, HasId(id));
      if userIndex == -1 {
        return NotFound(UserNotFound);
      }
      if name.Some? && name.value != "" {
        users := users[userIndex := users[userIndex].(name := name.value)];
      }
      r := Ok(users[userIndex]);
    }

    /**
     * DELETE /users/:id. Every player with that identifier is removed and the
     * others keep their order; 404 exactly when nothing was removed. Games are
     * not touched, so they may keep referring to a removed player.
     */
    method DeleteUser(id: string) returns (r: Response<()>)
      modifies this
      ensures games == old(games)
      ensures users == Filter(old(users), HasOtherId(id))
      ensures forall u :: u in users <==> u in old(users) && u.id != id
      ensures r.NotFound? <==> forall k :: 0 <= k < |old(users)| ==> old(users)[k].id != id
      ensures r.NotFound? ==> r == NotFound(UserNotFound) && users == old(users)
      ensures !r.NotFound? ==> r == NoContent && |users| < |old(users)|
      ensures CountersConsistent(old(users)) ==> CountersConsistent(users)
      ensures DistinctUserIds(old(users)) ==> DistinctUserIds(users)
    {
      var initialLength := |users|;
      ghost var before := users;
      users := Filter(users, HasOtherId(id));
      FilterKeepsAll(before, HasOtherId(id));
      forall u {
        FilterMembership(before, HasOtherId(id), u);
      }
      if DistinctUserIds(before) {
        RemovalKeepsDistinctIds(before, id);
      }
      if |users| == initialLength {
        return NotFound(UserNotFound);
      }
      r := NoContent;
    }

    /**
     * POST /games. A request missing its settings, hands or final result gets
     * 400, and one naming a player who is not registered gets 404; neither
     * changes anything. Otherwise the game is appended to the ledger with the
     * given identifier and date, each seated player's record is credited with
     * its share of the outcome, and the game's summary is what the generator
     * makes of the statistics derived from the ledger that now holds the game.
     */
    method RecordGame(
      data: GameRequest,
      id: string,
      date: string,
      apiKey: Option<string>,
      service: SummaryParams -> ServiceOutcome)
      returns (r: Response<StoredGame>)
      requires forall k :: 0 <= k < |games| ==> games[k].id != id
      modifies this
      ensures r.BadRequest? <==> !Complete(data)
      ensures r.NotFound? <==> Complete(data) && !PlayersRegistered(old(users), data.settings.value)
      ensures r.Created? <==> Complete(data) && PlayersRegistered(old(users), data.settings.value)
      ensures r.BadRequest? ==> r == BadRequest(InvalidGameData) && users == old(users) && games == old(games)
      ensures r.NotFound? ==> r == NotFound(PlayersNotFound) && users == old(users) && games == old(games)
      ensures r.Created? ==>
        Complete(data) && PlayersRegistered(old(users), data.settings.value) &&
        r.body == RecordedGame(old(games), old(users), data, id, date, apiKey, service) &&
        games == old(games) + [r.body] &&
        CreditedAll(old(users), users, id,
          FirstIndex(old(users), HasId(data.settings.value.player1Id)),
          FirstIndex(old(users), HasId(data.settings.value.player2Id)),
          data.finalResult.value.winnerId)
      ensures CountersConsistent(old(users)) ==> CountersConsistent(users)
      ensures DistinctUserIds(old(users)) ==> DistinctUserIds(users)
      ensures DistinctGameIds(old(games)) ==> DistinctGameIds(games)
    {
      if data.settings.None? || data.hands.None? || data.finalResult.None? {
        return BadRequest(InvalidGameData);
      }
      var settings := data.settings.value;
      var i1 := FirstIndex(users, HasId(settings.player1Id));
      var i2 := FirstIndex(users, HasId(settings.player2Id));
      if i1 == -1 || i2 == -1 {
        return NotFound(PlayersNotFound);
      }
      var game := StoreGame(data, i1, i2, id, date, apiKey, service);
      r := Created(game);
    }

    /**
     * The success path of the game-recording handler (dist/index.js:121-179):
     * append the game, credit both players, derive the statistics from the
     * ledger that now holds the game and attach the generated summary.
     */
    method StoreGame(
      data: GameRequest, i1: int, i2: int, id: string, date: string,
      apiKey: Option<string>, service: SummaryParams -> ServiceOutcome)
      returns (game: StoredGame)
      requires Complete(data)
      requires 0 <= i1 < |users| && 0 <= i2 < |users|
      requires forall k :: 0 <= k < |games| ==> games[k].id != id
      modifies this
      ensures game == RecordedGameOf(old(games), old(users)[i1], old(users)[i2], data, id, date, apiKey, service)
      ensures games == old(games) + [game]
      ensures CreditedAll(old(users), users, id, i1, i2, data.finalResult.value.winnerId)
      ensures CountersConsistent(old(users)) ==> CountersConsistent(users)
      ensures DistinctUserIds(old(users)) ==> DistinctUserIds(users)
      ensures DistinctGameIds(old(games)) ==> DistinctGameIds(games)
    {
      ghost var users0 := users;
      var newGame := StoredGame(id, date, data.settings.value, data.hands.value, data.finalResult.value, None);
      games := games + [newGame];
      CreditPlayers(i1, i2, newGame.id, newGame.finalResult.winnerId);
      CreditKeepsInvariants(users0, users, newGame.id, i1, i2, newGame.finalResult.winnerId);
      assert users[i1].id == users0[i1].id && users[i1].name == users0[i1].name;
      assert users[i2].id == users0[i2].id && users[i2].name == users0[i2].name;

      var summary := SummariseGame(games, users[i1], users[i2], newGame, apiKey, service);
      ReplaceLast(old(games), games[|games| - 1], newGame.(aiSummary := Some(summary)));
      newGame := newGame.(aiSummary := Some(summary));
      games := games[|games| - 1 := newGame];
      AppendKeepsDistinctGameIds(old(games), newGame);
      game := newGame;
    }

    /**
     * The registry updates of the game-recording handler, in source order: the
     * game identifier is appended to the first and then the second player's
     * list, then the first player wins and the second loses when the winner
     * identifier is the first player's, else the reverse when it is the second
     * player's. When both seats are one record, every update lands on it.
     */
    method CreditPlayers(i1: int, i2: int, gameId: string, winnerId: Option<string>)
      requires 0 <= i1 < |users| && 0 <= i2 < |users|
      modifies this`users
      ensures CreditedAll(old(users), users, gameId, i1, i2, winnerId)
    {
      ghost var before := users;
      users := users[i1 := users[i1].(gamesPlayedIds := users[i1].gamesPlayedIds + [gameId])];
      users := users[i2 := users[i2].(gamesPlayedIds := users[i2].gamesPlayedIds + [gameId])];
      if winnerId == Some(users[i1].id) {
        users := users[i1 := users[i1].(gamesWon := users[i1].gamesWon + 1)];
        users := users[i2 := users[i2].(gamesLost := users[i2].gamesLost + 1)];
      } else if winnerId == Some(users[i2].id) {
        users := users[i2 := users[i2].(gamesWon := users[i2].gamesWon + 1)];
        users := users[i1 := users[i1].(gamesLost := users[i1].gamesLost + 1)];
      }
      CreditedAsRecorded(before, users, i1, i2, gameId, before[i1].id, before[i2].id, winnerId);
    }

    /** GET /users/:id/games: the ledger's games that seat the player in either seat, in ledger order. */
    method GamesForUser(id: string) returns (r: Response<seq<StoredGame>>)
      ensures r.Ok?
      ensures forall g :: g in r.body <==>
        g in games && (g.settings.player1Id == id || g.settings.player2Id == id)
      ensures r.body == Filter(games, Involves(id))
    {
      var userGames := Filter(games, Involves(id));
      forall g {
        FilterMembership(games, Involves(id), g);
      }
      r := Ok(userGames);
    }

    /** GET /games: the whole ledger in insertion order. */
    method ListGames() returns (r: Response<seq<StoredGame>>)
      ensures r == Ok(games)
    {
      r := Ok(games);
    }

    /**
     * GET /games/:id: the first game with that identifier, or 404 when there is none.
     * The source's 404 body names its field `error` rather than `message`.
     */
    method GetGame(id: string) returns (r: Response<StoredGame>)
      ensures r.NotFound? <==> forall k :: 0 <= k < |games| ==> games[k].id != id
      ensures r.NotFound? ==> r.message == GameNotFound
      ensures !r.NotFound? ==> r.Ok? && r.body.id == id
      ensures !r.NotFound? ==>
        exists i :: 0 <= i < |games| && games[i] == r.body && forall k :: 0 <= k < i ==> games[k].id != id
    {
      var i := FirstIndex(games, GameHasId(id));
      if i == -1 {
        return NotFound(GameNotFound);
      }
      r := Ok(games[i]);
    }
  }

  /**
   * The registry after the stepwise updates of the game-recording handler (two
   * appends to the played lists, then at most one win and one loss, in that
   * order and on possibly the same record) is the per-player credit of
   * `OutcomeFor`.
   */
  lemma CreditedAsRecorded(
    before: seq<User>, after: seq<User>, i1: int, i2: int, gameId: string,
    p1Id: string, p2Id: string, winnerId: Option<string>)
    requires 0 <= i1 < |before| && 0 <= i2 < |before|
    requires before[i1].id == p1Id && before[i2].id == p2Id
    requires
      var s1 := before[i1 := before[i1].(gamesPlayedIds := before[i1].gamesPlayedIds + [gameId])];
      var s2 := s1[i2 := s1[i2].(gamesPlayedIds := s1[i2].gamesPlayedIds + [gameId])];
      if winnerId == Some(s2[i1].id) then
        var s3 := s2[i1 := s2[i1].(gamesWon := s2[i1].gamesWon + 1)];
        after == s3[i2 := s3[i2].(gamesLost := s3[i2].gamesLost + 1)]
      else if winnerId == Some(s2[i2].id) then
        var s3 := s2[i2 := s2[i2].(gamesWon := s2[i2].gamesWon + 1)];
        after == s3[i1 := s3[i1].(gamesLost := s3[i1].gamesLost + 1)]
      else after == s2
    ensures |after| == |before|
    ensures forall k :: 0 <= k < |after| ==>
      after[k] == Credit(before[k], gameId, OutcomeFor(k, i1, i2, p1Id, p2Id, winnerId))
  {
  }

  /** Removing the players with one identifier keeps the others' identifiers pairwise distinct. */
  lemma {:induction false} RemovalKeepsDistinctIds(users: seq<User>, id: string)
    requires DistinctUserIds(users)
    ensures DistinctUserIds(Filter(users, HasOtherId(id)))
  {
    if users != [] {
      var tail := users[1..];
      assert DistinctUserIds(tail) by {
        forall i, j | 0 <= i < j < |tail| ensures tail[i].id != tail[j].id {
          assert tail[i] == users[i + 1] && tail[j] == users[j + 1];
        }
      }
      RemovalKeepsDistinctIds(tail, id);
      var rest := Filter(tail, HasOtherId(id));
      forall k | 0 <= k < |rest| ensures rest[k].id != users[0].id {
        FilterMembership(tail, HasOtherId(id), rest[k]);
        var j :| 0 <= j < |tail| && tail[j] == rest[k];
        assert users[j + 1] == rest[k];
      }
    }
  }
}
