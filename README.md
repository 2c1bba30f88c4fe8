# Gin-rummy results server: store and statistics, in Dafny

This project models the core of a small game-results server. The server keeps
two process-wide arrays: `users`, the player registry, and `games`, the game
ledger. Its HTTP route handlers push to them, write fields of their entries,
or replace an array with a filtered copy. When a game is
recorded, the handler also derives head-to-head statistics from the ledger:
the shutout flag, the history between the two players, each player's wins
within it and the current winner's streak. It passes those statistics to a
narrative generator. When the generator fails, it returns a fallback text
instead of throwing.

Modules, leaf first:

- `Wrappers`: `Option`, which stands for JavaScript `null`/`undefined`.
- `Seqs`: the two array methods the server relies on. `Filter` models
  `filter`, an order-preserving selection. `FirstIndex` models `findIndex`
  and `find`. These come with lemmas on membership, concatenation, length and
  partition.
- `GameTypes`: the records `User`, `GameSettings`, `HandResult`,
  `FinalGameResult` and `StoredGame`, and JavaScript truthiness of an optional
  string.
- `Storage`: the decision the start-up loader makes for each kind of fetch
  result. The loader never fails: a missing document, a failed fetch and a
  document that does not parse all become the empty collection.
- `Statistics`: the shutout test, the history filter, head-to-head counts, and
  the streak loop, which is proved against the longest-suffix definition
  `TrailingWins`.
- `Narrative`: the generator's boundary. It covers the missing-credential
  check, the catch-block fallback text (a 100-character quote plus an
  ellipsis) and the two name choices used in the prompt. The generative
  service is a parameter.
- `Server`: the class `GameStore`, whose fields are `users: seq<User>` and
  `games: seq<StoredGame>`. Each route handler is a method returning a
  `Response` (201, 200, 204, 400 or 404).

Where the prompt wording in src/utils/aiSummary.ts and the code disagree, the
model follows the code:

- The history filter runs after the new game has been appended to the ledger,
  so the history ends with the current game and the head-to-head counts
  include it. The prompt calls this history and these counts the context
  "before this current game" (src/utils/aiSummary.ts:52-55).
- The streak is seeded at 1 and the backward scan then counts the current game
  again. The prompt presents the streak as "including this current game"
  (src/utils/aiSummary.ts:57-58), that is, counting it once. So a first win
  between two players reports a streak of 2, not 1 (`Statistics.FirstMeeting`),
  and a fourth straight win reports 5, not 4 (`Statistics.FourthStraightWin`).
- A missing field of a game request yields 400. An empty `hands` array is
  present, not missing, so it does not.
- DELETE removes every player with the identifier, not just the first one.
- The head-to-head "neither" count holds ties and also any winner identifier
  that is neither player's.
- When both seats of a game name the same player, that one record receives
  every update (`Server.OutcomeOfSelfPlay`).

Inputs that the program takes from its environment are parameters here:

- the fresh identifier, which the program draws from a random generator;
- the creation date, which it reads from the clock;
- the API key, which it reads from the process environment;
- the result of each document fetch;
- the narrative service itself, as a function from the statistics bundle to
  either text or a thrown value.

## Model

| member | source | states |
|---|---|---|
| `Storage.LoadCollection` | dist/index.js:33-49 | A parsed document yields its content. An absent document, a failed fetch and a failed parse each yield the empty collection. Loading never fails. |
| `Storage.NonEmptyLoadWasStored` | dist/index.js:36-43 | A non-empty loaded collection can only come from a stored document that parsed. |
| `Storage.LoadAfterPersist` | dist/index.js:23-49 | Loading the document an upload leaves gives the uploaded collection back. `Persisted` is itself the assumption that JSON serialisation and parsing are inverse, so this lemma only records that the loader returns such a document unchanged. No handler's upload is modelled. |
| `Server.GameStore.constructor` | dist/index.js:51-58 | Each collection starts as whatever its document loads as. |
| `Server.GameStore.CreateUser` | dist/index.js:60-75 | A falsy name gives 400 and changes nothing. Otherwise exactly one player is appended at the end: the given name, no games played, zero wins and losses. Earlier players and games are unchanged, and counter consistency and identifier distinctness are preserved. |
| `Server.GameStore.ListUsers` | dist/index.js:76-78 | Returns the whole registry, in stored order, with 200. |
| `Server.GameStore.GetUser` | dist/index.js:79-86 | 404 exactly when no player has the identifier. Otherwise returns the first player that has it. |
| `Server.GameStore.UpdateUser` | dist/index.js:87-99 | 404 exactly when no player has the identifier, and then nothing changes. Otherwise only the first matching player's name changes, and only when the new name is truthy. The response is that player. |
| `Server.GameStore.DeleteUser` | dist/index.js:100-109 | Removes every player with the identifier; the rest keep their order. 404 exactly when none was removed. Games are untouched, so they may still refer to a removed player. Counter consistency and identifier distinctness are preserved. |
| `Server.GameStore.RecordGame` | dist/index.js:111-180 | 400 exactly when settings, hands or final result is missing. 404 exactly when all three are present and a player is unknown. Neither changes anything. 201 exactly when the request is complete and both players are registered. Then the game (given id and date) is appended at the end of the ledger. Each player gets the credit `OutcomeFor` describes. The game's summary is the generator's output for the bundle derived from the ledger that now holds the game. Counter consistency and identifier distinctness are preserved. |
| `Server.GameStore.StoreGame` | dist/index.js:121-179 | The success path of the handler: the game with the given id, date and request fields is pushed, both found players are credited as `OutcomeFor` describes, and the pushed entry's summary is then set to the generator's text. The stored game equals `RecordedGameOf` for the players as they were before the credit. Counter consistency and distinct user identifiers in the registry, and distinct game identifiers in the ledger, are preserved. |
| `Server.SummariseGame` | dist/index.js:142-178 | The summary text is exactly what the generator returns for the `SummaryInputs` bundle of the ledger, the two players and the game. |
| `Server.GameStore.CreditPlayers` | dist/index.js:131-140 | The two played-list appends and the win/loss increments, applied in source order to a possibly shared record, leave every player as its own `OutcomeFor` credit describes. |
| `Server.CreditedAsRecorded` | dist/index.js:131-140 | The stepwise updates agree with the per-player credit, including when both seats are one record. |
| `Server.OutcomeBalanced` | dist/index.js:131-140 | A recorded game never adds more wins plus losses to a player than games played. This is what keeps wins plus losses at most the length of `gamesPlayedIds`. |
| `Server.OutcomeOfDistinctPlayers` | dist/index.js:133-140 | For two distinct players, the first seat's winner identifier credits one win to the first player and one loss to the second; the second seat's does the reverse. Any other identifier changes no counter. Each seated player plays one game, and no one else is touched. |
| `Server.OutcomeOfSelfPlay` | dist/index.js:116-139 | When both seats name one player, that player lists the game twice. A win for that player is counted as a win and a loss. |
| `Server.DeriveSummaryParams` | dist/index.js:142-164 | The statistics block computes exactly the `SummaryInputs` bundle: names, final result, hand count, constants 200 and 10, shutout, history, head-to-head counts and streak. |
| `Server.SummaryInputsOfRecordedGame` | dist/index.js:129-164 | For a game just appended, the history is the earlier history followed by that game. Both head-to-head counts include the game. A truthy winner's streak is 2 plus that winner's trailing wins before the game; a tie's streak is 0. The shutout flag holds exactly when a raw score is 0. |
| `Server.RemovalKeepsDistinctIds` | dist/index.js:103 | Removing every player with one identifier keeps the remaining players' identifiers pairwise distinct. |
| `Server.GameStore.GamesForUser` | dist/index.js:181-185 | Returns exactly the ledger games that have the player in either seat, in ledger order. |
| `Server.GameStore.ListGames` | dist/index.js:186-188 | Returns the whole ledger, in insertion order, with 200. |
| `Server.GameStore.GetGame` | dist/index.js:189-196 | 404 exactly when no game has the identifier. Otherwise returns the first game that has it. |
| `Seqs.FirstIndex` | dist/index.js:90-91 | Returns -1 exactly when no element passes the test. Otherwise it returns an index whose element passes and before which none does. |
| `Seqs.Filter` | dist/index.js:103 | The result is no longer than the input, and every kept element passes the test. |
| `Seqs.FilterMembership` | dist/index.js:103 | An element is kept exactly when it is in the input and passes the test. |
| `Seqs.FilterAppend` | dist/index.js:149 | Filtering distributes over concatenation, so the selection keeps input order. |
| `Seqs.FilterKeepsAll` | dist/index.js:102-104 | The length is unchanged exactly when every element passes, and then the result equals the input. |
| `Seqs.FilterPartition` | dist/index.js:150-151 | For two tests that never both hold, the counts for the first test, the second test and neither add up to the length. |
| `Statistics.ShutoutBoundaries` | dist/index.js:148 | A raw score of 0 on either side is a shutout. Raw scores of 1 and 1 are not. |
| `Statistics.HistoryMembership` | dist/index.js:149 | A game is in the history exactly when it is in the ledger and seats the two players, in either order. |
| `Statistics.HistorySymmetric` | dist/index.js:149 | Swapping the two players gives the same history. |
| `Statistics.HistoryAfterRecord` | dist/index.js:129-149 | Appending a game between the players extends their history by exactly that game, at the end. |
| `Statistics.HistoryOfStrangers` | dist/index.js:149 | With no ledger game between the players, the history is empty. |
| `Statistics.HeadToHeadTally` | dist/index.js:150-151 | For distinct players, wins of the first plus wins of the second plus games neither won equals the history length. So the two win counts sum to at most that length. |
| `Statistics.HeadToHeadCountsLastGame` | dist/index.js:129-151 | A game appended to the history adds one to the count of the player it names as winner, and nothing to the other counts. |
| `Statistics.TrailingWinsIsLongestSuffix` | dist/index.js:155-162 | `TrailingWins` is the length of the longest suffix of the history won by the given player: every game in that suffix was won by the player, and the game just before it was not. |
| `Statistics.WinStreak` | dist/index.js:152-164 | The countdown loop with its `break` returns 0 for a falsy winner identifier. Otherwise it returns 1 plus the length of the longest suffix of the history won by the current winner. |
| `Statistics.StreakBounds` | dist/index.js:152-164 | A falsy winner gives a streak of 0. A truthy winner gives a streak between 1 and the history length plus 1. |
| `Statistics.StreakAfterDecisiveGame` | dist/index.js:129-164 | Because the history ends with the current game, a decisive game's streak is 2 plus the winner's earlier trailing wins, so at least 2. |
| `Statistics.FirstMeeting` | dist/index.js:129-164 | First game between two players, won by the first: the history is that one game, the head-to-head counts are 1 and 0, and the streak is 2. |
| `Statistics.FourthStraightWin` | dist/index.js:152-164 | After three earlier wins by the same player, a fourth win reports a streak of 5. |
| `Narrative.Quote` | src/utils/aiSummary.ts:86 | A message of at most 100 characters is quoted whole. A longer one is cut to its first 100 characters and followed by "...". |
| `Narrative.FallbackMessage` | src/utils/aiSummary.ts:80-89 | A non-Error thrown value gives "Could not generate AI summary.". An Error whose message contains "API_KEY" gives the key-problem text. Any other Error gives the described prefix followed by at most 103 further characters. |
| `Narrative.ClassifyFallbackMessage` | src/utils/aiSummary.ts:82-87 | The three fallback branches produce texts that can be told apart: the branch can always be read back from the text. |
| `Narrative.FallbackQuotesShortMessage` | src/utils/aiSummary.ts:86 | For a message of at most 100 characters without "API_KEY", the fallback is the prefix followed by the whole message, and the message can be read back. |
| `Narrative.FallbackTruncatesLongMessage` | src/utils/aiSummary.ts:86 | For a longer message without "API_KEY", the fallback is the prefix, the first 100 characters and "...", of fixed total length. |
| `Narrative.MissingKeyErrorMentionsKey` | src/utils/aiSummary.ts:34-35 | The error raised for a missing credential contains "API_KEY". |
| `Narrative.GenerateGameSummary` | src/utils/aiSummary.ts:18-89 | Never throws. A falsy API key gives exactly the key-problem text. Otherwise the result is the service's text, or the fallback for whatever the service threw. |
| `Narrative.WinnerLabel` | src/utils/aiSummary.ts:58 | The label is the winner's name exactly when that name is not "It's a Tie!". Otherwise it is the generic winner phrase. |
| `Narrative.NamedOpponent` | src/utils/aiSummary.ts:70 | Names the second player when the winner's name is the first player's, and the first player otherwise. |
| `Narrative.NamedOpponentIsTheOther` | src/utils/aiSummary.ts:70 | For two different display names and a winner who is one of them, the named opponent is the other one, and choosing again returns the winner. |

The reference definitions `Narrative.Contains` (the `includes` test, src/utils/aiSummary.ts:83), `GameTypes.Truthy` (the `!x` and `if (x)` tests, dist/index.js:62, 94, 153 and src/utils/aiSummary.ts:34), `Statistics.IsShutout` (dist/index.js:148), `Statistics.History` (dist/index.js:149) and `Statistics.HeadToHeadWins` (dist/index.js:150-151) mirror the source expressions directly. They carry no row of their own: the lemmas above (`ShutoutBoundaries`, the `History*` and `HeadToHead*` lemmas, `ClassifyFallbackMessage`, `FallbackMessage`) state what each means.

## Left out

- The Google Cloud Storage upload and download, `JSON.stringify` and `JSON.parse`, and console logging (dist/index.js:9-49, 56; src/utils/aiSummary.ts:81). These are foreign I/O. Only the loader's decision on each fetch result is kept. A document that parses to something other than an array is not modelled.
- The upload calls inside the handlers (dist/index.js:73, 97, 107, 130, 141, 178), their failures, and last-writer-wins between overlapping uploads. Each handler is one atomic step, so neither other requests running at its `await` points nor a request arriving before start-up loading finishes is modelled.
- Express routing, JSON body parsing, CORS, port parsing and `listen` (dist/index.js:6-12, 197-200). This is framework plumbing. Request fields arrive as `Option` values.
- `generateId` (dist/index.js:21) and `new Date().toISOString()` (dist/index.js:123). The identifier and the date are parameters. `CreateUser` and `RecordGame` require the identifier to be fresh. The code itself does not guarantee this.
- The Gemini client, the prompt text and `response.text` (src/utils/aiSummary.ts:37-78). These are an opaque foreign service, modelled as a function parameter. Only the two name choices in the prompt are kept.
- Request fields of types other than the declared ones, such as a numeric `name` or a non-string `winnerId`. Truthiness is modelled for optional strings only.
- Any check that the final result's scores match the hands. The server does not perform one.
- `Narrative.Quote`: counts characters (Unicode scalar values), while JavaScript's `substring` and `length` count UTF-16 code units. The two agree on messages without characters outside the Basic Multilingual Plane.
- `ListUsers` and `ListGames` return the live arrays by reference in the source. The model returns their values.
- JavaScript `number` (scores, hands won, the win and loss counters) is modelled as an unbounded `int`. Non-integral values, `NaN` and values beyond the safe-integer range are not represented. The shutout test (dist/index.js:148) and the increments (dist/index.js:134-139) behave the same on every integer.
- `GetGame`: the 404 body at dist/index.js:193 uses the JSON key `error`, while every other error response uses `message`. The model gives every error response a `message` field, so the key of this one response is not kept.
