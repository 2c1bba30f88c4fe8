/**
 * The boundary of the narrative-summary generator (`generateGameSummary`): the
 * bundle it is given, the decision on a missing credential, the fallback text
 * it returns for any thrown value, and the two name choices made while wording
 * the prompt. The generative service itself is a parameter.
 */
module Narrative {
  import opened Wrappers
  import opened GameTypes

  /** The statistics bundle handed to the generator. */
  datatype SummaryParams = SummaryParams(
    p1Name: string,
    p2Name: string,
    calculatedFinalResult: FinalGameResult,
    handsLength: nat,
    targetScore: int,
    handWinBonus: int,
    gamesBetweenPlayersHistory: seq<StoredGame>,
    currentWinStreak: nat,
    shutout: bool,
    headToHeadP1Wins: nat,
    headToHeadP2Wins: nat)

  /** A value caught by the generator's `catch`: an `Error` with its message, or anything else. */
  datatype Thrown = ErrorValue(message: string) | OtherValue

  /** What a call of the generative service does: answer with text, or throw. */
  datatype ServiceOutcome = Text(text: string) | Threw(error: Thrown)

  const MissingKeyError: string := "API_KEY environment variable is not set."
  const KeyMarker: string := "API_KEY"
  const GenericFallback: string := "Could not generate AI summary."
  const KeyFallback: string := "Could not generate AI summary. API key might be missing or invalid."
  const DescribedPrefix: string := "Could not generate AI summary: "
  const Ellipsis: string := "..."
  /** How many characters of an error message the fallback quotes. */
  const QuoteLength: nat := 100

  /** `s.includes(sub)`: `sub` occurs somewhere in `s`. */
  predicate Contains(s: string, sub: string)
    decreases |s|
  {
    sub <= s || (s != [] && Contains(s[1..], sub))
  }

  /** `message.substring(0, 100)` followed by an ellipsis exactly when something was cut off. */
  function Quote(message: string): (r: string)
    ensures |message| <= QuoteLength ==> r == message
    ensures |message| > QuoteLength ==> r == message[..QuoteLength] + Ellipsis
  {
    (if |message| <= QuoteLength then message else message[..QuoteLength]) +
    (if |message| > QuoteLength then Ellipsis else "")
  }

  /** The text the `catch` block returns for a caught value. */
  function FallbackMessage(e: Thrown): (r: string)
    ensures e.OtherValue? ==> r == GenericFallback
    ensures e.ErrorValue? && Contains(e.message, KeyMarker) ==> r == KeyFallback
    ensures e.ErrorValue? && !Contains(e.message, KeyMarker) ==>
      DescribedPrefix <= r && |r| <= |DescribedPrefix| + QuoteLength + |Ellipsis|
  {
    match e
    case ErrorValue(m) =>
      if Contains(m, KeyMarker) then KeyFallback else DescribedPrefix + Quote(m)
    case OtherValue => GenericFallback
  }

  /** The three branches of the fallback. */
  datatype FallbackKind = KeyProblem | Described | Undescribed

  function KindOf(e: Thrown): FallbackKind {
    if e.ErrorValue? && Contains(e.message, KeyMarker) then KeyProblem
    else if e.ErrorValue? then Described
    else Undescribed
  }

  /** Reads back from a fallback text which branch produced it. */
  function ClassifyFallback(r: string): FallbackKind {
    if r == KeyFallback then KeyProblem
    else if DescribedPrefix <= r then Described
    else Undescribed
  }

  /** The branch that produced a fallback text can always be told from the text. */
  lemma ClassifyFallbackMessage(e: Thrown)
    ensures ClassifyFallback(FallbackMessage(e)) == KindOf(e)
  {
    assert KeyFallback[29] == '.' && DescribedPrefix[29] == ':';
    assert !(DescribedPrefix <= KeyFallback);
    assert !(DescribedPrefix <= GenericFallback);
    if e.ErrorValue? && !Contains(e.message, KeyMarker) {
      var r := FallbackMessage(e);
      assert r[29] == ':';
    }
  }

  /** A message of at most 100 characters is quoted whole and can be read back from the fallback. */
  lemma FallbackQuotesShortMessage(m: string)
    requires |m| <= QuoteLength && !Contains(m, KeyMarker)
    ensures FallbackMessage(ErrorValue(m)) == DescribedPrefix + m
    ensures FallbackMessage(ErrorValue(m))[|DescribedPrefix|..] == m
  {
  }

  /** A longer message is cut to its first 100 characters and marked with an ellipsis. */
  lemma FallbackTruncatesLongMessage(m: string)
    requires |m| > QuoteLength && !Contains(m, KeyMarker)
    ensures FallbackMessage(ErrorValue(m)) == DescribedPrefix + m[..QuoteLength] + Ellipsis
    ensures |FallbackMessage(ErrorValue(m))| == |DescribedPrefix| + QuoteLength + |Ellipsis|
  {
  }

  /** The message raised for a missing credential mentions the credential's name. */
  lemma MissingKeyErrorMentionsKey()
    ensures Contains(MissingKeyError, KeyMarker)
  {
  }

  /**
   * The generator never throws: without a truthy API key it returns the
   * key fallback; otherwise it returns the service's text, or the fallback for
   * whatever the service threw.
   */
  function GenerateGameSummary(
    params: SummaryParams,
    apiKey: Option<string>,
    service: SummaryParams -> ServiceOutcome): (r: string)
    ensures !Truthy(apiKey) ==> r == KeyFallback
    ensures Truthy(apiKey) && service(params).Text? ==> r == service(params).text
    ensures Truthy(apiKey) && service(params).Threw? ==> r == FallbackMessage(service(params).error)
  {
    if !Truthy(apiKey) then
      MissingKeyErrorMentionsKey();
      FallbackMessage(ErrorValue(MissingKeyError))
    else
      match service(params)
      case Text(t) => t
      case Threw(e) => FallbackMessage(e)
  }

  /** The winner label the prompt uses for the streak sentence. */
  const TieName: string := "It's a Tie!"
  const UnnamedWinner: string := "the winner (if not a tie)"

  function WinnerLabel(winnerName: string): (r: string)
    ensures r == winnerName <==> winnerName != TieName
    ensures r != winnerName ==> r == UnnamedWinner
  {
    if winnerName != TieName then winnerName else UnnamedWinner
  }

  /** The opponent the prompt's example sentence names: the second player when the first won, else the first. */
  function NamedOpponent(winnerName: string, p1Name: string, p2Name: string): (r: string)
    ensures r == p2Name || r == p1Name
    ensures winnerName == p1Name ==> r == p2Name
    ensures winnerName != p1Name ==> r == p1Name
  {
    if winnerName == p1Name then p2Name else p1Name
  }

  /** For two different display names, the named opponent of either winner is the other player. */
  lemma NamedOpponentIsTheOther(winnerName: string, p1Name: string, p2Name: string)
    requires p1Name != p2Name && (winnerName == p1Name || winnerName == p2Name)
    ensures NamedOpponent(winnerName, p1Name, p2Name) != winnerName
    ensures NamedOpponent(NamedOpponent(winnerName, p1Name, p2Name), p1Name, p2Name) == winnerName
  {
  }
}
