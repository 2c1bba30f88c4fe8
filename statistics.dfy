/**
 * The statistics the game-recording handler derives right after appending the
 * new game to the ledger: the shutout flag, the head-to-head history of the two
 * players, each player's wins within it and the current winner's streak.
 */
module Statistics {
  import opened Wrappers
  import opened GameTypes
  import opened Seqs

  /** The scoring constants the handler passes on for the narrative. */
  const TargetScore: int := 200
  const HandWinBonus: int := 10

  /** A shutout: either player's raw cumulative score is exactly zero. */
  predicate IsShutout(fr: FinalGameResult) {
    fr.player1Cumulative == 0 || fr.player2Cumulative == 0
  }

  /** Both boundary cases of the shutout test. */
  lemma ShutoutBoundaries(fr: FinalGameResult)
    ensures fr.player1Cumulative == 0 ==> IsShutout(fr)
    ensures fr.player2Cumulative == 0 ==> IsShutout(fr)
    ensures fr.player1Cumulative == 1 && fr.player2Cumulative == 1 ==> !IsShutout(fr)
  {
  }

  /** A game whose settings seat `a` and `b`, in either order. */
  function SamePair(a: string, b: string): StoredGame -> bool {
    (g: StoredGame) =>
      (g.settings.player1Id == a && g.settings.player2Id == b) ||
      (g.settings.player1Id == b && g.settings.player2Id == a)
  }

  /** The head-to-head history: the ledger's games between `a` and `b`, in ledger order. */
  function History(games: seq<StoredGame>, a: string, b: string): seq<StoredGame> {
    Filter(games, SamePair(a, b))
  }

  /** A game belongs to the history exactly when it is in the ledger and seats the two players. */
  lemma HistoryMembership(games: seq<StoredGame>, a: string, b: string, g: StoredGame)
    ensures g in History(games, a, b) <==>
      g in games &&
      ((g.settings.player1Id == a && g.settings.player2Id == b) ||
       (g.settings.player1Id == b && g.settings.player2Id == a))
  {
    FilterMembership(games, SamePair(a, b), g);
  }

  /** The pair is unordered: naming the players the other way round gives the same history. */
  lemma {:induction false} HistorySymmetric(games: seq<StoredGame>, a: string, b: string)
    ensures History(games, a, b) == History(games, b, a)
  {
    if games != [] {
      HistorySymmetric(games[1..], a, b);
    }
  }

  /**
   * Recording a game between the two players extends their history by exactly
   * that game, at the end.
   */
  lemma HistoryAfterRecord(games: seq<StoredGame>, g: StoredGame, a: string, b: string)
    requires SamePair(a, b)(g)
    ensures History(games + [g], a, b) == History(games, a, b) + [g]
  {
    FilterAppend(games, [g], SamePair(a, b));
    FilterSingleton(g, SamePair(a, b));
  }

  /** When no ledger game seats the two players, their history is empty. */
  lemma HistoryOfStrangers(games: seq<StoredGame>, a: string, b: string)
    requires forall k :: 0 <= k < |games| ==> !SamePair(a, b)(games[k])
    ensures History(games, a, b) == []
  {
    var h := History(games, a, b);
    if h != [] {
      FilterMembership(games, SamePair(a, b), h[0]);
      assert false;
    }
  }

  /** A player's head-to-head wins: the history games whose winner identifier is that player's. */
  function HeadToHeadWins(history: seq<StoredGame>, id: string): nat {
    |Filter(history, WonBy(id))|
  }

  /** The history games that neither `a` nor `b` won (ties and foreign winner identifiers). */
  function Undecided(history: seq<StoredGame>, a: string, b: string): nat {
    |Filter(history, Neither(WonBy(a), WonBy(b)))|
  }

  /**
   * For two distinct players, every history game is a win for one of them or
   * for neither, so the two win counts and the undecided count add up to the
   * length of the history.
   */
  lemma HeadToHeadTally(history: seq<StoredGame>, a: string, b: string)
    requires a != b
    ensures HeadToHeadWins(history, a) + HeadToHeadWins(history, b) + Undecided(history, a, b) == |history|
    ensures HeadToHeadWins(history, a) + HeadToHeadWins(history, b) <= |history|
  {
    FilterPartition(history, WonBy(a), WonBy(b));
  }

  /** The counts include the game at the end of the history. */
  lemma HeadToHeadCountsLastGame(history: seq<StoredGame>, g: StoredGame, id: string)
    ensures HeadToHeadWins(history + [g], id) ==
      HeadToHeadWins(history, id) + (if g.finalResult.winnerId == Some(id) then 1 else 0)
  {
    FilterAppend(history, [g], WonBy(id));
    FilterSingleton(g, WonBy(id));
  }

  /** The number of games at the end of the history that `w` won, counted backwards until the first other result. */
  function TrailingWins(history: seq<StoredGame>, w: string): nat {
    if history == [] then 0
    else if history[|history| - 1].finalResult.winnerId == Some(w) then
      1 + TrailingWins(history[..|history| - 1], w)
    else 0
  }

  /**
   * `TrailingWins` is the length of the longest suffix of the history won by
   * `w`: every game in that suffix was won by `w`, and the game just before it,
   * if there is one, was not.
   */
  lemma {:induction false} TrailingWinsIsLongestSuffix(history: seq<StoredGame>, w: string)
    ensures TrailingWins(history, w) <= |history|
    ensures forall k :: |history| - TrailingWins(history, w) <= k < |history| ==>
      history[k].finalResult.winnerId == Some(w)
    ensures TrailingWins(history, w) < |history| ==>
      history[|history| - 1 - TrailingWins(history, w)].finalResult.winnerId != Some(w)
  {
    if history != [] && history[|history| - 1].finalResult.winnerId == Some(w) {
      var front := history[..|history| - 1];
      TrailingWinsIsLongestSuffix(front, w);
      assert forall k :: 0 <= k < |front| ==> front[k] == history[k];
    }
  }

  /**
   * The reported streak: zero when the current winner identifier is falsy,
   * otherwise one (the seed) plus the trailing wins of the current winner.
   */
  function StreakValue(history: seq<StoredGame>, winnerId: Option<string>): nat {
    if Truthy(winnerId) then 1 + TrailingWins(history, winnerId.value) else 0
  }

  /** The streak loop: a countdown over the history from its last game, stopping at the first other result. */
  method WinStreak(history: seq<StoredGame>, winnerId: Option<string>) returns (currentWinStreak: nat)
    ensures currentWinStreak == StreakValue(history, winnerId)
  {
    currentWinStreak := 0;
    if winnerId.Some? && winnerId.value != "" {
      var streak := 1;
      var i := |history| - 1;
      assert history[..i + 1] == history;
      while i >= 0
        invariant -1 <= i < |history|
        invariant streak + TrailingWins(history[..i + 1], winnerId.value) ==
          1 + TrailingWins(history, winnerId.value)
      {
        assert history[..i + 1][..i] == history[..i];
        if history[i].finalResult.winnerId == winnerId {
          streak := streak + 1;
        } else {
          break;
        }
        i := i - 1;
      }
      currentWinStreak := streak;
    }
  }

  /** A decisive game has a streak of at least one and at most one more than the history's length. */
  lemma StreakBounds(history: seq<StoredGame>, winnerId: Option<string>)
    ensures !Truthy(winnerId) ==> StreakValue(history, winnerId) == 0
    ensures Truthy(winnerId) ==> 1 <= StreakValue(history, winnerId) <= |history| + 1
  {
    if Truthy(winnerId) {
      TrailingWinsIsLongestSuffix(history, winnerId.value);
    }
  }

  /**
   * Because the history already ends with the game just recorded, the winner's
   * streak counts that game once through the seed and once more through the
   * scan: it is two plus the winner's trailing wins among the earlier games.
   */
  lemma StreakAfterDecisiveGame(games: seq<StoredGame>, g: StoredGame, a: string, b: string)
    requires SamePair(a, b)(g)
    requires Truthy(g.finalResult.winnerId)
    ensures StreakValue(History(games + [g], a, b), g.finalResult.winnerId) ==
      2 + TrailingWins(History(games, a, b), g.finalResult.winnerId.value)
    ensures StreakValue(History(games + [g], a, b), g.finalResult.winnerId) >= 2
  {
    HistoryAfterRecord(games, g, a, b);
    var h := History(games, a, b);
    assert (h + [g])[..|h + [g]| - 1] == h;
  }

  /**
   * Two players with no earlier game between them: the first player's win is
   * the whole history, gives head-to-head counts of one and zero, and a streak
   * of two, since the game is both the seed and the first match of the scan.
   */
  lemma FirstMeeting(games: seq<StoredGame>, g: StoredGame, a: string, b: string)
    requires a != b && a != ""
    requires forall k :: 0 <= k < |games| ==> !SamePair(a, b)(games[k])
    requires g.settings.player1Id == a && g.settings.player2Id == b
    requires g.finalResult.winnerId == Some(a)
    ensures History(games + [g], a, b) == [g]
    ensures HeadToHeadWins(History(games + [g], a, b), a) == 1
    ensures HeadToHeadWins(History(games + [g], a, b), b) == 0
    ensures StreakValue(History(games + [g], a, b), Some(a)) == 2
  {
    HistoryOfStrangers(games, a, b);
    HistoryAfterRecord(games, g, a, b);
    HeadToHeadCountsLastGame([], g, a);
    HeadToHeadCountsLastGame([], g, b);
    StreakAfterDecisiveGame(games, g, a, b);
  }

  /**
   * Three earlier games between the players, all won by `a`, and `a` wins
   * again: the streak reported is five.
   */
  lemma FourthStraightWin(games: seq<StoredGame>, g: StoredGame, a: string, b: string)
    requires a != ""
    requires |History(games, a, b)| == 3
    requires forall k :: 0 <= k < 3 ==> History(games, a, b)[k].finalResult.winnerId == Some(a)
    requires g.settings.player1Id == a && g.settings.player2Id == b
    requires g.finalResult.winnerId == Some(a)
    ensures StreakValue(History(games + [g], a, b), Some(a)) == 5
  {
    StreakAfterDecisiveGame(games, g, a, b);
    var h := History(games, a, b);
    assert h[..2][1] == h[1] && h[..1][0] == h[0];
    assert h[..2][..1] == h[..1] && h[..1][..0] == [];
    assert TrailingWins(h[..1], a) == 1;
    assert TrailingWins(h[..2], a) == 2;
    assert TrailingWins(h, a) == 3;
  }
}
