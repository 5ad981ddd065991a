/**
 * Choosing the latest game of a games response (`get_last_match_data`, util.py):
 * an error message, "No games found", or the game with the greatest
 * `started_at`, comparing the timestamps as strings.
 */
module LastMatch {
  import opened Wrappers
  import opened MatchRecord
  import LexOrder

  /** What `get_last_match_data` returns: a message string or a match record. */
  datatype LastMatch = Message(text: string) | Found(game: Match)

  const NoGamesFound: string := "No games found"

  /** Game `i` has the greatest `started_at`, and every earlier game a smaller one. */
  ghost predicate FirstLatest(games: seq<Match>, i: int)
  {
    && 0 <= i < |games|
    && (forall j :: 0 <= j < |games| ==> !LexOrder.Less(games[i].startedAt, games[j].startedAt))
    && (forall j :: 0 <= j < i ==> LexOrder.Less(games[j].startedAt, games[i].startedAt))
  }

  /**
   * The position Python's `max(games, key=started_at)` picks: scanning left to
   * right, a game replaces the current maximum only when its key is strictly greater.
   */
  function LatestIndex(games: seq<Match>): (i: nat)
    requires |games| > 0
    ensures FirstLatest(games, i)
    decreases |games|
  {
    if |games| == 1 then
      LexOrder.Irreflexive(games[0].startedAt);
      0
    else
      var prefix := games[..|games| - 1];
      var k := LatestIndex(prefix);
      var last := |games| - 1;
      if LexOrder.Less(games[k].startedAt, games[last].startedAt) then
        LatestBeatsPrefix(games, k);
        last
      else
        LatestKeepsPrefix(games, k);
        k
  }

  lemma LatestBeatsPrefix(games: seq<Match>, k: nat)
    requires |games| > 1 && FirstLatest(games[..|games| - 1], k)
    requires LexOrder.Less(games[k].startedAt, games[|games| - 1].startedAt)
    ensures FirstLatest(games, |games| - 1)
  {
    var last := |games| - 1;
    forall j | 0 <= j < last
      ensures LexOrder.Less(games[j].startedAt, games[last].startedAt)
    {
      assert games[j] == games[..last][j];
      if games[j].startedAt != games[k].startedAt {
        LexOrder.Total(games[j].startedAt, games[k].startedAt);
        LexOrder.Transitive(games[j].startedAt, games[k].startedAt, games[last].startedAt);
      }
    }
    forall j | 0 <= j < |games|
      ensures !LexOrder.Less(games[last].startedAt, games[j].startedAt)
    {
      if j < last {
        LexOrder.Asymmetric(games[j].startedAt, games[last].startedAt);
      } else {
        LexOrder.Irreflexive(games[last].startedAt);
      }
    }
  }

  lemma LatestKeepsPrefix(games: seq<Match>, k: nat)
    requires |games| > 1 && FirstLatest(games[..|games| - 1], k)
    requires !LexOrder.Less(games[k].startedAt, games[|games| - 1].startedAt)
    ensures FirstLatest(games, k)
  {
    var last := |games| - 1;
    forall j | 0 <= j < |games|
      ensures !LexOrder.Less(games[k].startedAt, games[j].startedAt)
    {
      if j < last {
        assert games[j] == games[..last][j];
      }
    }
    forall j | 0 <= j < k
      ensures LexOrder.Less(games[j].startedAt, games[k].startedAt)
    {
      assert games[j] == games[..last][j];
    }
  }

  /** No other position is also the first latest game: the choice is determined. */
  lemma FirstLatestUnique(games: seq<Match>, i: int, j: int)
    requires FirstLatest(games, i) && 0 <= j < |games| && j != i
    ensures !FirstLatest(games, j)
  {
    if j < i {
      assert LexOrder.Less(games[j].startedAt, games[i].startedAt);
    } else {
      assert !LexOrder.Less(games[i].startedAt, games[j].startedAt);
    }
  }

  /**
   * `get_last_match_data` on a parsed response: an `error` key wins; a missing
   * or empty `games` list gives "No games found"; otherwise the latest game.
   */
  function GetLastMatchData(data: Response): (r: LastMatch)
    ensures data.error.Some? ==> r == Message(data.error.value)
    ensures data.error.None? && (data.games.None? || data.games.value == []) ==> r == Message(NoGamesFound)
    ensures data.error.None? && data.games.Some? && data.games.value != [] ==>
      r.Found? && exists i :: FirstLatest(data.games.value, i) && data.games.value[i] == r.game
  {
    if data.error.Some? then Message(data.error.value)
    else if data.games.None? then Message(NoGamesFound)
    else if data.games.value == [] then Message(NoGamesFound)
    else Found(data.games.value[LatestIndex(data.games.value)])
  }
}
