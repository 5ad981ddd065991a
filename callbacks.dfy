/**
 * The page's callbacks (callback.py): listing the viewer's recent matches,
 * opening one of them from its link, and saving the annotated match as a
 * JSON download.
 */
module Callbacks {
  import opened Wrappers
  import opened Decimal
  import opened MatchRecord
  import opened MatchInfo
  import opened Reshaper

  /**
   * What a callback hands back to the page: nothing (`PreventUpdate`), a failed
   * key lookup that aborts the callback, or new values for its outputs.
   */
  datatype Outcome<T> = NoUpdate | KeyError(key: string) | Update(value: T)

  // ---------------------------------------------------------------------------
  // `update_recent_matches`

  /** The two outputs of the recent-matches button: the link list and the stored games. */
  datatype RecentMatches = RecentMatches(links: seq<GameLink>, store: seq<Match>)

  /**
   * `update_recent_matches`, with the games request's parsed body passed in.
   * An unclicked button changes nothing; an error body has no `games` key and
   * the callback fails on it; otherwise the links are listed and the games
   * stored, both in the order the request returned them.
   */
  method UpdateRecentMatches(nClicks: Option<int>, response: Response, localTime: TimeFormat)
    returns (r: Outcome<RecentMatches>)
    ensures !Clicked(nClicks) ==> r == NoUpdate
    ensures Clicked(nClicks) && response.games.None? ==> r == KeyError("games")
    ensures Clicked(nClicks) && response.games.Some? ==>
      r == Update(RecentMatches(DisplayRecentMatches(response, localTime), response.games.value))
  {
    if !Clicked(nClicks) {
      return NoUpdate;
    }
    if response.games.None? {
      return KeyError("games");
    }
    var games := response.games.value;
    var gameList: seq<Match> := [];
    var i := 0;
    while i < |games|
      invariant 0 <= i <= |games|
      invariant gameList == games[..i]
    {
      gameList := gameList + [games[i]];
      i := i + 1;
    }
    assert games[..i] == games;
    return Update(RecentMatches(DisplayRecentMatches(response, localTime), gameList));
  }

  // ---------------------------------------------------------------------------
  // The recent-match link branch of `update_match_info`

  /** `any(element is not None for element in game_link_clicks)`. */
  predicate AnyLinkClicked(clicks: seq<Option<int>>)
  {
    exists i :: 0 <= i < |clicks| && clicks[i].Some?
  }

  /**
   * The link branch of `update_match_info`: once some link has been clicked,
   * the stored game at the index carried by the triggering link is shown;
   * with no link clicked nothing is updated.
   */
  function SelectRecentMatch(clicks: seq<Option<int>>, triggerIndex: int, recent: seq<Match>,
                             viewer: string, localTime: TimeFormat): (r: Outcome<Display>)
    requires AnyLinkClicked(clicks) ==> 0 <= triggerIndex < |recent| && Renderable(recent[triggerIndex])
    ensures r == NoUpdate <==> !AnyLinkClicked(clicks)
    ensures r.Update? ==>
      && r.value == DisplayOf(recent[triggerIndex], viewer, localTime)
      && r.value.record == recent[triggerIndex]
      && r.value.gameInfo == GameInfo(recent[triggerIndex], false, localTime)
    ensures r.KeyError? == false
  {
    if AnyLinkClicked(clicks) then Update(DisplayOf(recent[triggerIndex], viewer, localTime))
    else NoUpdate
  }

  /**
   * The listing and the link branch fit together: clicking the i-th link of a
   * listing opens the i-th stored game, and the match view's heading is the
   * very caption the link showed.
   */
  lemma ClickedLinkOpensItsGame(response: Response, localTime: TimeFormat, clicks: seq<Option<int>>,
                                i: nat, viewer: string)
    requires response.games.Some? && i < |response.games.value|
    requires Renderable(response.games.value[i])
    requires 0 <= i < |clicks| && clicks[i].Some?
    ensures var links := DisplayRecentMatches(response, localTime);
      var store := response.games.value;
      var r := SelectRecentMatch(clicks, links[i].index, store, viewer, localTime);
      && r.Update?
      && r.value == DisplayOf(store[i], viewer, localTime)
      && r.value.record == store[i]
      && r.value.gameInfo == links[i].caption
  {
    assert AnyLinkClicked(clicks);
  }

  // ---------------------------------------------------------------------------
  // `download_game_data`

  /**
   * The values of the eight inputs over all player cards on the page, each
   * column in card order.
   */
  datatype Columns = Columns(
    feudalTimes: seq<Option<string>>,
    feudalDropdowns: seq<Option<string>>,
    castleTimes: seq<Option<string>>,
    castleDropdowns: seq<Option<string>>,
    empireTimes: seq<Option<string>>,
    empireDropdowns: seq<Option<string>>,
    strategies: seq<Option<string>>,
    improvements: seq<Option<string>>)

  /** Every column has an entry for each of the first `n` cards. */
  predicate ColumnsCover(cols: Columns, n: nat)
  {
    && |cols.feudalTimes| >= n && |cols.feudalDropdowns| >= n
    && |cols.castleTimes| >= n && |cols.castleDropdowns| >= n
    && |cols.empireTimes| >= n && |cols.empireDropdowns| >= n
    && |cols.strategies| >= n && |cols.improvements| >= n
  }

  /** `cur_input` of card `k`: its eight values gathered into one annotation. */
  function AnnotationAt(cols: Columns, k: nat): (a: Annotation)
    requires ColumnsCover(cols, k + 1)
    ensures a.feudalTime == cols.feudalTimes[k] && a.feudalDropdown == cols.feudalDropdowns[k]
    ensures a.castleTime == cols.castleTimes[k] && a.castleDropdown == cols.castleDropdowns[k]
    ensures a.empireTime == cols.empireTimes[k] && a.empireDropdown == cols.empireDropdowns[k]
    ensures a.strategy == cols.strategies[k] && a.improve == cols.improvements[k]
  {
    Annotation(cols.feudalTimes[k], cols.feudalDropdowns[k], cols.castleTimes[k], cols.castleDropdowns[k],
      cols.empireTimes[k], cols.empireDropdowns[k], cols.strategies[k], cols.improvements[k])
  }

  /** `player_input` after the first `n` cards: card `k`'s values under the integer id `ids[k]`. */
  function CollectInput(ids: seq<int>, cols: Columns, n: nat): (input: map<int, Annotation>)
    requires n <= |ids| && ColumnsCover(cols, n)
  {
    if n == 0 then map[]
    else CollectInput(ids, cols, n - 1)[ids[n - 1] := AnnotationAt(cols, n - 1)]
  }

  /** The first `n` ids, as a set. */
  function IdsOf(ids: seq<int>, n: nat): set<int>
    requires n <= |ids|
  {
    set k | 0 <= k < n :: ids[k]
  }

  lemma IdsOfStep(ids: seq<int>, n: nat)
    requires 0 < n <= |ids|
    ensures IdsOf(ids, n) == IdsOf(ids, n - 1) + {ids[n - 1]}
  {
    forall x | x in IdsOf(ids, n) ensures x in IdsOf(ids, n - 1) + {ids[n - 1]} {
      var k :| 0 <= k < n && x == ids[k];
      if k < n - 1 {
        assert x in IdsOf(ids, n - 1);
      }
    }
    assert ids[n - 1] in IdsOf(ids, n);
  }

  lemma UpdateKeys<K, V>(m: map<K, V>, key: K, v: V)
    ensures m[key := v].Keys == m.Keys + {key}
  {
  }

  /** The collected input has an entry for exactly the players of the first `n` cards. */
  lemma {:induction false} CollectInputKeys(ids: seq<int>, cols: Columns, n: nat)
    requires n <= |ids| && ColumnsCover(cols, n)
    ensures CollectInput(ids, cols, n).Keys == IdsOf(ids, n)
  {
    if n > 0 {
      CollectInputKeys(ids, cols, n - 1);
      UpdateKeys(CollectInput(ids, cols, n - 1), ids[n - 1], AnnotationAt(cols, n - 1));
      IdsOfStep(ids, n);
    }
  }

  /**
   * A card's values are the ones stored under its player's id unless a later
   * card has the same player: the later card's values overwrite them.
   */
  lemma {:induction false} CollectInputLastWins(ids: seq<int>, cols: Columns, n: nat, k: nat)
    requires n <= |ids| && ColumnsCover(cols, n) && k < n
    requires forall j :: k < j < n ==> ids[j] != ids[k]
    ensures ids[k] in CollectInput(ids, cols, n)
    ensures CollectInput(ids, cols, n)[ids[k]] == AnnotationAt(cols, k)
  {
    if k < n - 1 {
      CollectInputLastWins(ids, cols, n - 1, k);
    }
  }

  /** The loop of `download_game_data`: each card's values stored under its player's id. */
  method CollectPlayerInput(ids: seq<int>, cols: Columns) returns (playerInput: map<int, Annotation>)
    requires ColumnsCover(cols, |ids|)
    ensures playerInput == CollectInput(ids, cols, |ids|)
  {
    playerInput := map[];
    var idx := 0;
    while idx < |ids|
      invariant 0 <= idx <= |ids|
      invariant playerInput == CollectInput(ids, cols, idx)
    {
      var curInput := AnnotationAt(cols, idx);
      playerInput := playerInput[ids[idx] := curInput];
      idx := idx + 1;
    }
  }

  /**
   * The object `json.dumps` writes for an integer-keyed dictionary: each key
   * becomes its decimal text. Distinct integers have distinct texts, so no
   * entry is lost.
   */
  function JsonObject(m: map<int, Annotation>): map<string, Annotation>
  {
    assert forall a, b :: IntToString(a) == IntToString(b) ==> a == b by {
      forall a, b ensures IntToString(a) == IntToString(b) ==> a == b {
        IntToStringInjective(a, b);
      }
    }
    map id | id in m :: IntToString(id) := m[id]
  }

  /** The written object holds each entry of the dictionary under the entry's decimal key, and nothing else. */
  lemma JsonObjectEntries(m: map<int, Annotation>, id: int)
    ensures IntToString(id) in JsonObject(m) <==> id in m
    ensures id in m ==> JsonObject(m)[IntToString(id)] == m[id]
  {
    var j := JsonObject(m);
    if IntToString(id) in j {
      var other :| other in m && IntToString(other) == IntToString(id);
      IntToStringInjective(other, id);
    }
    if id in m {
      assert IntToString(id) in j;
      var other :| other in m && IntToString(other) == IntToString(id) && j[IntToString(id)] == m[other];
      IntToStringInjective(other, id);
    }
  }

  /** The file a download produces: the annotated record and its name. */
  datatype Download = Download(content: Match, fileName: string)

  /**
   * `download_game_data`: unless the button has never been clicked, the
   * stored match is saved with its `player-input` replaced by the cards'
   * current values, under the name of its persistence key.
   */
  method DownloadGameData(ids: seq<int>, cols: Columns, matchData: Match, nClicks: Option<int>,
                          localTime: TimeFormat)
    returns (r: Outcome<Download>)
    requires nClicks.Some? ==> ColumnsCover(cols, |ids|)
    ensures nClicks.None? ==> r == NoUpdate
    ensures nClicks.Some? ==>
      r == Update(Download(matchData.(playerInput := Some(JsonObject(CollectInput(ids, cols, |ids|)))),
                           GameInfo(matchData, true, localTime) + ".json"))
  {
    if nClicks.None? {
      return NoUpdate;
    }
    var matchName := GameInfo(matchData, true, localTime);
    var playerInput := CollectPlayerInput(ids, cols);
    var saved := matchData.(playerInput := Some(JsonObject(playerInput)));
    return Update(Download(saved, matchName + ".json"));
  }

  /** The ids hold every player of the roster, and none twice. */
  predicate CoversRosterOnce(ids: seq<int>, infos: seq<PlayerInfo>)
  {
    && (forall i, j :: 0 <= i < j < |ids| ==> ids[i] != ids[j])
    && (forall k :: 0 <= k < |infos| ==> infos[k].profileId in ids)
  }

  /**
   * Saving and reopening round-trips the annotations: when the cards on the
   * page, in whatever order, hold every player of the record once, the saved
   * record renders, and each player's card comes back prefilled with exactly
   * the values that player's card held when it was saved.
   */
  lemma ReloadRestoresAnnotations(m: Match, ids: seq<int>, cols: Columns)
    requires AllReady(Flatten(m.teams), None)
    requires CoversRosterOnce(ids, Flatten(m.teams))
    requires ColumnsCover(cols, |ids|)
    ensures var saved := m.(playerInput := Some(JsonObject(CollectInput(ids, cols, |ids|))));
      && Renderable(saved)
      && forall k, j :: 0 <= k < |Flatten(m.teams)| && 0 <= j < |ids| && ids[j] == Flatten(m.teams)[k].profileId ==>
           CardsFor(Flatten(saved.teams), saved.playerInput)[k].fields == AnnotationAt(cols, j)
  {
    var infos := Flatten(m.teams);
    var collected := CollectInput(ids, cols, |ids|);
    var input := JsonObject(collected);
    var saved := m.(playerInput := Some(input));
    forall j | 0 <= j < |ids|
      ensures IntToString(ids[j]) in input
      ensures input[IntToString(ids[j])] == AnnotationAt(cols, j)
    {
      CollectInputLastWins(ids, cols, |ids|, j);
      JsonObjectEntries(collected, ids[j]);
    }
    forall k | 0 <= k < |infos|
      ensures IntToString(infos[k].profileId) in input
    {
      var j :| 0 <= j < |ids| && ids[j] == infos[k].profileId;
    }
    if |infos| > 0 {
      assert IntToString(infos[0].profileId) in input;
      assert HasInput(saved.playerInput);
    }
    assert Renderable(saved);
  }

  /** The profile ids of cards, in card order. */
  function CardIds(cards: seq<Card>): (ids: seq<int>)
    ensures |ids| == |cards| && forall j :: 0 <= j < |cards| ==> ids[j] == cards[j].info.profileId
  {
    seq(|cards|, j requires 0 <= j < |cards| => cards[j].info.profileId)
  }

  /**
   * The cards in page order, "my team" panel before "opponent team": the order
   * in which the download receives the values of their inputs.
   */
  function PageCards(d: Display): seq<Card>
  {
    d.myCards + d.opponentCards
  }

  /** An element that occurs at most once in a sequence is at no two positions. */
  lemma {:induction false} CountOnceDistinct<T>(s: seq<T>, i: nat, j: nat)
    requires i < j < |s| && multiset(s)[s[i]] <= 1
    ensures s[i] != s[j]
  {
    assert s == s[..j] + [s[j]] + s[j + 1..];
    assert s[..j][i] == s[i];
  }

  /** In a sequence without repeats every element occurs at most once. */
  lemma {:induction false} CountOnce<T>(s: seq<T>, x: T)
    requires forall i, j :: 0 <= i < j < |s| ==> s[i] != s[j]
    ensures multiset(s)[x] <= 1
    decreases |s|
  {
    if s != [] {
      var prefix := s[..|s| - 1];
      assert s == prefix + [s[|s| - 1]];
      CountOnce(prefix, x);
      if x == s[|s| - 1] {
        assert x !in prefix;
      }
    }
  }

  /** With distinct profile ids, no two cards of the roster are the same card. */
  lemma CardsDistinct(infos: seq<PlayerInfo>, userInput: Option<map<string, Annotation>>)
    requires AllReady(infos, userInput) && UniqueProfileIds(infos)
    ensures var cards := CardsFor(infos, userInput);
      forall i, j :: 0 <= i < j < |cards| ==> cards[i] != cards[j]
  {
  }

  /**
   * Cards that are a rearrangement of the roster's cards carry every roster
   * id once, when the roster has no repeated id.
   */
  lemma RearrangedCardsCoverRoster(page: seq<Card>, cards: seq<Card>, infos: seq<PlayerInfo>)
    requires multiset(page) == multiset(cards) && UniqueProfileIds(infos)
    requires |cards| == |infos| && forall k :: 0 <= k < |infos| ==> cards[k].info == infos[k]
    ensures CoversRosterOnce(CardIds(page), infos)
  {
    var ids := CardIds(page);
    forall k | 0 <= k < |infos|
      ensures infos[k].profileId in ids
    {
      assert cards[k] in multiset(page);
      var j :| 0 <= j < |page| && page[j] == cards[k];
      assert ids[j] == infos[k].profileId;
    }
    forall i, j | 0 <= i < j < |ids|
      ensures ids[i] != ids[j]
    {
      assert page[i] in multiset(cards) && page[j] in multiset(cards);
      var a :| 0 <= a < |cards| && cards[a] == page[i];
      var b :| 0 <= b < |cards| && cards[b] == page[j];
      CountOnce(cards, page[i]);
      CountOnceDistinct(page, i, j);
      assert a != b;
    }
  }

  /**
   * The page holds every player of the record once: its card ids, in page
   * order, cover the roster without repeats.
   */
  lemma PageCoversRoster(m: Match, viewer: string, localTime: TimeFormat)
    requires Renderable(m) && UniqueProfileIds(Flatten(m.teams))
    ensures |PageCards(DisplayOf(m, viewer, localTime))| == |Flatten(m.teams)|
    ensures CoversRosterOnce(CardIds(PageCards(DisplayOf(m, viewer, localTime))), Flatten(m.teams))
  {
    var infos := Flatten(m.teams);
    var cards := CardsFor(infos, m.playerInput);
    var page := PageCards(DisplayOf(m, viewer, localTime));
    DisplayIsPermutation(m, viewer, localTime);
    FlattenLength(m.teams);
    CardsDistinct(infos, m.playerInput);
    RearrangedCardsCoverRoster(page, cards, infos);
  }

  /**
   * Saving the page as shown and reopening the file restores every card: the
   * page lists the viewer's team first and the viewer's card before all, and
   * the player whose card stood at position `j` comes back with the values of
   * the `j`-th inputs.
   */
  lemma SavedPageRestores(m: Match, viewer: string, localTime: TimeFormat, cols: Columns)
    requires Renderable(m) && UniqueProfileIds(Flatten(m.teams))
    requires ColumnsCover(cols, |PageCards(DisplayOf(m, viewer, localTime))|)
    ensures var ids := CardIds(PageCards(DisplayOf(m, viewer, localTime)));
      var saved := m.(playerInput := Some(JsonObject(CollectInput(ids, cols, |ids|))));
      && Renderable(saved)
      && forall k, j :: 0 <= k < |Flatten(m.teams)| && 0 <= j < |ids| && ids[j] == Flatten(m.teams)[k].profileId ==>
           CardsFor(Flatten(saved.teams), saved.playerInput)[k].fields == AnnotationAt(cols, j)
  {
    PageCoversRoster(m, viewer, localTime);
    ReloadRestoresAnnotations(m, CardIds(PageCards(DisplayOf(m, viewer, localTime))), cols);
  }
}
