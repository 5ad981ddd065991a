/**
 * The earlier single-page revision (main.py): it fetches only the latest
 * match, flattens the roster without team tags, and assigns players to teams
 * by flattened position, two by two.
 */
module Legacy {
  import opened Wrappers
  import opened Decimal
  import opened MatchRecord
  import opened MatchInfo
  import opened LastMatch
  import Landmarks
  import Reshaper

  // ---------------------------------------------------------------------------
  // Durations and the heading

  /**
   * main.py's `sec_to_min`: `MM:SS` from floor division and remainder by 60,
   * each zero-filled to two characters. There is no null case.
   */
  function LegacySecToMin(sec: int): (r: string)
    ensures |r| >= 5 && r[|r| - 3] == ':'
    ensures sec >= 0 ==> |r| == 5 || r[0] != '0'
  {
    SecondsFieldWidth(sec % 60);
    Pad2(sec / 60) + ":" + Pad2(sec % 60)
  }

  /** On a present duration both revisions print the same clock. */
  lemma LegacySecToMinAgrees(sec: int)
    ensures LegacySecToMin(sec) == SecToMin(Some(sec))
  {
  }

  /** The legacy clock reads back as the duration it was made from. */
  lemma LegacySecToMinRoundTrip(s: nat)
    ensures ParseClock(LegacySecToMin(s)) == Some(s)
  {
    LegacySecToMinAgrees(s);
    SecToMinRoundTrip(s);
  }

  /**
   * The heading of main.py's game card: game id, duration, map, kind and
   * average rating. A null duration fails inside `sec_to_min`.
   */
  function LegacyGameInfo(m: Match): string
    requires m.duration.Some?
  {
    "Game ID: " + IntToString(m.gameId) + HeadingAfterId(m)
  }

  /** The part of the heading after the game id; it starts with a space. */
  function HeadingAfterId(m: Match): (r: string)
    requires m.duration.Some?
    ensures |r| > 0 && r[0] == ' '
  {
    " | Duration: " + LegacySecToMin(m.duration.value)
      + " | Map: " + m.mapName + " | Kind: " + m.kind + " | MMR: " + IntToString(m.averageMmr)
  }

  lemma NoSpaceInNumber(n: int)
    ensures ' ' !in IntToString(n)
  {
    NumberChars(n);
  }

  /** After a fixed prefix, a space-free word followed by a text starting with a space. */
  lemma WordAfterPrefix(prefix: string, word: string, after: string)
    requires ' ' !in word && |after| > 0 && after[0] == ' '
    ensures var tail := (prefix + word + after)[|prefix|..];
      IndexOf(tail, ' ') == Some(|word|) && tail[..|word|] == word
  {
    assert (prefix + word + after)[|prefix|..] == word + [' '] + after[1..];
    IndexOfAfterPrefix(word, after[1..], ' ');
  }

  /** The game id is the heading's text between `Game ID: ` and the first space after it. */
  lemma HeadingId(m: Match)
    requires m.duration.Some?
    ensures var tail := LegacyGameInfo(m)[9..];
      IndexOf(tail, ' ') == Some(|IntToString(m.gameId)|) &&
      tail[..|IntToString(m.gameId)|] == IntToString(m.gameId)
  {
    NoSpaceInNumber(m.gameId);
    WordAfterPrefix("Game ID: ", IntToString(m.gameId), HeadingAfterId(m));
  }

  /**
   * Unlike the later persistence key, the legacy heading tells games apart:
   * two matches with the same heading have the same game id.
   */
  lemma LegacyGameInfoIdentifiesGame(m1: Match, m2: Match)
    requires m1.duration.Some? && m2.duration.Some?
    requires LegacyGameInfo(m1) == LegacyGameInfo(m2)
    ensures m1.gameId == m2.gameId
  {
    HeadingId(m1);
    HeadingId(m2);
    IntToStringInjective(m1.gameId, m2.gameId);
  }

  // ---------------------------------------------------------------------------
  // The roster

  /** One entry of main.py's flattened roster: no team tag and no rating. */
  datatype LegacyInfo = LegacyInfo(profileId: int, name: string, civilization: Landmarks.Civ, result: string)

  function Project(e: PlayerEntry): LegacyInfo
  {
    LegacyInfo(e.profileId, e.name, e.civilization, e.result)
  }

  function ProjectTeam(team: Team): (r: seq<LegacyInfo>)
    ensures |r| == |team| && forall j :: 0 <= j < |team| ==> r[j] == Project(team[j])
  {
    seq(|team|, j requires 0 <= j < |team| => Project(team[j]))
  }

  /** main.py's roster: every player, team after team, each team in its own order. */
  function LegacyFlatten(teams: seq<Team>): seq<LegacyInfo>
    decreases |teams|
  {
    if teams == [] then []
    else LegacyFlatten(teams[..|teams| - 1]) + ProjectTeam(teams[|teams| - 1])
  }

  /** main.py's `get_player_info_from_last_match`. */
  method LegacyGetPlayerInfo(m: Match) returns (infos: seq<LegacyInfo>)
    ensures infos == LegacyFlatten(m.teams)
  {
    infos := [];
    var idx := 0;
    while idx < |m.teams|
      invariant 0 <= idx <= |m.teams|
      invariant infos == LegacyFlatten(m.teams[..idx])
    {
      var team := m.teams[idx];
      var j := 0;
      while j < |team|
        invariant 0 <= j <= |team|
        invariant infos == LegacyFlatten(m.teams[..idx]) + ProjectTeam(team[..j])
      {
        assert ProjectTeam(team[..j + 1]) == ProjectTeam(team[..j]) + [Project(team[j])];
        infos := infos + [Project(team[j])];
        j := j + 1;
      }
      assert team[..j] == team;
      assert m.teams[..idx + 1][..idx] == m.teams[..idx];
      idx := idx + 1;
    }
    assert m.teams[..idx] == m.teams;
  }

  /** A util.py roster entry with the team tag and the rating dropped. */
  function Strip(info: Reshaper.PlayerInfo): LegacyInfo
  {
    LegacyInfo(info.profileId, info.name, info.civilization, info.result)
  }

  /** main.py's roster is util.py's, entry for entry, without team tags and ratings. */
  lemma {:induction false} LegacyFlattenProjects(teams: seq<Team>)
    ensures |LegacyFlatten(teams)| == |Reshaper.Flatten(teams)|
    ensures forall k :: 0 <= k < |LegacyFlatten(teams)| ==>
      LegacyFlatten(teams)[k] == Strip(Reshaper.Flatten(teams)[k])
    decreases |teams|
  {
    if teams != [] {
      LegacyFlattenProjects(teams[..|teams| - 1]);
    }
  }

  // ---------------------------------------------------------------------------
  // The viewer

  predicate IsLegacyViewer(info: LegacyInfo, viewer: string)
  {
    IntToString(info.profileId) == viewer
  }

  /** Position of the first entry that is the viewer, if any. */
  function LegacyViewerPos(infos: seq<LegacyInfo>, viewer: string): (r: Option<nat>)
    ensures r.Some? ==> r.value < |infos| && IsLegacyViewer(infos[r.value], viewer)
    ensures r.Some? ==> forall j :: 0 <= j < r.value ==> !IsLegacyViewer(infos[j], viewer)
    ensures r.None? ==> forall j :: 0 <= j < |infos| ==> !IsLegacyViewer(infos[j], viewer)
    decreases |infos|
  {
    if infos == [] then None
    else if IsLegacyViewer(infos[0], viewer) then Some(0)
    else match LegacyViewerPos(infos[1..], viewer)
      case None => None
      case Some(k) => Some(k + 1)
  }

  /** The first viewer entry is where the search stops. */
  lemma LegacyViewerPosAt(infos: seq<LegacyInfo>, viewer: string, k: nat)
    requires k < |infos| && IsLegacyViewer(infos[k], viewer)
    requires forall j :: 0 <= j < k ==> !IsLegacyViewer(infos[j], viewer)
    ensures LegacyViewerPos(infos, viewer) == Some(k)
  {
    var r := LegacyViewerPos(infos, viewer);
    assert r.Some?;
    assert !(r.value < k) && !(k < r.value);
  }

  /** Both revisions find the viewer at the same flattened position. */
  lemma LegacyViewerPosAgrees(teams: seq<Team>, viewer: string)
    ensures LegacyViewerPos(LegacyFlatten(teams), viewer) == Reshaper.ViewerPos(Reshaper.Flatten(teams), viewer)
  {
    var infos, tagged := LegacyFlatten(teams), Reshaper.Flatten(teams);
    LegacyFlattenProjects(teams);
    assert forall k :: 0 <= k < |infos| ==>
      (IsLegacyViewer(infos[k], viewer) <==> Reshaper.IsViewer(tagged[k], viewer));
    match Reshaper.ViewerPos(tagged, viewer)
    case Some(p) =>
      LegacyViewerPosAt(infos, viewer, p);
    case None =>
      assert forall j :: 0 <= j < |infos| ==> !IsLegacyViewer(infos[j], viewer);
  }

  /**
   * `player_info_list.index(player_info)` finds the viewer's own position: an
   * earlier equal entry would itself have been the viewer.
   */
  lemma IndexOfViewerEntry(infos: seq<LegacyInfo>, viewer: string, p: nat)
    requires LegacyViewerPos(infos, viewer) == Some(p)
    ensures IndexOf(infos, infos[p]) == Some(p)
  {
    assert infos[p] in infos;
    var i := IndexOf(infos, infos[p]).value;
    assert forall j :: 0 <= j < i ==> infos[j] != infos[p] by {
      forall j | 0 <= j < i ensures infos[j] != infos[p] {
        assert infos[j] == infos[..i][j];
      }
    }
    assert infos[i] == infos[p];
    assert IsLegacyViewer(infos[i], viewer);
  }

  // ---------------------------------------------------------------------------
  // Cards and the team split

  /**
   * main.py's player card: the landmark options of the player's civilization
   * for each age, each dropdown preset to the civilization's name.
   */
  datatype LegacyCard = LegacyCard(info: LegacyInfo, options: Reshaper.AgeOptions, preset: string)

  function GenerateLegacyCard(info: LegacyInfo): (c: LegacyCard)
    requires Landmarks.KnownCiv(info.civilization)
    ensures c.info == info && c.preset == Landmarks.CivKey(info.civilization)
    ensures c.options.feudal == Landmarks.Options(info.civilization, Landmarks.Feudal)
    ensures c.options.castle == Landmarks.Options(info.civilization, Landmarks.Castle)
    ensures c.options.empire == Landmarks.Options(info.civilization, Landmarks.Empire)
  {
    var civ := info.civilization;
    LegacyCard(info,
      Reshaper.AgeOptions(
        Landmarks.Options(civ, Landmarks.Feudal),
        Landmarks.Options(civ, Landmarks.Castle),
        Landmarks.Options(civ, Landmarks.Empire)),
      Landmarks.CivKey(civ))
  }

  /** Every civilization of the roster is in the landmark table. */
  predicate LegacyReady(infos: seq<LegacyInfo>)
  {
    forall k :: 0 <= k < |infos| ==> Landmarks.KnownCiv(infos[k].civilization)
  }

  function LegacyCardsFor(infos: seq<LegacyInfo>): (cards: seq<LegacyCard>)
    requires LegacyReady(infos)
    ensures |cards| == |infos| && forall k :: 0 <= k < |infos| ==> cards[k] == GenerateLegacyCard(infos[k])
  {
    seq(|infos|, k requires 0 <= k < |infos| => GenerateLegacyCard(infos[k]))
  }

  datatype LegacyPanels = LegacyPanels(mine: seq<LegacyCard>, opponents: seq<LegacyCard>)

  /**
   * The partition loop, card by card: the card at flattened position `k` goes
   * to "my team" when `k / 2` is the viewer's team number, else to "opponent".
   */
  function LegacySplit(cards: seq<LegacyCard>, myTeam: int): LegacyPanels
    decreases |cards|
  {
    if cards == [] then LegacyPanels([], [])
    else
      var k := |cards| - 1;
      var p := LegacySplit(cards[..k], myTeam);
      if k / 2 == myTeam then LegacyPanels(p.mine + [cards[k]], p.opponents)
      else LegacyPanels(p.mine, p.opponents + [cards[k]])
  }

  function Min(a: nat, b: nat): nat { if a < b then a else b }

  /** The entries at positions `2t` and `2t + 1`, as far as they exist. */
  function PairBlock<T>(s: seq<T>, t: nat): seq<T>
  {
    s[Min(2 * t, |s|)..Min(2 * t + 2, |s|)]
  }

  /** The entries before and after positions `2t` and `2t + 1`, in order. */
  function OutsidePair<T>(s: seq<T>, t: nat): seq<T>
  {
    s[..Min(2 * t, |s|)] + s[Min(2 * t + 2, |s|)..]
  }

  /** Every position lies in its own pair block. */
  lemma InOwnPair<T>(s: seq<T>, p: nat)
    requires p < |s|
    ensures s[p] in PairBlock(s, p / 2)
  {
    var lo := 2 * (p / 2);
    assert lo <= p < lo + 2;
    assert PairBlock(s, p / 2)[p - lo] == s[p];
  }

  /** Appending the entry at position `k` grows the pair block exactly when `k / 2 == t`. */
  lemma PairBlockSnoc<T>(s: seq<T>, c: T, t: nat)
    ensures PairBlock(s + [c], t) == if |s| / 2 == t then PairBlock(s, t) + [c] else PairBlock(s, t)
  {
    var k, sc := |s|, s + [c];
    if k < 2 * t {
      assert PairBlock(sc, t) == sc[k + 1..k + 1];
    } else if k < 2 * t + 2 {
      assert sc[2 * t..k + 1] == s[2 * t..k] + [c];
    } else {
      assert sc[2 * t..2 * t + 2] == s[2 * t..2 * t + 2];
    }
  }

  /** Appending the entry at position `k` grows the outside part exactly when `k / 2 != t`. */
  lemma OutsidePairSnoc<T>(s: seq<T>, c: T, t: nat)
    ensures OutsidePair(s + [c], t) == if |s| / 2 == t then OutsidePair(s, t) else OutsidePair(s, t) + [c]
  {
    var k, sc := |s|, s + [c];
    if k < 2 * t {
      assert OutsidePair(sc, t) == sc[..k + 1] + sc[k + 1..] == sc;
      assert OutsidePair(s, t) == s[..k] + s[k..] == s;
    } else if k < 2 * t + 2 {
      assert OutsidePair(sc, t) == sc[..2 * t] + sc[k + 1..] == s[..2 * t];
      assert OutsidePair(s, t) == s[..2 * t] + s[k..] == s[..2 * t];
    } else {
      assert sc[..2 * t] == s[..2 * t];
      assert sc[2 * t + 2..] == s[2 * t + 2..] + [c];
    }
  }

  /**
   * The split by pair position cuts the list in three: "my team" is the block
   * of positions `2t` and `2t + 1`, "opponent" is what comes before and after
   * it, both in flattened order.
   */
  lemma {:induction false} LegacySplitBlocks(cards: seq<LegacyCard>, t: nat)
    ensures LegacySplit(cards, t).mine == PairBlock(cards, t)
    ensures LegacySplit(cards, t).opponents == OutsidePair(cards, t)
    decreases |cards|
  {
    if cards != [] {
      var prefix, c := cards[..|cards| - 1], cards[|cards| - 1];
      LegacySplitBlocks(prefix, t);
      assert cards == prefix + [c];
      PairBlockSnoc(prefix, c, t);
      OutsidePairSnoc(prefix, c, t);
    }
  }

  /** The two panels together hold every card exactly once. */
  lemma LegacySplitPermutation(cards: seq<LegacyCard>, t: nat)
    ensures multiset(LegacySplit(cards, t).mine) + multiset(LegacySplit(cards, t).opponents) == multiset(cards)
  {
    LegacySplitBlocks(cards, t);
    var lo, hi := Min(2 * t, |cards|), Min(2 * t + 2, |cards|);
    var p := LegacySplit(cards, t);
    assert p.mine == cards[lo..hi];
    assert p.opponents == cards[..lo] + cards[hi..];
    assert cards == cards[..lo] + (cards[lo..hi] + cards[hi..]);
    assert multiset(cards) == multiset(cards[..lo]) + multiset(cards[lo..hi]) + multiset(cards[hi..]);
  }

  // ---------------------------------------------------------------------------
  // `update_match_info`

  /**
   * The three outputs: all empty before the first click, the same message in
   * all three when the lookup gave a message, or the two card panels and the
   * game heading.
   */
  datatype LegacyOutputs =
    | Empty
    | Notice(text: string)
    | Shown(mine: seq<LegacyCard>, opponents: seq<LegacyCard>, gameInfo: string)

  /**
   * The match can be shown without a failure: its duration is present, every
   * civilization is in the table, and the viewer played (otherwise the team
   * number is never bound, which fails as soon as there is a card to place).
   */
  predicate LegacyRenderable(m: Match, viewer: string)
  {
    var infos := LegacyFlatten(m.teams);
    && m.duration.Some?
    && LegacyReady(infos)
    && (infos == [] || LegacyViewerPos(infos, viewer).Some?)
  }

  /** The view of a match, as a function of the record. */
  function LegacyViewOf(m: Match, viewer: string): (r: LegacyOutputs)
    requires LegacyRenderable(m, viewer)
    ensures r.Shown? && r.gameInfo == LegacyGameInfo(m)
  {
    var infos := LegacyFlatten(m.teams);
    var panels := match LegacyViewerPos(infos, viewer)
      case Some(p) => LegacySplit(LegacyCardsFor(infos), p / 2)
      case None => LegacyPanels([], []);
    Shown(panels.mine, panels.opponents, LegacyGameInfo(m))
  }

  /** What the callback shows for a click count and a games response. */
  function LegacyOutputsFor(nClicks: Option<int>, response: Response, viewer: string): LegacyOutputs
    requires Clicked(nClicks) && GetLastMatchData(response).Found? ==>
      LegacyRenderable(GetLastMatchData(response).game, viewer)
  {
    if !Clicked(nClicks) then Empty
    else match GetLastMatchData(response)
      case Message(text) => Notice(text)
      case Found(m) => LegacyViewOf(m, viewer)
  }

  /** The team number main.py derives for the viewer, unbound (None) when the viewer is absent. */
  function LegacyTeamNumber(infos: seq<LegacyInfo>, viewer: string): Option<nat>
  {
    match LegacyViewerPos(infos, viewer)
    case Some(p) => Some(p / 2)
    case None => None
  }

  /**
   * The lookup loop of `update_match_info`: it stops at the first entry that
   * is the viewer and takes `.index` of that entry, halved. Each visited
   * entry's card is built (and dropped), so its civilization must be known.
   */
  method LegacyFindTeam(infos: seq<LegacyInfo>, viewer: string) returns (myTeamIndex: Option<nat>)
    requires LegacyReady(infos)
    ensures myTeamIndex == LegacyTeamNumber(infos, viewer)
  {
    myTeamIndex := None;
    var k := 0;
    while k < |infos|
      invariant 0 <= k <= |infos|
      invariant myTeamIndex.None?
      invariant forall j :: 0 <= j < k ==> !IsLegacyViewer(infos[j], viewer)
    {
      var card := GenerateLegacyCard(infos[k]);
      if IsLegacyViewer(infos[k], viewer) {
        LegacyViewerPosAt(infos, viewer, k);
        IndexOfViewerEntry(infos, viewer, k);
        myTeamIndex := Some(IndexOf(infos, infos[k]).value / 2);
        return;
      }
      k := k + 1;
    }
    assert LegacyViewerPos(infos, viewer).None?;
  }

  /** One more card, placed by its pair position. */
  lemma LegacySplitStep(cards: seq<LegacyCard>, k: nat, t: int)
    requires k < |cards|
    ensures var p := LegacySplit(cards[..k], t);
      LegacySplit(cards[..k + 1], t) ==
        if k / 2 == t then LegacyPanels(p.mine + [cards[k]], p.opponents)
        else LegacyPanels(p.mine, p.opponents + [cards[k]])
  {
    assert cards[..k + 1][..k] == cards[..k];
  }

  /**
   * The partition loop of `update_match_info`. The team number must be bound
   * as soon as there is a card to place.
   */
  method LegacyPartition(infos: seq<LegacyInfo>, myTeamIndex: Option<nat>)
    returns (mine: seq<LegacyCard>, opponents: seq<LegacyCard>)
    requires LegacyReady(infos) && (infos == [] || myTeamIndex.Some?)
    ensures infos == [] ==> mine == [] && opponents == []
    ensures myTeamIndex.Some? ==>
      LegacyPanels(mine, opponents) == LegacySplit(LegacyCardsFor(infos), myTeamIndex.value)
  {
    ghost var cards := LegacyCardsFor(infos);
    ghost var team: int := if myTeamIndex.Some? then myTeamIndex.value else -1;
    mine, opponents := [], [];
    var index := 0;
    while index < |infos|
      invariant 0 <= index <= |infos|
      invariant LegacyPanels(mine, opponents) == LegacySplit(cards[..index], team)
    {
      var playerCard := GenerateLegacyCard(infos[index]);
      assert playerCard == cards[index];
      LegacySplitStep(cards, index, team);
      if index / 2 == myTeamIndex.value {
        mine := mine + [playerCard];
      } else {
        opponents := opponents + [playerCard];
      }
      index := index + 1;
    }
    assert cards[..index] == cards;
  }

  /** main.py's `update_match_info`, with the games response passed in. */
  method LegacyUpdateMatchInfo(nClicks: Option<int>, response: Response, viewer: string)
    returns (out: LegacyOutputs)
    requires Clicked(nClicks) && GetLastMatchData(response).Found? ==>
      LegacyRenderable(GetLastMatchData(response).game, viewer)
    ensures out == LegacyOutputsFor(nClicks, response, viewer)
    ensures !Clicked(nClicks) ==> out == Empty
    ensures Clicked(nClicks) && response.error.Some? ==> out == Notice(response.error.value)
    ensures Clicked(nClicks) && response.error.None? && (response.games.None? || response.games.value == []) ==>
      out == Notice(NoGamesFound)
    ensures Clicked(nClicks) && GetLastMatchData(response).Found? ==>
      out.Shown? && out.gameInfo == LegacyGameInfo(GetLastMatchData(response).game)
  {
    if !Clicked(nClicks) {
      return Empty;
    }
    var found := GetLastMatchData(response);
    if found.Message? {
      return Notice(found.text);
    }
    var m := found.game;
    var infos := LegacyGetPlayerInfo(m);
    var gameInfo := LegacyGameInfo(m);
    var myTeamIndex := LegacyFindTeam(infos, viewer);
    var mine, opponents := LegacyPartition(infos, myTeamIndex);
    return Shown(mine, opponents, gameInfo);
  }

  /**
   * The legacy view: "my team" is the pair block holding the viewer's
   * position, including the viewer's own card; "opponent" is everything
   * before and after that block; together they are the roster's cards.
   */
  lemma LegacyViewPartition(m: Match, viewer: string, p: nat)
    requires LegacyRenderable(m, viewer) && LegacyViewerPos(LegacyFlatten(m.teams), viewer) == Some(p)
    ensures var cards := LegacyCardsFor(LegacyFlatten(m.teams));
      var v := LegacyViewOf(m, viewer);
      && v.mine == PairBlock(cards, p / 2)
      && v.opponents == OutsidePair(cards, p / 2)
      && p < |cards| && cards[p] in v.mine
      && multiset(v.mine) + multiset(v.opponents) == multiset(cards)
  {
    var cards := LegacyCardsFor(LegacyFlatten(m.teams));
    var split := LegacySplit(cards, p / 2);
    assert LegacyViewOf(m, viewer) == Shown(split.mine, split.opponents, LegacyGameInfo(m));
    LegacySplitBlocks(cards, p / 2);
    LegacySplitPermutation(cards, p / 2);
    InOwnPair(cards, p);
  }

  // ---------------------------------------------------------------------------
  // The pair rule against the team tags

  lemma {:induction false} PairTeamsTotal(teams: seq<Team>)
    requires forall t :: 0 <= t < |teams| ==> |teams[t]| == 2
    ensures TotalPlayersIsTwice(teams)
    decreases |teams|
  {
    if teams != [] {
      PairTeamsTotal(teams[..|teams| - 1]);
    }
  }

  predicate TotalPlayersIsTwice(teams: seq<Team>)
  {
    Reshaper.TotalPlayers(teams) == 2 * |teams|
  }

  /**
   * When every team has two players the pair rule agrees with the team tags:
   * the entry at flattened position `k` belongs to team `k / 2`.
   */
  lemma {:induction false} PairRuleOnTwoPlayerTeams(teams: seq<Team>)
    requires forall t :: 0 <= t < |teams| ==> |teams[t]| == 2
    ensures forall k :: 0 <= k < |Reshaper.Flatten(teams)| ==> Reshaper.Flatten(teams)[k].team == k / 2
    decreases |teams|
  {
    if teams != [] {
      var prefix := teams[..|teams| - 1];
      PairRuleOnTwoPlayerTeams(prefix);
      PairTeamsTotal(prefix);
      Reshaper.FlattenLength(prefix);
      assert |Reshaper.Flatten(prefix)| == 2 * (|teams| - 1);
    }
  }

  /**
   * In a one-against-one match the pair rule puts both players in "my team":
   * the opponent is shown as the viewer's teammate and the opponent panel is
   * empty.
   */
  lemma LegacyOneVsOneMergesTeams(m: Match, viewer: string)
    requires LegacyRenderable(m, viewer)
    requires |m.teams| == 2 && |m.teams[0]| == 1 && |m.teams[1]| == 1
    requires IntToString(m.teams[0][0].profileId) == viewer
    ensures var cards := LegacyCardsFor(LegacyFlatten(m.teams));
      LegacyViewOf(m, viewer).mine == cards && LegacyViewOf(m, viewer).opponents == []
  {
    var infos := LegacyFlatten(m.teams);
    LegacyFlattenOneVsOne(m.teams);
    LegacyViewerPosAt(infos, viewer, 0);
    LegacyViewPartition(m, viewer, 0);
    PairOfTwo(LegacyCardsFor(infos));
  }

  lemma LegacyFlattenOneVsOne(teams: seq<Team>)
    requires |teams| == 2 && |teams[0]| == 1 && |teams[1]| == 1
    ensures LegacyFlatten(teams) == [Project(teams[0][0]), Project(teams[1][0])]
  {
    assert teams[..1][..0] == [];
    assert LegacyFlatten(teams[..1]) == ProjectTeam(teams[0]);
    assert teams[..1] == teams[..|teams| - 1];
  }

  /** In a two-entry sequence the first pair is everything. */
  lemma PairOfTwo<T>(s: seq<T>)
    requires |s| == 2
    ensures PairBlock(s, 0) == s && OutsidePair(s, 0) == []
  {
  }
}
