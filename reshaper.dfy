/**
 * The match reshaper of util.py: flatten the roster with team tags, find the
 * viewer, build one card per player (prefilled from saved annotations), split
 * the cards into "my team" (viewer first) and "opponent team", and label both
 * sides with the viewer's result.
 */
module Reshaper {
  import opened Wrappers
  import opened Decimal
  import opened MatchRecord
  import opened MatchInfo
  import Landmarks

  /** A flattened roster entry, tagged with the 0-based position of its team in `teams`. */
  datatype PlayerInfo = PlayerInfo(
    profileId: int,
    name: string,
    civilization: Landmarks.Civ,
    result: string,
    mmr: int,
    team: nat)

  function Tag(e: PlayerEntry, t: nat): PlayerInfo
  {
    PlayerInfo(e.profileId, e.name, e.civilization, e.result, e.mmr, t)
  }

  function TagTeam(team: Team, t: nat): (r: seq<PlayerInfo>)
    ensures |r| == |team| && forall j :: 0 <= j < |team| ==> r[j] == Tag(team[j], t)
  {
    seq(|team|, j requires 0 <= j < |team| => Tag(team[j], t))
  }

  /** The roster, team after team, each team in its own order. */
  function Flatten(teams: seq<Team>): seq<PlayerInfo>
    decreases |teams|
  {
    if teams == [] then []
    else Flatten(teams[..|teams| - 1]) + TagTeam(teams[|teams| - 1], |teams| - 1)
  }

  /** The number of players over all teams. */
  function TotalPlayers(teams: seq<Team>): nat
    decreases |teams|
  {
    if teams == [] then 0 else TotalPlayers(teams[..|teams| - 1]) + |teams[|teams| - 1]|
  }

  /** `get_player_info_from_last_match`: appends every player, team by team. */
  method GetPlayerInfo(m: Match) returns (infos: seq<PlayerInfo>)
    ensures infos == Flatten(m.teams)
  {
    infos := [];
    var idx := 0;
    while idx < |m.teams|
      invariant 0 <= idx <= |m.teams|
      invariant infos == Flatten(m.teams[..idx])
    {
      var team := m.teams[idx];
      var j := 0;
      while j < |team|
        invariant 0 <= j <= |team|
        invariant infos == Flatten(m.teams[..idx]) + TagTeam(team[..j], idx)
      {
        assert TagTeam(team[..j + 1], idx) == TagTeam(team[..j], idx) + [Tag(team[j], idx)];
        infos := infos + [Tag(team[j], idx)];
        j := j + 1;
      }
      assert team[..j] == team;
      assert m.teams[..idx + 1][..idx] == m.teams[..idx];
      idx := idx + 1;
    }
    assert m.teams[..idx] == m.teams;
  }

  /** The flattened roster has one entry per player. */
  lemma {:induction false} FlattenLength(teams: seq<Team>)
    ensures |Flatten(teams)| == TotalPlayers(teams)
    decreases |teams|
  {
    if teams != [] {
      FlattenLength(teams[..|teams| - 1]);
    }
  }

  /**
   * Team-major order: player `j` of team `t` sits right after all players of
   * the earlier teams, tagged with `t`.
   */
  lemma {:induction false} FlattenAt(teams: seq<Team>, t: nat, j: nat)
    requires t < |teams| && j < |teams[t]|
    ensures TotalPlayers(teams[..t]) + j < |Flatten(teams)|
    ensures Flatten(teams)[TotalPlayers(teams[..t]) + j] == Tag(teams[t][j], t)
    decreases |teams|
  {
    var prefix := teams[..|teams| - 1];
    FlattenLength(teams);
    FlattenLength(prefix);
    if t == |teams| - 1 {
      assert prefix == teams[..t];
    } else {
      FlattenAt(prefix, t, j);
      assert prefix[..t] == teams[..t];
    }
  }

  /** Every tag names a team of the match. */
  lemma {:induction false} FlattenTeamBound(teams: seq<Team>, k: nat)
    requires k < |Flatten(teams)|
    ensures Flatten(teams)[k].team < |teams|
    decreases |teams|
  {
    var prefix := teams[..|teams| - 1];
    if k < |Flatten(prefix)| {
      FlattenTeamBound(prefix, k);
    }
  }

  // ---------------------------------------------------------------------------
  // The viewer

  /** `str(profile_id) == my_profile_id`. */
  predicate IsViewer(info: PlayerInfo, viewer: string)
  {
    IntToString(info.profileId) == viewer
  }

  /** Position of the first entry that is the viewer, if any. */
  function ViewerPos(infos: seq<PlayerInfo>, viewer: string): (r: Option<nat>)
    ensures r.Some? ==> r.value < |infos| && IsViewer(infos[r.value], viewer)
    ensures r.Some? ==> forall j :: 0 <= j < r.value ==> !IsViewer(infos[j], viewer)
    ensures r.None? ==> forall j :: 0 <= j < |infos| ==> !IsViewer(infos[j], viewer)
    decreases |infos|
  {
    if infos == [] then None
    else if IsViewer(infos[0], viewer) then Some(0)
    else match ViewerPos(infos[1..], viewer)
      case None => None
      case Some(k) => Some(k + 1)
  }

  /** The first viewer entry is where the search stops. */
  lemma ViewerPosAt(infos: seq<PlayerInfo>, viewer: string, k: nat)
    requires k < |infos| && IsViewer(infos[k], viewer)
    requires forall j :: 0 <= j < k ==> !IsViewer(infos[j], viewer)
    ensures ViewerPos(infos, viewer) == Some(k)
  {
    var r := ViewerPos(infos, viewer);
    assert r.Some?;
    assert !(r.value < k) && !(k < r.value);
  }

  /** The viewer's team tag, or the sentinel -1 when the viewer did not play. */
  function MyTeamIndex(infos: seq<PlayerInfo>, viewer: string): int
  {
    match ViewerPos(infos, viewer)
    case Some(i) => infos[i].team
    case None => -1
  }

  /** The viewer's result, or "N/A" when the viewer did not play. */
  function MyResult(infos: seq<PlayerInfo>, viewer: string): string
  {
    match ViewerPos(infos, viewer)
    case Some(i) => infos[i].result
    case None => "N/A"
  }

  /** The lookup loop of `match_info_to_display`: stops at the first entry that is the viewer. */
  method FindViewer(infos: seq<PlayerInfo>, viewer: string)
    returns (myTeamIndex: int, myName: string, myResult: string)
    ensures myTeamIndex == MyTeamIndex(infos, viewer) && myResult == MyResult(infos, viewer)
    ensures ViewerPos(infos, viewer).Some? ==> myName == infos[ViewerPos(infos, viewer).value].name
    ensures ViewerPos(infos, viewer).None? ==> myTeamIndex == -1 && myName == "" && myResult == "N/A"
  {
    myTeamIndex, myName, myResult := -1, "", "N/A";
    var k := 0;
    while k < |infos|
      invariant 0 <= k <= |infos|
      invariant forall j :: 0 <= j < k ==> !IsViewer(infos[j], viewer)
      invariant myTeamIndex == -1 && myName == "" && myResult == "N/A"
    {
      if IntToString(infos[k].profileId) == viewer {
        ViewerPosAt(infos, viewer, k);
        myTeamIndex, myName, myResult := infos[k].team, infos[k].name, infos[k].result;
        return;
      }
      k := k + 1;
    }
    assert ViewerPos(infos, viewer).None?;
  }

  // ---------------------------------------------------------------------------
  // Player cards

  /** The three dropdowns' option lists of a card. */
  datatype AgeOptions = AgeOptions(feudal: seq<Landmarks.Landmark>, castle: seq<Landmarks.Landmark>, empire: seq<Landmarks.Landmark>)

  /**
   * A player card: the player, the eight input fields as prefilled, and the
   * landmark options of the player's civilization.
   */
  datatype Card = Card(info: PlayerInfo, fields: Annotation, options: AgeOptions)

  /**
   * `generate_player_card`: each of the eight fields shows the saved annotation's
   * value when there is one, else nothing; each dropdown offers the landmarks of
   * the player's civilization for that age (an unknown civilization is a lookup
   * failure, hence the precondition).
   */
  function GeneratePlayerCard(info: PlayerInfo, input: Option<Annotation>): (c: Card)
    requires Landmarks.KnownCiv(info.civilization)
    ensures c.info == info
    ensures c.fields == (if input.Some? then input.value else Blank)
    ensures c.options.feudal == Landmarks.Options(info.civilization, Landmarks.Feudal)
    ensures c.options.castle == Landmarks.Options(info.civilization, Landmarks.Castle)
    ensures c.options.empire == Landmarks.Options(info.civilization, Landmarks.Empire)
  {
    var fields := match input case Some(a) => a case None => Blank;
    var civ := info.civilization;
    Card(info, fields,
      AgeOptions(
        Landmarks.Options(civ, Landmarks.Feudal),
        Landmarks.Options(civ, Landmarks.Castle),
        Landmarks.Options(civ, Landmarks.Empire)))
  }

  /** Python truthiness of `match.get("player-input")`: present, not null, not empty. */
  predicate HasInput(userInput: Option<map<string, Annotation>>)
  {
    userInput.Some? && |userInput.value| > 0
  }

  /**
   * The card loop can build a card for every entry without a lookup failure:
   * every civilization is in the landmark table, and when there is saved input
   * it has an entry for every player.
   */
  predicate AllReady(infos: seq<PlayerInfo>, userInput: Option<map<string, Annotation>>)
  {
    && (forall k :: 0 <= k < |infos| ==> Landmarks.KnownCiv(infos[k].civilization))
    && (HasInput(userInput) ==> forall k :: 0 <= k < |infos| ==> IntToString(infos[k].profileId) in userInput.value)
  }

  lemma AllReadyPrefix(infos: seq<PlayerInfo>, userInput: Option<map<string, Annotation>>, n: nat)
    requires AllReady(infos, userInput) && n <= |infos|
    ensures AllReady(infos[..n], userInput)
  {
  }

  /** One more entry: one more card at the end. */
  lemma CardsForStep(infos: seq<PlayerInfo>, userInput: Option<map<string, Annotation>>, k: nat)
    requires AllReady(infos, userInput) && k < |infos|
    ensures AllReady(infos[..k], userInput) && AllReady(infos[..k + 1], userInput)
    ensures CardsFor(infos[..k + 1], userInput) ==
      CardsFor(infos[..k], userInput) + [GeneratePlayerCard(infos[k], InputFor(userInput, infos[k]))]
  {
    AllReadyPrefix(infos, userInput, k);
    AllReadyPrefix(infos, userInput, k + 1);
    assert infos[..k + 1][..k] == infos[..k];
  }

  /** `user_input[str(profile_id)]` when there is saved input, else None. */
  function InputFor(userInput: Option<map<string, Annotation>>, info: PlayerInfo): Option<Annotation>
    requires HasInput(userInput) ==> IntToString(info.profileId) in userInput.value
  {
    if HasInput(userInput) then Some(userInput.value[IntToString(info.profileId)]) else None
  }

  /** One card per flattened entry, in flattened order. */
  function CardsFor(infos: seq<PlayerInfo>, userInput: Option<map<string, Annotation>>): (cards: seq<Card>)
    requires AllReady(infos, userInput)
    ensures |cards| == |infos|
    ensures forall k :: 0 <= k < |infos| ==> cards[k] == GeneratePlayerCard(infos[k], InputFor(userInput, infos[k]))
    decreases |infos|
  {
    if infos == [] then []
    else
      var last := infos[|infos| - 1];
      CardsFor(infos[..|infos| - 1], userInput) + [GeneratePlayerCard(last, InputFor(userInput, last))]
  }

  // ---------------------------------------------------------------------------
  // The split into two panels

  datatype Panels = Panels(mine: seq<Card>, opponents: seq<Card>)

  /**
   * The card loop of `match_info_to_display`, card by card: a card of the
   * viewer's team goes to the front of "my team" when it is the viewer's and to
   * the back otherwise; every other card goes to the back of "opponent team".
   */
  function Split(cards: seq<Card>, myTeam: int, viewer: string): Panels
    decreases |cards|
  {
    if cards == [] then Panels([], [])
    else Place(Split(cards[..|cards| - 1], myTeam, viewer), cards[|cards| - 1], myTeam, viewer)
  }

  /** Where one card goes, given the panels built so far. */
  function Place(p: Panels, c: Card, myTeam: int, viewer: string): Panels
  {
    if c.info.team == myTeam then
      if IsViewer(c.info, viewer) then Panels([c] + p.mine, p.opponents)
      else Panels(p.mine + [c], p.opponents)
    else Panels(p.mine, p.opponents + [c])
  }

  lemma SplitSnoc(cards: seq<Card>, c: Card, myTeam: int, viewer: string)
    ensures Split(cards + [c], myTeam, viewer) == Place(Split(cards, myTeam, viewer), c, myTeam, viewer)
  {
    assert (cards + [c])[..|cards|] == cards;
  }


  /** How the split classifies a card. */
  datatype Role = Opponent | Teammate | Self

  function RoleOf(c: Card, myTeam: int, viewer: string): Role
  {
    if c.info.team != myTeam then Opponent
    else if IsViewer(c.info, viewer) then Self
    else Teammate
  }

  /** The cards of one role, in their original order. */
  function WithRole(cards: seq<Card>, myTeam: int, viewer: string, role: Role): seq<Card>
    decreases |cards|
  {
    if cards == [] then []
    else
      var rest := WithRole(cards[..|cards| - 1], myTeam, viewer, role);
      if RoleOf(cards[|cards| - 1], myTeam, viewer) == role then rest + [cards[|cards| - 1]] else rest
  }

  function Reverse<T>(s: seq<T>): seq<T>
    decreases |s|
  {
    if s == [] then [] else [s[|s| - 1]] + Reverse(s[..|s| - 1])
  }

  lemma {:induction false} ReverseSnoc<T>(s: seq<T>, x: T)
    ensures Reverse(s + [x]) == [x] + Reverse(s)
  {
    assert (s + [x])[..|s|] == s;
  }

  lemma {:induction false} ReverseMultiset<T>(s: seq<T>)
    ensures multiset(Reverse(s)) == multiset(s)
    decreases |s|
  {
    if s != [] {
      ReverseMultiset(s[..|s| - 1]);
      assert s == s[..|s| - 1] + [s[|s| - 1]];
    }
  }

  /**
   * The split, stated without the loop: "my team" is the viewer's own cards
   * (the last one first) followed by the teammates in order, and "opponent team"
   * is every card of another team in order.
   */
  lemma {:induction false} SplitByRole(cards: seq<Card>, myTeam: int, viewer: string)
    ensures Split(cards, myTeam, viewer) == Panels(
      Reverse(WithRole(cards, myTeam, viewer, Self)) + WithRole(cards, myTeam, viewer, Teammate),
      WithRole(cards, myTeam, viewer, Opponent))
    decreases |cards|
  {
    if cards != [] {
      var prefix := cards[..|cards| - 1];
      var c := cards[|cards| - 1];
      SplitByRole(prefix, myTeam, viewer);
      var selves := WithRole(prefix, myTeam, viewer, Self);
      var mates := WithRole(prefix, myTeam, viewer, Teammate);
      match RoleOf(c, myTeam, viewer)
      case Opponent =>
      case Teammate =>
        assert Reverse(selves) + mates + [c] == Reverse(selves) + (mates + [c]);
      case Self =>
        ReverseSnoc(selves, c);
        assert [c] + (Reverse(selves) + mates) == Reverse(selves + [c]) + mates;
    }
  }

  /** The cards of one role are exactly the input cards of that role. */
  lemma {:induction false} WithRoleMembers(cards: seq<Card>, myTeam: int, viewer: string, role: Role)
    ensures forall c :: c in WithRole(cards, myTeam, viewer, role) <==> c in cards && RoleOf(c, myTeam, viewer) == role
    decreases |cards|
  {
    if cards != [] {
      var prefix := cards[..|cards| - 1];
      WithRoleMembers(prefix, myTeam, viewer, role);
      assert cards == prefix + [cards[|cards| - 1]];
    }
  }

  /** Splitting loses and invents no card: the two panels are a permutation of the input. */
  lemma {:induction false} SplitPermutation(cards: seq<Card>, myTeam: int, viewer: string)
    ensures multiset(Split(cards, myTeam, viewer).mine) + multiset(Split(cards, myTeam, viewer).opponents)
      == multiset(cards)
    decreases |cards|
  {
    if cards != [] {
      var prefix, c := cards[..|cards| - 1], cards[|cards| - 1];
      SplitPermutation(prefix, myTeam, viewer);
      assert cards == prefix + [c];
      SplitSnoc(prefix, c, myTeam, viewer);
      PlacePermutation(Split(prefix, myTeam, viewer), c, myTeam, viewer);
    }
  }

  lemma PlacePermutation(p: Panels, c: Card, myTeam: int, viewer: string)
    ensures var q := Place(p, c, myTeam, viewer);
      multiset(q.mine) + multiset(q.opponents) == multiset(p.mine) + multiset(p.opponents) + multiset{c}
  {
  }

  /** "My team" holds exactly the cards of the viewer's team, "opponent team" all others. */
  lemma MyTeamIsViewersTeam(cards: seq<Card>, myTeam: int, viewer: string)
    ensures forall c :: c in Split(cards, myTeam, viewer).mine <==> c in cards && c.info.team == myTeam
    ensures forall c :: c in Split(cards, myTeam, viewer).opponents <==> c in cards && c.info.team != myTeam
  {
    SplitByRole(cards, myTeam, viewer);
    WithRoleMembers(cards, myTeam, viewer, Self);
    WithRoleMembers(cards, myTeam, viewer, Teammate);
    WithRoleMembers(cards, myTeam, viewer, Opponent);
    ReverseMultiset(WithRole(cards, myTeam, viewer, Self));
    forall c
      ensures c in Reverse(WithRole(cards, myTeam, viewer, Self)) <==> c in WithRole(cards, myTeam, viewer, Self)
    {
      assert c in multiset(Reverse(WithRole(cards, myTeam, viewer, Self)))
        <==> c in multiset(WithRole(cards, myTeam, viewer, Self));
    }
  }

  lemma {:induction false} WithRoleNone(cards: seq<Card>, myTeam: int, viewer: string, role: Role)
    requires forall k :: 0 <= k < |cards| ==> RoleOf(cards[k], myTeam, viewer) != role
    ensures WithRole(cards, myTeam, viewer, role) == []
    decreases |cards|
  {
    if cards != [] {
      WithRoleNone(cards[..|cards| - 1], myTeam, viewer, role);
    }
  }

  lemma {:induction false} WithRoleAll(cards: seq<Card>, myTeam: int, viewer: string, role: Role)
    requires forall k :: 0 <= k < |cards| ==> RoleOf(cards[k], myTeam, viewer) == role
    ensures WithRole(cards, myTeam, viewer, role) == cards
    decreases |cards|
  {
    if cards != [] {
      WithRoleAll(cards[..|cards| - 1], myTeam, viewer, role);
    }
  }

  lemma {:induction false} WithRoleSingle(cards: seq<Card>, myTeam: int, viewer: string, role: Role, i: nat)
    requires i < |cards| && RoleOf(cards[i], myTeam, viewer) == role
    requires forall k :: 0 <= k < |cards| && k != i ==> RoleOf(cards[k], myTeam, viewer) != role
    ensures WithRole(cards, myTeam, viewer, role) == [cards[i]]
    decreases |cards|
  {
    var prefix := cards[..|cards| - 1];
    if i == |cards| - 1 {
      WithRoleNone(prefix, myTeam, viewer, role);
    } else {
      WithRoleSingle(prefix, myTeam, viewer, role, i);
    }
  }

  // ---------------------------------------------------------------------------
  // Banners and the whole view

  /** The result banners above "my team" and "opponent team". */
  datatype Banners = Banners(mine: string, opponent: string)

  /** "loss" and "win" give opposite banners; any other result gives "N/A" on both sides. */
  function BannerLabels(myResult: string): (b: Banners)
    ensures b.mine == "WIN" <==> myResult == "win"
    ensures b.mine == "LOSS" <==> myResult == "loss"
    ensures b.opponent == "WIN" <==> myResult == "loss"
    ensures b.opponent == "LOSS" <==> myResult == "win"
    ensures b.mine == "N/A" <==> b.opponent == "N/A"
    ensures b.mine in {"WIN", "LOSS", "N/A"} && b.opponent in {"WIN", "LOSS", "N/A"}
  {
    if myResult == "loss" then Banners("LOSS", "WIN")
    else if myResult == "win" then Banners("WIN", "LOSS")
    else Banners("N/A", "N/A")
  }

  /**
   * What `match_info_to_display` returns: each panel is its banner followed by
   * its cards; then the game summary and the record itself, passed back for saving.
   */
  datatype Display = Display(
    banners: Banners,
    myCards: seq<Card>,
    opponentCards: seq<Card>,
    gameInfo: string,
    record: Match)

  /** Every player of the record can be rendered without a lookup failure. */
  predicate Renderable(m: Match)
  {
    AllReady(Flatten(m.teams), m.playerInput)
  }

  /** The view of a match for a viewer, as a function of the record. */
  function DisplayOf(m: Match, viewer: string, localTime: TimeFormat): Display
    requires Renderable(m)
  {
    var infos := Flatten(m.teams);
    var panels := Split(CardsFor(infos, m.playerInput), MyTeamIndex(infos, viewer), viewer);
    Display(BannerLabels(MyResult(infos, viewer)), panels.mine, panels.opponents,
      GameInfo(m, false, localTime), m)
  }

  /** No player appears twice in a match. */
  predicate UniqueProfileIds(infos: seq<PlayerInfo>)
  {
    forall i, j :: 0 <= i < j < |infos| ==> infos[i].profileId != infos[j].profileId
  }

  /** The two panels together show every player exactly once. */
  lemma DisplayIsPermutation(m: Match, viewer: string, localTime: TimeFormat)
    requires Renderable(m)
    ensures var d := DisplayOf(m, viewer, localTime);
      && multiset(d.myCards) + multiset(d.opponentCards) == multiset(CardsFor(Flatten(m.teams), m.playerInput))
      && |d.myCards| + |d.opponentCards| == TotalPlayers(m.teams)
  {
    var infos := Flatten(m.teams);
    var cards := CardsFor(infos, m.playerInput);
    var d := DisplayOf(m, viewer, localTime);
    SplitPermutation(cards, MyTeamIndex(infos, viewer), viewer);
    FlattenLength(m.teams);
    assert |multiset(d.myCards) + multiset(d.opponentCards)| == |multiset(cards)|;
  }

  /**
   * When the viewer played and no player appears twice, "my team" is the
   * viewer's card followed by the teammates' cards in roster order.
   */
  lemma ViewerLeadsMyTeam(m: Match, viewer: string, localTime: TimeFormat, i: nat)
    requires Renderable(m) && UniqueProfileIds(Flatten(m.teams))
    requires ViewerPos(Flatten(m.teams), viewer) == Some(i)
    ensures var infos := Flatten(m.teams);
      var cards := CardsFor(infos, m.playerInput);
      DisplayOf(m, viewer, localTime).myCards ==
        [cards[i]] + WithRole(cards, infos[i].team, viewer, Teammate)
  {
    var infos := Flatten(m.teams);
    var cards := CardsFor(infos, m.playerInput);
    var t := infos[i].team;
    assert MyTeamIndex(infos, viewer) == t;
    forall k | 0 <= k < |cards| && k != i
      ensures RoleOf(cards[k], t, viewer) != Self
    {
      OnlyOneViewer(infos, viewer, i, k);
    }
    SoleViewerLeads(cards, t, viewer, i);
  }

  /** With distinct profile ids, at most one entry is the viewer. */
  lemma OnlyOneViewer(infos: seq<PlayerInfo>, viewer: string, i: nat, k: nat)
    requires UniqueProfileIds(infos) && i < |infos| && k < |infos| && k != i
    requires IsViewer(infos[i], viewer)
    ensures !IsViewer(infos[k], viewer)
  {
    IntToStringInjective(infos[k].profileId, infos[i].profileId);
  }

  /** When exactly one card plays the viewer, "my team" is that card followed by the teammates. */
  lemma SoleViewerLeads(cards: seq<Card>, t: int, viewer: string, i: nat)
    requires i < |cards| && RoleOf(cards[i], t, viewer) == Self
    requires forall k :: 0 <= k < |cards| && k != i ==> RoleOf(cards[k], t, viewer) != Self
    ensures Split(cards, t, viewer).mine == [cards[i]] + WithRole(cards, t, viewer, Teammate)
  {
    SplitByRole(cards, t, viewer);
    WithRoleSingle(cards, t, viewer, Self, i);
    assert Reverse([cards[i]]) == [cards[i]];
  }

  /** A viewer who did not play has no team: every card is an opponent and both banners read "N/A". */
  lemma AbsentViewerAllOpponents(m: Match, viewer: string, localTime: TimeFormat)
    requires Renderable(m) && ViewerPos(Flatten(m.teams), viewer).None?
    ensures var d := DisplayOf(m, viewer, localTime);
      && d.myCards == []
      && d.opponentCards == CardsFor(Flatten(m.teams), m.playerInput)
      && d.banners == Banners("N/A", "N/A")
  {
    var infos := Flatten(m.teams);
    var cards := CardsFor(infos, m.playerInput);
    SplitByRole(cards, -1, viewer);
    WithRoleAll(cards, -1, viewer, Opponent);
    WithRoleNone(cards, -1, viewer, Self);
    WithRoleNone(cards, -1, viewer, Teammate);
  }

  /**
   * Every card on show carries its own player's saved annotation when the
   * record has saved input, and empty fields otherwise.
   */
  lemma DisplayedCardsCarryAnnotations(m: Match, viewer: string, localTime: TimeFormat)
    requires Renderable(m)
    ensures var d := DisplayOf(m, viewer, localTime);
      forall c :: c in d.myCards + d.opponentCards ==>
        && c.info in Flatten(m.teams)
        && (HasInput(m.playerInput) ==>
              IntToString(c.info.profileId) in m.playerInput.value &&
              c.fields == m.playerInput.value[IntToString(c.info.profileId)])
        && (!HasInput(m.playerInput) ==> c.fields == Blank)
  {
    var d := DisplayOf(m, viewer, localTime);
    forall c | c in d.myCards + d.opponentCards
      ensures c.info in Flatten(m.teams)
      ensures HasInput(m.playerInput) ==>
        IntToString(c.info.profileId) in m.playerInput.value &&
        c.fields == m.playerInput.value[IntToString(c.info.profileId)]
      ensures !HasInput(m.playerInput) ==> c.fields == Blank
    {
      DisplayedCardIsCard(m, viewer, localTime, c);
      CardCarriesAnnotation(Flatten(m.teams), m.playerInput, c);
    }
  }

  lemma DisplayedCardIsCard(m: Match, viewer: string, localTime: TimeFormat, c: Card)
    requires Renderable(m)
    requires c in DisplayOf(m, viewer, localTime).myCards + DisplayOf(m, viewer, localTime).opponentCards
    ensures c in CardsFor(Flatten(m.teams), m.playerInput)
  {
    var d := DisplayOf(m, viewer, localTime);
    DisplayIsPermutation(m, viewer, localTime);
    assert c in multiset(d.myCards) + multiset(d.opponentCards);
  }

  /** A card shows its player's saved annotation when there is saved input, and blank fields otherwise. */
  lemma CardCarriesAnnotation(infos: seq<PlayerInfo>, userInput: Option<map<string, Annotation>>, c: Card)
    requires AllReady(infos, userInput) && c in CardsFor(infos, userInput)
    ensures c.info in infos
    ensures HasInput(userInput) ==>
      IntToString(c.info.profileId) in userInput.value &&
      c.fields == userInput.value[IntToString(c.info.profileId)]
    ensures !HasInput(userInput) ==> c.fields == Blank
  {
    var cards := CardsFor(infos, userInput);
    var k :| 0 <= k < |cards| && cards[k] == c;
    assert c == GeneratePlayerCard(infos[k], InputFor(userInput, infos[k]));
  }


  /** `match_info_to_display`. */
  method MatchInfoToDisplay(m: Match, viewer: string, localTime: TimeFormat) returns (d: Display)
    requires Renderable(m)
    ensures d == DisplayOf(m, viewer, localTime)
  {
    var infos := GetPlayerInfo(m);
    var myTeamIndex, myName, myResult := FindViewer(infos, viewer);
    var mine, opponents := PlaceCards(infos, m.playerInput, myTeamIndex, viewer);
    d := Display(BannerLabels(myResult), mine, opponents, GameInfo(m, false, localTime), m);
  }

  /** The card loop's step: the next entry's card is placed as `Split` places its last card. */
  lemma PlaceStep(infos: seq<PlayerInfo>, userInput: Option<map<string, Annotation>>, k: nat,
                  myTeam: int, viewer: string, p: Panels)
    requires AllReady(infos, userInput) && k < |infos|
    requires p == Split(CardsFor(infos[..k], userInput), myTeam, viewer)
    ensures AllReady(infos[..k + 1], userInput)
    ensures Split(CardsFor(infos[..k + 1], userInput), myTeam, viewer) ==
      Place(p, GeneratePlayerCard(infos[k], InputFor(userInput, infos[k])), myTeam, viewer)
  {
    var c := GeneratePlayerCard(infos[k], InputFor(userInput, infos[k]));
    CardsForStep(infos, userInput, k);
    SplitSnoc(CardsFor(infos[..k], userInput), c, myTeam, viewer);
  }

  /**
   * The card loop of `match_info_to_display`: build each player's card,
   * prefilled from the saved input, and place it in its panel.
   */
  method PlaceCards(infos: seq<PlayerInfo>, userInput: Option<map<string, Annotation>>,
                    myTeamIndex: int, viewer: string)
    returns (mine: seq<Card>, opponents: seq<Card>)
    requires AllReady(infos, userInput)
    ensures Panels(mine, opponents) == Split(CardsFor(infos, userInput), myTeamIndex, viewer)
  {
    mine, opponents := [], [];
    var k := 0;
    while k < |infos|
      invariant 0 <= k <= |infos|
      invariant Panels(mine, opponents) == Split(CardsFor(infos[..k], userInput), myTeamIndex, viewer)
    {
      var info := infos[k];
      var curInput: Option<Annotation> := None;
      if HasInput(userInput) {
        curInput := Some(userInput.value[IntToString(info.profileId)]);
      }
      var card := GeneratePlayerCard(info, curInput);
      PlaceStep(infos, userInput, k, myTeamIndex, viewer, Panels(mine, opponents));
      if info.team == myTeamIndex {
        if IsViewer(info, viewer) {
          mine := [card] + mine;
        } else {
          mine := mine + [card];
        }
      } else {
        opponents := opponents + [card];
      }
      k := k + 1;
    }
    assert infos[..k] == infos;
  }

}
