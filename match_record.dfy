/**
 * The match record as the game-statistics API returns it and as the reviewer
 * saves it: the roster in `teams`, plus the `player-input` annotations once a
 * match has been annotated.
 */
module MatchRecord {
  import opened Wrappers
  import Landmarks

  /** One `{"player": {...}}` roster entry of a team. */
  datatype PlayerEntry = PlayerEntry(
    profileId: int,
    name: string,
    civilization: Landmarks.Civ,
    result: string,
    mmr: int)

  type Team = seq<PlayerEntry>

  /**
   * A player's saved annotation: the eight input fields of a player card. Each
   * field holds what the input showed when the match was saved (null when empty).
   */
  datatype Annotation = Annotation(
    feudalTime: Option<string>,
    feudalDropdown: Option<string>,
    castleTime: Option<string>,
    castleDropdown: Option<string>,
    empireTime: Option<string>,
    empireDropdown: Option<string>,
    strategy: Option<string>,
    improve: Option<string>)

  /** The annotation of a player nobody has annotated: every field empty. */
  const Blank: Annotation := Annotation(None, None, None, None, None, None, None, None)

  /**
   * A match record. `duration` is null for a game without a recorded length;
   * `playerInput` is the `player-input` key (absent or null is None), keyed by
   * the decimal text of each profile id.
   */
  datatype Match = Match(
    gameId: int,
    startedAt: string,
    duration: Option<int>,
    mapName: string,
    kind: string,
    averageMmr: int,
    teams: seq<Team>,
    playerInput: Option<map<string, Annotation>>)

  /**
   * The parsed body of a games request: its `error` key, if any, and its
   * `games` key, if any (a transport failure yields only `error`).
   */
  datatype Response = Response(error: Option<string>, games: Option<seq<Match>>)

  /** Python truthiness of an `n_clicks` value (None and 0 are falsy). */
  predicate Clicked(nClicks: Option<int>)
  {
    nClicks.Some? && nClicks.value != 0
  }

  /** `localTime(startedAt, forPersist)`: the UTC start time rendered in the host's zone. */
  type TimeFormat = (string, bool) -> string
}
