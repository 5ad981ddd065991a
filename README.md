# AoE4 reviewer — the match reshaper, in Dafny

The AoE4 reviewer is a small Dash page. It fetches a player's Age of Empires IV
games from the aoe4world API and lays the chosen game out as two team panels:
"my team", with the viewer in front, and "opponent team". Each panel has a
WIN / LOSS / N/A banner. Each player card has landmark dropdowns for the three
ages and free-text fields. The page saves the filled-in cards as a `player-input`
annotation inside the match record and offers the record as a JSON download.
Reopening the record prefills every card.

This project models the page's core logic and proves its properties:

- `Landmarks` (landmarks.dfy): the landmark table of constants.py.
- `MatchRecord` (match_record.dfy): the match record, the roster entries, the
  eight-field annotation and the parsed games response.
- `Decimal` (decimal.dfy): Python's `str(int)`, the `:02` zero-fill, and
  reading both back.
- `LexOrder` (lex_order.dfy): Python's `<` on strings, a strict total order.
- `MatchInfo` (match_info.dfy), from util.py:
  - `sec_to_min`;
  - `get_game_info_from_match`, both the persistence key and the caption;
  - `display_recent_matches`.
- `LastMatch` (last_match.dfy): `get_last_match_data`, that is, an error
  message, "No games found", or the first game with the greatest `started_at`.
  main.py's copy of this function (main.py:21-35) behaves the same way, and
  the legacy module uses this model of it.
- `Reshaper` (reshaper.dfy), the live reshaper of util.py:
  - the flattening with team tags;
  - the viewer lookup;
  - `generate_player_card` (the field prefill and the options lookup);
  - the card loop that fills the two panels;
  - the banners.
- `Legacy` (legacy.dfy): the earlier main.py revision. It assigns players to
  teams by flattened position, two by two.
- `Callbacks` (callbacks.dfy), from callback.py:
  - `update_recent_matches`;
  - the recent-game link branch of `update_match_info`;
  - `download_game_data`.

The loops of the source are methods with loop invariants. Each method is proved
equal to a specification function:

- `GetPlayerInfo` equals `Flatten`;
- `FindViewer` equals `ViewerPos`;
- `PlaceCards` equals `Split`;
- `CollectPlayerInput` equals `CollectInput`;
- `LegacyFindTeam` equals `LegacyTeamNumber`;
- `LegacyPartition` equals `LegacySplit`.

Lemmas then state what the page promises about those functions.

Some representation choices differ from the source:

- Civilizations, ages and landmarks are enumerations. `Landmarks.CivKey`,
  `Landmarks.AgeKey` and `Landmarks.LandmarkName` give the texts the source uses.
  `Landmarks.ParseCiv` reads the API's civilization text: a table key becomes
  its constructor and any other text becomes `Other(text)`, so a parsed `Other`
  never holds a table key. Looking up an `Other` civilization is a
  precondition failure, as the `KeyError` would be.
- Every civilization having exactly the three ages `feudal`, `castle` and
  `empire` holds by construction: `Options` is total over the three-constructor
  `Age` type.
- The `player-input` dictionary is built with integer keys, as in callback.py.
  `JsonObject` turns it into the string-keyed object that `json.dumps` writes.
  util.py:111 looks that object up by `str(profile_id)`.
- A lookup failure that the source does not catch is a precondition. This covers
  an unknown civilization, a missing `player-input` entry, an absent viewer
  in main.py, a link index outside the stored games (`recent_matches[index]`
  at callback.py:72, an `IndexError`) and an input column shorter than the
  cards (callback.py:101-111, an `IndexError`). The one exception is the missing `games` key in
  `update_recent_matches`, which is modelled as a `KeyError` outcome.

## Model

| member | source | states |
|---|---|---|
| MatchInfo.SecToMin | util.py:40-45 | null gives exactly "N/A"; a present non-negative duration gives a text at least five characters long whose third-from-last character is ':', and whose minutes field carries no extra leading zero (the text is exactly five characters or does not start with '0'), so with the round trip the text is fixed |
| MatchInfo.SecToMinExample | util.py:40-45 | 125 seconds print as "02:05" |
| MatchInfo.SecToMinRoundTrip | util.py:40-45 | reading the `MM:SS` text back (minutes, colon, seconds below 60) gives the duration in seconds: the floor-division/remainder split loses nothing |
| MatchInfo.PersistKeySplits | util.py:47-55 | the persistence key splits at its commas into exactly the local start time, the map and the kind, when none of them contains a comma |
| MatchInfo.PersistKeyCollides | util.py:47-55 | two records that agree on start time, map and kind get the same persistence key, so they are saved under the same file name |
| MatchInfo.CaptionSplits | util.py:47-56 | the caption splits at its space-bar-space separators into exactly five fields, in this order: "Map: " and the map, "Time: " and the local start time, "Duration: " and the clock, " Kind: " and the kind, "MMR: " and the average rating (when the map, the time and the kind hold no bar character) |
| MatchInfo.DisplayRecentMatches | util.py:80-86 | one link per game of `data["games"]`, in order; link `i` carries index `i` and the caption of game `i` |
| LastMatch.LatestIndex | util.py:298 | the position `max(games, key=started_at)` picks: no game has a greater `started_at`, and every earlier game has a strictly smaller one (the first of the maximal games) |
| LastMatch.FirstLatestUnique | util.py:298 | only one position satisfies "first of the maximal games", so the choice is determined |
| LastMatch.GetLastMatchData | util.py:285-299 | an `error` key yields its message; otherwise a missing or empty `games` yields "No games found"; otherwise the result is a game that is the first with the greatest `started_at` |
| Reshaper.GetPlayerInfo | util.py:151-167 | the nested append loops produce exactly the team-major flattening, each entry tagged with its team's position |
| Reshaper.FlattenLength | util.py:151-167 | the flattened roster has one entry per player: its length is the sum of the team sizes |
| Reshaper.FlattenAt | util.py:151-167 | player `j` of team `t` sits at position (players of teams before `t`) + `j` and carries tag `t`: team-major order, team order kept |
| Reshaper.FlattenTeamBound | util.py:151-167 | every team tag names a team of the match |
| Reshaper.ViewerPos | util.py:95-103 | the position found holds the viewer and no earlier entry does; when there is none, no entry is the viewer |
| Reshaper.ViewerPosAt | util.py:95-103 | the search stops at the first entry whose `str(profile_id)` equals the viewer id |
| Reshaper.FindViewer | util.py:95-103 | the lookup loop with `break` returns the first viewer entry's team, name and result, or -1, "" and "N/A" when the viewer is absent |
| Reshaper.GeneratePlayerCard | util.py:169-283 | each of the eight fields shows the saved annotation's value when there is one and nothing otherwise; the three dropdowns offer the landmark list of the player's civilization for that age |
| Reshaper.CardsFor | util.py:108-113 | one card per flattened entry, in order, each built from the entry and its `player-input` annotation when the record has input |
| Reshaper.SplitByRole | util.py:114-120 | the panels without the loop: "my team" is the viewer's cards (the last one first) followed by the teammates in order; "opponent team" is every card of another team, in order |
| Reshaper.SplitPermutation | util.py:105-120 | the two panels together are a permutation of the cards: no card is lost or duplicated |
| Reshaper.MyTeamIsViewersTeam | util.py:114-120 | a card is in "my team" if and only if its team tag is the viewer's team, and in "opponent team" if and only if it is not |
| Reshaper.PlaceCards | util.py:105-120 | the card loop, with its prepend for the viewer and appends for everyone else, builds exactly the panels `Split` specifies |
| Reshaper.BannerLabels | util.py:122-130 | "win" and "loss" give opposite banners (WIN/LOSS and LOSS/WIN), any other result gives N/A on both sides; each banner is one of WIN, LOSS, N/A |
| Reshaper.MatchInfoToDisplay | util.py:88-148 | the whole reshaper returns exactly `DisplayOf` of the record: both banners, both panels, the caption and the record itself |
| Reshaper.DisplayIsPermutation | util.py:88-148 | the two panels of the view are a permutation of the roster's cards: together they hold one card per player |
| Reshaper.ViewerLeadsMyTeam | util.py:95-120 | when the viewer played and profile ids are distinct, "my team" is the viewer's card followed by the teammates' cards in roster order |
| Reshaper.AbsentViewerAllOpponents | util.py:95-130 | when the viewer did not play, "my team" is empty, every card is an opponent in roster order, and both banners read N/A |
| Reshaper.DisplayedCardsCarryAnnotations | util.py:92-113 | every card on show belongs to a roster player; with saved input it carries that player's entry under `str(profile_id)`; without input its fields are blank |
| Reshaper.CardCarriesAnnotation | util.py:109-113 | a card built by the loop carries its own player's saved annotation when there is input, blank fields otherwise |
| Legacy.LegacySecToMin | main.py:53-56 | `MM:SS` with no null case: at least five characters, the third-from-last a colon, and for a non-negative duration no extra leading zero in the minutes |
| Legacy.LegacySecToMinAgrees | main.py:53-56 | on a present duration the legacy clock is the same text as util.py's |
| Legacy.LegacySecToMinRoundTrip | main.py:53-56 | the legacy clock reads back as the duration it was made from |
| Legacy.LegacyGameInfoIdentifiesGame | main.py:58-76 | two matches with the same legacy heading have the same game id: the heading, unlike the later persistence key, tells games apart |
| Legacy.LegacyGetPlayerInfo | main.py:37-51 | the nested append loops produce the team-major roster with profile id, name, civilization and result |
| Legacy.LegacyFlattenProjects | main.py:37-51 | main.py's roster is util.py's, entry for entry, without the team tag and the rating |
| Legacy.LegacyViewerPosAgrees | main.py:146-150 | both revisions find the viewer at the same flattened position |
| Legacy.IndexOfViewerEntry | main.py:149 | `player_info_list.index(player_info)` returns the viewer's own position: no earlier entry is equal to it |
| Legacy.LegacyFindTeam | main.py:146-150 | the lookup loop yields the viewer's flattened position halved, or no team number when the viewer is absent |
| Legacy.GenerateLegacyCard | main.py:162-235 | the dropdowns offer the civilization's landmark list per age and are preset to the civilization's key |
| Legacy.LegacySplitBlocks | main.py:152-157 | the pair rule cuts the cards in three: "my team" is positions `2t` and `2t+1`, "opponent" is everything before and after, both in roster order |
| Legacy.LegacySplitPermutation | main.py:152-157 | the two legacy panels together are a permutation of the cards |
| Legacy.LegacyPartition | main.py:152-157 | the indexed partition loop builds exactly `LegacySplit` of the cards by the viewer's team number; with no cards both panels are empty |
| Legacy.LegacyViewOf | main.py:139-159 | a renderable match is shown with its legacy heading |
| Legacy.LegacyUpdateMatchInfo | main.py:130-159 | no click gives three empty outputs; an error or "No games found" message fills all three outputs; otherwise the panels are shown with the match's heading |
| Legacy.LegacyViewPartition | main.py:146-157 | "my team" is the pair block holding the viewer's position and includes the viewer's card; "opponent" is the rest; together they are the roster's cards |
| Legacy.PairRuleOnTwoPlayerTeams | main.py:149-154 | when every team has exactly two players, position `k` belongs to team `k / 2`, so the pair rule agrees with the team tags |
| Legacy.LegacyOneVsOneMergesTeams | main.py:149-154 | in a one-against-one match both cards land in "my team" and the opponent panel is empty |
| Callbacks.UpdateRecentMatches | callback.py:19-26 | no click gives no update; a body without `games` fails on that key; otherwise the links and a copy of the games are returned, both in the order they were fetched |
| Callbacks.SelectRecentMatch | callback.py:70-76 | nothing is updated if and only if no link has been clicked; otherwise the view is exactly the reshaper's `DisplayOf` of the stored game at the trigger's index, which it echoes unchanged, with its caption as heading |
| Callbacks.ClickedLinkOpensItsGame | callback.py:70-73 | clicking the i-th listed link opens the reshaper's view of the i-th stored game, and the view's heading is the caption the link showed |
| Callbacks.AnnotationAt | callback.py:102-111 | card `k`'s annotation takes each of its eight fields from position `k` of the matching column |
| Callbacks.CollectInputKeys | callback.py:99-112 | the collected `player_input` has an entry for exactly the ids of the cards |
| Callbacks.CollectInputLastWins | callback.py:101-112 | the entry under a card's id holds that card's values unless a later card has the same id, whose values overwrite them |
| Callbacks.CollectPlayerInput | callback.py:100-112 | the indexed loop builds exactly `CollectInput` over all cards |
| Callbacks.JsonObjectEntries | callback.py:113-115 | the JSON object holds each entry of the integer-keyed dictionary under the entry's decimal text, and nothing else |
| Callbacks.DownloadGameData | callback.py:94-118 | no click gives no update; otherwise the record is saved with `player-input` replaced by the collected input and every other field unchanged, under the persistence key followed by ".json" |
| Callbacks.ReloadRestoresAnnotations | callback.py:94-118 | for card ids in any order that name every roster player exactly once, the saved record renders again and the player whose id stood at position `j` comes back with the values of the `j`-th inputs |
| Callbacks.PageCoversRoster | util.py:105-120 | with distinct profile ids, the page's cards ("my team" then "opponent team") name every roster player exactly once |
| Callbacks.SavedPageRestores | callback.py:94-118 | saving the page as shown, viewer first and in panel order, and reopening the file prefills each player's card with the values that player's card held on the page |
| Landmarks.ParseCiv | util.py:204 | reading a civilization text gives a value whose key is that same text |
| Landmarks.ParseCivKnown | util.py:204 | a read civilization is in the table if and only if its text is one of the sixteen table keys |
| Landmarks.ParseCivKey | constants.py:1-82 | each table civilization is read back from its own key |
| Landmarks.AgeKeyDistinct | constants.py:3-5 | the three inner keys "feudal", "castle" and "empire" are distinct, so each age reaches its own list |
| Landmarks.OptionsNonEmpty | constants.py:1-82 | every civilization in the table offers at least one landmark in each of the three ages |
| Landmarks.DragonMirrorsHolyRomanEmpire | constants.py:17-21 | the Order of the Dragon has the Holy Roman Empire's list in every age |
| Landmarks.AbbasidWingsEveryAge | constants.py:27-31 | the Abbasid Dynasty has the same four wings, Culture, Military, Economic and Trade, in every age |
| Landmarks.AyyubidWingsEveryAge | constants.py:67-71 | the Ayyubids have one eight-element list, the same in every age |
| Landmarks.JeanneDArcReordersFrench | constants.py:77-81 | Jeanne d'Arc's feudal list is the French one in the same order; her castle and empire lists are the two French entries reversed |
| Landmarks.JeanneDArcSameOptions | constants.py:77-81 | in every age Jeanne d'Arc offers exactly the French landmarks |
| Decimal.ParseIntToString | util.py:99 | the decimal text of a profile id reads back as the id |
| Decimal.IntToStringInjective | util.py:99 | distinct profile ids have distinct decimal texts, so `str(profile_id) == my_profile_id` matches at most one id |
| LexOrder.Total | util.py:298 | Python's string order is total on distinct strings |
| LexOrder.Transitive | util.py:298 | Python's string order is transitive |

## Left out

- The HTTP fetches (`fetch_data`, `fetch_recent_matches`) are not modelled. Their parsed result is a `Response` parameter: an `error` key, a `games` key, or neither.
- `convert_time_string` depends on the host's time zone and on `strptime`/`strftime`. It is a function parameter `localTime(startedAt, forPersist)` with no properties assumed.
- `save_match_data` and `deserialize_historical_match` are file-system code and are not modelled.
- Component construction (`html.*`, `dbc.*`, `dcc.*`), CSS classes, the profile link's `href` and the layout are not modelled. Cards are records and the view is a record of the banner labels, the two card lists, the caption and the match.
- Callback routing (the trigger-id inspection), the upload branch (base64 and `json.load`), `json.dumps` formatting and `dcc.send_string` are not modelled. The download is the saved record plus its file name. The fetch-button branch of callback.py's `update_match_info` (callback.py:55-57) is not modelled. It hands the result of `get_last_match_data` to `match_info_to_display` unchecked, so an error message or "No games found" text reaches the reshaper as if it were a match record. That is a defect of the source; the model's reshaper takes only match records.
- The debug `print` at util.py:90 has no effect on the result and is not modelled.
- Numbers in the record are unbounded integers. Floating-point durations or ratings are not modelled.
- Reshaper.GeneratePlayerCard: a saved annotation is assumed to have all eight keys. A partial or empty annotation dictionary would fail or read as "no input" in Python, and that case is not modelled.
- Reshaper.AllReady: a record with saved input that lacks an entry for some player fails with a `KeyError` at util.py:111. The model makes that entry's presence a precondition rather than an outcome.
- Landmarks.Options: the table is a function from civilization and age enumerations to landmark lists, not a `map<string, map<string, seq<string>>>`. The names are recovered by `CivKey` and `LandmarkName`. Checking an arbitrary civilization string against the table is `KnownCiv(ParseCiv(s))`.
- Callbacks.DownloadGameData: the callback's guard is `n_clicks is None`, and that is what is modelled. A click count of 0 counts as a click there, unlike the truthiness test of the other callbacks.
- Callbacks.ColumnsCover: every input column is assumed to have an entry per card. A shorter column fails with an `IndexError` in Python, and that case is a precondition here.
- Legacy.LegacyFindTeam: the card built and dropped at main.py:147 is built only for its lookup failure on an unknown civilization, which is a precondition. The card itself is not kept.
- Legacy.LegacyGameInfo: a null duration fails inside main.py's `sec_to_min`. That failure is a precondition, not an outcome.

## Findings

| source | as written | input that shows it | evidently intended | confidence | as-written member | corrected member |
|---|---|---|---|---|---|---|
| main.py:149-154 | a player's team is its flattened position `// 2`, which is right only when every team has exactly two players | a 1v1 with `teams = [[A], [B]]` and viewer A: both A and B land in "my team", and the opponent panel is empty | "my team" is the players of the viewer's own team, as util.py's team tag gives it | not executed | Legacy.LegacyOneVsOneMergesTeams | Reshaper.MyTeamIsViewersTeam |
