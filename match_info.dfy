/**
 * The text derived from a match: its duration as `MM:SS`, the one-line game
 * summary, the persistence key `start,map,kind`, and the list of recent-match
 * links (util.py).
 */
module MatchInfo {
  import opened Wrappers
  import opened Decimal
  import opened MatchRecord

  /**
   * A duration in seconds as `MM:SS` (minutes by floor division, each part
   * zero-filled to two characters), or "N/A" when the duration is null.
   * Dafny's `/` and `%` agree with Python's `//` and `%` for the divisor 60.
   */
  function SecToMin(sec: Option<int>): (r: string)
    ensures sec.None? <==> r == "N/A"
    ensures sec.Some? && sec.value >= 0 ==> |r| >= 5 && r[|r| - 3] == ':'
    ensures sec.Some? && sec.value >= 0 ==> |r| == 5 || r[0] != '0'
  {
    match sec
    case None => "N/A"
    case Some(s) =>
      SecondsFieldWidth(s % 60);
      Pad2(s / 60) + ":" + Pad2(s % 60)
  }

  /** Two minutes and five seconds print as "02:05". */
  lemma SecToMinExample()
    ensures SecToMin(Some(125)) == "02:05"
  {
    assert NatToDigits(2) == "2" && NatToDigits(5) == "5";
  }

  lemma SecondsFieldWidth(n: int)
    requires 0 <= n < 60
    ensures |Pad2(n)| == 2
  {
    if n >= 10 {
      assert NatToDigits(n) == NatToDigits(n / 10) + [DigitChar(n % 10)];
    }
  }

  /**
   * Position of the first occurrence of `c` in `s`: `str.index` on a text,
   * `list.index` on a list, with `None` where Python raises `ValueError`.
   */
  function IndexOf<T(==)>(s: seq<T>, c: T): (r: Option<nat>)
    ensures r.Some? ==> r.value < |s| && s[r.value] == c && c !in s[..r.value]
    ensures r.None? ==> c !in s
  {
    if s == [] then None
    else if s[0] == c then Some(0)
    else match IndexOf(s[1..], c)
      case None => None
      case Some(k) => Some(k + 1)
  }

  /**
   * Reads an `MM:SS` text back into seconds: digits, a colon, digits below 60.
   * It is the inverse of SecToMin on non-negative durations.
   */
  function ParseClock(t: string): Option<nat>
  {
    match IndexOf(t, ':')
    case None => None
    case Some(k) =>
      match (ParseNat(t[..k]), ParseNat(t[k + 1..]))
      case (Some(m), Some(s)) => if s < 60 then Some(m * 60 + s) else None
      case _ => None
  }

  lemma {:induction false} IndexOfAfterPrefix(a: string, b: string, c: char)
    requires c !in a
    ensures IndexOf(a + [c] + b, c) == Some(|a|)
    decreases |a|
  {
    if a != [] {
      assert (a + [c] + b)[1..] == a[1..] + [c] + b;
      IndexOfAfterPrefix(a[1..], b, c);
    }
  }

  /** A colon between two digit runs, the first without a colon, reads as minutes and seconds. */
  lemma ParseClockJoin(mm: string, ss: string)
    requires ':' !in mm
    requires ParseNat(mm).Some? && ParseNat(ss).Some? && ParseNat(ss).value < 60
    ensures ParseClock(mm + ":" + ss) == Some(ParseNat(mm).value * 60 + ParseNat(ss).value)
  {
    var t := mm + ":" + ss;
    IndexOfAfterPrefix(mm, ss, ':');
    assert t[..|mm|] == mm && t[|mm| + 1..] == ss;
  }

  /** `MM:SS` round-trips: reading SecToMin's text gives the duration back. */
  lemma SecToMinRoundTrip(s: nat)
    ensures ParseClock(SecToMin(Some(s))) == Some(s)
  {
    var mm, ss := Pad2(s / 60), Pad2(s % 60);
    ParsePad2(s / 60);
    ParsePad2(s % 60);
    assert forall i :: 0 <= i < |mm| ==> IsDigit(mm[i]);
    ParseClockJoin(mm, ss);
    assert SecToMin(Some(s)) == mm + ":" + ss;
  }

  /** Python's `str.split(",")`: the pieces between commas, at least one. */
  function SplitCommas(s: string): (pieces: seq<string>)
    ensures |pieces| >= 1
  {
    if s == [] then [""]
    else if s[0] == ',' then [""] + SplitCommas(s[1..])
    else
      var rest := SplitCommas(s[1..]);
      [[s[0]] + rest[0]] + rest[1..]
  }

  lemma {:induction false} SplitCommasPrefix(a: string, b: string)
    requires ',' !in a
    ensures SplitCommas(a + "," + b) == [a] + SplitCommas(b)
    ensures SplitCommas(a) == [a]
    decreases |a|
  {
    if a != [] {
      assert (a + "," + b)[1..] == a[1..] + "," + b;
      SplitCommasPrefix(a[1..], b);
      assert [a[0]] + a[1..] == a;
    }
  }

  /**
   * `get_game_info_from_match`: with `forPersist`, the key `start,map,kind`
   * that names the saved file; otherwise the one-line summary shown above the
   * team panels. `localTime` renders `started_at` in the host's time zone.
   */
  function GameInfo(m: Match, forPersist: bool, localTime: TimeFormat): string
  {
    if forPersist then PersistKey(m, localTime) else Caption(m, localTime)
  }

  /** The key `start,map,kind` that names a saved match file. */
  function PersistKey(m: Match, localTime: TimeFormat): string
  {
    localTime(m.startedAt, true) + "," + m.mapName + "," + m.kind
  }

  /** The one-line summary shown above the team panels and on each recent-match link. */
  function Caption(m: Match, localTime: TimeFormat): string
  {
    "Map: " + m.mapName + " | Time: " + localTime(m.startedAt, false) + " | Duration: " + SecToMin(m.duration)
    + " |  Kind: " + m.kind + " | MMR: " + IntToString(m.averageMmr)
  }

  /**
   * The persistence key splits back into start time, map and kind when none of
   * them contains a comma; it depends on nothing else in the record.
   */
  lemma PersistKeySplits(m: Match, localTime: TimeFormat)
    requires ',' !in localTime(m.startedAt, true) && ',' !in m.mapName && ',' !in m.kind
    ensures SplitCommas(PersistKey(m, localTime)) == [localTime(m.startedAt, true), m.mapName, m.kind]
  {
    var start := localTime(m.startedAt, true);
    SplitCommasPrefix(m.kind, "");
    SplitCommasPrefix(m.mapName, m.kind);
    SplitCommasPrefix(start, m.mapName + "," + m.kind);
    assert start + "," + m.mapName + "," + m.kind == start + "," + (m.mapName + "," + m.kind);
  }

  /** Python's `str.split(" | ")`: the pieces between separators, found leftmost first without overlap. */
  function SplitBars(s: string): (pieces: seq<string>)
    ensures |pieces| >= 1
    decreases |s|
  {
    if |s| < 3 then [s]
    else if s[..3] == " | " then [""] + SplitBars(s[3..])
    else
      var rest := SplitBars(s[1..]);
      [[s[0]] + rest[0]] + rest[1..]
  }

  lemma {:induction false} SplitBarsPrefix(a: string, b: string)
    requires '|' !in a
    ensures SplitBars(a + " | " + b) == [a] + SplitBars(b)
    decreases |a|
  {
    var s := a + " | " + b;
    if a == [] {
      assert s[..3] == " | " && s[3..] == b;
    } else {
      assert s[1] != '|' && s[..3][1] == s[1];
      assert s[1..] == a[1..] + " | " + b;
      SplitBarsPrefix(a[1..], b);
      assert [a[0]] + a[1..] == a;
    }
  }

  lemma {:induction false} SplitBarsWhole(a: string)
    requires '|' !in a
    ensures SplitBars(a) == [a]
    decreases |a|
  {
    if |a| >= 3 {
      assert a[..3][1] == a[1];
      SplitBarsWhole(a[1..]);
      assert [a[0]] + a[1..] == a;
    }
  }

  /** A duration's clock text never holds a `|`. */
  lemma ClockHasNoBar(sec: Option<int>)
    ensures '|' !in SecToMin(sec)
  {
    if sec.Some? {
      NumberChars(sec.value / 60);
      NumberChars(sec.value % 60);
    }
  }

  /** Joining with the separator is associative. */
  lemma BarJoinAssoc(a: string, b: string, c: string)
    ensures (a + " | " + b) + " | " + c == a + " | " + (b + " | " + c)
  {
  }

  /** Five `|`-free pieces joined by the separator split back into themselves. */
  lemma SplitBarsFive(p1: string, p2: string, p3: string, p4: string, p5: string)
    requires '|' !in p1 && '|' !in p2 && '|' !in p3 && '|' !in p4 && '|' !in p5
    ensures SplitBars(p1 + " | " + p2 + " | " + p3 + " | " + p4 + " | " + p5) == [p1, p2, p3, p4, p5]
  {
    var t4 := p4 + " | " + p5;
    var t3 := p3 + " | " + t4;
    var t2 := p2 + " | " + t3;
    SplitBarsWhole(p5);
    SplitBarsPrefix(p4, p5);
    SplitBarsPrefix(p3, t4);
    SplitBarsPrefix(p2, t3);
    SplitBarsPrefix(p1, t2);
    var l2 := p1 + " | " + p2;
    var l3 := l2 + " | " + p3;
    BarJoinAssoc(l3, p4, p5);
    BarJoinAssoc(l2, p3, t4);
    BarJoinAssoc(p1, p2, t3);
  }

  /** A prefix without `|` followed by a text without `|`. */
  lemma LabelledHasNoBar(prefix: string, x: string)
    requires '|' !in prefix && '|' !in x
    ensures '|' !in prefix + x
  {
  }

  /** The caption's five labelled fields, in the order the caption shows them. */
  function CaptionFields(m: Match, localTime: TimeFormat): seq<string>
  {
    ["Map: " + m.mapName, "Time: " + localTime(m.startedAt, false), "Duration: " + SecToMin(m.duration),
     " Kind: " + m.kind, "MMR: " + IntToString(m.averageMmr)]
  }

  /** The caption is its five fields joined by the separator. */
  lemma CaptionJoinsFields(m: Match, localTime: TimeFormat)
    ensures var f := CaptionFields(m, localTime);
      Caption(m, localTime) == f[0] + " | " + f[1] + " | " + f[2] + " | " + f[3] + " | " + f[4]
  {
  }

  /** No field of the caption holds a `|` when the map, the start time and the kind hold none. */
  lemma CaptionFieldsHaveNoBar(m: Match, localTime: TimeFormat)
    requires '|' !in m.mapName && '|' !in localTime(m.startedAt, false) && '|' !in m.kind
    ensures forall i :: 0 <= i < 5 ==> '|' !in CaptionFields(m, localTime)[i]
  {
    ClockHasNoBar(m.duration);
    NumberChars(m.averageMmr);
    LabelledHasNoBar("Map: ", m.mapName);
    LabelledHasNoBar("Time: ", localTime(m.startedAt, false));
    LabelledHasNoBar("Duration: ", SecToMin(m.duration));
    LabelledHasNoBar(" Kind: ", m.kind);
    LabelledHasNoBar("MMR: ", IntToString(m.averageMmr));
  }

  /**
   * The caption splits at its separators back into its five labelled fields, in
   * this order, when the map, the start time and the kind hold no `|`.
   */
  lemma CaptionSplits(m: Match, localTime: TimeFormat)
    requires '|' !in m.mapName && '|' !in localTime(m.startedAt, false) && '|' !in m.kind
    ensures SplitBars(GameInfo(m, false, localTime)) == CaptionFields(m, localTime)
  {
    var f := CaptionFields(m, localTime);
    CaptionFieldsHaveNoBar(m, localTime);
    CaptionJoinsFields(m, localTime);
    SplitBarsFive(f[0], f[1], f[2], f[3], f[4]);
    assert [f[0], f[1], f[2], f[3], f[4]] == f;
  }

  /** Two records that agree on start time, map and kind are saved under the same key. */
  lemma PersistKeyCollides(m1: Match, m2: Match, localTime: TimeFormat)
    requires m1.startedAt == m2.startedAt && m1.mapName == m2.mapName && m1.kind == m2.kind
    ensures GameInfo(m1, true, localTime) == GameInfo(m2, true, localTime)
  {
  }

  /** A link in the recent-matches list: its position (the link's `index`) and its caption. */
  datatype GameLink = GameLink(index: nat, caption: string)

  /** `display_recent_matches`: one link per game of `data["games"]`, in order. */
  function DisplayRecentMatches(data: Response, localTime: TimeFormat): (links: seq<GameLink>)
    requires data.games.Some?
    ensures |links| == |data.games.value|
    ensures forall i :: 0 <= i < |links| ==>
      links[i] == GameLink(i, GameInfo(data.games.value[i], false, localTime))
  {
    var games := data.games.value;
    seq(|games|, i requires 0 <= i < |games| => GameLink(i, GameInfo(games[i], false, localTime)))
  }
}
