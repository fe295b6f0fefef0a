/**
  The rules inside the chat bot's command handlers (`BotLogic`): the W-L(-T)
  record text, the order in which seasons, standings and players are listed,
  the weekly-record reply and its totals, the cap of 20 players on the
  all-players listing, how the team, player and team-record handlers call the
  sheet handler, and the checks `_handle_add_score` makes before it asks the
  sheet handler to write a score.

  The handlers' replies are chat text decorated with emoji and Markdown; here a
  reply is the data each of its lines shows. `_safe_float` and `_safe_int`
  are `SafeFloat` and `SafeInt` of the module `Cells`, which the migration tool
  shares.
 */
module BotLogic {
  import opened Wrappers
  import opened Text
  import opened PyNum
  import opened Dict
  import opened Sorting
  import opened Cells
  import SheetsHandler

  // ---------------------------------------------------------------------------
  // The record text

  /** `f"{wins}-{losses}"`, with `f"-{ties}"` appended when there are ties. */
  function Record(wins: int, losses: int, ties: int): string {
    IntToString(wins) + "-" + IntToString(losses) + (if ties > 0 then "-" + IntToString(ties) else "")
  }

  /** Python's `s.split(sep)` for a one-character separator. */
  function Split(s: string, sep: char): (r: seq<string>)
    ensures |r| > 0
  {
    if |s| == 0 then [""]
    else
      var rest := Split(s[1..], sep);
      if s[0] == sep then [""] + rest else [[s[0]] + rest[0]] + rest[1..]
  }

  lemma {:induction false} SplitWithout(a: string, sep: char)
    requires forall i :: 0 <= i < |a| ==> a[i] != sep
    ensures Split(a, sep) == [a]
  {
    if |a| > 0 {
      SplitWithout(a[1..], sep);
      assert [a[0]] + a[1..] == a;
    }
  }

  lemma {:induction false} SplitAt(a: string, sep: char, b: string)
    requires forall i :: 0 <= i < |a| ==> a[i] != sep
    ensures Split(a + [sep] + b, sep) == [a] + Split(b, sep)
  {
    if |a| == 0 {
      assert a + [sep] + b == [sep] + b;
      assert ([sep] + b)[1..] == b;
    } else {
      SplitAt(a[1..], sep, b);
      assert (a + [sep] + b)[1..] == a[1..] + [sep] + b;
      assert [a[0]] + a[1..] == a;
    }
  }

  /** The fields of a record as integers, no third field meaning no ties. */
  function ReadFields(fs: seq<string>): Option<(int, int, int)> {
    if |fs| == 2 && ParseInt(fs[0]).Some? && ParseInt(fs[1]).Some? then
      Some((ParseInt(fs[0]).value, ParseInt(fs[1]).value, 0))
    else if |fs| == 3 && ParseInt(fs[0]).Some? && ParseInt(fs[1]).Some? && ParseInt(fs[2]).Some? then
      Some((ParseInt(fs[0]).value, ParseInt(fs[1]).value, ParseInt(fs[2]).value))
    else None
  }

  /** A record read back from its text. */
  function ReadRecord(s: string): Option<(int, int, int)> {
    ReadFields(Split(s, '-'))
  }

  predicate NoDash(s: string) {
    forall i :: 0 <= i < |s| ==> s[i] != '-'
  }

  /** A number's text holds no dash. */
  lemma NoDashInNumber(n: nat)
    ensures NoDash(NatToString(n))
  {
    NatToStringDigits(n);
  }

  /** Python's `int` reads a number's text back. */
  lemma NumberReadBack(n: nat)
    ensures ParseInt(NatToString(n)) == Some(n)
  {
    ParseIntOfIntToString(n);
  }

  lemma SplitTwo(a: string, b: string)
    requires NoDash(a) && NoDash(b)
    ensures Split(a + "-" + b, '-') == [a, b]
  {
    SplitWithout(b, '-');
    SplitAt(a, '-', b);
  }

  lemma SplitThree(a: string, b: string, c: string)
    requires NoDash(a) && NoDash(b) && NoDash(c)
    ensures Split(a + "-" + b + "-" + c, '-') == [a, b, c]
  {
    SplitTwo(b, c);
    assert a + "-" + b + "-" + c == a + "-" + (b + "-" + c);
    SplitAt(a, '-', b + "-" + c);
  }

  /** Fields without dashes, joined by dashes, split back into themselves. */
  lemma SplitJoined(a: string, b: string, c: string, three: bool)
    requires NoDash(a) && NoDash(b) && NoDash(c)
    ensures Split(a + "-" + b + (if three then "-" + c else ""), '-') == [a, b] + (if three then [c] else [])
  {
    if three {
      assert a + "-" + b + "-" + c == a + "-" + b + ("-" + c);
      SplitThree(a, b, c);
    } else {
      assert a + "-" + b + "" == a + "-" + b;
      SplitTwo(a, b);
    }
  }

  /** For non-negative counts the record is the counts' digits joined by dashes. */
  lemma RecordText(wins: nat, losses: nat, ties: int)
    ensures Record(wins, losses, ties) ==
              NatToString(wins) + "-" + NatToString(losses) + (if ties > 0 then "-" + NatToString(ties) else "")
  {
  }

  /** The record's fields: wins and losses, then the ties only when there are some. */
  lemma RecordFields(wins: nat, losses: nat, ties: int)
    ensures Split(Record(wins, losses, ties), '-') ==
              [NatToString(wins), NatToString(losses)] + (if ties > 0 then [NatToString(ties)] else [])
  {
    var t := if ties > 0 then ties else 0;
    RecordText(wins, losses, ties);
    NoDashInNumber(wins);
    NoDashInNumber(losses);
    NoDashInNumber(t);
    SplitJoined(NatToString(wins), NatToString(losses), NatToString(t), ties > 0);
  }

  /**
    The record of non-negative counts reads back as the counts, no third
    field reading as no ties.
   */
  lemma RecordRoundTrip(wins: nat, losses: nat, ties: int)
    ensures ReadRecord(Record(wins, losses, ties)) == Some((wins, losses, if ties > 0 then ties else 0))
  {
    RecordFields(wins, losses, ties);
    NumberFieldsRead(wins, losses, ties);
  }

  lemma NumberFieldsRead(wins: nat, losses: nat, ties: int)
    ensures ReadFields([NatToString(wins), NatToString(losses)] + (if ties > 0 then [NatToString(ties)] else [])) ==
              Some((wins, losses, if ties > 0 then ties else 0))
  {
    var t := if ties > 0 then ties else 0;
    NumberReadBack(wins);
    NumberReadBack(losses);
    NumberReadBack(t);
    FieldsRead(NatToString(wins), NatToString(losses), NatToString(t), wins, losses, t, ties > 0);
  }

  lemma FieldsRead(a: string, b: string, c: string, w: int, l: int, t: int, three: bool)
    requires ParseInt(a) == Some(w) && ParseInt(b) == Some(l)
    requires three ==> ParseInt(c) == Some(t)
    requires !three ==> t == 0
    ensures ReadFields([a, b] + (if three then [c] else [])) == Some((w, l, t))
  {
    var fs := [a, b] + (if three then [c] else []);
    assert fs[0] == a && fs[1] == b;
    if three {
      assert |fs| == 3 && fs[2] == c;
    } else {
      assert |fs| == 2;
    }
  }

  // ---------------------------------------------------------------------------
  // Listing the seasons

  /**
    `get_season_num`: `int(name.split()[-1])`, or 0 where that raises
    ValueError (not an integer) or IndexError (a blank name).
   */
  function ListedNumber(name: string): int {
    match LastToken(name)
    case Some(t) => ParseInt(t).GetOr(0)
    case None => 0
  }

  /** For a name ending in a run of digits both handlers read the same number. */
  lemma ListedNumberOfDigits(name: string)
    requires HasSeasonNumber(name)
    ensures ListedNumber(name) == SeasonNumber(name)
  {
    ParseIntOfDigits(LastToken(name).value);
  }

  /** The order of `sorted(seasons, key=get_season_num, reverse=True)`. */
  predicate ListedBefore(a: string, b: string) {
    ListedNumber(a) >= ListedNumber(b)
  }

  lemma ListedBeforeTotalPreorder()
    ensures TotalPreorder(ListedBefore)
  {
  }

  /** `f"{i}. {season}"`. */
  function NumberedLine(i: int, text: string): string {
    IntToString(i) + ". " + text
  }

  /** Python's stable sort keeps `reverse=True` stable too: the listing, highest number first. */
  function SeasonListing(seasons: seq<string>): seq<string> {
    SortBy(seasons, ListedBefore)
  }

  /**
    The seasons are listed highest number first, each season as often as the
    workbook has it, seasons of equal number in workbook order.
   */
  lemma SeasonListingOrdered(seasons: seq<string>)
    ensures var r := SeasonListing(seasons);
            && (forall i, j :: 0 <= i < j < |r| ==> ListedNumber(r[i]) >= ListedNumber(r[j]))
            && multiset(r) == multiset(seasons)
            && forall z :: Tied(r, ListedBefore, z) == Tied(seasons, ListedBefore, z)
  {
    ListedBeforeTotalPreorder();
    SortByCorrect(seasons, ListedBefore);
  }

  /** A reply that lists lines, or says there is nothing to list. */
  datatype Listing<T> = NothingFound | Lines(lines: seq<T>)

  /** `for i, x in enumerate(xs, 1): lines.append(line(i, x))`. */
  method Enumerate<T, U>(xs: seq<T>, line: (int, T) -> U) returns (lines: seq<U>)
    ensures |lines| == |xs|
    ensures forall k :: 0 <= k < |xs| ==> lines[k] == line(k + 1, xs[k])
  {
    lines := [];
    var i := 0;
    while i < |xs|
      invariant 0 <= i <= |xs|
      invariant |lines| == i
      invariant forall k :: 0 <= k < i ==> lines[k] == line(k + 1, xs[k])
    {
      lines := lines + [line(i + 1, xs[i])];
      i := i + 1;
    }
  }

  // ---------------------------------------------------------------------------
  // Standings

  /** `_safe_int` of a team's wins and losses, the two parts of the standings key. */
  function WinsOf(parse: string -> Option<real>, d: SheetsHandler.TeamData): int {
    SafeInt(parse, d.wins, 0)
  }

  function LossesOf(parse: string -> Option<real>, d: SheetsHandler.TeamData): int {
    SafeInt(parse, d.losses, 0)
  }

  /**
    The order of `sorted(..., key=(wins, -losses), reverse=True)`: more wins
    first, and with as many wins, fewer losses first.
   */
  function StandingsOrder(parse: string -> Option<real>): ((string, SheetsHandler.TeamData), (string, SheetsHandler.TeamData)) -> bool {
    (a: (string, SheetsHandler.TeamData), b: (string, SheetsHandler.TeamData)) =>
      WinsOf(parse, a.1) > WinsOf(parse, b.1)
      || (WinsOf(parse, a.1) == WinsOf(parse, b.1) && LossesOf(parse, a.1) <= LossesOf(parse, b.1))
  }

  lemma StandingsOrderTotalPreorder(parse: string -> Option<real>)
    ensures TotalPreorder(StandingsOrder(parse))
  {
  }

  /** One line of the standings: rank, team, record and average per game. */
  datatype StandingLine = StandingLine(rank: int, team: string, record: string, average: real)

  function StandingLineOf(parse: string -> Option<real>, rank: int, e: (string, SheetsHandler.TeamData)): StandingLine {
    StandingLine(rank, e.0, Record(WinsOf(parse, e.1), LossesOf(parse, e.1), SafeInt(parse, e.1.ties, 0)),
                 SafeFloat(parse, e.1.avgPerGame, 0.0))
  }

  /**
    The standings reply: "no team data" for an empty listing, else one line
    per team in standings order, ranked from 1.
   */
  predicate StandingsListed(parse: string -> Option<real>, data: seq<(string, SheetsHandler.TeamData)>,
                            r: Listing<StandingLine>) {
    && (data == [] <==> r == NothingFound)
    && (r.Lines? ==>
          var sorted := SortBy(data, StandingsOrder(parse));
          |r.lines| == |data|
          && forall i :: 0 <= i < |data| ==> r.lines[i] == StandingLineOf(parse, i + 1, sorted[i]))
  }

  method StandingsLines(parse: string -> Option<real>, data: seq<(string, SheetsHandler.TeamData)>)
    returns (r: Listing<StandingLine>)
    ensures StandingsListed(parse, data, r)
  {
    if data == [] {
      return NothingFound;
    }
    var sorted := SortBy(data, StandingsOrder(parse));
    var lines := Enumerate(sorted, (rank, e) => StandingLineOf(parse, rank, e));
    return Lines(lines);
  }

  /**
    The standings list every team once, more wins first, and with as many
    wins fewer losses first; teams with equal wins and losses keep the
    handler's order.
   */
  lemma StandingsRanked(parse: string -> Option<real>, data: seq<(string, SheetsHandler.TeamData)>)
    ensures var r := SortBy(data, StandingsOrder(parse));
            && multiset(r) == multiset(data)
            && (forall i, j :: 0 <= i < j < |r| ==>
                  WinsOf(parse, r[i].1) > WinsOf(parse, r[j].1)
                  || (WinsOf(parse, r[i].1) == WinsOf(parse, r[j].1) && LossesOf(parse, r[i].1) <= LossesOf(parse, r[j].1)))
            && forall z :: Tied(r, StandingsOrder(parse), z) == Tied(data, StandingsOrder(parse), z)
  {
    StandingsOrderTotalPreorder(parse);
    SortByCorrect(data, StandingsOrder(parse));
  }

  // ---------------------------------------------------------------------------
  // The all-players listing

  /** How many players the all-players reply shows. */
  const ShownPlayers := 20

  /** The order of `sorted(..., key=safe_float(average), reverse=True)`: higher average first. */
  predicate AverageFirst(a: (string, SheetsHandler.PlayerData), b: (string, SheetsHandler.PlayerData)) {
    a.1.average >= b.1.average
  }

  lemma AverageFirstTotalPreorder()
    ensures TotalPreorder(AverageFirst)
  {
  }

  /** One line of the all-players reply: rank, player, team, average and games. */
  datatype PlayerLine = PlayerLine(rank: int, player: string, team: Option<string>, average: real, games: nat)

  function PlayerLineOf(rank: int, e: (string, SheetsHandler.PlayerData)): PlayerLine {
    PlayerLine(rank, e.0, e.1.team, e.1.average, |e.1.scores|)
  }

  /**
    The all-players reply: "no player data" for an empty listing, else the
    first 20 players by average, ranked from 1, and how many more there are
    (None where the reply has no "... and N more players" line).
   */
  predicate PlayersListed(data: seq<(string, SheetsHandler.PlayerData)>, r: Listing<PlayerLine>, more: Option<nat>) {
    && (data == [] <==> r == NothingFound)
    && (data == [] ==> more == None)
    && (r.Lines? ==>
          var sorted := SortBy(data, AverageFirst);
          && |r.lines| == (if |data| < ShownPlayers then |data| else ShownPlayers)
          && (forall i :: 0 <= i < |r.lines| ==> r.lines[i] == PlayerLineOf(i + 1, sorted[i]))
          && more == (if |data| > ShownPlayers then Some(|data| - ShownPlayers) else None))
  }

  method PlayerLines(data: seq<(string, SheetsHandler.PlayerData)>) returns (r: Listing<PlayerLine>, more: Option<nat>)
    ensures PlayersListed(data, r, more)
  {
    if data == [] {
      return NothingFound, None;
    }
    var sorted := SortBy(data, AverageFirst);
    var shown := if |sorted| < ShownPlayers then sorted else sorted[..ShownPlayers];
    var lines := Enumerate(shown, PlayerLineOf);
    r := Lines(lines);
    more := if |sorted| > ShownPlayers then Some(|sorted| - ShownPlayers) else None;
  }

  /**
    The players shown are a top 20: every shown player's average is at least
    that of every player left out, and together they are all the players.
   */
  lemma PlayerListingTop(data: seq<(string, SheetsHandler.PlayerData)>)
    ensures var sorted := SortBy(data, AverageFirst);
            var n := if |data| < ShownPlayers then |data| else ShownPlayers;
            && multiset(sorted[..n]) + multiset(sorted[n..]) == multiset(data)
            && forall i, j :: 0 <= i < n <= j < |sorted| ==> sorted[i].1.average >= sorted[j].1.average
  {
    var sorted := SortBy(data, AverageFirst);
    AverageFirstTotalPreorder();
    SortByCorrect(data, AverageFirst);
    var n := if |data| < ShownPlayers then |data| else ShownPlayers;
    assert sorted == sorted[..n] + sorted[n..];
  }

  // ---------------------------------------------------------------------------
  // The weekly record

  /**
    One week of a team's weekly summary. A missing figure reads as 0 and a
    missing opponent is shown as "Unknown".
   */
  datatype WeekInfo = WeekInfo(opponent: Option<string>, wins: Option<int>, losses: Option<int>, ties: Option<int>,
                               pinsFor: Option<int>, pinsAgainst: Option<int>, avg: Option<real>)

  function WinsIn(w: WeekInfo): int { w.wins.GetOr(0) }
  function LossesIn(w: WeekInfo): int { w.losses.GetOr(0) }
  function TiesIn(w: WeekInfo): int { w.ties.GetOr(0) }

  function SumBy<T>(xs: seq<T>, f: T -> int): int {
    if |xs| == 0 then 0 else f(xs[0]) + SumBy(xs[1..], f)
  }

  /** `sum(week_info.get(...) for week_info in weekly_summary.values())`. */
  function Total(summary: seq<(int, WeekInfo)>, f: WeekInfo -> int): int {
    SumBy(summary, (e: (int, WeekInfo)) => f(e.1))
  }

  /** `weekly_summary[week]` for a week of the summary. */
  function WeekOf(summary: seq<(int, WeekInfo)>, week: int): WeekInfo {
    Get(summary, week).GetOr(WeekInfo(None, None, None, None, None, None, None))
  }

  /** The figure `f` of the week listed at `week`. */
  function Figure(summary: seq<(int, WeekInfo)>, f: WeekInfo -> int): int -> int {
    week => f(WeekOf(summary, week))
  }

  predicate WeekLe(a: int, b: int) { a <= b }

  /** `sorted(weekly_summary.keys())`. */
  function ListedWeeks(summary: seq<(int, WeekInfo)>): seq<int> {
    SortBy(Keys(summary), WeekLe)
  }

  /** One week line: week, opponent, record figures, pins for and against, and average. */
  datatype WeekLine = WeekLine(week: int, opponent: Option<string>, wins: int, losses: int, ties: int,
                               pinsFor: int, pinsAgainst: int, avg: real)

  function WeekLineOf(summary: seq<(int, WeekInfo)>, week: int): WeekLine {
    var w := WeekOf(summary, week);
    WeekLine(week, w.opponent, WinsIn(w), LossesIn(w), TiesIn(w), w.pinsFor.GetOr(0), w.pinsAgainst.GetOr(0),
             w.avg.GetOr(0.0))
  }

  /** The season record: the weekly figures summed over the summary. */
  function TotalRecord(summary: seq<(int, WeekInfo)>): string {
    Record(Total(summary, WinsIn), Total(summary, LossesIn), Total(summary, TiesIn))
  }

  /**
    What a team's weekly-summary query answers: an error message (a dict
    with an "error" key), or the team name and the season where the answer
    carries them, and the weeks (none where the answer has no
    "weekly_summary").
   */
  datatype WeeklySummary =
    | SummaryError(message: string)
    | Summary(team: Option<string>, season: Option<string>, weeks: seq<(int, WeekInfo)>)

  /** A season argument is shown only when it is a non-empty string. */
  function ShownSeason(season: Option<string>): Option<string> {
    if season.Some? && season.value != "" then season else None
  }

  /**
    `data.get("season", season or "Current Season")`, shown in the heading
    only when it is not empty.
   */
  function HeadingSeason(given: Option<string>, season: Option<string>): Option<string> {
    var s := if given.Some? then given.value else if ShownSeason(season).Some? then season.value else "Current Season";
    if s != "" then Some(s) else None
  }

  datatype RecordReply =
    | NoTeamName
    /** The query's error message, with the season argument where one is shown. */
    | RecordError(message: string, season: Option<string>)
    | NoWeeklyData(team: string)
    /** The heading's team and season, the total record, and a line per week. */
    | WeeklyRecord(team: string, season: Option<string>, total: string, weeks: seq<WeekLine>)
    /** The query raised and the `except` clause answered. */
    | RecordFailed

  /**
    `_handle_team_record` on what the weekly-summary query answers: a team
    name is required; an error answer is passed on; the team and season of
    the heading come from the answer where it has them; an empty summary has
    nothing to show; otherwise the total record comes first and a line per
    week follows in week order.
   */
  method TeamRecord(team: Option<string>, season: Option<string>, data: WeeklySummary) returns (r: RecordReply)
    requires data.Summary? ==> DistinctKeys(data.weeks)
    ensures (team.None? || team.value == "") <==> r == NoTeamName
    ensures r.RecordError? <==> team.Some? && team.value != "" && data.SummaryError?
    ensures r.RecordError? ==> r == RecordError(data.message, ShownSeason(season))
    ensures r.NoWeeklyData? <==> team.Some? && team.value != "" && data.Summary? && data.weeks == []
    ensures r.NoWeeklyData? ==> r.team == data.team.GetOr(team.value)
    ensures r.WeeklyRecord? ==>
              && team.Some? && data.Summary?
              && r.team == data.team.GetOr(team.value)
              && r.season == HeadingSeason(data.season, season)
              && r.total == TotalRecord(data.weeks)
              && |r.weeks| == |data.weeks|
              && (forall i :: 0 <= i < |data.weeks| ==> r.weeks[i] == WeekLineOf(data.weeks, ListedWeeks(data.weeks)[i]))
              && forall i, j :: 0 <= i < j < |r.weeks| ==> r.weeks[i].week < r.weeks[j].week
    ensures r != RecordFailed
  {
    if team.None? || team.value == "" {
      return NoTeamName;
    }
    if data.SummaryError? {
      return RecordError(data.message, ShownSeason(season));
    }
    var name := data.team.GetOr(team.value);
    var summary := data.weeks;
    if summary == [] {
      return NoWeeklyData(name);
    }
    var total := TotalRecord(summary);
    var weeks := ListedWeeks(summary);
    assert |weeks| == |summary| by {
      SortByPermutation(Keys(summary), WeekLe);
    }
    ListedWeeksAscending(summary);
    var lines: seq<WeekLine> := [];
    var i := 0;
    while i < |weeks|
      invariant 0 <= i <= |weeks|
      invariant |lines| == i
      invariant forall k :: 0 <= k < i ==> lines[k] == WeekLineOf(summary, weeks[k])
    {
      lines := lines + [WeekLineOf(summary, weeks[i])];
      i := i + 1;
    }
    return WeeklyRecord(name, HeadingSeason(data.season, season), total, lines);
  }

  lemma {:induction false} SumByInsert(x: int, ks: seq<int>, g: int -> int)
    ensures SumBy(Insert(x, ks, WeekLe), g) == g(x) + SumBy(ks, g)
  {
    if |ks| > 0 && !WeekLe(x, ks[0]) {
      SumByInsert(x, ks[1..], g);
      assert Insert(x, ks, WeekLe)[1..] == Insert(x, ks[1..], WeekLe);
    } else if |ks| > 0 {
      assert ([x] + ks)[1..] == ks;
    }
  }

  lemma {:induction false} SumByAgree(ks: seq<int>, g: int -> int, h: int -> int)
    requires forall i :: 0 <= i < |ks| ==> g(ks[i]) == h(ks[i])
    ensures SumBy(ks, g) == SumBy(ks, h)
  {
    if |ks| > 0 {
      SumByAgree(ks[1..], g, h);
    }
  }

  lemma ListedWeeksCons(summary: seq<(int, WeekInfo)>)
    requires |summary| > 0
    ensures ListedWeeks(summary) == Insert(summary[0].0, ListedWeeks(summary[1..]), WeekLe)
  {
    assert Keys(summary)[1..] == Keys(summary[1..]);
  }

  /** With distinct keys, no later entry has the first entry's key. */
  lemma NotFirstKey(summary: seq<(int, WeekInfo)>, k: int)
    requires DistinctKeys(summary) && |summary| > 0 && k in Keys(summary[1..])
    ensures k != summary[0].0
  {
    var j :| 0 <= j < |summary[1..]| && Keys(summary[1..])[j] == k;
    assert summary[j + 1].0 == k;
  }

  /** The figures of the later weeks are read from the rest of the summary. */
  lemma FiguresOfRest(summary: seq<(int, WeekInfo)>, f: WeekInfo -> int)
    requires DistinctKeys(summary) && |summary| > 0
    ensures var ks := ListedWeeks(summary[1..]);
            forall i :: 0 <= i < |ks| ==> Figure(summary, f)(ks[i]) == Figure(summary[1..], f)(ks[i])
  {
    var rest := summary[1..];
    var ks := ListedWeeks(rest);
    SortByPermutation(Keys(rest), WeekLe);
    forall i | 0 <= i < |ks| ensures Figure(summary, f)(ks[i]) == Figure(rest, f)(ks[i]) {
      assert ks[i] in multiset(Keys(rest));
      NotFirstKey(summary, ks[i]);
      assert Get(summary, ks[i]) == Get(rest, ks[i]);
      assert Figure(summary, f)(ks[i]) == f(WeekOf(summary, ks[i]));
      assert Figure(rest, f)(ks[i]) == f(WeekOf(rest, ks[i]));
    }
  }

  /**
    With one entry per week, the totals are the sums of the figures on the
    week lines, in the order the lines are listed.
   */
  lemma {:induction false} TotalsOfListedWeeks(summary: seq<(int, WeekInfo)>, f: WeekInfo -> int)
    requires DistinctKeys(summary)
    ensures SumBy(ListedWeeks(summary), Figure(summary, f)) == Total(summary, f)
  {
    if |summary| > 0 {
      var rest := summary[1..];
      var ks := ListedWeeks(rest);
      ListedWeeksCons(summary);
      SumByInsert(summary[0].0, ks, Figure(summary, f));
      assert WeekOf(summary, summary[0].0) == summary[0].1;
      assert Figure(summary, f)(summary[0].0) == f(summary[0].1);
      FiguresOfRest(summary, f);
      SumByAgree(ks, Figure(summary, f), Figure(rest, f));
      TotalsOfListedWeeks(rest, f);
    }
  }

  /** The weeks are listed in increasing order, each week of the summary once. */
  lemma ListedWeeksAscending(summary: seq<(int, WeekInfo)>)
    requires DistinctKeys(summary)
    ensures var ws := ListedWeeks(summary);
            && (forall i, j :: 0 <= i < j < |ws| ==> ws[i] < ws[j])
            && multiset(ws) == multiset(Keys(summary))
  {
    var ks := Keys(summary);
    var ws := ListedWeeks(summary);
    assert TotalPreorder(WeekLe);
    SortBySorted(ks, WeekLe);
    SortByPermutation(ks, WeekLe);
    forall i, j | 0 <= i < j < |ws| ensures ws[i] < ws[j] {
      assert WeekLe(ws[i], ws[j]);
      if ws[i] == ws[j] {
        TwoOccurrences(ws, i, j);
        DistinctMultiplicity(ks, ws[i]);
      }
    }
  }

  // ---------------------------------------------------------------------------
  // Adding a score

  /** The replies of `_handle_add_score`. */
  datatype AddReply =
    | NoPlayerName
    | NoScore
    | ScoreOutOfRange
    /** The score was written; `week` is shown only when it is given and not 0. */
    | Added(score: int, player: string, week: Option<int>)
    | NotAdded(player: string)
    /** The handler raised. */
    | AddFailed

  /** The checks made before the handler is called, in order; None when all pass. */
  function AddScoreRejection(player: Option<string>, score: Option<int>): Option<AddReply> {
    if player.None? || player.value == "" then Some(NoPlayerName)
    else if score.None? then Some(NoScore)
    else if !(0 <= score.value <= 300) then Some(ScoreOutOfRange)
    else None
  }

  /**
    The first failing check decides the reply, and the handler may be called
    exactly when a player is named and the score is given and lies in [0, 300].
   */
  lemma AddScoreChecks(player: Option<string>, score: Option<int>)
    ensures AddScoreRejection(player, score).None? <==>
              player.Some? && player.value != "" && score.Some? && 0 <= score.value <= 300
    ensures AddScoreRejection(player, score) == Some(NoPlayerName) <==> player.None? || player.value == ""
    ensures AddScoreRejection(player, score) == Some(NoScore) <==> player.Some? && player.value != "" && score.None?
    ensures AddScoreRejection(player, score).Some? ==> AddScoreRejection(player, score).value in {NoPlayerName, NoScore, ScoreOutOfRange}
  {
  }

  /** The reply for what the handler's `add_score` did. */
  function AddedReply(out: SheetsHandler.AddOutcome, player: string, score: int, week: Option<int>): AddReply {
    match out
    case Returned(ok) =>
      if ok then Added(score, player, if week.Some? && week.value != 0 then week else None) else NotAdded(player)
    case Raised => AddFailed
  }

  // ---------------------------------------------------------------------------
  // Calling the sheet handler

  /** The sheet-handler queries of the team, player and team-record handlers. */
  datatype Query = TeamScoresQuery | PlayerScoresQuery | WeeklySummaryQuery

  /**
    How many arguments after `self` the sheet handler's method for the query
    takes: `get_team_scores(team_name, season)` and
    `get_player_scores(player_name, season)` take two; None where the sheet
    handler has no such method (there is no `get_team_weekly_summary`).
   */
  function Arity(q: Query): Option<nat> {
    match q
    case TeamScoresQuery => Some(2)
    case PlayerScoresQuery => Some(2)
    case WeeklySummaryQuery => None
  }

  /**
    A call passing `args` positional arguments reaches the method only when
    the method exists and takes that many; otherwise Python raises
    (`AttributeError`, `TypeError`) and the handler's `except` clause answers.
   */
  predicate Accepts(q: Query, args: nat) {
    Arity(q).Some? && args <= Arity(q).value
  }

  /**
    How many arguments the handlers pass: `(team_name, season, week)`,
    `(player_name, season, week)` and `(team_name, season)`.
   */
  function ArgsPassed(q: Query): nat {
    match q
    case TeamScoresQuery => 3
    case PlayerScoresQuery => 3
    case WeeklySummaryQuery => 2
  }

  /**
    Each query call as the handlers write it raises; with the two arguments
    they take, the team and player queries run.
   */
  lemma QueriesAsWrittenRaise(q: Query)
    ensures !Accepts(q, ArgsPassed(q))
    ensures Accepts(q, 2) <==> q != WeeklySummaryQuery
  {
  }

  /** `"error" in data`: an error answer, or a listing with an entry keyed "error". */
  predicate ErrorAnswer<T>(data: SheetsHandler.Lookup<T>) {
    data.SeasonMissing? || data.NameMissing? || (data.Listing? && "error" in Keys(data.entries))
  }

  /** What `get_team_scores(None, season)` answers: every team of the season's standings. */
  function AllTeams(book: Workbook, season: Option<string>): SheetsHandler.Lookup<SheetsHandler.TeamData> {
    match SheetsHandler.SeasonSheet(book, season)
    case None => SheetsHandler.SeasonMissing(SheetsHandler.ResolveSeason(book, season))
    case Some(sh) => SheetsHandler.Listing(FromList(SheetsHandler.TeamEntries(sh, SheetsHandler.StandingsEnd(sh))))
  }

  /** What `get_player_scores(None, season)` answers: every player of the season's sheet. */
  function AllPlayers(parse: string -> Option<real>, book: Workbook, season: Option<string>)
    : SheetsHandler.Lookup<SheetsHandler.PlayerData> {
    match SheetsHandler.SeasonSheet(book, season)
    case None => SheetsHandler.SeasonMissing(SheetsHandler.ResolveSeason(book, season))
    case Some(sh) => SheetsHandler.Listing(FromList(SheetsHandler.PlayerEntries(parse, sh, sh.maxRow + 1)))
  }

  /**
    The reply of a listing handler: the query raised, the query answered
    with an error, or the listing shown.
   */
  datatype Answer<T> = QueryRaised | QueryError | Shown(listing: T)

  /**
    `_handle_team_record` as written: past the team-name check it calls
    `get_team_weekly_summary`, which the sheet handler does not define, so
    every named team gets the `except` clause's reply.
   */
  function TeamRecordAsWritten(team: Option<string>): (r: RecordReply)
    ensures r == NoTeamName <==> team.None? || team.value == ""
    ensures r != NoTeamName ==> r == RecordFailed
  {
    if team.None? || team.value == "" then NoTeamName
    else
      assert !Accepts(WeeklySummaryQuery, ArgsPassed(WeeklySummaryQuery));
      RecordFailed
  }

  /** The bot and the sheet handler it writes through. */
  class Bot {
    const handler: SheetsHandler.ExcelHandler

    constructor (handler: SheetsHandler.ExcelHandler)
      ensures this.handler == handler
    {
      this.handler := handler;
    }

    /**
      `_handle_add_score`: a rejected request leaves the workbook alone; an
      accepted one is handed to `add_score`, whose outcome picks the reply.
     */
    method HandleAddScore(player: Option<string>, score: Option<int>, week: Option<int>, season: Option<string>)
      returns (r: AddReply)
      modifies handler
      ensures AddScoreRejection(player, score).Some? ==>
                r == AddScoreRejection(player, score).value && handler.book == old(handler.book)
      ensures AddScoreRejection(player, score).None? ==>
                var (out, book) := SheetsHandler.AddScoreEffect(old(handler.book), player.value, score.value, week, season);
                handler.book == book && r == AddedReply(out, player.value, score.value, week)
    {
      var rejected := AddScoreRejection(player, score);
      if rejected.Some? {
        return rejected.value;
      }
      var out := handler.AddScore(player.value, score.value, week, season);
      r := AddedReply(out, player.value, score.value, week);
    }

    /**
      `_handle_list_seasons`: "no seasons" when the workbook has no season
      sheet, else one numbered line per season sheet, highest number first.
     */
    method HandleListSeasons() returns (r: Listing<string>)
      ensures SeasonSheets(Keys(handler.book)) == [] <==> r == NothingFound
      ensures r.Lines? ==>
                var listed := SeasonListing(SeasonSheets(Keys(handler.book)));
                |r.lines| == |listed|
                && forall i :: 0 <= i < |listed| ==> r.lines[i] == NumberedLine(i + 1, listed[i])
    {
      var seasons := SeasonSheets(Keys(handler.book));
      if seasons == [] {
        return NothingFound;
      }
      var listed := SeasonListing(seasons);
      var lines := Enumerate(listed, NumberedLine);
      return Lines(lines);
    }

    /**
      The all-teams branch of `_handle_team_scores` when `get_team_scores` is
      called with `args` arguments: a call the method cannot take raises; an
      error answer is passed on; otherwise the standings of the listing.
     */
    method TeamStandings(args: nat, season: Option<string>) returns (r: Answer<Listing<StandingLine>>)
      ensures !Accepts(TeamScoresQuery, args) <==> r == QueryRaised
      ensures Accepts(TeamScoresQuery, args) ==>
                var data := AllTeams(handler.book, season);
                && (ErrorAnswer(data) <==> r == QueryError)
                && (r.Shown? ==> data.Listing? && StandingsListed(handler.parse, data.entries, r.listing))
    {
      if !Accepts(TeamScoresQuery, args) {
        return QueryRaised;
      }
      var data := handler.GetTeamScores(None, season);
      assert data == AllTeams(handler.book, season);
      if ErrorAnswer(data) {
        return QueryError;
      }
      var lines := StandingsLines(handler.parse, data.entries);
      return Shown(lines);
    }

    /**
      `_handle_team_scores(None, season, week)` as written: it passes three
      arguments to `get_team_scores`, so it always ends in the error reply.
     */
    method HandleTeamScores(season: Option<string>, week: Option<int>) returns (r: Answer<Listing<StandingLine>>)
      ensures r == QueryRaised
    {
      r := TeamStandings(ArgsPassed(TeamScoresQuery), season);
    }

    /**
      The all-players branch of `_handle_player_scores` when
      `get_player_scores` is called with `args` arguments: a call the method
      cannot take raises; an error answer is passed on; otherwise the top 20
      players of the listing and how many more there are.
     */
    method PlayerListing(args: nat, season: Option<string>) returns (r: Answer<(Listing<PlayerLine>, Option<nat>)>)
      ensures !Accepts(PlayerScoresQuery, args) <==> r == QueryRaised
      ensures Accepts(PlayerScoresQuery, args) ==>
                var data := AllPlayers(handler.parse, handler.book, season);
                && (ErrorAnswer(data) <==> r == QueryError)
                && (r.Shown? ==> data.Listing? && PlayersListed(data.entries, r.listing.0, r.listing.1))
    {
      if !Accepts(PlayerScoresQuery, args) {
        return QueryRaised;
      }
      var data := handler.GetPlayerScores(None, season);
      assert data == AllPlayers(handler.parse, handler.book, season);
      if ErrorAnswer(data) {
        return QueryError;
      }
      var lines, more := PlayerLines(data.entries);
      return Shown((lines, more));
    }

    /**
      `_handle_player_scores(None, season, week)` as written: it passes three
      arguments to `get_player_scores`, so it always ends in the error reply.
     */
    method HandlePlayerScores(season: Option<string>, week: Option<int>)
      returns (r: Answer<(Listing<PlayerLine>, Option<nat>)>)
      ensures r == QueryRaised
    {
      r := PlayerListing(ArgsPassed(PlayerScoresQuery), season);
    }
  }
}
