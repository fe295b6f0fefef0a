/**
  The migration tool (`ExcelMigrator`): it reads the old per-season sheets and
  fills the tables of the new workbook — seasons, players, teams, team
  memberships, games or per-season aggregates, standings and champions —
  drawing every row id from a counter that starts at 1.

  A table of the new workbook is a sequence of rows below its header; each row
  is its id and its other columns. Columns the tool always leaves empty
  (dates, `created_at`, `updated_at`) or fills with a constant (`is_captain`,
  `is_playoff`: "FALSE") are not part of a row here.

  Each step is a function from the migrator's state before it to its state
  after it; the loops that compute it run over values, and the methods of
  `ExcelMigrator` store what they return.
 */
module Migration {
  import opened Wrappers
  import opened Text
  import opened PyNum
  import opened Dict
  import opened StrOrder
  import opened Cells
  import opened Ids
  import opened MigrationRead
  import SheetsHandler

  // ---------------------------------------------------------------------------
  // The rows of the new tables

  /** A `seasons` row: the season number, the sheet name and whether it is the active season. */
  datatype Season = Season(number: int, name: string, active: bool)
  /** A `teams_map` key and the columns of a `teams` row: season id and team name. */
  type TeamKey = (int, string)
  datatype Membership = Membership(teamId: int, playerId: int, seasonId: int)
  datatype Game = Game(playerId: int, teamId: int, seasonId: int, week: int, score: int)
  /**
    A `player_aggregates` row. The average, high and low game are None where
    the tool writes an empty cell; `weeks` are the seven week columns.
   */
  datatype Aggregate = Aggregate(playerId: int, teamId: int, seasonId: int, totalGames: nat, totalPins: int,
                                 average: Option<real>, high: Option<int>, low: Option<int>,
                                 weeks: seq<Option<int>>, notes: string)
  datatype Standing = Standing(teamId: int, seasonId: int, wins: int, losses: int, ties: int,
                               pinsFor: int, pinsAgainst: int, avgPerGame: Option<real>, avgAgainst: Option<real>)
  datatype Champion = Champion(seasonId: int, teamId: int, notes: string)

  /** The data rows of the new workbook's sheets. */
  datatype Tables = Tables(
    seasons: seq<Row<Season>>, players: seq<Row<string>>, teams: seq<Row<TeamKey>>,
    teamPlayers: seq<Row<Membership>>, games: seq<Row<Game>>, aggregates: seq<Row<Aggregate>>,
    standings: seq<Row<Standing>>, champions: seq<Row<Champion>>)

  /** Everything a migrator holds: its maps, its id counters and the new workbook. */
  datatype MigState = MigState(
    playersMap: map<string, int>, teamsMap: seq<(TeamKey, int)>, seasonsMap: map<string, int>,
    nextPlayerId: int, nextTeamId: int, nextSeasonId: int, nextGameId: int,
    nextAggregateId: int, nextStandingId: int, nextTeamPlayerId: int,
    newWb: Tables)

  /** A migrator as the constructor leaves it: empty maps and tables, every counter at 1. */
  function Initial(): MigState {
    MigState(map[], [], map[], 1, 1, 1, 1, 1, 1, 1, Tables([], [], [], [], [], [], [], []))
  }

  /** A team id the tool accepts: present and not 0 (Python truthiness). */
  predicate TruthyId(t: Option<int>) {
    t.Some? && t.value != 0
  }

  // ---------------------------------------------------------------------------
  // migrate_seasons

  function SeasonRow(top: int, name: string): Season {
    var num := SeasonInt(name).GetOr(0);
    Season(num, name, num == top)
  }

  function SeasonEntry(top: int): string -> Season {
    name => SeasonRow(top, name)
  }

  /**
    The season sheets in order of season number get consecutive ids; a season
    is active when its number is the highest digit-string number.
   */
  function SeasonsStep(book: Workbook, s: MigState): MigState {
    var ss := OrderedSeasons(Keys(book));
    var top := HighestNumber(ss).GetOr(0);
    s.(seasonsMap := AssignIds(s.seasonsMap, ss, s.nextSeasonId),
       nextSeasonId := s.nextSeasonId + |ss|,
       newWb := s.newWb.(seasons := Numbered(Apply(ss, SeasonEntry(top)), s.nextSeasonId)))
  }

  /** `migrate_seasons` on the migrator's state `s`. */
  method SeasonsPass(book: Workbook, s: MigState) returns (t: MigState)
    ensures t == SeasonsStep(book, s)
  {
    var ss := OrderedSeasons(Keys(book));
    var top := HighestNumber(ss).GetOr(0);
    var sm, rows, next := NumberRows(ss, SeasonEntry(top), s.seasonsMap, s.nextSeasonId);
    t := s.(seasonsMap := sm, nextSeasonId := next, newWb := s.newWb.(seasons := rows));
  }

  // ---------------------------------------------------------------------------
  // migrate_players

  /** The distinct player names of all season sheets, in sorted order, get consecutive ids. */
  ghost function PlayersStep(book: Workbook, s: MigState): MigState {
    var names := PlayerNames(book);
    s.(playersMap := AssignIds(s.playersMap, names, s.nextPlayerId),
       nextPlayerId := s.nextPlayerId + |names|,
       newWb := s.newWb.(players := Numbered(names, s.nextPlayerId)))
  }

  /** `migrate_players` on the migrator's state `s`. */
  method PlayersPass(book: Workbook, s: MigState) returns (t: MigState)
    ensures t == PlayersStep(book, s)
  {
    var pm, rows, next := RegisterPlayers(book, s.playersMap, s.nextPlayerId);
    t := s.(playersMap := pm, nextPlayerId := next, newWb := s.newWb.(players := rows));
  }

  /** `migrate_players`: the player set of the season sheets, then the ids in sorted order. */
  method RegisterPlayers(book: Workbook, pm0: map<string, int>, first: int)
    returns (pm: map<string, int>, rows: seq<Row<string>>, next: int)
    ensures pm == AssignIds(pm0, PlayerNames(book), first)
    ensures rows == Numbered(PlayerNames(book), first)
    ensures next == first + |PlayerNames(book)|
  {
    var found := CollectPlayers(book, SeasonSheets(Keys(book)));
    var names := SortNames(found);
    pm, rows, next := NumberRows(names, Same, pm0, first);
    ApplySame(names);
  }

  /** The player names of the sheets `ss`, one sheet after the other. */
  method CollectPlayers(book: Workbook, ss: seq<string>) returns (found: set<string>)
    ensures found == PlayersOf(book, ss)
  {
    found := {};
    var i := 0;
    while i < |ss|
      invariant 0 <= i <= |ss|
      invariant found == PlayersOf(book, ss[..i])
    {
      found := ScanPlayers(SheetOf(book, ss[i]), found);
      UnionPrefix(ss, i, NamedSheetPlayers(book));
      i := i + 1;
    }
    Whole(ss);
  }

  /** The player names of one sheet, scanning column C from row 13 down. */
  method ScanPlayers(sheet: Sheet, found: set<string>) returns (r: set<string>)
    ensures r == found + SheetPlayers(sheet, sheet.maxRow + 1)
  {
    r := CollectRows(PlayerAt(sheet), 13, sheet.maxRow + 1, found);
  }

  // ---------------------------------------------------------------------------
  // migrate_teams

  function TeamOf(sid: int): string -> TeamKey {
    name => (sid, name)
  }

  /**
    The teams `migrate_teams` registers for the sheet `name`: the sheet's team
    names in sorted order under its season id, none for an unregistered sheet.
   */
  ghost function SeasonTeams(book: Workbook, smap: map<string, int>): string -> seq<TeamKey> {
    name => if name in smap then Apply(SortedSet(SheetTeams(SheetOf(book, name))), TeamOf(smap[name])) else []
  }

  /** The teams of every registered season sheet, in workbook order, get consecutive ids. */
  ghost function TeamsStep(book: Workbook, s: MigState): MigState {
    var ts := Gather(SeasonSheets(Keys(book)), SeasonTeams(book, s.seasonsMap));
    s.(teamsMap := PutIds(s.teamsMap, ts, s.nextTeamId),
       nextTeamId := s.nextTeamId + |ts|,
       newWb := s.newWb.(teams := Numbered(ts, s.nextTeamId)))
  }

  /** `teams_found` of one sheet: the standings rows, then the player block's labels. */
  method ScanTeams(sheet: Sheet) returns (found: set<string>)
    ensures found == SheetTeams(sheet)
  {
    found := CollectRows(StandingsTeamAt(sheet), 2, SheetsHandler.StandingsEnd(sheet), {});
    found := CollectRows(LabelAt(sheet), 13, sheet.maxRow + 1, found);
  }

  /** The teams of the sheet `name`, registered in `tm0` from the counter `first`. */
  method SeasonTeamRows(book: Workbook, smap: map<string, int>, name: string, tm0: seq<(TeamKey, int)>, first: int)
    returns (tm: seq<(TeamKey, int)>, rows: seq<Row<TeamKey>>, next: int)
    ensures tm == PutIds(tm0, SeasonTeams(book, smap)(name), first)
    ensures rows == Numbered(SeasonTeams(book, smap)(name), first)
    ensures next == first + |SeasonTeams(book, smap)(name)|
  {
    if name in smap {
      var found := ScanTeams(SheetOf(book, name));
      var names := SortNames(found);
      tm, rows, next := RegisterKeys(Apply(names, TeamOf(smap[name])), tm0, first);
    } else {
      tm, rows, next := tm0, [], first;
    }
  }

  /** `migrate_teams` on the migrator's state `s`. */
  method TeamsPass(book: Workbook, s: MigState) returns (t: MigState)
    ensures t == TeamsStep(book, s)
  {
    var tm, rows, next := AddSeasonTeams(book, SeasonSheets(Keys(book)), s.seasonsMap, s.teamsMap, s.nextTeamId);
    t := s.(teamsMap := tm, nextTeamId := next, newWb := s.newWb.(teams := rows));
  }

  /** The season loop of `migrate_teams`, continuing `tm0` and the counter `first`. */
  method AddSeasonTeams(book: Workbook, ss: seq<string>, smap: map<string, int>, tm0: seq<(TeamKey, int)>, first: int)
    returns (tm: seq<(TeamKey, int)>, rows: seq<Row<TeamKey>>, next: int)
    ensures tm == PutIds(tm0, Gather(ss, SeasonTeams(book, smap)), first)
    ensures rows == Numbered(Gather(ss, SeasonTeams(book, smap)), first)
    ensures next == first + |Gather(ss, SeasonTeams(book, smap))|
  {
    ghost var f := SeasonTeams(book, smap);
    tm, rows, next := tm0, [], first;
    var i := 0;
    while i < |ss|
      invariant 0 <= i <= |ss|
      invariant tm == PutIds(tm0, Gather(ss[..i], f), first)
      invariant rows == Numbered(Gather(ss[..i], f), first)
      invariant next == first + |Gather(ss[..i], f)|
    {
      var tm', added, next' := SeasonTeamRows(book, smap, ss[i], tm, next);
      GatherIdsStep(tm0, ss, i, f, first, tm, rows, next, tm', added, next');
      tm, rows, next := tm', rows + added, next';
      i := i + 1;
    }
    Whole(ss);
  }

  // ---------------------------------------------------------------------------
  // migrate_team_players

  /** `current_team_id` at `row`: the id of the label in force, None before the first label. */
  function CurrentTeamId(tm: seq<(TeamKey, int)>, sid: int, sh: Sheet, row: int): Option<int> {
    var teamName := CurrentLabel(sh, row);
    if teamName.Some? then Get(tm, (sid, teamName.value)) else None
  }

  /**
    The (player id, team id) of a row the tool processes: a player name that
    has an id, under a team label whose id is truthy.
   */
  function RowIds(pm: map<string, int>, tm: seq<(TeamKey, int)>, sid: int, sh: Sheet, row: int): Option<(int, int)> {
    var name := PlayerAt(sh)(row);
    var tid := CurrentTeamId(tm, sid, sh, row);
    if name.Some? && name.value in pm && TruthyId(tid) then Some((pm[name.value], tid.value)) else None
  }

  function LinksAt(pm: map<string, int>, tm: seq<(TeamKey, int)>, sid: int, sh: Sheet): int -> seq<Membership> {
    row => var ids := RowIds(pm, tm, sid, sh, row);
           if ids.Some? then [Membership(ids.value.1, ids.value.0, sid)] else []
  }

  /** The memberships of one sheet, read from row 13 to the last row. */
  function SheetLinks(pm: map<string, int>, tm: seq<(TeamKey, int)>, sid: int, sh: Sheet): seq<Membership> {
    Span(LinksAt(pm, tm, sid, sh), 13, sh.maxRow + 1)
  }

  function SeasonLinks(book: Workbook, pm: map<string, int>, tm: seq<(TeamKey, int)>, smap: map<string, int>): string -> seq<Membership> {
    name => if name in smap then SheetLinks(pm, tm, smap[name], SheetOf(book, name)) else []
  }

  /** The memberships of every registered season sheet, in workbook order, get consecutive ids. */
  function TeamPlayersStep(book: Workbook, s: MigState): MigState {
    var ls := Gather(SeasonSheets(Keys(book)), SeasonLinks(book, s.playersMap, s.teamsMap, s.seasonsMap));
    s.(nextTeamPlayerId := s.nextTeamPlayerId + |ls|,
       newWb := s.newWb.(teamPlayers := Numbered(ls, s.nextTeamPlayerId)))
  }

  /**
    The body of the row loop of `migrate_team_players`: a label row sets
    `current_team_id`, and a player row with an id under a truthy team id
    adds a membership.
   */
  function LinkStep(pm: map<string, int>, tm: seq<(TeamKey, int)>, sid: int, sh: Sheet): (Option<int>, int) -> (Option<int>, seq<Membership>) {
    (currentId: Option<int>, row: int) =>
      var teamName := LabelAt(sh)(row);
      var id := if teamName.Some? then Get(tm, (sid, teamName.value)) else currentId;
      var player := PlayerAt(sh)(row);
      (id, if player.Some? && player.value in pm && TruthyId(id) then [Membership(id.value, pm[player.value], sid)] else [])
  }

  /** From the team id in force above a row, the loop body computes the one in force at it and that row's memberships. */
  lemma LinkStepCurrent(pm: map<string, int>, tm: seq<(TeamKey, int)>, sid: int, sh: Sheet, k: int)
    requires 13 <= k
    ensures LinkStep(pm, tm, sid, sh)(CurrentTeamId(tm, sid, sh, k - 1), k) == (CurrentTeamId(tm, sid, sh, k), LinksAt(pm, tm, sid, sh)(k))
  {
  }

  /** The row loop, starting with no team id, yields the memberships of the nearest label above each player row. */
  lemma SheetLinksFold(pm: map<string, int>, tm: seq<(TeamKey, int)>, sid: int, sh: Sheet)
    ensures Fold(LinkStep(pm, tm, sid, sh), None, 13, sh.maxRow + 1).1 == SheetLinks(pm, tm, sid, sh)
  {
    var g := (k: int) => CurrentTeamId(tm, sid, sh, k);
    forall k | 13 <= k < sh.maxRow + 1
      ensures LinkStep(pm, tm, sid, sh)(g(k - 1), k) == (g(k), LinksAt(pm, tm, sid, sh)(k))
    {
      LinkStepCurrent(pm, tm, sid, sh, k);
    }
    assert g(12) == None;
    FoldSpan(LinkStep(pm, tm, sid, sh), g, LinksAt(pm, tm, sid, sh), 13, sh.maxRow + 1);
  }

  /** The row loop of `migrate_team_players` on one sheet, from the counter `first`. */
  method LinkSheet(pm: map<string, int>, tm: seq<(TeamKey, int)>, sid: int, sheet: Sheet, first: int)
    returns (rows: seq<Row<Membership>>, next: int)
    ensures rows == Numbered(SheetLinks(pm, tm, sid, sheet), first)
    ensures next == first + |SheetLinks(pm, tm, sid, sheet)|
  {
    var lastId;
    lastId, rows, next := FoldRows(LinkStep(pm, tm, sid, sheet), None, 13, sheet.maxRow + 1, first);
    SheetLinksFold(pm, tm, sid, sheet);
  }

  /** `migrate_team_players` on the migrator's state `s`. */
  method TeamPlayersPass(book: Workbook, s: MigState) returns (t: MigState)
    ensures t == TeamPlayersStep(book, s)
  {
    var rows, next := LinkSeasons(book, SeasonSheets(Keys(book)), s.playersMap, s.teamsMap, s.seasonsMap, s.nextTeamPlayerId);
    t := s.(nextTeamPlayerId := next, newWb := s.newWb.(teamPlayers := rows));
  }

  /** The season loop of `migrate_team_players`. */
  method LinkSeasons(book: Workbook, ss: seq<string>, pm: map<string, int>, tm: seq<(TeamKey, int)>, smap: map<string, int>, first: int)
    returns (rows: seq<Row<Membership>>, next: int)
    ensures rows == Numbered(Gather(ss, SeasonLinks(book, pm, tm, smap)), first)
    ensures next == first + |Gather(ss, SeasonLinks(book, pm, tm, smap))|
  {
    ghost var f := SeasonLinks(book, pm, tm, smap);
    rows, next := [], first;
    var i := 0;
    while i < |ss|
      invariant 0 <= i <= |ss|
      invariant rows == Numbered(Gather(ss[..i], f), first)
      invariant next == first + |Gather(ss[..i], f)|
    {
      var name := ss[i];
      var added: seq<Row<Membership>> := [];
      ghost var at := next;
      if name in smap {
        added, next := LinkSheet(pm, tm, smap[name], SheetOf(book, name), next);
      }
      rows := AppendGathered(ss, i, f, rows, added, at, first);
      i := i + 1;
    }
    Whole(ss);
  }

  // ---------------------------------------------------------------------------
  // migrate_games_and_aggregates

  /** How one season sheet is read: its maps, its season id and name, and whether it has single games. */
  datatype Visit = Visit(parse: string -> Option<real>, players: map<string, int>, teams: seq<(TeamKey, int)>,
                         seasonId: int, seasonName: string, detailed: bool)

  /** `scores` of a player row: the scoring columns run from 4 to column 19 at most. */
  function RowScores(parse: string -> Option<real>, sh: Sheet, row: int): seq<(int, real)> {
    ScoreList(parse, sh, row, SheetsHandler.ScoresEnd(sh))
  }

  function ScoreValue(e: (int, real)): real {
    e.1
  }

  /** `max(scores, default=0)`. */
  function Highest(vs: seq<real>): (r: real)
    ensures forall i :: 0 <= i < |vs| ==> vs[i] <= r
    ensures |vs| == 0 ==> r == 0.0
    ensures |vs| > 0 ==> exists i :: 0 <= i < |vs| && vs[i] == r
  {
    if |vs| == 0 then 0.0
    else if |vs| == 1 then vs[0]
    else
      var n := |vs| - 1;
      var m := Highest(vs[..n]);
      assert forall i :: 0 <= i < n ==> vs[..n][i] == vs[i];
      if vs[n] > m then vs[n] else m
  }

  /** `min(scores, default=0)`. */
  function Lowest(vs: seq<real>): (r: real)
    ensures forall i :: 0 <= i < |vs| ==> r <= vs[i]
    ensures |vs| == 0 ==> r == 0.0
    ensures |vs| > 0 ==> exists i :: 0 <= i < |vs| && vs[i] == r
  {
    if |vs| == 0 then 0.0
    else if |vs| == 1 then vs[0]
    else
      var n := |vs| - 1;
      var m := Lowest(vs[..n]);
      assert forall i :: 0 <= i < n ==> vs[..n][i] == vs[i];
      if vs[n] < m then vs[n] else m
  }

  /** `week_data`: seven empty columns, column `w - 1` holding `int(score)` of week `w` for weeks 1 to 7. */
  function WeekData(scores: seq<(int, real)>): (r: seq<Option<int>>)
    ensures |r| == 7
  {
    if |scores| == 0 then seq(7, _ => None)
    else
      var n := |scores| - 1;
      var w := WeekData(scores[..n]);
      if 1 <= scores[n].0 <= 7 then w[scores[n].0 - 1 := Some(Trunc(scores[n].1))] else w
  }

  lemma WeekDataPrefix(scores: seq<(int, real)>, i: int)
    requires 0 <= i < |scores|
    ensures WeekData(scores[..i + 1]) ==
              if 1 <= scores[i].0 <= 7 then WeekData(scores[..i])[scores[i].0 - 1 := Some(Trunc(scores[i].1))]
              else WeekData(scores[..i])
  {
    assert scores[..i + 1][..i] == scores[..i];
  }

  /** The aggregate row of a player with the scores `scores`. */
  function AggregateOf(pid: int, tid: int, sid: int, seasonName: string, scores: seq<(int, real)>): Aggregate {
    var vs := Apply(scores, ScoreValue);
    var average := SheetsHandler.Average(vs);
    var high := Highest(vs);
    var low := Lowest(vs);
    Aggregate(pid, tid, sid, |scores|, Trunc(SheetsHandler.Sum(vs)),
              if average > 0.0 then Some(average) else None,
              if high > 0.0 then Some(Trunc(high)) else None,
              if low > 0.0 then Some(Trunc(low)) else None,
              WeekData(scores),
              seasonName + " - " + (if |scores| == 0 then "Aggregated data" else "Partial data"))
  }

  function GameOf(pid: int, tid: int, sid: int): ((int, real)) -> Game {
    (e: (int, real)) => Game(pid, tid, sid, e.0, Trunc(e.1))
  }

  /** The games of a row: one per score, where the season is detailed and the row has scores. */
  function GamesAt(v: Visit, sh: Sheet): int -> seq<Game> {
    row => var ids := RowIds(v.players, v.teams, v.seasonId, sh, row);
           var scores := RowScores(v.parse, sh, row);
           if ids.Some? && v.detailed && scores != [] then Apply(scores, GameOf(ids.value.0, ids.value.1, v.seasonId)) else []
  }

  /** The aggregate of a row: one, where the season is not detailed or the row has no scores. */
  function AggregatesAt(v: Visit, sh: Sheet): int -> seq<Aggregate> {
    row => var ids := RowIds(v.players, v.teams, v.seasonId, sh, row);
           var scores := RowScores(v.parse, sh, row);
           if ids.Some? && !(v.detailed && scores != []) then [AggregateOf(ids.value.0, ids.value.1, v.seasonId, v.seasonName, scores)] else []
  }

  function SheetGames(v: Visit, sh: Sheet): seq<Game> {
    Span(GamesAt(v, sh), 13, sh.maxRow + 1)
  }

  function SheetAggregates(v: Visit, sh: Sheet): seq<Aggregate> {
    Span(AggregatesAt(v, sh), 13, sh.maxRow + 1)
  }

  /** How `migrate_games_and_aggregates` reads the registered sheet `name`. */
  function VisitOf(parse: string -> Option<real>, detailedStart: int, pm: map<string, int>, tm: seq<(TeamKey, int)>,
                   smap: map<string, int>, name: string): Visit
    requires name in smap
  {
    Visit(parse, pm, tm, smap[name], name, SeasonInt(name).GetOr(0) >= detailedStart)
  }

  function SeasonGames(book: Workbook, parse: string -> Option<real>, detailedStart: int, pm: map<string, int>,
                       tm: seq<(TeamKey, int)>, smap: map<string, int>): string -> seq<Game> {
    name => if name in smap then SheetGames(VisitOf(parse, detailedStart, pm, tm, smap, name), SheetOf(book, name)) else []
  }

  function SeasonAggregates(book: Workbook, parse: string -> Option<real>, detailedStart: int, pm: map<string, int>,
                            tm: seq<(TeamKey, int)>, smap: map<string, int>): string -> seq<Aggregate> {
    name => if name in smap then SheetAggregates(VisitOf(parse, detailedStart, pm, tm, smap, name), SheetOf(book, name)) else []
  }

  /**
    The games and the aggregates of every registered season sheet, in order of
    season number, each table with its own consecutive ids.
   */
  function GamesStep(book: Workbook, parse: string -> Option<real>, detailedStart: int, s: MigState): MigState {
    var ss := OrderedSeasons(Keys(book));
    var gs := Gather(ss, SeasonGames(book, parse, detailedStart, s.playersMap, s.teamsMap, s.seasonsMap));
    var ags := Gather(ss, SeasonAggregates(book, parse, detailedStart, s.playersMap, s.teamsMap, s.seasonsMap));
    s.(nextGameId := s.nextGameId + |gs|, nextAggregateId := s.nextAggregateId + |ags|,
       newWb := s.newWb.(games := Numbered(gs, s.nextGameId), aggregates := Numbered(ags, s.nextAggregateId)))
  }

  /** The column loop that builds `scores`. */
  method ReadScores(parse: string -> Option<real>, sheet: Sheet, row: int) returns (scores: seq<(int, real)>)
    ensures scores == RowScores(parse, sheet, row)
  {
    scores := [];
    var hi := SheetsHandler.ScoresEnd(sheet);
    var col := 4;
    while col < hi
      invariant 4 <= col && (col <= hi || col == 4)
      invariant scores == ScoreList(parse, sheet, row, col)
      decreases hi - col
    {
      SpanNext(ScoreCol(parse, sheet, row), 4, col);
      var c := sheet.At(row, col);
      if !c.Blank? {
        var v := SafeFloat(parse, c, 0.0);
        if v > 0.0 {
          scores := scores + [(col - 3, v)];
        }
      }
      col := col + 1;
    }
  }

  /** The loop that fills `week_data`. */
  method FillWeeks(scores: seq<(int, real)>) returns (weeks: seq<Option<int>>)
    ensures weeks == WeekData(scores)
  {
    weeks := seq(7, _ => None);
    var i := 0;
    while i < |scores|
      invariant 0 <= i <= |scores|
      invariant weeks == WeekData(scores[..i])
    {
      var week := scores[i].0;
      if 1 <= week <= 7 {
        weeks := weeks[week - 1 := Some(Trunc(scores[i].1))];
      }
      WeekDataPrefix(scores, i);
      i := i + 1;
    }
    Whole(scores);
  }

  /**
    The body of the row loop of `migrate_games_and_aggregates`: `current_team_id`
    as in `migrate_team_players`; a player row with an id under a truthy team
    id adds its games or its aggregate.
   */
  function VisitStep(v: Visit, sh: Sheet): (Option<int>, int) -> (Option<int>, seq<Game>, seq<Aggregate>) {
    (currentId: Option<int>, row: int) =>
      var teamName := LabelAt(sh)(row);
      var id := if teamName.Some? then Get(v.teams, (v.seasonId, teamName.value)) else currentId;
      var player := PlayerAt(sh)(row);
      if player.Some? && player.value in v.players && TruthyId(id) then
        var pid := v.players[player.value];
        var scores := RowScores(v.parse, sh, row);
        if v.detailed && scores != [] then (id, Apply(scores, GameOf(pid, id.value, v.seasonId)), [])
        else (id, [], [AggregateOf(pid, id.value, v.seasonId, v.seasonName, scores)])
      else (id, [], [])
  }

  lemma VisitStepCurrent(v: Visit, sh: Sheet, k: int)
    requires 13 <= k
    ensures VisitStep(v, sh)(CurrentTeamId(v.teams, v.seasonId, sh, k - 1), k) ==
              (CurrentTeamId(v.teams, v.seasonId, sh, k), GamesAt(v, sh)(k), AggregatesAt(v, sh)(k))
  {
  }

  lemma SheetVisitFold(v: Visit, sh: Sheet)
    ensures Fold2(VisitStep(v, sh), None, 13, sh.maxRow + 1).1 == SheetGames(v, sh)
    ensures Fold2(VisitStep(v, sh), None, 13, sh.maxRow + 1).2 == SheetAggregates(v, sh)
  {
    var g := (k: int) => CurrentTeamId(v.teams, v.seasonId, sh, k);
    forall k | 13 <= k < sh.maxRow + 1
      ensures VisitStep(v, sh)(g(k - 1), k) == (g(k), GamesAt(v, sh)(k), AggregatesAt(v, sh)(k))
    {
      VisitStepCurrent(v, sh, k);
    }
    assert g(12) == None;
    Fold2Span(VisitStep(v, sh), g, GamesAt(v, sh), AggregatesAt(v, sh), 13, sh.maxRow + 1);
  }

  /** The row loop of `migrate_games_and_aggregates` on one sheet. */
  method VisitSheet(v: Visit, sheet: Sheet, gFirst: int, aFirst: int)
    returns (games: seq<Row<Game>>, gNext: int, aggs: seq<Row<Aggregate>>, aNext: int)
    ensures games == Numbered(SheetGames(v, sheet), gFirst)
    ensures gNext == gFirst + |SheetGames(v, sheet)|
    ensures aggs == Numbered(SheetAggregates(v, sheet), aFirst)
    ensures aNext == aFirst + |SheetAggregates(v, sheet)|
  {
    var lastId;
    lastId, games, gNext, aggs, aNext := Fold2Rows(VisitStep(v, sheet), None, 13, sheet.maxRow + 1, gFirst, aFirst);
    SheetVisitFold(v, sheet);
  }

  /** The rows of the sheet `name` when it is registered, none otherwise. */
  method VisitSeason(book: Workbook, parse: string -> Option<real>, detailedStart: int, pm: map<string, int>,
                     tm: seq<(TeamKey, int)>, smap: map<string, int>, name: string, gFirst: int, aFirst: int)
    returns (games: seq<Row<Game>>, gNext: int, aggs: seq<Row<Aggregate>>, aNext: int)
    requires NumberedWhenIn(smap)(name)
    ensures games == Numbered(SeasonGames(book, parse, detailedStart, pm, tm, smap)(name), gFirst)
    ensures gNext == gFirst + |SeasonGames(book, parse, detailedStart, pm, tm, smap)(name)|
    ensures aggs == Numbered(SeasonAggregates(book, parse, detailedStart, pm, tm, smap)(name), aFirst)
    ensures aNext == aFirst + |SeasonAggregates(book, parse, detailedStart, pm, tm, smap)(name)|
  {
    if name in smap {
      var num := SeasonInt(name).value;
      var v := Visit(parse, pm, tm, smap[name], name, num >= detailedStart);
      assert v == VisitOf(parse, detailedStart, pm, tm, smap, name);
      games, gNext, aggs, aNext := VisitSheet(v, SheetOf(book, name), gFirst, aFirst);
    } else {
      games, gNext, aggs, aNext := [], gFirst, [], aFirst;
    }
  }

  /** One turn of the season loop: the rows of season `ss[i]` go behind those of the seasons before it. */
  method VisitNext(book: Workbook, parse: string -> Option<real>, detailedStart: int, ss: seq<string>, i: int,
                   pm: map<string, int>, tm: seq<(TeamKey, int)>, smap: map<string, int>,
                   games: seq<Row<Game>>, gNext: int, ghost gFirst: int, aggs: seq<Row<Aggregate>>, aNext: int, ghost aFirst: int)
    returns (games': seq<Row<Game>>, gNext': int, aggs': seq<Row<Aggregate>>, aNext': int)
    requires 0 <= i < |ss| && NumberedWhenIn(smap)(ss[i])
    requires games == Numbered(Gather(ss[..i], SeasonGames(book, parse, detailedStart, pm, tm, smap)), gFirst)
    requires gNext == gFirst + |Gather(ss[..i], SeasonGames(book, parse, detailedStart, pm, tm, smap))|
    requires aggs == Numbered(Gather(ss[..i], SeasonAggregates(book, parse, detailedStart, pm, tm, smap)), aFirst)
    requires aNext == aFirst + |Gather(ss[..i], SeasonAggregates(book, parse, detailedStart, pm, tm, smap))|
    ensures games' == Numbered(Gather(ss[..i + 1], SeasonGames(book, parse, detailedStart, pm, tm, smap)), gFirst)
    ensures gNext' == gFirst + |Gather(ss[..i + 1], SeasonGames(book, parse, detailedStart, pm, tm, smap))|
    ensures aggs' == Numbered(Gather(ss[..i + 1], SeasonAggregates(book, parse, detailedStart, pm, tm, smap)), aFirst)
    ensures aNext' == aFirst + |Gather(ss[..i + 1], SeasonAggregates(book, parse, detailedStart, pm, tm, smap))|
  {
    ghost var fg := SeasonGames(book, parse, detailedStart, pm, tm, smap);
    ghost var fa := SeasonAggregates(book, parse, detailedStart, pm, tm, smap);
    var gs, ags;
    gs, gNext', ags, aNext' := VisitSeason(book, parse, detailedStart, pm, tm, smap, ss[i], gNext, aNext);
    games' := AppendGathered(ss, i, fg, games, gs, gNext, gFirst);
    aggs' := AppendGathered(ss, i, fa, aggs, ags, aNext, aFirst);
  }

  /** The season loop of `migrate_games_and_aggregates`. */
  method VisitSeasons(book: Workbook, parse: string -> Option<real>, detailedStart: int, ss: seq<string>,
                      pm: map<string, int>, tm: seq<(TeamKey, int)>, smap: map<string, int>, gFirst: int, aFirst: int)
    returns (games: seq<Row<Game>>, gNext: int, aggs: seq<Row<Aggregate>>, aNext: int)
    requires All(ss, NumberedWhenIn(smap))
    ensures games == Numbered(Gather(ss, SeasonGames(book, parse, detailedStart, pm, tm, smap)), gFirst)
    ensures gNext == gFirst + |Gather(ss, SeasonGames(book, parse, detailedStart, pm, tm, smap))|
    ensures aggs == Numbered(Gather(ss, SeasonAggregates(book, parse, detailedStart, pm, tm, smap)), aFirst)
    ensures aNext == aFirst + |Gather(ss, SeasonAggregates(book, parse, detailedStart, pm, tm, smap))|
  {
    ghost var fg := SeasonGames(book, parse, detailedStart, pm, tm, smap);
    ghost var fa := SeasonAggregates(book, parse, detailedStart, pm, tm, smap);
    games, gNext, aggs, aNext := [], gFirst, [], aFirst;
    var i := 0;
    while i < |ss|
      invariant 0 <= i <= |ss|
      invariant games == Numbered(Gather(ss[..i], fg), gFirst)
      invariant gNext == gFirst + |Gather(ss[..i], fg)|
      invariant aggs == Numbered(Gather(ss[..i], fa), aFirst)
      invariant aNext == aFirst + |Gather(ss[..i], fa)|
    {
      AllAt(ss, NumberedWhenIn(smap), i);
      games, gNext, aggs, aNext := VisitNext(book, parse, detailedStart, ss, i, pm, tm, smap, games, gNext, gFirst, aggs, aNext, aFirst);
      i := i + 1;
    }
    Whole(ss);
  }

  /** `migrate_games_and_aggregates` on the migrator's state `s`. */
  method GamesPass(book: Workbook, parse: string -> Option<real>, detailedStart: int, s: MigState) returns (t: MigState)
    requires All(OrderedSeasons(Keys(book)), NumberedWhenIn(s.seasonsMap))
    ensures t == GamesStep(book, parse, detailedStart, s)
  {
    var gs, gNext, ags, aNext :=
      VisitSeasons(book, parse, detailedStart, OrderedSeasons(Keys(book)), s.playersMap, s.teamsMap, s.seasonsMap, s.nextGameId, s.nextAggregateId);
    t := s.(nextGameId := gNext, nextAggregateId := aNext, newWb := s.newWb.(games := gs, aggregates := ags));
  }

  // ---------------------------------------------------------------------------
  // migrate_team_standings

  /** The value of a cell the tool writes rounded, or empty where it is not positive. */
  function PositiveOr(x: real): Option<real> {
    if x > 0.0 then Some(x) else None
  }

  /** The standings row of a sheet row whose team has a truthy id. */
  function StandingAt(parse: string -> Option<real>, tm: seq<(TeamKey, int)>, sid: int, sh: Sheet): int -> seq<Standing> {
    row => var name := StandingsTeamAt(sh)(row);
           var tid := if name.Some? then Get(tm, (sid, name.value)) else None;
           if TruthyId(tid) then
             [Standing(tid.value, sid, SafeInt(parse, sh.At(row, 3), 0), SafeInt(parse, sh.At(row, 4), 0),
                       SafeInt(parse, sh.At(row, 5), 0), SafeInt(parse, sh.At(row, 6), 0), SafeInt(parse, sh.At(row, 7), 0),
                       PositiveOr(SafeFloat(parse, sh.At(row, 8), 0.0)), PositiveOr(SafeFloat(parse, sh.At(row, 9), 0.0)))]
           else []
  }

  /** The standings of one sheet, read from row 2 to row 16 at most. */
  function SheetStandings(parse: string -> Option<real>, tm: seq<(TeamKey, int)>, sid: int, sh: Sheet): seq<Standing> {
    Span(StandingAt(parse, tm, sid, sh), 2, SheetsHandler.StandingsEnd(sh))
  }

  function SeasonStandings(book: Workbook, parse: string -> Option<real>, tm: seq<(TeamKey, int)>, smap: map<string, int>): string -> seq<Standing> {
    name => if name in smap then SheetStandings(parse, tm, smap[name], SheetOf(book, name)) else []
  }

  /** The standings of every registered season sheet, in workbook order, get consecutive ids. */
  function StandingsStep(book: Workbook, parse: string -> Option<real>, s: MigState): MigState {
    var st := Gather(SeasonSheets(Keys(book)), SeasonStandings(book, parse, s.teamsMap, s.seasonsMap));
    s.(nextStandingId := s.nextStandingId + |st|, newWb := s.newWb.(standings := Numbered(st, s.nextStandingId)))
  }

  /** The standings row of one sheet row, if its team has a truthy id. */
  method StandingRow(parse: string -> Option<real>, tm: seq<(TeamKey, int)>, sid: int, sheet: Sheet, row: int)
    returns (found: seq<Standing>)
    ensures found == StandingAt(parse, tm, sid, sheet)(row)
  {
    var name := NameIn(sheet.At(row, 2), StandingsHeaders);
    assert name == StandingsTeamAt(sheet)(row);
    var tid := if name.Some? then Get(tm, (sid, name.value)) else None;
    if tid.Some? && tid.value != 0 {
      found := [Standing(tid.value, sid, SafeInt(parse, sheet.At(row, 3), 0), SafeInt(parse, sheet.At(row, 4), 0),
                         SafeInt(parse, sheet.At(row, 5), 0), SafeInt(parse, sheet.At(row, 6), 0),
                         SafeInt(parse, sheet.At(row, 7), 0),
                         PositiveOr(SafeFloat(parse, sheet.At(row, 8), 0.0)),
                         PositiveOr(SafeFloat(parse, sheet.At(row, 9), 0.0)))];
    } else {
      found := [];
    }
  }

  /** The row loop of `migrate_team_standings` on one sheet. */
  method StandingsSheet(parse: string -> Option<real>, tm: seq<(TeamKey, int)>, sid: int, sheet: Sheet, first: int)
    returns (rows: seq<Row<Standing>>, next: int)
    ensures rows == Numbered(SheetStandings(parse, tm, sid, sheet), first)
    ensures next == first + |SheetStandings(parse, tm, sid, sheet)|
  {
    ghost var f := StandingAt(parse, tm, sid, sheet);
    rows, next := [], first;
    var hi := SheetsHandler.StandingsEnd(sheet);
    var row := 2;
    while row < hi
      invariant 2 <= row && (row <= hi || row == 2)
      invariant rows == Numbered(Span(f, 2, row), first)
      invariant next == first + |Span(f, 2, row)|
      decreases hi - row
    {
      var found := StandingRow(parse, tm, sid, sheet, row);
      rows, next := AppendSpanRow(f, 2, row, found, rows, next, first);
      row := row + 1;
    }
  }

  /** `migrate_team_standings` on the migrator's state `s`. */
  method StandingsPass(book: Workbook, parse: string -> Option<real>, s: MigState) returns (t: MigState)
    ensures t == StandingsStep(book, parse, s)
  {
    var rows, next := StandingsSeasons(book, parse, SeasonSheets(Keys(book)), s.teamsMap, s.seasonsMap, s.nextStandingId);
    t := s.(nextStandingId := next, newWb := s.newWb.(standings := rows));
  }

  /** The season loop of `migrate_team_standings`. */
  method StandingsSeasons(book: Workbook, parse: string -> Option<real>, ss: seq<string>, tm: seq<(TeamKey, int)>, smap: map<string, int>, first: int)
    returns (rows: seq<Row<Standing>>, next: int)
    ensures rows == Numbered(Gather(ss, SeasonStandings(book, parse, tm, smap)), first)
    ensures next == first + |Gather(ss, SeasonStandings(book, parse, tm, smap))|
  {
    ghost var f := SeasonStandings(book, parse, tm, smap);
    rows, next := [], first;
    var i := 0;
    while i < |ss|
      invariant 0 <= i <= |ss|
      invariant rows == Numbered(Gather(ss[..i], f), first)
      invariant next == first + |Gather(ss[..i], f)|
    {
      var name := ss[i];
      var added: seq<Row<Standing>> := [];
      ghost var at := next;
      if name in smap {
        added, next := StandingsSheet(parse, tm, smap[name], SheetOf(book, name), next);
      }
      rows := AppendGathered(ss, i, f, rows, added, at, first);
      i := i + 1;
    }
    Whole(ss);
  }

  // ---------------------------------------------------------------------------
  // migrate_champions

  /** `f"Season {season_num}"`. */
  function SeasonName(n: int): string {
    "Season " + IntToString(n)
  }

  /** A `teams_map` key of season `sid` whose name contains `champ`, ignoring case. */
  function TeamMatches(sid: int, champ: string): TeamKey -> bool {
    (k: TeamKey) => k.0 == sid && Contains(Lower(k.1), Lower(champ))
  }

  /** The first team, in `teams_map` order, that `migrate_champions` matches. */
  function ChampionTeam(tm: seq<(TeamKey, int)>, sid: int, champ: string): Option<int> {
    FirstFrom(tm, TeamMatches(sid, champ), 0)
  }

  /**
    The champion row of a "Champs" row: both cells truthy, the season cell an
    integer naming a registered season, and a matching team with a truthy id.
   */
  function ChampionAt(show: real -> string, smap: map<string, int>, tm: seq<(TeamKey, int)>, sh: Sheet): int -> seq<Champion> {
    row => var c2, c3 := sh.At(row, 2), sh.At(row, 3);
           var n := ChampSeason(c2);
           if Truthy(c2) && Truthy(c3) && n.Some? && SeasonName(n.value) in smap then
             var sid := smap[SeasonName(n.value)];
             var champ := Strip(CellStr(show, c3));
             var tid := ChampionTeam(tm, sid, champ);
             if TruthyId(tid) then [Champion(sid, tid.value, champ)] else []
           else []
  }

  function SheetChampions(show: real -> string, smap: map<string, int>, tm: seq<(TeamKey, int)>, sh: Sheet): seq<Champion> {
    Span(ChampionAt(show, smap, tm, sh), 3, sh.maxRow + 1)
  }

  /**
    The champions of the "Champs" sheet, numbered on from the standings
    counter; without that sheet the table is only cleared.
   */
  function ChampionsStep(book: Workbook, show: real -> string, s: MigState): MigState {
    if "Champs" in Keys(book) then
      var cs := SheetChampions(show, s.seasonsMap, s.teamsMap, SheetOf(book, "Champs"));
      s.(nextStandingId := s.nextStandingId + |cs|, newWb := s.newWb.(champions := Numbered(cs, s.nextStandingId)))
    else
      s.(newWb := s.newWb.(champions := []))
  }

  /** The champion row of one "Champs" row, if the tool writes one. */
  method ChampionRow(show: real -> string, smap: map<string, int>, tm: seq<(TeamKey, int)>, sheet: Sheet, row: int)
    returns (found: seq<Champion>)
    ensures found == ChampionAt(show, smap, tm, sheet)(row)
  {
    found := [];
    var seasonCell, champCell := sheet.At(row, 2), sheet.At(row, 3);
    if Truthy(seasonCell) && Truthy(champCell) {
      var n := ChampSeason(seasonCell);
      if n.Some? {
        var name := SeasonName(n.value);
        var champ := Strip(CellStr(show, champCell));
        if name in smap {
          var sid := smap[name];
          var tid := FindFirst(tm, TeamMatches(sid, champ));
          if tid.Some? && tid.value != 0 {
            found := [Champion(sid, tid.value, champ)];
          }
        }
      }
    }
  }

  /** The row loop of `migrate_champions`. */
  method ChampionRows(show: real -> string, smap: map<string, int>, tm: seq<(TeamKey, int)>, sheet: Sheet, first: int)
    returns (rows: seq<Row<Champion>>, next: int)
    ensures rows == Numbered(SheetChampions(show, smap, tm, sheet), first)
    ensures next == first + |SheetChampions(show, smap, tm, sheet)|
  {
    ghost var f := ChampionAt(show, smap, tm, sheet);
    rows, next := [], first;
    var row := 3;
    while row < sheet.maxRow + 1
      invariant 3 <= row && (row <= sheet.maxRow + 1 || row == 3)
      invariant rows == Numbered(Span(f, 3, row), first)
      invariant next == first + |Span(f, 3, row)|
      decreases sheet.maxRow + 1 - row
    {
      var found := ChampionRow(show, smap, tm, sheet, row);
      rows, next := AppendSpanRow(f, 3, row, found, rows, next, first);
      row := row + 1;
    }
  }

  // ---------------------------------------------------------------------------
  // migrate_all

  /** The seven steps in the order `migrate_all` runs them. */
  ghost function MigrateAllStep(book: Workbook, parse: string -> Option<real>, show: real -> string, detailedStart: int, s: MigState): MigState {
    var s1 := SeasonsStep(book, s);
    var s2 := PlayersStep(book, s1);
    var s3 := TeamsStep(book, s2);
    var s4 := TeamPlayersStep(book, s3);
    var s5 := GamesStep(book, parse, detailedStart, s4);
    var s6 := StandingsStep(book, parse, s5);
    ChampionsStep(book, show, s6)
  }

  class ExcelMigrator {
    /** The old workbook, read with cached formula values. */
    const oldWb: Workbook
    /** Python's `float(str)`. */
    const parse: string -> Option<real>
    /** Python's `str()` of a number. */
    const show: real -> string

    /** `player_name -> player_id`. */
    var playersMap: map<string, int>
    /** `(season_id, team_name) -> team_id`, in insertion order. */
    var teamsMap: seq<(TeamKey, int)>
    /** `season_name -> season_id`. */
    var seasonsMap: map<string, int>
    var nextPlayerId: int
    var nextTeamId: int
    var nextSeasonId: int
    var nextGameId: int
    var nextAggregateId: int
    var nextStandingId: int
    var nextTeamPlayerId: int

    /** The new workbook's tables. */
    var newWb: Tables

    function State(): MigState
      reads this
    {
      MigState(playersMap, teamsMap, seasonsMap, nextPlayerId, nextTeamId, nextSeasonId, nextGameId,
               nextAggregateId, nextStandingId, nextTeamPlayerId, newWb)
    }

    /** Empty maps, every counter at 1. */
    constructor (oldWb: Workbook, parse: string -> Option<real>, show: real -> string)
      ensures this.oldWb == oldWb && this.parse == parse && this.show == show
      ensures State() == Initial()
    {
      this.oldWb := oldWb;
      this.parse := parse;
      this.show := show;
      playersMap, teamsMap, seasonsMap := map[], [], map[];
      nextPlayerId, nextTeamId, nextSeasonId, nextGameId := 1, 1, 1, 1;
      nextAggregateId, nextStandingId, nextTeamPlayerId := 1, 1, 1;
      newWb := Tables([], [], [], [], [], [], [], []);
    }

    /** `migrate_seasons` on a workbook where it does not raise (see `SeasonsNumbered`, which `MigrateAll` requires). */
    method MigrateSeasons()
      modifies this
      ensures State() == SeasonsStep(oldWb, old(State()))
    {
      var t := SeasonsPass(oldWb, State());
      seasonsMap, nextSeasonId, newWb := t.seasonsMap, t.nextSeasonId, t.newWb;
    }

    /** `migrate_players`. */
    method MigratePlayers()
      modifies this
      ensures State() == PlayersStep(oldWb, old(State()))
    {
      var t := PlayersPass(oldWb, State());
      playersMap, nextPlayerId, newWb := t.playersMap, t.nextPlayerId, t.newWb;
    }

    /** `migrate_teams`. */
    method MigrateTeams()
      modifies this
      ensures State() == TeamsStep(oldWb, old(State()))
    {
      var t := TeamsPass(oldWb, State());
      teamsMap, nextTeamId, newWb := t.teamsMap, t.nextTeamId, t.newWb;
    }

    /** `migrate_team_players`. */
    method MigrateTeamPlayers()
      modifies this
      ensures State() == TeamPlayersStep(oldWb, old(State()))
    {
      var t := TeamPlayersPass(oldWb, State());
      nextTeamPlayerId, newWb := t.nextTeamPlayerId, t.newWb;
    }

    /** `migrate_games_and_aggregates`; it raises unless every registered sheet it visits ends in an integer. */
    method MigrateGamesAndAggregates(detailedStart: int)
      requires All(OrderedSeasons(Keys(oldWb)), NumberedWhenIn(seasonsMap))
      modifies this
      ensures State() == GamesStep(oldWb, parse, detailedStart, old(State()))
    {
      var t := GamesPass(oldWb, parse, detailedStart, State());
      nextGameId, nextAggregateId, newWb := t.nextGameId, t.nextAggregateId, t.newWb;
    }

    /** `migrate_team_standings`. */
    method MigrateTeamStandings()
      modifies this
      ensures State() == StandingsStep(oldWb, parse, old(State()))
    {
      var t := StandingsPass(oldWb, parse, State());
      nextStandingId, newWb := t.nextStandingId, t.newWb;
    }

    /** `migrate_champions`. */
    method MigrateChampions()
      modifies this
      ensures State() == ChampionsStep(oldWb, show, old(State()))
    {
      if "Champs" in Keys(oldWb) {
        var rows;
        rows, nextStandingId := ChampionRows(show, seasonsMap, teamsMap, SheetOf(oldWb, "Champs"), nextStandingId);
        newWb := newWb.(champions := rows);
      } else {
        newWb := newWb.(champions := []);
      }
    }

    /** `migrate_all` without the saving and the summary. */
    method MigrateAll(detailedStart: int)
      requires SeasonsNumbered(Keys(oldWb))
      modifies this
      ensures State() == MigrateAllStep(oldWb, parse, show, detailedStart, old(State()))
    {
      MigrateSeasons();
      MigratePlayers();
      MigrateTeams();
      MigrateTeamPlayers();
      OrderedSeasonsNumberedIn(Keys(oldWb), seasonsMap);
      MigrateGamesAndAggregates(detailedStart);
      MigrateTeamStandings();
      MigrateChampions();
    }
  }
}
