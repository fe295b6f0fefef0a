/**
  The local-workbook sheet handler (`ExcelHandler`): it picks the current
  season sheet, finds team and player rows by a case-insensitive two-way
  substring match, reads the standings block (rows 2 to 16, team in column
  B, figures in C to H) and the player block (rows 13 on, team carried down
  from column B, player in column C, weekly scores in D to S), and writes one
  score into a player's row.
 */
module SheetsHandler {
  import opened Wrappers
  import opened Text
  import opened Dict
  import opened Sorting
  import opened Cells

  // ---------------------------------------------------------------------------
  // Seasons

  /** The order of `seasons.sort(key=season number, reverse=True)`. */
  predicate SeasonGe(a: string, b: string) {
    SeasonNumber(a) >= SeasonNumber(b)
  }

  lemma SeasonGeTotalPreorder()
    ensures TotalPreorder(SeasonGe)
  {
  }

  /**
    `_get_current_season`: the season sheets sorted by number, highest first
    (Python's sort stays stable when reversed), and the first of them.
   */
  function CurrentSeason(names: seq<string>): Option<string>
  {
    var ss := SeasonSheets(names);
    if |ss| == 0 then None else Some(SortBy(ss, SeasonGe)[0])
  }

  /** Index `i` holds the first season sheet whose number is the largest. */
  predicate FirstHighest(ss: seq<string>, i: int) {
    && 0 <= i < |ss|
    && (forall j :: 0 <= j < |ss| ==> SeasonNumber(ss[j]) <= SeasonNumber(ss[i]))
    && (forall j :: 0 <= j < i ==> SeasonNumber(ss[j]) < SeasonNumber(ss[i]))
  }

  /**
    The current season is the earliest sheet, in workbook order, among the
    season sheets with the highest number; there is none without season sheets.
   */
  lemma CurrentSeasonIsFirstHighest(names: seq<string>)
    ensures CurrentSeason(names).None? <==> SeasonSheets(names) == []
    ensures CurrentSeason(names).Some? ==>
              exists i :: FirstHighest(SeasonSheets(names), i) && SeasonSheets(names)[i] == CurrentSeason(names).value
  {
    var ss := SeasonSheets(names);
    if |ss| > 0 {
      SeasonGeTotalPreorder();
      var i := SortedHeadFirst(ss, SeasonGe);
      assert FirstHighest(ss, i);
    }
  }

  /** `season or self._get_current_season()` for the getters and `add_score`. */
  function ResolveSeason(book: Workbook, season: Option<string>): Option<string> {
    if season.Some? then season else CurrentSeason(Keys(book))
  }

  /** The sheet of the resolved season, or None where the season is not a sheet name. */
  function SeasonSheet(book: Workbook, season: Option<string>): (r: Option<Sheet>)
    ensures r.Some? <==> ResolveSeason(book, season).Some? && ResolveSeason(book, season).value in Keys(book)
  {
    var s := ResolveSeason(book, season);
    if s.None? then None
    else
      GetIn(book, s.value);
      Get(book, s.value)
  }

  // ---------------------------------------------------------------------------
  // Row searches

  /** The cell at (row, col) is a non-empty string that fuzzy-matches `name`. */
  predicate NamedAt(sheet: Sheet, row: int, col: int, name: string) {
    var c := sheet.At(row, col);
    c.Text? && c.s != "" && Fuzzy(name, c.s)
  }

  /** The first row in [lo, hi) whose cell in `col` matches `name`. */
  function FirstNamedRow(sheet: Sheet, col: int, name: string, lo: int, hi: int): (r: Option<int>)
    ensures r.Some? ==> lo <= r.value < hi && NamedAt(sheet, r.value, col, name)
                        && forall k :: lo <= k < r.value ==> !NamedAt(sheet, k, col, name)
    ensures r.None? ==> forall k :: lo <= k < hi ==> !NamedAt(sheet, k, col, name)
    decreases hi - lo
  {
    if hi <= lo then None
    else if NamedAt(sheet, lo, col, name) then Some(lo)
    else FirstNamedRow(sheet, col, name, lo + 1, hi)
  }

  /** The last row `_find_team_row` looks at, plus one. */
  function TeamSearchEnd(sheet: Sheet, start: int): int {
    if start + 20 <= sheet.maxRow + 1 then start + 20 else sheet.maxRow + 1
  }

  /** The first cell that `add_score` counts as free: empty or holding "". */
  predicate Free(c: Cell) {
    c.Blank? || c == Text("")
  }

  /** The first column in [lo, hi) whose cell in `row` is free. */
  function FirstFreeColumn(sheet: Sheet, row: int, lo: int, hi: int): (r: Option<int>)
    ensures r.Some? ==> lo <= r.value < hi && Free(sheet.At(row, r.value))
                        && forall k :: lo <= k < r.value ==> !Free(sheet.At(row, k))
    ensures r.None? ==> forall k :: lo <= k < hi ==> !Free(sheet.At(row, k))
    decreases hi - lo
  {
    if hi <= lo then None
    else if Free(sheet.At(row, lo)) then Some(lo)
    else FirstFreeColumn(sheet, row, lo + 1, hi)
  }

  // ---------------------------------------------------------------------------
  // The standings block

  /** The six figures of a standings row, an empty cell read as 0. */
  datatype TeamData = TeamData(wins: Cell, losses: Cell, ties: Cell, pinsFor: Cell, pinsAgainst: Cell, avgPerGame: Cell)

  function OrZero(c: Cell): (r: Cell)
    ensures r != Blank
    ensures c != Blank ==> r == c
  {
    if c.Blank? then Num(0.0) else c
  }

  function TeamDataAt(sheet: Sheet, row: int): TeamData {
    TeamData(OrZero(sheet.At(row, 3)), OrZero(sheet.At(row, 4)), OrZero(sheet.At(row, 5)),
             OrZero(sheet.At(row, 6)), OrZero(sheet.At(row, 7)), OrZero(sheet.At(row, 8)))
  }

  /** Column B holds a non-blank string that is not one of the standings headers. */
  predicate IsTeamRow(sheet: Sheet, row: int) {
    var c := sheet.At(row, 2);
    HasText(c) && Lower(c.s) !in ["team", "wins", "losses", "ties"]
  }

  /** The rows `get_team_scores` reads are 2 up to (not including) this one. */
  function StandingsEnd(sheet: Sheet): int {
    if 17 <= sheet.maxRow + 1 then 17 else sheet.maxRow + 1
  }

  /** The team rows in [2, hi) as (label, figures) pairs, top to bottom. */
  function TeamEntries(sheet: Sheet, hi: int): seq<(string, TeamData)>
    decreases hi
  {
    if hi <= 2 then []
    else
      var es := TeamEntries(sheet, hi - 1);
      if IsTeamRow(sheet, hi - 1) then es + [(sheet.At(hi - 1, 2).s, TeamDataAt(sheet, hi - 1))] else es
  }

  /** The entries are exactly the team rows of [2, hi) with their figures. */
  lemma {:induction false} TeamEntriesRows(sheet: Sheet, hi: int)
    ensures forall n, d :: (n, d) in TeamEntries(sheet, hi) <==>
              exists k :: 2 <= k < hi && IsTeamRow(sheet, k) && sheet.At(k, 2).s == n && TeamDataAt(sheet, k) == d
    decreases hi
  {
    if hi > 2 {
      TeamEntriesRows(sheet, hi - 1);
    }
  }

  /** A team row whose label fuzzy-matches the requested team. */
  predicate TeamMatch(sheet: Sheet, row: int, team: string) {
    IsTeamRow(sheet, row) && Fuzzy(team, sheet.At(row, 2).s)
  }

  // ---------------------------------------------------------------------------
  // The player block

  /** Column B holds a team label for the rows below it. */
  predicate IsTeamLabel(sheet: Sheet, row: int) {
    var c := sheet.At(row, 2);
    HasText(c) && Lower(c.s) !in ["team", "player", "team averages"]
  }

  /** Column C holds a player name rather than a header. */
  predicate IsPlayerRow(sheet: Sheet, row: int) {
    var c := sheet.At(row, 3);
    HasText(c) && Lower(c.s) !in ["player", "team averages", "average"]
  }

  /** The most recent team label in column B from row 13 down to `row` itself. */
  function CurrentTeam(sheet: Sheet, row: int): Option<string>
    decreases row
  {
    if row < 13 then None
    else if IsTeamLabel(sheet, row) then Some(sheet.At(row, 2).s)
    else CurrentTeam(sheet, row - 1)
  }

  /** The team of a player row is the nearest team label at or above it, from row 13 on. */
  lemma {:induction false} CurrentTeamIsNearestLabel(sheet: Sheet, row: int)
    ensures CurrentTeam(sheet, row).Some? ==>
              exists k :: 13 <= k <= row && IsTeamLabel(sheet, k) && sheet.At(k, 2).s == CurrentTeam(sheet, row).value
                          && forall j :: k < j <= row ==> !IsTeamLabel(sheet, j)
    ensures CurrentTeam(sheet, row).None? ==> forall k :: 13 <= k <= row ==> !IsTeamLabel(sheet, k)
    decreases row
  {
    if row >= 13 && !IsTeamLabel(sheet, row) {
      CurrentTeamIsNearestLabel(sheet, row - 1);
    }
  }

  /** `float(value)` of a non-empty cell, None where it raises. */
  function CellScore(parse: string -> Option<real>, c: Cell): (r: Option<real>)
    ensures r.Some? <==> Converts(parse, c)
    ensures c.Num? ==> r == Some(c.x)
  {
    match c
    case Blank => None
    case Num(x) => Some(x)
    case Text(s) => parse(s)
  }

  /** The scores of columns 4 up to (not including) `hi` of a row, in column order. */
  function RowScores(parse: string -> Option<real>, sheet: Sheet, row: int, hi: int): (s: seq<real>)
    ensures |s| <= if hi <= 4 then 0 else hi - 4
    decreases hi
  {
    if hi <= 4 then []
    else
      var c := CellScore(parse, sheet.At(row, hi - 1));
      RowScores(parse, sheet, row, hi - 1) + (if c.Some? then [c.value] else [])
  }

  /** The columns `get_player_scores` reads scores from are 4 up to (not including) this one. */
  function ScoresEnd(sheet: Sheet): int {
    if 20 <= sheet.maxCol + 1 then 20 else sheet.maxCol + 1
  }

  function Sum(s: seq<real>): real {
    if |s| == 0 then 0.0 else Sum(s[..|s| - 1]) + s[|s| - 1]
  }

  /** `sum(scores) / len(scores) if scores else 0`. */
  function Average(s: seq<real>): real {
    if |s| == 0 then 0.0 else Sum(s) / (|s| as real)
  }

  datatype PlayerData = PlayerData(team: Option<string>, scores: seq<real>, average: real)

  function PlayerDataAt(parse: string -> Option<real>, sheet: Sheet, row: int): PlayerData {
    var s := RowScores(parse, sheet, row, ScoresEnd(sheet));
    PlayerData(CurrentTeam(sheet, row), s, Average(s))
  }

  /** The player rows in [13, hi) as (name, data) pairs, top to bottom. */
  function PlayerEntries(parse: string -> Option<real>, sheet: Sheet, hi: int): seq<(string, PlayerData)>
    decreases hi
  {
    if hi <= 13 then []
    else
      var es := PlayerEntries(parse, sheet, hi - 1);
      if IsPlayerRow(sheet, hi - 1) then es + [(sheet.At(hi - 1, 3).s, PlayerDataAt(parse, sheet, hi - 1))] else es
  }

  /** The entries are exactly the player rows of [13, hi) with their data. */
  lemma {:induction false} PlayerEntriesRows(parse: string -> Option<real>, sheet: Sheet, hi: int)
    ensures forall n, d :: (n, d) in PlayerEntries(parse, sheet, hi) <==>
              exists k :: 13 <= k < hi && IsPlayerRow(sheet, k) && sheet.At(k, 3).s == n && PlayerDataAt(parse, sheet, k) == d
    decreases hi
  {
    if hi > 13 {
      PlayerEntriesRows(parse, sheet, hi - 1);
    }
  }

  /** A player row whose name fuzzy-matches the requested player. */
  predicate PlayerMatch(sheet: Sheet, row: int, player: string) {
    IsPlayerRow(sheet, row) && Fuzzy(player, sheet.At(row, 3).s)
  }

  // ---------------------------------------------------------------------------
  // The handler

  /**
    The getters' answer: the season is not a sheet; the requested name is not
    found; the one row found; or, when no name is given, every row as a
    dictionary from the cell's text to its data.
   */
  datatype Lookup<T> =
    | SeasonMissing(season: Option<string>)
    | NameMissing(name: string, sheetName: string)
    | Found(name: string, data: T)
    | Listing(entries: seq<(string, T)>)

  /** What `add_score` does: return a boolean, or raise (a week column left of column A). */
  datatype AddOutcome = Returned(ok: bool) | Raised

  /**
    What `add_score` does once it has the season sheet `sh`: the outcome, and
    the sheet as written when it writes one.
   */
  function SheetWrite(sh: Sheet, player: string, score: int, week: Option<int>): (AddOutcome, Option<Sheet>) {
    var row := FirstNamedRow(sh, 3, player, 13, sh.maxRow + 1);
    if row.None? then (Returned(false), None)
    else if week.Some? then
      if 3 + week.value < 1 then (Raised, None)
      else (Returned(true), Some(sh.Write(row.value, 3 + week.value, Num(score as real))))
    else
      var col := FirstFreeColumn(sh, row.value, 4, sh.maxCol + 1);
      if col.None? then (Returned(false), None)
      else (Returned(true), Some(sh.Write(row.value, col.value, Num(score as real))))
  }

  /** The outcome of `add_score` and the workbook it leaves. */
  function AddScoreEffect(book: Workbook, player: string, score: int, week: Option<int>, season: Option<string>)
    : (AddOutcome, Workbook)
  {
    var sheet := SeasonSheet(book, season);
    if sheet.None? then (Returned(false), book)
    else
      var (r, written) := SheetWrite(sheet.value, player, score, week);
      (r, if written.Some? then Put(book, ResolveSeason(book, season).value, written.value) else book)
  }

  /**
    What `get_team_scores` answers for one sheet: every team row when no team is
    named; else the first team row of rows 2 to 16 whose label matches; else a
    not-found error, except that the empty name (which every label matches)
    yields the empty dictionary.
   */
  predicate StandingsAnswer(sh: Sheet, team: Option<string>, sheetName: string, r: Lookup<TeamData>) {
    var end := StandingsEnd(sh);
    if team.None? then r == Listing(FromList(TeamEntries(sh, end)))
    else if r.Found? then
      exists k :: 2 <= k < end && TeamMatch(sh, k, team.value)
                  && (forall j :: 2 <= j < k ==> !TeamMatch(sh, j, team.value))
                  && r == Found(sh.At(k, 2).s, TeamDataAt(sh, k))
    else
      (forall k :: 2 <= k < end ==> !TeamMatch(sh, k, team.value))
      && r == if team.value != "" then NameMissing(team.value, sheetName) else Listing([])
  }

  /** What `get_player_scores` answers for one sheet, in the same shape. */
  predicate PlayersAnswer(parse: string -> Option<real>, sh: Sheet, player: Option<string>, sheetName: string,
                          r: Lookup<PlayerData>) {
    if player.None? then r == Listing(FromList(PlayerEntries(parse, sh, sh.maxRow + 1)))
    else if r.Found? then
      exists k :: 13 <= k <= sh.maxRow && PlayerMatch(sh, k, player.value)
                  && (forall j :: 13 <= j < k ==> !PlayerMatch(sh, j, player.value))
                  && r == Found(sh.At(k, 3).s, PlayerDataAt(parse, sh, k))
    else
      (forall k :: 13 <= k <= sh.maxRow ==> !PlayerMatch(sh, k, player.value))
      && r == if player.value != "" then NameMissing(player.value, sheetName) else Listing([])
  }

  /** A numeric cell in columns 4 up to `hi` contributes its value to the row's scores. */
  lemma {:induction false} RowScoresHasCell(parse: string -> Option<real>, sheet: Sheet, row: int, col: int, hi: int)
    requires 4 <= col < hi && sheet.At(row, col).Num?
    ensures sheet.At(row, col).x in RowScores(parse, sheet, row, hi)
    decreases hi
  {
    if col < hi - 1 {
      RowScoresHasCell(parse, sheet, row, col, hi - 1);
    }
  }

  /** The columns from 4 up to `hi` whose cell in `row` `float()` accepts. */
  function ScoreColumns(parse: string -> Option<real>, sheet: Sheet, row: int, hi: int): set<int> {
    set c | 4 <= c < hi && Converts(parse, sheet.At(row, c))
  }

  lemma ScoreColumnsStep(parse: string -> Option<real>, sheet: Sheet, row: int, hi: int)
    requires hi > 4
    ensures hi - 1 !in ScoreColumns(parse, sheet, row, hi - 1)
    ensures ScoreColumns(parse, sheet, row, hi) ==
              ScoreColumns(parse, sheet, row, hi - 1) + if Converts(parse, sheet.At(row, hi - 1)) then {hi - 1} else {}
  {
  }

  /** Only cells that `float()` accepts contribute, one score each. */
  lemma {:induction false} RowScoresCount(parse: string -> Option<real>, sheet: Sheet, row: int, hi: int)
    ensures |RowScores(parse, sheet, row, hi)| == |ScoreColumns(parse, sheet, row, hi)|
    decreases hi
  {
    if hi > 4 {
      RowScoresCount(parse, sheet, row, hi - 1);
      ScoreColumnsStep(parse, sheet, row, hi);
    } else {
      assert ScoreColumns(parse, sheet, row, hi) == {};
    }
  }

  lemma {:induction false} SumBounds(s: seq<real>, lo: real, hi: real)
    requires forall i :: 0 <= i < |s| ==> lo <= s[i] <= hi
    ensures (|s| as real) * lo <= Sum(s) <= (|s| as real) * hi
  {
    if |s| > 0 {
      SumBounds(s[..|s| - 1], lo, hi);
    }
  }

  /** A player's average lies between the lowest and the highest of the scores. */
  lemma AverageBetween(s: seq<real>, lo: real, hi: real)
    requires |s| > 0
    requires forall i :: 0 <= i < |s| ==> lo <= s[i] <= hi
    ensures lo <= Average(s) <= hi
  {
    SumBounds(s, lo, hi);
    var n := |s| as real;
    assert Sum(s) / n * n == Sum(s);
  }

  /** `add_score` changes the workbook only when it returns True. */
  lemma AddScoreOutcome(book: Workbook, player: string, score: int, week: Option<int>, season: Option<string>)
    ensures var (r, book') := AddScoreEffect(book, player, score, week, season);
            && (r != Returned(true) ==> book' == book)
            && (r == Returned(false) <==>
                  || SeasonSheet(book, season).None?
                  || FirstNamedRow(SeasonSheet(book, season).value, 3, player, 13, SeasonSheet(book, season).value.maxRow + 1).None?
                  || (week.None? && FirstFreeColumn(SeasonSheet(book, season).value,
                                                    FirstNamedRow(SeasonSheet(book, season).value, 3, player, 13,
                                                                  SeasonSheet(book, season).value.maxRow + 1).value,
                                                    4, SeasonSheet(book, season).value.maxCol + 1).None?))
            && (r == Raised <==> SeasonSheet(book, season).Some?
                                 && FirstNamedRow(SeasonSheet(book, season).value, 3, player, 13, SeasonSheet(book, season).value.maxRow + 1).Some?
                                 && week.Some? && 3 + week.value < 1)
  {
  }

  /** The column a successful `add_score` writes to. */
  function AddScoreColumn(sh: Sheet, row: int, week: Option<int>): int {
    if week.Some? then 3 + week.value
    else
      var col := FirstFreeColumn(sh, row, 4, sh.maxCol + 1);
      if col.Some? then col.value else 0
  }

  /**
    A successful `add_score` puts back the season sheet with the score written
    at the row and column it chose: the first player row whose column C
    matches (header rows included), in column 3 + week, or without a week in
    the first free column from D on.
   */
  lemma AddScoreWrites(book: Workbook, player: string, score: int, week: Option<int>, season: Option<string>)
    returns (name: string, sh: Sheet, row: int, col: int)
    requires AddScoreEffect(book, player, score, week, season).0 == Returned(true)
    ensures ResolveSeason(book, season) == Some(name) && SeasonSheet(book, season) == Some(sh) && name in Keys(book)
    ensures FirstNamedRow(sh, 3, player, 13, sh.maxRow + 1) == Some(row) && col == AddScoreColumn(sh, row, week)
    ensures 13 <= row && 1 <= col
    ensures week.None? ==> 4 <= col <= sh.maxCol && Free(sh.At(row, col))
                           && forall k :: 4 <= k < col ==> !Free(sh.At(row, k))
    ensures AddScoreEffect(book, player, score, week, season).1 == Put(book, name, sh.Write(row, col, Num(score as real)))
  {
    name := ResolveSeason(book, season).value;
    sh := SeasonSheet(book, season).value;
    assert SheetWrite(sh, player, score, week).0 == Returned(true)
           && AddScoreEffect(book, player, score, week, season).1 == Put(book, name, SheetWrite(sh, player, score, week).1.value);
    row, col := SheetWriteCell(sh, player, score, week);
  }

  /** The cell a successful write into one season sheet goes to. */
  lemma SheetWriteCell(sh: Sheet, player: string, score: int, week: Option<int>) returns (row: int, col: int)
    requires SheetWrite(sh, player, score, week).0 == Returned(true)
    ensures FirstNamedRow(sh, 3, player, 13, sh.maxRow + 1) == Some(row) && col == AddScoreColumn(sh, row, week)
    ensures 13 <= row && 1 <= col
    ensures week.None? ==> 4 <= col <= sh.maxCol && Free(sh.At(row, col))
                           && forall k :: 4 <= k < col ==> !Free(sh.At(row, k))
    ensures SheetWrite(sh, player, score, week).1 == Some(sh.Write(row, col, Num(score as real)))
  {
    row := FirstNamedRow(sh, 3, player, 13, sh.maxRow + 1).value;
    col := AddScoreColumn(sh, row, week);
  }

  /**
    A successful `add_score` writes the score into one cell of the season
    sheet. Every other cell, every other sheet and the list of sheets stay as
    they were.
   */
  lemma AddScoreWritesOneCell(book: Workbook, player: string, score: int, week: Option<int>, season: Option<string>)
    requires AddScoreEffect(book, player, score, week, season).0 == Returned(true)
    ensures var book' := AddScoreEffect(book, player, score, week, season).1;
            var name := ResolveSeason(book, season).value;
            var sh := SeasonSheet(book, season).value;
            var row := FirstNamedRow(sh, 3, player, 13, sh.maxRow + 1).value;
            var col := AddScoreColumn(sh, row, week);
            && 1 <= col
            && (week.None? ==> 4 <= col <= sh.maxCol && Free(sh.At(row, col))
                               && forall k :: 4 <= k < col ==> !Free(sh.At(row, k)))
            && Keys(book') == Keys(book)
            && Get(book', name).Some?
            && Get(book', name).value.At(row, col) == Num(score as real)
            && (forall r', c' :: (r', c') != (row, col) ==> Get(book', name).value.At(r', c') == sh.At(r', c'))
            && (forall n :: n != name ==> Get(book', n) == Get(book, n))
  {
    var name, sh, row, col := AddScoreWrites(book, player, score, week, season);
    PutOneEntry(book, name, sh.Write(row, col, Num(score as real)));
  }

  /** Putting `v` under an existing key keeps the keys and changes only that key's value. */
  lemma PutOneEntry(book: Workbook, name: string, v: Sheet)
    requires name in Keys(book)
    ensures Keys(Put(book, name, v)) == Keys(book)
    ensures Get(Put(book, name, v), name) == Some(v)
    ensures forall n :: n != name ==> Get(Put(book, name, v), n) == Get(book, n)
  {
    KeysPut(book, name, v);
    forall n ensures Get(Put(book, name, v), n) == if n == name then Some(v) else Get(book, n) {
      GetPut(book, name, v, n);
    }
  }

  /**
    After a successful `add_score` into a week column (D to S) the score is one
    of the scores `get_player_scores` reads from that row.
   */
  lemma AddScoreReadBack(parse: string -> Option<real>, book: Workbook, player: string, score: int, week: Option<int>,
                         season: Option<string>)
    requires AddScoreEffect(book, player, score, week, season).0 == Returned(true)
    ensures var book' := AddScoreEffect(book, player, score, week, season).1;
            var sh := SeasonSheet(book, season).value;
            var row := FirstNamedRow(sh, 3, player, 13, sh.maxRow + 1).value;
            var sh' := Get(book', ResolveSeason(book, season).value);
            4 <= AddScoreColumn(sh, row, week) < 20 ==>
              sh'.Some? && score as real in RowScores(parse, sh'.value, row, ScoresEnd(sh'.value))
  {
    var name, sh, row, col := AddScoreWrites(book, player, score, week, season);
    PutScoreReadBack(parse, book, name, sh, row, col, score);
  }

  /** A number written into a week column of a row is among the scores read from that row. */
  lemma WrittenScoreRead(parse: string -> Option<real>, sh: Sheet, row: int, col: int, score: int)
    requires 1 <= row && 4 <= col < 20
    ensures var sh' := sh.Write(row, col, Num(score as real));
            score as real in RowScores(parse, sh', row, ScoresEnd(sh'))
  {
    var sh' := sh.Write(row, col, Num(score as real));
    RowScoresHasCell(parse, sh', row, col, ScoresEnd(sh'));
  }

  /** The sheet put back under `name` after writing a week score reads that score back. */
  lemma PutScoreReadBack(parse: string -> Option<real>, book: Workbook, name: string, sh: Sheet, row: int, col: int,
                         score: int)
    requires 1 <= row && 1 <= col
    ensures var sh' := Get(Put(book, name, sh.Write(row, col, Num(score as real))), name);
            4 <= col < 20 ==> sh'.Some? && score as real in RowScores(parse, sh'.value, row, ScoresEnd(sh'.value))
  {
    if 4 <= col < 20 {
      var sh' := sh.Write(row, col, Num(score as real));
      GetPut(book, name, sh', name);
      WrittenScoreRead(parse, sh, row, col, score);
    }
  }

  class ExcelHandler {
    /** The loaded workbook (`data_only=True`: formulas read as their cached values). */
    var book: Workbook
    /** Python's `float(str)`. */
    const parse: string -> Option<real>

    constructor (book: Workbook, parse: string -> Option<real>)
      ensures this.book == book && this.parse == parse
    {
      this.book := book;
      this.parse := parse;
    }

    /** The first row in [lo, hi) whose cell in `col` matches `name`, scanning down. */
    static method FindRow(sheet: Sheet, col: int, name: string, lo: int, hi: int) returns (r: Option<int>)
      ensures r == FirstNamedRow(sheet, col, name, lo, hi)
    {
      var row := lo;
      while row < hi
        invariant lo <= row || hi <= lo
        invariant FirstNamedRow(sheet, col, name, lo, hi) == FirstNamedRow(sheet, col, name, row, hi)
        decreases hi - row
      {
        var c := sheet.At(row, col);
        if c.Text? && c != Text("") {
          if Fuzzy(name, c.s) {
            return Some(row);
          }
        }
        row := row + 1;
      }
      return None;
    }

    /** `_find_team_row`: the first of at most 20 rows from `start` whose column B matches. */
    static method FindTeamRow(sheet: Sheet, team: string, start: int) returns (r: Option<int>)
      ensures r == FirstNamedRow(sheet, 2, team, start, TeamSearchEnd(sheet, start))
    {
      r := FindRow(sheet, 2, team, start, TeamSearchEnd(sheet, start));
    }

    /** `_find_player_row`: the first row from `start` whose column C matches. */
    static method FindPlayerRow(sheet: Sheet, player: string, start: int) returns (r: Option<int>)
      ensures r == FirstNamedRow(sheet, 3, player, start, sheet.maxRow + 1)
    {
      r := FindRow(sheet, 3, player, start, sheet.maxRow + 1);
    }

    /**
      `get_team_scores`: with a team name, the first team row of rows 2 to 16
      whose label matches it; without one, every team row.
     */
    method GetTeamScores(team: Option<string>, season: Option<string>) returns (r: Lookup<TeamData>)
      ensures SeasonSheet(book, season).None? ==> r == SeasonMissing(ResolveSeason(book, season))
      ensures SeasonSheet(book, season).Some? ==>
                StandingsAnswer(SeasonSheet(book, season).value, team, ResolveSeason(book, season).value, r)
    {
      var sheet := SeasonSheet(book, season);
      if sheet.None? {
        return SeasonMissing(ResolveSeason(book, season));
      }
      r := ScanStandings(sheet.value, team, ResolveSeason(book, season).value);
    }

    /** The loop of `get_team_scores` over the standings rows of one sheet. */
    static method ScanStandings(sh: Sheet, team: Option<string>, sheetName: string) returns (r: Lookup<TeamData>)
      ensures StandingsAnswer(sh, team, sheetName, r)
    {
      var end := StandingsEnd(sh);
      var results: seq<(string, TeamData)> := [];
      var row := 2;
      while row < end
        invariant 2 <= row && (row <= end || row == 2)
        invariant team.None? ==> results == FromList(TeamEntries(sh, row))
        invariant team.Some? ==> results == [] && forall k :: 2 <= k < row ==> !TeamMatch(sh, k, team.value)
        decreases end - row
      {
        var c := sh.At(row, 2);
        if HasText(c) {
          if Lower(c.s) !in ["team", "wins", "losses", "ties"] {
            var data := TeamDataAt(sh, row);
            if team.None? {
              FromListSnoc(TeamEntries(sh, row), c.s, data);
              results := Put(results, c.s, data);
            } else if Fuzzy(team.value, c.s) {
              return Found(c.s, data);
            }
          }
        }
        row := row + 1;
      }
      if team.Some? && team.value != "" {
        return NameMissing(team.value, sheetName);
      }
      return Listing(results);
    }

    /** The scores of columns 4 up to (not including) `hi` of one row. */
    method ReadScores(sheet: Sheet, row: int, hi: int) returns (scores: seq<real>)
      ensures scores == RowScores(parse, sheet, row, hi)
    {
      scores := [];
      var col := 4;
      while col < hi
        invariant 4 <= col && (col <= hi || col == 4)
        invariant scores == RowScores(parse, sheet, row, col)
        decreases hi - col
      {
        var c := sheet.At(row, col);
        if c.Num? {
          scores := scores + [c.x];
        } else if c.Text? && parse(c.s).Some? {
          scores := scores + [parse(c.s).value];
        }
        col := col + 1;
      }
    }

    /**
      `get_player_scores`: with a player name, the first player row from row
      13 down whose name matches it; without one, every player row.
     */
    method GetPlayerScores(player: Option<string>, season: Option<string>) returns (r: Lookup<PlayerData>)
      ensures SeasonSheet(book, season).None? ==> r == SeasonMissing(ResolveSeason(book, season))
      ensures SeasonSheet(book, season).Some? ==>
                PlayersAnswer(parse, SeasonSheet(book, season).value, player, ResolveSeason(book, season).value, r)
    {
      var sheet := SeasonSheet(book, season);
      if sheet.None? {
        return SeasonMissing(ResolveSeason(book, season));
      }
      r := ScanPlayers(sheet.value, player, ResolveSeason(book, season).value);
    }

    /** The loop of `get_player_scores` over the rows of one sheet from row 13 down. */
    method ScanPlayers(sh: Sheet, player: Option<string>, sheetName: string) returns (r: Lookup<PlayerData>)
      ensures PlayersAnswer(parse, sh, player, sheetName, r)
    {
      var results: seq<(string, PlayerData)> := [];
      var currentTeam: Option<string> := None;
      var row := 13;
      while row <= sh.maxRow
        invariant 13 <= row && (row <= sh.maxRow + 1 || row == 13)
        invariant currentTeam == CurrentTeam(sh, row - 1)
        invariant player.None? ==> results == FromList(PlayerEntries(parse, sh, row))
        invariant player.Some? ==> results == [] && forall k :: 13 <= k < row ==> !PlayerMatch(sh, k, player.value)
        decreases sh.maxRow - row
      {
        if IsTeamLabel(sh, row) {
          currentTeam := Some(sh.At(row, 2).s);
        }
        if IsPlayerRow(sh, row) {
          var name := sh.At(row, 3).s;
          var scores := ReadScores(sh, row, ScoresEnd(sh));
          var data := PlayerData(currentTeam, scores, Average(scores));
          assert data == PlayerDataAt(parse, sh, row);
          if player.None? {
            FromListSnoc(PlayerEntries(parse, sh, row), name, data);
            results := Put(results, name, data);
          } else if Fuzzy(player.value, name) {
            assert PlayerMatch(sh, row, player.value);
            return Found(name, data);
          }
        }
        row := row + 1;
      }
      assert player.None? ==> results == FromList(PlayerEntries(parse, sh, sh.maxRow + 1)) by {
        if sh.maxRow < 13 {
          assert PlayerEntries(parse, sh, sh.maxRow + 1) == [] == PlayerEntries(parse, sh, row);
        }
      }
      if player.Some? && player.value != "" {
        return NameMissing(player.value, sheetName);
      }
      return Listing(results);
    }

    /** The loop of `add_score` that looks for the first free week column of a row. */
    static method FindFreeColumn(sh: Sheet, row: int) returns (r: Option<int>)
      ensures r == FirstFreeColumn(sh, row, 4, sh.maxCol + 1)
    {
      var col := 4;
      while col <= sh.maxCol
        invariant 4 <= col
        invariant FirstFreeColumn(sh, row, 4, sh.maxCol + 1) == FirstFreeColumn(sh, row, col, sh.maxCol + 1)
        decreases sh.maxCol - col
      {
        var c := sh.At(row, col);
        if c.Blank? || c == Text("") {
          return Some(col);
        }
        col := col + 1;
      }
      return None;
    }

    /** The part of `add_score` after the sheet is found: the row search, the column choice and the write. */
    static method WriteIntoSheet(sh: Sheet, player: string, score: int, week: Option<int>) returns (r: AddOutcome, written: Option<Sheet>)
      ensures (r, written) == SheetWrite(sh, player, score, week)
    {
      var row := FindPlayerRow(sh, player, 13);
      if row.None? {
        return Returned(false), None;
      }
      var col: int;
      if week.None? {
        var free := FindFreeColumn(sh, row.value);
        if free.None? {
          return Returned(false), None;
        }
        col := free.value;
      } else {
        col := 3 + week.value;
        if col < 1 {
          return Raised, None;
        }
      }
      return Returned(true), Some(sh.Write(row.value, col, Num(score as real)));
    }

    /**
      `add_score`: writes the score into the matching player's row, in the
      column of the given week or else in the first free week column.
     */
    method AddScore(player: string, score: int, week: Option<int>, season: Option<string>) returns (r: AddOutcome)
      modifies this
      ensures (r, book) == AddScoreEffect(old(book), player, score, week, season)
    {
      var sheet := SeasonSheet(book, season);
      if sheet.None? {
        return Returned(false);
      }
      var name := ResolveSeason(book, season).value;
      var written;
      r, written := WriteIntoSheet(sheet.value, player, score, week);
      if written.Some? {
        book := Put(book, name, written.value);
      }
    }
  }
}
