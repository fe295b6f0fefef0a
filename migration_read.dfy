/**
  What the migration tool reads from the old workbook: which sheets are
  seasons and in what order it visits them, the player names of column C,
  the team labels of column B, the week scores of a player row, and the
  cells of the "Champs" sheet.
 */
module MigrationRead {
  import opened Wrappers
  import opened Text
  import opened PyNum
  import opened Dict
  import opened Sorting
  import opened StrOrder
  import opened Cells
  import opened Ids
  import SheetsHandler

  /** The headers that are not players (column C), team labels (column B) or standings teams. */
  const PlayerHeaders: seq<string> := ["player", "team averages", "average"]
  const LabelHeaders: seq<string> := ["team", "player", "team averages"]
  const StandingsHeaders: seq<string> := ["team", "wins", "losses", "ties"]

  /**
    The stripped text of a cell that holds a non-blank string whose lower case
    is not one of `headers`; None for any other cell.
   */
  function NameIn(c: Cell, headers: seq<string>): (r: Option<string>)
    ensures r.Some? <==> HasText(c) && Lower(Strip(c.s)) !in headers
    ensures r.Some? ==> r.value == Strip(c.s) && r.value != []
  {
    if HasText(c) && Lower(Strip(c.s)) !in headers then
      StripEmpty(c.s);
      Some(Strip(c.s))
    else None
  }

  /**
    `old_wb[name]`. The tool only asks for names among `old_wb.sheetnames`; for
    any other name this is an empty sheet.
   */
  function SheetOf(book: Workbook, name: string): Sheet {
    Get(book, name).GetOr(Sheet(0, 0, map[]))
  }

  // ---------------------------------------------------------------------------
  // Seasons

  /** `int(season_name.split()[-1])`; None where that raises. */
  function SeasonInt(name: string): Option<int> {
    if LastToken(name).Some? then ParseInt(LastToken(name).value) else None
  }

  /** The last field of the name is something `int()` accepts. */
  predicate SeasonNumbered(name: string) {
    SeasonInt(name).Some?
  }

  /** Where the last field is a digit string, `int()` of it is the number the sort uses. */
  lemma SeasonIntOfDigits(name: string)
    requires HasSeasonNumber(name)
    ensures SeasonInt(name) == Some(SeasonNumber(name) as int)
  {
    ParseIntOfDigits(LastToken(name).value);
  }

  /** The sort key of `season_sheets.sort(...)`, ascending. */
  predicate SeasonLe(a: string, b: string) {
    SeasonNumber(a) <= SeasonNumber(b)
  }

  lemma SeasonLeTotalPreorder()
    ensures TotalPreorder(SeasonLe)
  {
  }

  /** The season sheets, in workbook order, sorted (stably) by season number. */
  function OrderedSeasons(names: seq<string>): seq<string> {
    SortBy(SeasonSheets(names), SeasonLe)
  }

  /**
    The ordered season sheets are the season sheets, each as often as it
    occurs, in ascending order of season number, sheets of equal number in
    workbook order.
   */
  lemma OrderedSeasonsSorted(names: seq<string>)
    ensures multiset(OrderedSeasons(names)) == multiset(SeasonSheets(names))
    ensures forall n :: n in OrderedSeasons(names) <==> n in SeasonSheets(names)
    ensures forall i, j :: 0 <= i < j < |OrderedSeasons(names)| ==>
              SeasonNumber(OrderedSeasons(names)[i]) <= SeasonNumber(OrderedSeasons(names)[j])
    ensures forall z :: Tied(OrderedSeasons(names), SeasonLe, z) == Tied(SeasonSheets(names), SeasonLe, z)
  {
    SeasonLeTotalPreorder();
    SortByCorrect(SeasonSheets(names), SeasonLe);
    forall n ensures n in OrderedSeasons(names) <==> n in SeasonSheets(names) {
      assert n in OrderedSeasons(names) <==> n in multiset(OrderedSeasons(names));
      assert n in SeasonSheets(names) <==> n in multiset(SeasonSheets(names));
    }
  }

  /** The number a name contributes to the maximum: its last field, where that is a digit string. */
  function DigitKey(name: string): Option<nat> {
    if HasSeasonNumber(name) then Some(SeasonNumber(name)) else None
  }

  /**
    `max(int(s.split()[-1]) for s in season_sheets if s.split()[-1].isdigit())`;
    None where no name qualifies (there Python's `max` raises).
   */
  function HighestNumber(ss: seq<string>): Option<nat> {
    MaxKey(ss, DigitKey)
  }

  /**
    What `migrate_seasons` needs in order not to raise: the last field of every
    season sheet's name is an integer, and, if there are season sheets, at
    least one of them ends in a digit string (otherwise `max` has nothing).
   */
  predicate SeasonsNumbered(names: seq<string>) {
    && All(SeasonSheets(names), SeasonNumbered)
    && (SeasonSheets(names) != [] ==> HighestNumber(SeasonSheets(names)).Some?)
  }

  lemma OrderedSeasonsHighest(names: seq<string>)
    ensures HighestNumber(OrderedSeasons(names)) == HighestNumber(SeasonSheets(names))
    ensures |OrderedSeasons(names)| == |SeasonSheets(names)|
  {
    OrderedSeasonsSorted(names);
    SortByPermutation(SeasonSheets(names), SeasonLe);
    MaxKeySameElements(OrderedSeasons(names), SeasonSheets(names), DigitKey);
  }

  /** What `migrate_games_and_aggregates` needs of a sheet it visits: registered ones end in an integer. */
  function NumberedWhenIn(smap: map<string, int>): string -> bool {
    name => name in smap ==> SeasonNumbered(name)
  }

  /** Where every season sheet ends in an integer, so does every one the later steps visit. */
  lemma OrderedSeasonsNumberedIn(names: seq<string>, smap: map<string, int>)
    requires SeasonsNumbered(names)
    ensures All(OrderedSeasons(names), NumberedWhenIn(smap))
  {
    OrderedSeasonsSorted(names);
    AllOfMembers(OrderedSeasons(names), SeasonSheets(names), SeasonNumbered, NumberedWhenIn(smap));
  }

  // ---------------------------------------------------------------------------
  // Players and team labels

  /** The player named in column C of a row, if it holds one. */
  function PlayerAt(sh: Sheet): int -> Option<string> {
    row => NameIn(sh.At(row, 3), PlayerHeaders)
  }

  /** The team label in column B of a player row, if it holds one. */
  function LabelAt(sh: Sheet): int -> Option<string> {
    row => NameIn(sh.At(row, 2), LabelHeaders)
  }

  /** The team named in column B of a standings row, if it holds one. */
  function StandingsTeamAt(sh: Sheet): int -> Option<string> {
    row => NameIn(sh.At(row, 2), StandingsHeaders)
  }

  /** The player names in column C of rows 13 up to (not including) `hi`. */
  function SheetPlayers(sh: Sheet, hi: int): set<string> {
    RowSet(PlayerAt(sh), 13, hi)
  }

  /** The player names of the sheet called `name`. */
  function NamedSheetPlayers(book: Workbook): string -> set<string> {
    name => SheetPlayers(SheetOf(book, name), SheetOf(book, name).maxRow + 1)
  }

  /** The player names of the sheets `ss`. */
  function PlayersOf(book: Workbook, ss: seq<string>): set<string> {
    Union(ss, NamedSheetPlayers(book))
  }

  /** A name is one of the players exactly when some player row of one of the sheets holds it. */
  lemma PlayersOfIff(book: Workbook, ss: seq<string>, name: string)
    ensures name in PlayersOf(book, ss) <==>
              exists i :: 0 <= i < |ss| && name in SheetPlayers(SheetOf(book, ss[i]), SheetOf(book, ss[i]).maxRow + 1)
  {
    UnionHas(ss, NamedSheetPlayers(book), name);
  }

  /** A sheet's player names are the stripped names of its player rows. */
  lemma SheetPlayersIff(sh: Sheet, name: string)
    ensures name in SheetPlayers(sh, sh.maxRow + 1) <==> exists k :: 13 <= k <= sh.maxRow && PlayerAt(sh)(k) == Some(name)
  {
    RowSetIff(PlayerAt(sh), 13, sh.maxRow + 1, name);
  }

  /** The player names of the season sheets, as `sorted(players_set)` lists them. */
  ghost function PlayerNames(book: Workbook): seq<string> {
    SortedSet(PlayersOf(book, SeasonSheets(Keys(book))))
  }

  /** `teams_found` of one season sheet: the standings teams and the player block's team labels. */
  function SheetTeams(sh: Sheet): set<string> {
    RowSet(StandingsTeamAt(sh), 2, SheetsHandler.StandingsEnd(sh)) + RowSet(LabelAt(sh), 13, sh.maxRow + 1)
  }

  /** The label in force at `row`: the nearest team label at or above it, from row 13 on. */
  function CurrentLabel(sh: Sheet, row: int): Option<string> {
    Nearest(LabelAt(sh), 13, row)
  }

  /** Every label in force on the sheet is one of its teams, so that `migrate_teams` registered it. */
  lemma CurrentLabelIsTeam(sh: Sheet, row: int)
    requires row <= sh.maxRow
    ensures CurrentLabel(sh, row).Some? ==> CurrentLabel(sh, row).value in SheetTeams(sh)
  {
    NearestInRowSet(LabelAt(sh), 13, row, sh.maxRow + 1);
  }

  // ---------------------------------------------------------------------------
  // Week scores

  /** The score a week cell contributes: a cell that is not empty whose `safe_float` is positive. */
  function ScoreAt(parse: string -> Option<real>, c: Cell): (r: Option<real>)
    ensures r.Some? ==> r.value > 0.0
  {
    if !c.Blank? && SafeFloat(parse, c, 0.0) > 0.0 then Some(SafeFloat(parse, c, 0.0)) else None
  }

  /** What column `col` of a player row adds to `scores`: (week, score), week 1 being column 4. */
  function ScoreCol(parse: string -> Option<real>, sh: Sheet, row: int): int -> seq<(int, real)> {
    col => var s := ScoreAt(parse, sh.At(row, col)); if s.Some? then [(col - 3, s.value)] else []
  }

  /** `scores` of a player row: (week, score) for the scoring columns 4 up to (not including) `hi`. */
  function ScoreList(parse: string -> Option<real>, sh: Sheet, row: int, hi: int): seq<(int, real)> {
    Span(ScoreCol(parse, sh, row), 4, hi)
  }

  /** The list holds exactly the weeks whose column holds a score, with that score. */
  lemma ScoreListHas(parse: string -> Option<real>, sh: Sheet, row: int, hi: int, w: int, v: real)
    ensures (w, v) in ScoreList(parse, sh, row, hi) <==> 4 <= w + 3 < hi && ScoreAt(parse, sh.At(row, w + 3)) == Some(v)
  {
    SpanHas(ScoreCol(parse, sh, row), 4, hi, (w, v));
    if 4 <= w + 3 < hi && ScoreAt(parse, sh.At(row, w + 3)) == Some(v) {
      assert (w, v) in ScoreCol(parse, sh, row)(w + 3);
    }
  }

  /** Weeks come in column order, each at most once, and every score is positive. */
  lemma {:induction false} ScoreListOrdered(parse: string -> Option<real>, sh: Sheet, row: int, hi: int)
    ensures forall i, j :: 0 <= i < j < |ScoreList(parse, sh, row, hi)| ==>
              ScoreList(parse, sh, row, hi)[i].0 < ScoreList(parse, sh, row, hi)[j].0
    ensures forall i :: 0 <= i < |ScoreList(parse, sh, row, hi)| ==>
              1 <= ScoreList(parse, sh, row, hi)[i].0 < hi - 3 && ScoreList(parse, sh, row, hi)[i].1 > 0.0
    decreases hi
  {
    if hi > 4 {
      ScoreListOrdered(parse, sh, row, hi - 1);
      var r0 := ScoreList(parse, sh, row, hi - 1);
      var last := ScoreCol(parse, sh, row)(hi - 1);
      var r := ScoreList(parse, sh, row, hi);
      SpanNext(ScoreCol(parse, sh, row), 4, hi - 1);
      assert forall i :: 0 <= i < |r0| ==> r[i] == r0[i];
      assert forall i :: |r0| <= i < |r| ==> r[i] == last[i - |r0|] && last[i - |r0|].0 == hi - 4;
    }
  }

  // ---------------------------------------------------------------------------
  // The "Champs" sheet

  /** `int(season_cell)`: truncation for a number, Python's `int()` for a string; None where that raises. */
  function ChampSeason(c: Cell): Option<int> {
    match c
    case Blank => None
    case Num(x) => Some(Trunc(x))
    case Text(s) => ParseInt(s)
  }

  /** `str(value)`, with `show` standing for Python's rendering of a number. */
  function CellStr(show: real -> string, c: Cell): string {
    match c
    case Blank => "None"
    case Num(x) => show(x)
    case Text(s) => s
  }
}
