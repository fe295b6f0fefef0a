# BowlBot core, modelled in Dafny

BowlBot is a WhatsApp chat bot for a bowling league. The league lives in an
Excel workbook with one sheet per season ("Season 9", "Season 10", …). Each
season sheet has two blocks:

- a standings block: rows 2–16, team label in column B, wins/losses/ties/pins
  /averages in columns C–H;
- a player block: rows 13 onward, a team label in column B that carries down,
  the player in column C, and one score per week from column D.

This project models the four pieces of logic that sit between chat text and
that workbook:

- **`SheetsHandler`** (`sheets_handler.dfy`) is the `ExcelHandler` class.
  - It picks the current season.
  - It finds team and player rows by case-insensitive, two-way substring
    matching.
  - It reads the standings and player blocks.
  - It writes one score into the sheet in place (`add_score`).
- **`CommandParser`** (`command_parser.dfy`, `patterns.dfy`) is the message
  parser.
  - It lowercases the message and cuts out a `season N` / `sN` token.
  - It classifies the rest against the fixed help, seasons, team, player and
    add-score patterns, in their fixed order.
  - Every regular expression is a hand-written matcher with Python's `re`
    semantics: anchored `re.match`, greedy `(.+)`, `\s+`, `\b`.
- **`Migration`** (`migration.dfy`, `migration_read.dfy`,
  `migration_props.dfy`) is the `ExcelMigrator` class.
  - It turns the old season sheets into normalised tables: seasons, players,
    teams, team–player links, games, per-player aggregates, standings and
    champions.
  - Ids come from counters held in fields, and name→id maps are built along
    the way.
- **`BotLogic`** (`bot_logic.dfy`) holds the rules inside the bot's command
  handlers:
  - value coercion and the W-L(-T) record text;
  - the order of the season, standings and player listings, and the cap of
    20 players;
  - the weekly-record reply and its totals;
  - how the team, player and team-record handlers call the sheet handler
    (as written, each of those calls raises);
  - the checks made before a score is written.

Shared foundations:

- **`Cells`**: cells, sheets and workbooks. A cell is `Blank`, `Num(real)` or
  `Text(string)`. `Text("")` is kept apart from `Blank`.
- **`Text`**: `lower`, `strip`, `in` and the fuzzy name match.
- **`PyNum`**: Python's `int(str)`, `str(int)` and `int(float)`.
- **`StrOrder`**: Python's string order and `sorted(set)`.
- **`Sorting`**: Python's stable `sorted` with a key, proved sorted, a
  permutation and stable.
- **`Dict`**: insertion-ordered dicts.
- **`Ids`**: numbering rows and folding over sheet rows.

The handler and the migrator are classes whose methods update their fields.

- Each state-changing method is proved equal to a specification function of
  the old state, for example `MigrateTeams` against `TeamsStep`.
- The lemmas beside those functions state what the source promises:
  - ids are consecutive;
  - every key gets the id of its row;
  - aggregates agree with the score list;
  - a written score is the only cell that changes.

Python's `float(str)` is an abstract parameter `parse: string -> Option<real>`
(None where Python raises). The migrator's `str()` of a champion cell is a
parameter `show`.

## Model

| member | source | states |
|---|---|---|
| Cells.Sheet.Write | sheets_handler.py:208 | `sheet.cell(row, column, value=v)` sets exactly that cell and leaves every other cell as it was; the sheet's max row/column grow to include it |
| Cells.HasTextIff | migrate_to_database.py:107 | the test "truthy string whose strip() is non-empty" holds exactly for a non-empty text cell that is not all whitespace |
| Cells.SafeFloatDefault | bot_logic.py:15-26 | `_safe_float` returns its default exactly when the value is neither a number nor a string float() accepts; otherwise the default plays no part |
| Cells.SafeIntTruncatesSafeFloat | migrate_to_database.py:42-53 | `_safe_int` falls back to its default exactly where `_safe_float` does, and elsewhere is the truncation toward zero of `_safe_float`'s value |
| Cells.SafeIntOfNumber | bot_logic.py:32-33 | `_safe_int` of a number moves it toward zero by less than one (int() truncation) |
| Cells.SeasonSheets | sheets_handler.py:56-58 | `get_seasons` keeps exactly the sheet names that start with "Season" |
| Cells.SeasonSheetsAppend | sheets_handler.py:58 | the season sheets of a + b are those of a followed by those of b, so workbook order is kept |
| Cells.SeasonSheetsOne | sheets_handler.py:58 | one sheet is listed once exactly when its name starts with "Season", and not at all otherwise |
| SheetsHandler.SeasonGeTotalPreorder | sheets_handler.py:66 | the season sort key (trailing integer, 0 when not all digits) gives a total preorder, so the sort is well defined |
| SheetsHandler.CurrentSeasonIsFirstHighest | sheets_handler.py:60-67 | `_get_current_season` is None iff there is no season sheet; otherwise it is the first sheet, in workbook order, whose trailing number is maximal |
| SheetsHandler.SeasonSheet | sheets_handler.py:91-97 | a sheet is found exactly when the given season, or the current one when none is given, names a sheet of the workbook |
| SheetsHandler.FirstNamedRow | sheets_handler.py:79-87 | the row scan returns the first row in range whose text cell fuzzy-matches the name, and None only when no row in range matches |
| SheetsHandler.FirstFreeColumn | sheets_handler.py:205-210 | the first column in range whose cell is None or "" in the player's row; None when every cell in range is filled |
| SheetsHandler.OrZero | sheets_handler.py:114-121 | a missing standings figure becomes 0 and a present one is kept |
| SheetsHandler.TeamEntriesRows | sheets_handler.py:102-124 | the all-teams dict holds a team's data exactly when some non-header column-B label of rows 2–16 names it with that data |
| SheetsHandler.CurrentTeamIsNearestLabel | sheets_handler.py:152-155 | the team carried to a player row is the nearest non-header column-B label at or above it (from row 13), or None when there is none |
| SheetsHandler.CellScore | sheets_handler.py:163-168 | a week cell contributes a score exactly when it is a number or a string float() accepts; a number contributes itself |
| SheetsHandler.PlayerEntriesRows | sheets_handler.py:148-177 | the all-players dict holds a player's data exactly when some non-header column-C text from row 13 on names it with that data |
| SheetsHandler.RowScoresHasCell | sheets_handler.py:161-168 | every numeric cell of columns 4–19 of the player's row is in the score list, zeros included |
| SheetsHandler.RowScoresCount | sheets_handler.py:161-168 | the score list has one entry per convertible cell of columns 4 to min(20, max_column+1) |
| SheetsHandler.AverageBetween | sheets_handler.py:173 | a non-empty average sum/len lies between the lowest and the highest score |
| SheetsHandler.AddScoreOutcome | sheets_handler.py:186-218 | `add_score` returns False exactly when the season is missing, no player row matches, or no free week column exists; it raises exactly when a week makes 3+week < 1; on anything but True the workbook is unchanged |
| SheetsHandler.AddScoreWrites | sheets_handler.py:197-216 | a successful `add_score` writes the score into column 3+week, or into the first free column from 4 when no week is given, of the first matching player row, in the resolved season sheet |
| SheetsHandler.AddScoreWritesOneCell | sheets_handler.py:203-216 | a successful `add_score` changes exactly one cell of one sheet: the sheet names stay, the target cell holds the score, every other cell and every other sheet is unchanged |
| SheetsHandler.AddScoreReadBack | sheets_handler.py:161-168 | after a successful `add_score` into columns 4–19, `get_player_scores` reads the new score back from that player's row |
| SheetsHandler.ExcelHandler.constructor | sheets_handler.py:47-50 | the handler holds the given workbook |
| SheetsHandler.ExcelHandler.FindRow | sheets_handler.py:79-87 | the scan loop returns the first fuzzy-matching row in range (`FirstNamedRow`) |
| SheetsHandler.ExcelHandler.FindTeamRow | sheets_handler.py:69-77 | `_find_team_row` scans column B from `start_row` up to 20 rows and returns the first match |
| SheetsHandler.ExcelHandler.FindPlayerRow | sheets_handler.py:79-87 | `_find_player_row` scans column C from row 13 to max_row and returns the first match |
| SheetsHandler.ExcelHandler.GetTeamScores | sheets_handler.py:89-131 | a missing season gives the "not found" error. Otherwise, with a name: the first fuzzy-matching team with its data, or the "team not found" error. Without a name: the dict of every team row |
| SheetsHandler.ExcelHandler.ScanStandings | sheets_handler.py:101-131 | the standings loop gives the answer `StandingsAnswer` specifies: first match, error, or the full dict |
| SheetsHandler.ExcelHandler.ReadScores | sheets_handler.py:161-168 | the week-column loop collects exactly `RowScores` |
| SheetsHandler.ExcelHandler.GetPlayerScores | sheets_handler.py:133-184 | a missing season gives the "not found" error. Otherwise, with a name: the first fuzzy-matching player with team, scores and average, or the "player not found" error. Without a name: the dict of every player row |
| SheetsHandler.ExcelHandler.ScanPlayers | sheets_handler.py:148-184 | the player loop, carrying the current team down, gives the answer `PlayersAnswer` specifies |
| SheetsHandler.ExcelHandler.FindFreeColumn | sheets_handler.py:205-207 | the column loop returns the first free week column (`FirstFreeColumn`) |
| SheetsHandler.ExcelHandler.WriteIntoSheet | sheets_handler.py:197-218 | the per-sheet part of `add_score`: outcome and new sheet as `SheetWrite` gives them |
| SheetsHandler.ExcelHandler.AddScore | sheets_handler.py:186-218 | the handler's workbook becomes the one `AddScoreEffect` gives, with the same outcome; the lemmas above say what that is |
| CommandParser.ExtractSeason | command_parser.py:59-89 | the pattern loop with `break` computes the cleaned message and the season of `SeasonExtraction` |
| CommandParser.SeasonExtractionOrder | command_parser.py:78-87 | `season N` is tried before `sN`; the first that matches decides; when neither matches, the text is unchanged and the season is None |
| CommandParser.NoSeasonToken | command_parser.py:78-89 | no season is found exactly when neither pattern matches at any position, and then the message is left as it is |
| CommandParser.SeasonToken | command_parser.py:70-87 | a found season is "Season " + the digits of the leftmost match of the first pattern that matches (long form before short form); the cleaned text is shorter and single-spaced |
| CommandParser.ExtractWithFound | command_parser.py:80-86 | one pattern's extraction: leftmost match, word-bounded digits, all occurrences removed, then strip and whitespace collapse |
| CommandParser.HelpCommand | command_parser.py:101-110 | a message is HELP, with no params, exactly when its cleaned form is "help", "?" or "commands" |
| CommandParser.ListSeasonsCommand | command_parser.py:113-117 | LIST_SEASONS exactly for "seasons", "list seasons", "show seasons"; params carry only the extracted season |
| CommandParser.TeamFromPatterns | command_parser.py:120-131 | the team patterns return exactly when the text starts with "team" or "standing", and then always TEAM_SCORES with the team name of `team\s+(.+)` unless it is "score(s)" |
| CommandParser.TeamCommand | command_parser.py:119-131 | after the keywords, a message is TEAM_SCORES exactly when its cleaned text starts with "team" or "standing" |
| CommandParser.PlayerFromResult | command_parser.py:134-147 | a player pattern returns PLAYER_SCORES with the season only; a player name is the stripped capture of a matching pattern and never "my", "score" or "scores" |
| CommandParser.PlayerFromSome | command_parser.py:134-147 | the player patterns return exactly when one of them matches and returns |
| CommandParser.PlayerCommand | command_parser.py:134-147 | PLAYER_SCORES only after the keywords and team patterns fail; name captured by a player pattern and not "my"/"score"/"scores" |
| CommandParser.ScoreAndName | command_parser.py:154-164 | the first group is tried as the int score (the other group, stripped, as the name), then the second; None when neither group parses |
| CommandParser.AddFromResult | command_parser.py:150-173 | ADD_SCORE comes from a matching add pattern, with a score in [0, 300] and the name `ScoreAndName` gives |
| CommandParser.AddFromSome | command_parser.py:150-173 | the add patterns return exactly when one of them matches with a parsable group and a score in range |
| CommandParser.AddScoreCommand | command_parser.py:150-173 | ADD_SCORE only when the keywords, team and player patterns all fail and an add pattern returns, with score in [0, 300] |
| CommandParser.UnknownCommand | command_parser.py:176 | UNKNOWN, with no params, exactly when nothing before it returns |
| CommandParser.KeywordAddShadowed | command_parser.py:44-57 | whenever one of the keyword add-score patterns matches, a player pattern has already returned: the message is PLAYER_SCORES |
| CommandParser.AddScoreMessageShadowed | command_parser.py:134-147 | "add score D NAME" is classified PLAYER_SCORES |
| CommandParser.AddScoreMessageReturns | command_parser.py:53 | the `add score` pattern on "add score D NAME" (D ≤ 300) returns ADD_SCORE with score D and name NAME |
| CommandParser.AddScoreIntended | command_parser.py:150-173 | corrected order (add patterns before player patterns): a message a keyword add pattern accepts is ADD_SCORE |
| CommandParser.AddScoreMessageIntended | command_parser.py:53 | corrected order: "add score D NAME" is ADD_SCORE with score D and name NAME |
| CommandParser.AddScoreMessageClassified | command_parser.py:53-56 | the same message is PLAYER_SCORES as written and ADD_SCORE under the corrected order |
| Patterns.KeywordRest | command_parser.py:36 | `re.match(kw + r'\s+(.+)')`: matches exactly when the text starts with the keyword and whitespace, then a non-empty rest on the line; the capture is that rest |
| Patterns.PrefixBefore | command_parser.py:45 | `re.match(r'(.+)\s+' + lit)`: matches exactly when some split exists; the capture is the longest such prefix (greedy) |
| Patterns.NumberThenRest | command_parser.py:53 | `(\d+)\s+(.+)`: the digits are the whole digit run and the rest is the line after the whitespace |
| Patterns.RestThenNumber | command_parser.py:56 | `(.+)\s+(\d+)`: matches exactly when some split exists; greedy on the first group |
| Patterns.Search | command_parser.py:79 | `re.search`: the leftmost position where the season pattern matches, None when it matches nowhere |
| Patterns.SeasonMatchAt | command_parser.py:71-72 | `\bseason\s+(\d+)\b` / `\bs(\d+)\b` at one position: the digit group, which is unique there |
| Patterns.RemoveShortens | command_parser.py:84 | `re.sub` of a pattern that matches deletes at least one character |
| Patterns.CollapseStripped | command_parser.py:84-86 | strip then `re.sub(r'\s+', ' ')` leaves single spaces between words only |
| Text.Lower | command_parser.py:101-102 | `lower()` maps each character, leaving no upper-case ASCII letter |
| Text.LowerIdempotent | command_parser.py:102-106 | lowering twice is lowering once, so lowering the cleaned message again changes nothing |
| Text.StripSlice | command_parser.py:101 | `strip()` returns a slice of the text without outer whitespace |
| Text.StripEmpty | sheets_handler.py:104 | `s.strip()` is empty exactly when `s` is all whitespace |
| Text.ContainsIff | sheets_handler.py:75 | Python's `a in b` holds exactly when `a` occurs in `b` at some index |
| Text.FuzzyIff | sheets_handler.py:75 | the name match holds exactly when one lower-cased name occurs in the other |
| PyNum.ParseIntOfDigits | command_parser.py:156 | `int()` of a digit string is its decimal value |
| PyNum.ParseIntOfIntToString | bot_logic.py:590 | `int(str(i)) == i` |
| PyNum.Trunc | migrate_to_database.py:46-47 | `int(x)` truncates toward zero |
| StrOrder.StrLeTotalPreorder | migrate_to_database.py:113 | Python's string order is a total preorder |
| StrOrder.SortNames | migrate_to_database.py:113 | `sorted(set)` gives the set's names ascending, each once |
| StrOrder.AscendingUnique | migrate_to_database.py:113 | an ascending list is determined by its elements, so `sorted(set)` is well defined |
| Sorting.SortByCorrect | bot_logic.py:206-210 | `sorted` with a key gives a list sorted by the key, a permutation of the input, with ties in input order |
| Dict.GetPut | sheets_handler.py:124 | `d[k] = v` then `d[k']` gives `v` for `k` and the old value elsewhere |
| Dict.FromListGet | sheets_handler.py:124 | a dict filled in order maps each key to its last value |
| Ids.AssignIdsGet | migrate_to_database.py:113-115 | numbering names from `first` maps each listed name to `first` + its (last) position and keeps other keys |
| Ids.PutIdsGet | migrate_to_database.py:165-167 | the same for the (season id, team) dict |
| Ids.GatherHas | migrate_to_database.py:139-176 | a season-by-season collection holds exactly what some season contributes |
| Ids.NearestIsNearest | migrate_to_database.py:268-273 | the carried team label is the nearest label at or above the row, or None when there is none |
| MigrationRead.NameIn | migrate_to_database.py:107-109 | a cell names an entity exactly when it is non-blank text whose stripped, lower-cased form is not a header; the name is the stripped text |
| MigrationRead.SeasonLeTotalPreorder | migrate_to_database.py:64-65 | the season sort key gives a total preorder |
| MigrationRead.OrderedSeasonsSorted | migrate_to_database.py:63-65 | the season sheets sorted ascending by number: a stable permutation of the season sheets |
| MigrationRead.OrderedSeasonsHighest | migrate_to_database.py:73 | sorting keeps the highest season number and the count |
| MigrationRead.SeasonIntOfDigits | migrate_to_database.py:68 | `int(name.split()[-1])` of a numbered season is its number |
| MigrationRead.PlayersOfIff | migrate_to_database.py:97-110 | the player set holds a name exactly when some season sheet's player block names it |
| MigrationRead.SheetPlayersIff | migrate_to_database.py:104-110 | one sheet contributes exactly the non-header column-C names from row 13 on |
| MigrationRead.CurrentLabelIsTeam | migrate_to_database.py:157-162 | the carried team label is always one of the sheet's teams |
| MigrationRead.ScoreAt | migrate_to_database.py:289-291 | only coerced values > 0 become scores |
| MigrationRead.ScoreListHas | migrate_to_database.py:287-294 | (w, v) is in the score list exactly when column w+3 is in 4–19 and holds the score v > 0 |
| MigrationRead.ScoreListOrdered | migrate_to_database.py:287-294 | the score list is in column order, with weeks from 1 and positive values |
| Migration.Highest | migrate_to_database.py:316 | `max(..., default=0)`: an upper bound that is one of the scores, 0 when none |
| Migration.Lowest | migrate_to_database.py:317 | `min(..., default=0)`: a lower bound that is one of the scores, 0 when none |
| Migration.WeekDataPrefix | migrate_to_database.py:320-323 | each score of week 1–7 sets its week column to int(score), others leave it |
| Migration.ExcelMigrator.constructor | migrate_to_database.py:15-27 | empty maps and tables, every counter at 1 |
| Migration.ExcelMigrator.MigrateSeasons | migrate_to_database.py:55-86 | the new state is `SeasonsStep` of the old one |
| Migration.ExcelMigrator.MigratePlayers | migrate_to_database.py:88-126 | the new state is `PlayersStep` of the old one |
| Migration.ExcelMigrator.MigrateTeams | migrate_to_database.py:128-178 | the new state is `TeamsStep` of the old one |
| Migration.ExcelMigrator.MigrateTeamPlayers | migrate_to_database.py:180-232 | the new state is `TeamPlayersStep` of the old one |
| Migration.ExcelMigrator.MigrateGamesAndAggregates | migrate_to_database.py:234-345 | the new state is `GamesStep` of the old one |
| Migration.ExcelMigrator.MigrateTeamStandings | migrate_to_database.py:347-398 | the new state is `StandingsStep` of the old one |
| Migration.ExcelMigrator.MigrateChampions | migrate_to_database.py:400-443 | the new state is `ChampionsStep` of the old one |
| Migration.ExcelMigrator.MigrateAll | migrate_to_database.py:445-459 | the seven steps in order, from the old state |
| MigrationProps.SeasonRows | migrate_to_database.py:64-86 | season rows follow ascending season number with consecutive ids from the counter; `is_active` is true exactly for the highest number; the counter advances by the number of seasons |
| MigrationProps.SeasonsMapped | migrate_to_database.py:70 | after the step, every season sheet is in the season map |
| MigrationProps.PlayerRows | migrate_to_database.py:97-124 | player rows are the distinct names in ascending order with consecutive ids, and the map sends each name to its row's id |
| MigrationProps.TeamIds | migrate_to_database.py:165-176 | team ids are consecutive from the counter, which advances by the number of rows |
| MigrationProps.TeamRegistered | migrate_to_database.py:146-168 | every team of a mapped season sheet gets a row, and the map sends (season id, team) to that row's id |
| MigrationProps.TeamRowFrom | migrate_to_database.py:137-176 | conversely, every teams row is (season id, team) for a team of a mapped season sheet |
| MigrationProps.TeamRowsOfSheet | migrate_to_database.py:165-176 | one sheet's rows follow those of the sheets before it: its teams once each, in ascending name order (`sorted(teams_found)`), with consecutive ids |
| MigrationProps.RowIdsNearest | migrate_to_database.py:204-217 | a linked row's player id is the player's and its team id is the nearest team label's id (never 0) |
| MigrationProps.LinkIff | migrate_to_database.py:209-230 | a link row exists exactly when some player row has a known player and a current team id |
| MigrationProps.WeekDataAt | migrate_to_database.py:320-323 | week columns 1–7 hold int(score) of that week's score, and are empty for weeks without one |
| MigrationProps.AggregateTotals | migrate_to_database.py:313-314 | total_games is the number of scores, total_pins the truncated sum |
| MigrationProps.AggregateAverage | migrate_to_database.py:313-334 | average, high and low are present exactly when there are scores; average is sum/count, between low and high |
| MigrationProps.AggregateFields | migrate_to_database.py:313-334 | average, high and low are blank unless > 0; otherwise pins/games, int(max), int(min) |
| MigrationProps.AggregateWeeks | migrate_to_database.py:320-323 | an aggregate's week columns come from the row's scores |
| MigrationProps.GameIff | migrate_to_database.py:296-310 | a game row exists exactly for a score of a linked player row in a detailed season |
| MigrationProps.AggregateIff | migrate_to_database.py:311-340 | an aggregate row exists exactly for a linked player row of an older season, or one without scores |
| MigrationProps.ChampionTeamFirst | migrate_to_database.py:426-430 | a champion's team is the first (season, team) entry whose lower-cased name contains the champion text; None when no entry does |
| MigrationProps.StandingIff | migrate_to_database.py:366-394 | a standings row exists exactly for a standings-block row whose team label has a truthy id for the season, with that id, the season, the `safe_int` figures of columns C–G and the averages of columns H and I where positive |
| MigrationProps.ChampionIdsFollowStandings | migrate_to_database.py:382-439 | standings ids are consecutive from the counter, and champion ids continue after them on the same counter |
| BotLogic.RecordText | bot_logic.py:218-220 | the record is "W-L", with "-T" appended exactly when T > 0 |
| BotLogic.RecordRoundTrip | bot_logic.py:664-666 | for non-negative wins and losses, splitting the record at '-' and reading the fields gives back W, L and T (0 when T ≤ 0) |
| BotLogic.ListedBeforeTotalPreorder | bot_logic.py:588-594 | the season listing key gives a total preorder |
| BotLogic.ListedNumberOfDigits | bot_logic.py:588-592 | the listing key of a numbered season sheet is its number |
| BotLogic.SeasonListingOrdered | bot_logic.py:594 | seasons are listed by number, highest first, as a stable permutation of the season sheets |
| BotLogic.StandingsOrderTotalPreorder | bot_logic.py:206-210 | the standings key gives a total preorder |
| BotLogic.StandingsRanked | bot_logic.py:206-210 | standings are ordered by wins descending, then losses ascending, as a stable permutation |
| BotLogic.StandingsLines | bot_logic.py:195-223 | no data gives nothing found; otherwise line i shows rank i+1 with the i-th team of the ordered standings and its record |
| BotLogic.Enumerate | bot_logic.py:212 | `enumerate(xs, 1)`: one line per element, numbered from 1 |
| BotLogic.AverageFirstTotalPreorder | bot_logic.py:557-561 | the players key gives a total preorder |
| BotLogic.PlayerLines | bot_logic.py:545-573 | no data gives nothing found; otherwise the first min(n, 20) players by average with ranks from 1, and "N more" exactly when n > 20 with N = n − 20 |
| BotLogic.PlayerListingTop | bot_logic.py:557-563 | every shown player has an average at least that of every hidden one, and shown plus hidden are all the players |
| BotLogic.TeamRecord | bot_logic.py:230-283 | no team name gives its own reply; an error answer gives its message with the season argument when that is non-empty; the heading's team and season come from the answer when it has them; an empty summary gives "no weekly data" for that team; otherwise the total record and one line per week, weeks strictly ascending (one week per dict key), with opponent, record, pins for and against and average, missing figures read as 0 |
| BotLogic.TeamRecordAsWritten | bot_logic.py:230-286 | as written, a named team always gets the `except` reply, because the sheet handler defines no `get_team_weekly_summary` |
| BotLogic.QueriesAsWrittenRaise | bot_logic.py:115 | each of the three query calls, as the handlers write them (here and at lines 236 and 474), raises; with two arguments, `get_team_scores` and `get_player_scores` run |
| BotLogic.TotalsOfListedWeeks | bot_logic.py:252-254 | summing a figure over the listed weeks gives the total over the summary |
| BotLogic.ListedWeeksAscending | bot_logic.py:266 | weeks are listed strictly ascending, each week of the summary once |
| BotLogic.AddScoreChecks | bot_logic.py:678-685 | checked in order: a missing player name, then a missing score, then a score outside [0, 300]; no rejection exactly when all three pass |
| BotLogic.Bot.constructor | bot_logic.py:12-13 | the bot holds the given handler |
| BotLogic.Bot.HandleAddScore | bot_logic.py:675-697 | a rejected call leaves the workbook unchanged; an accepted one calls `add_score` and replies with its outcome (success, failure or error) |
| BotLogic.Bot.TeamStandings | bot_logic.py:112-228 | a call the method cannot take gives the error reply; otherwise an answer with an "error" key gives the error reply, and any other answer gives the standings of every team of the season's sheet |
| BotLogic.Bot.HandleTeamScores | bot_logic.py:112-115 | as written, the all-teams query always ends in the error reply, because `get_team_scores` takes two arguments and is passed three |
| BotLogic.Bot.PlayerListing | bot_logic.py:471-578 | a call the method cannot take gives the error reply; otherwise an answer with an "error" key gives the error reply, and any other answer gives the top-20 listing of every player of the season's sheet |
| BotLogic.Bot.HandlePlayerScores | bot_logic.py:471-474 | as written, the all-players query always ends in the error reply, because `get_player_scores` takes two arguments and is passed three |
| BotLogic.Bot.HandleListSeasons | bot_logic.py:580-602 | no season sheet gives "no seasons"; otherwise one numbered line per season in listing order |

## Left out

- The Flask webhook, the WhatsApp Graph API call and `main()` (main.py, and `main()` in the migration script): network and console I/O.
- Template workbook creation (create_database_excel.py): styling and timestamps only.
- `GoogleSheetsHandler` and `get_sheet_handler`: calls into the Google API. `ExcelHandler` carries the same rules.
- Loading and saving workbooks, `delete_rows` clearing example rows, and `print`. Each migrated table starts empty, and the file is not written.
- `handle_command` dispatch: it names command types the parser does not define.
- `_handle_stats` and the best-week, best-game and averages handlers: they call sheet-handler methods no file defines, so as written they always end in their error reply.
- The single-team and single-player branches of `_handle_team_scores` and `_handle_player_scores`: as written, these handlers pass three arguments to two-argument methods, so every branch after the call is unreachable (see Findings).
  - The all-teams and all-players branches are modelled as they were evidently meant to run: `Bot.TeamStandings` and `Bot.PlayerListing` with two arguments.
  - `BotLogic.TeamRecord` takes the weekly summary as a parameter, in the shape the handler reads, because no sheet handler defines `get_team_weekly_summary`.
- BotLogic.TeamRecord: a team or a season of None inside the answer is treated like an answer without one; the source would show "None" for such a team and no season for such a season.
- The listing handlers' replies carry no message text, so an error reply does not repeat the season or week argument.
- `_handle_list_players` and `_handle_list_teams`: message decoration only. Their record text is `BotLogic.Record`.
- Emoji, Markdown and help text (`get_help_message`).
- `round(x, 2)` and `:.1f` formatting. Numbers are exact reals.
- Python's `float(str)` and `str(float)` are parameters, not modelled decimal syntax.
- `float('inf')` and `float('nan')`: `parse` returns only real numbers. In the source, `int()` of these raises OverflowError or ValueError. `_safe_int` in migrate_to_database.py:42-53 does not catch OverflowError.
- openpyxl's `ws.cell(row, col)` creates the cell it reads and can grow `max_row` and `max_column`. In the model a read leaves the sheet unchanged, so `add_score`'s free-column search (sheets_handler.py:205) always uses the dimensions the sheet had before the reads.
- Case mapping, `\w` and `\d` are ASCII only. Unicode letters and digits are not modelled.
- Cell values other than empty, number and string: dates and booleans.
- Exceptions other than the ones named here. The bot's `except Exception` replies are modelled only for `add_score`'s ValueError on a non-positive column (`AddOutcome.Raised`).
- Migration.ExcelMigrator.MigrateSeasons: stated for every workbook. Where a season sheet name does not end in an integer, the source raises ValueError part-way (migrate_to_database.py:68, 73). The model states that case only through `MigrateAll`'s precondition `SeasonsNumbered`.
- Migration.ExcelMigrator.MigrateGamesAndAggregates: requires every mapped season sheet name to end in an integer, because line 254 of migrate_to_database.py raises otherwise.
- Migration.ExcelMigrator.MigrateAll: requires every season sheet name to end in an integer, for the same reason (lines 68 and 254).

## Findings

| source | as written | input that shows it | evidently intended | confidence | as-written member | corrected member |
|---|---|---|---|---|---|---|
| command_parser.py:134-173 | the player patterns are tried before the add-score patterns, and `(.+)\s+score` or `score\s+(.+)` match every message that `add\s+score\s+(\d+)\s+(.+)`, `enter\s+score…` or `score\s+(\d+)\s+(.+)` matches | "add score 150 john" gives PLAYER_SCORES with player name "add" | "add score 150 john" gives ADD_SCORE with score 150 and player "john", as the pattern comments at lines 53-55 say | high; not executed | CommandParser.KeywordAddShadowed, CommandParser.AddScoreMessageShadowed, CommandParser.AddScoreMessageClassified | CommandParser.AddScoreIntended, CommandParser.AddScoreMessageIntended |
| bot_logic.py:115 | `get_team_scores(team_name, season, week)` here and `get_player_scores(player_name, season, week)` at line 474 pass three arguments to methods that take two (sheets_handler.py lines 89 and 133), so Python raises TypeError and the `except` clause answers | `_handle_team_scores(None, None)` or `_handle_player_scores(None, None)`, on any workbook | the two-argument calls `get_team_scores(team_name, season)` and `get_player_scores(player_name, season)`, whose standings and players listings the handlers go on to format | high; not executed | BotLogic.QueriesAsWrittenRaise, BotLogic.Bot.HandleTeamScores, BotLogic.Bot.HandlePlayerScores | BotLogic.Bot.TeamStandings, BotLogic.Bot.PlayerListing |
