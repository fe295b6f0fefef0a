/**
  What the migration promises about the tables it writes: consecutive ids from
  every counter, one row per season sheet in season order with the highest
  season active, the players once each in sorted order with their ids in
  `players_map`, every registered team reachable in `teams_map`, memberships,
  games and aggregates only for player rows under a known team, aggregates
  that agree with their scores, and champions matched to the first team whose
  name contains theirs.
 */
module MigrationProps {
  import opened Wrappers
  import opened Text
  import opened PyNum
  import opened Dict
  import opened Sorting
  import opened StrOrder
  import opened Cells
  import opened Ids
  import opened MigrationRead
  import opened Migration
  import SheetsHandler

  // ---------------------------------------------------------------------------
  // migrate_seasons

  /**
    The seasons table holds one row per season sheet, in the order of
    `OrderedSeasons`, with consecutive ids from the counter; each row holds
    `int()` of the sheet's last field and is active exactly when that is the
    highest digit-string number.
   */
  lemma SeasonRows(book: Workbook, s: MigState)
    requires SeasonsNumbered(Keys(book))
    ensures var t := SeasonsStep(book, s);
            var ss := OrderedSeasons(Keys(book));
            && |t.newWb.seasons| == |SeasonSheets(Keys(book))|
            && t.nextSeasonId == s.nextSeasonId + |SeasonSheets(Keys(book))|
            && forall i :: 0 <= i < |ss| ==>
                 SeasonInt(ss[i]).Some?
                 && t.newWb.seasons[i] == Row(s.nextSeasonId + i,
                      Season(SeasonInt(ss[i]).value, ss[i],
                             SeasonInt(ss[i]).value == HighestNumber(SeasonSheets(Keys(book))).GetOr(0)))
  {
    var t := SeasonsStep(book, s);
    var ss := OrderedSeasons(Keys(book));
    var top := HighestNumber(SeasonSheets(Keys(book))).GetOr(0);
    var rows := Numbered(Apply(ss, SeasonEntry(top)), s.nextSeasonId);
    SeasonsStepRows(book, s);
    assert |rows| == |ss|;
    forall i | 0 <= i < |ss|
      ensures SeasonInt(ss[i]).Some? && t.newWb.seasons[i] == Row(s.nextSeasonId + i, Season(SeasonInt(ss[i]).value, ss[i], SeasonInt(ss[i]).value == top))
    {
      OrderedSeasonNumbered(book, i);
      SeasonRowAt(ss, top, s.nextSeasonId, i);
    }
  }

  /** The season rows and the next id after `migrate_seasons`, with the highest number taken over the unsorted sheets. */
  lemma SeasonsStepRows(book: Workbook, s: MigState)
    ensures var top := HighestNumber(SeasonSheets(Keys(book))).GetOr(0);
            && SeasonsStep(book, s).newWb.seasons == Numbered(Apply(OrderedSeasons(Keys(book)), SeasonEntry(top)), s.nextSeasonId)
            && SeasonsStep(book, s).nextSeasonId == s.nextSeasonId + |SeasonSheets(Keys(book))|
            && |OrderedSeasons(Keys(book))| == |SeasonSheets(Keys(book))|
  {
    OrderedSeasonsHighest(Keys(book));
  }

  /** Row `i` of the numbered season entries. */
  lemma SeasonRowAt(ss: seq<string>, top: int, first: int, i: int)
    requires 0 <= i < |ss| && SeasonInt(ss[i]).Some?
    ensures Numbered(Apply(ss, SeasonEntry(top)), first)[i] == Row(first + i, Season(SeasonInt(ss[i]).value, ss[i], SeasonInt(ss[i]).value == top))
  {
    NumberedAt(Apply(ss, SeasonEntry(top)), first);
    ApplyAt(ss, SeasonEntry(top));
    SeasonEntryAt(ss[i], top);
  }

  lemma SeasonEntryAt(name: string, top: int)
    requires SeasonInt(name).Some?
    ensures SeasonEntry(top)(name) == Season(SeasonInt(name).value, name, SeasonInt(name).value == top)
  {
  }

  lemma OrderedSeasonNumbered(book: Workbook, i: int)
    requires SeasonsNumbered(Keys(book)) && 0 <= i < |OrderedSeasons(Keys(book))|
    ensures SeasonInt(OrderedSeasons(Keys(book))[i]).Some?
  {
    var ss := SeasonSheets(Keys(book));
    var x := OrderedSeasons(Keys(book))[i];
    SortByPermutation(ss, SeasonLe);
    assert x in multiset(OrderedSeasons(Keys(book)));
    var j :| 0 <= j < |ss| && ss[j] == x;
    AllIff(ss, SeasonNumbered);
    assert SeasonNumbered(ss[j]);
  }

  /** Every season sheet is in `seasons_map`, and only season sheets are. */
  lemma SeasonsMapped(book: Workbook, s: MigState, name: string)
    ensures name in SeasonsStep(book, s).seasonsMap <==> name in s.seasonsMap || name in SeasonSheets(Keys(book))
  {
    OrderedSeasonsSorted(Keys(book));
    AssignIdsGet(s.seasonsMap, OrderedSeasons(Keys(book)), s.nextSeasonId, name);
  }

  // ---------------------------------------------------------------------------
  // migrate_players

  /**
    The players table lists every player name of the season sheets exactly
    once, in ascending order, with consecutive ids, and `players_map` gives
    each name the id of its row.
   */
  lemma PlayerRows(book: Workbook, s: MigState)
    ensures var t := PlayersStep(book, s);
            var names := PlayerNames(book);
            && Ascending(names)
            && Elems(names) == PlayersOf(book, SeasonSheets(Keys(book)))
            && t.nextPlayerId == s.nextPlayerId + |names|
            && forall i :: 0 <= i < |names| ==>
                 t.newWb.players[i] == Row(s.nextPlayerId + i, names[i])
                 && names[i] in t.playersMap && t.playersMap[names[i]] == s.nextPlayerId + i
  {
    var names := PlayerNames(book);
    NumberedAt(names, s.nextPlayerId);
    AssignIdsDistinct(s.playersMap, names, s.nextPlayerId);
  }

  // ---------------------------------------------------------------------------
  // migrate_teams

  /** The teams table's ids are consecutive from the counter, which ends one past the last. */
  lemma TeamIds(book: Workbook, s: MigState)
    ensures var t := TeamsStep(book, s);
            && t.nextTeamId == s.nextTeamId + |t.newWb.teams|
            && forall i :: 0 <= i < |t.newWb.teams| ==> t.newWb.teams[i].id == s.nextTeamId + i
  {
    NumberedAt(Gather(SeasonSheets(Keys(book)), SeasonTeams(book, s.seasonsMap)), s.nextTeamId);
  }

  /**
    A team of a registered season sheet (a standings team or a player-block
    label) gets a teams row under the sheet's season id, and `teams_map` maps
    that key to the row's id.
   */
  lemma TeamRegistered(book: Workbook, s: MigState, name: string, team: string)
    requires name in SeasonSheets(Keys(book)) && name in s.seasonsMap
    requires team in SheetTeams(SheetOf(book, name))
    ensures var t := TeamsStep(book, s);
            exists i :: 0 <= i < |t.newWb.teams| && t.newWb.teams[i].fields == (s.seasonsMap[name], team)
                        && Get(t.teamsMap, (s.seasonsMap[name], team)) == Some(t.newWb.teams[i].id)
  {
    var ss := SeasonSheets(Keys(book));
    var f := SeasonTeams(book, s.seasonsMap);
    var key := (s.seasonsMap[name], team);
    var ts := Gather(ss, f);
    assert key in ts by {
      TeamKeyListed(book, s.seasonsMap, name, team);
      GatherHas(ss, f, key);
    }
    var i := KeyRow(s.teamsMap, ts, s.nextTeamId, key);
    var t := TeamsStep(book, s);
    assert t.newWb.teams == Numbered(ts, s.nextTeamId) && t.teamsMap == PutIds(s.teamsMap, ts, s.nextTeamId);
  }

  /**
    Conversely, every teams row is a team of a registered season sheet under
    that sheet's season id.
   */
  lemma TeamRowFrom(book: Workbook, s: MigState, i: int)
    requires 0 <= i < |TeamsStep(book, s).newWb.teams|
    ensures var row := TeamsStep(book, s).newWb.teams[i];
            exists name :: name in SeasonSheets(Keys(book)) && name in s.seasonsMap
                           && row.fields.0 == s.seasonsMap[name] && row.fields.1 in SheetTeams(SheetOf(book, name))
  {
    var ss := SeasonSheets(Keys(book));
    var f := SeasonTeams(book, s.seasonsMap);
    var ts := Gather(ss, f);
    assert TeamsStep(book, s).newWb.teams[i].fields == ts[i] by {
      NumberedAt(ts, s.nextTeamId);
    }
    var j := GatheredFrom(ss, f, i);
    TeamKeyFrom(book, s.seasonsMap, ss[j], ts[i]);
  }

  /** A key `migrate_teams` registers for a sheet is a team of that sheet under its season id. */
  lemma TeamKeyFrom(book: Workbook, smap: map<string, int>, name: string, key: TeamKey)
    requires key in SeasonTeams(book, smap)(name)
    ensures name in smap && key.0 == smap[name] && key.1 in SheetTeams(SheetOf(book, name))
  {
    var keys := SeasonTeams(book, smap)(name);
    assert name in smap;
    var sorted := SortedSet(SheetTeams(SheetOf(book, name)));
    var k :| 0 <= k < |keys| && keys[k] == key;
    assert key == (smap[name], sorted[k]) by {
      SheetTeamKeys(book, smap, name);
    }
    assert sorted[k] in Elems(sorted);
  }

  /**
    The rows of the `j`-th season sheet follow those of the sheets before it:
    one row per team of the sheet, in ascending name order, under the sheet's
    season id, with consecutive ids.
   */
  lemma TeamRowsOfSheet(book: Workbook, s: MigState, j: int)
    requires 0 <= j < |SeasonSheets(Keys(book))| && SeasonSheets(Keys(book))[j] in s.seasonsMap
    ensures var ss := SeasonSheets(Keys(book));
            var teams := TeamsStep(book, s).newWb.teams;
            var lo := |Gather(ss[..j], SeasonTeams(book, s.seasonsMap))|;
            var names := SortedSet(SheetTeams(SheetOf(book, ss[j])));
            && Ascending(names) && Elems(names) == SheetTeams(SheetOf(book, ss[j]))
            && RowsAt(teams, lo, s.nextTeamId, s.seasonsMap[ss[j]], names)
  {
    var ss := SeasonSheets(Keys(book));
    var f := SeasonTeams(book, s.seasonsMap);
    var teams := TeamsStep(book, s).newWb.teams;
    assert teams == Numbered(Gather(ss, f), s.nextTeamId);
    var names := SortedSet(SheetTeams(SheetOf(book, ss[j])));
    RunOfKeys(teams, ss, f, j, s.nextTeamId, names, s.seasonsMap[ss[j]]) by {
      SheetTeamKeys(book, s.seasonsMap, ss[j]);
    }
  }

  /** From position `lo` on, the rows hold `names` under `sid`, with ids continuing from `first + lo`. */
  predicate RowsAt(rows: seq<Row<TeamKey>>, lo: int, first: int, sid: int, names: seq<string>) {
    0 <= lo && lo + |names| <= |rows| && forall i :: 0 <= i < |names| ==> rows[lo + i] == Row(first + lo + i, (sid, names[i]))
  }

  /** The rows of the `j`-th item's keys, when those keys are `names` under `sid`. */
  lemma RunOfKeys<A>(rows: seq<Row<TeamKey>>, xs: seq<A>, f: A -> seq<TeamKey>, j: int, first: int, names: seq<string>, sid: int)
    requires 0 <= j < |xs| && rows == Numbered(Gather(xs, f), first)
    requires |f(xs[j])| == |names| && forall i :: 0 <= i < |names| ==> f(xs[j])[i] == (sid, names[i])
    ensures RowsAt(rows, |Gather(xs[..j], f)|, first, sid, names)
  {
    GatheredRun(xs, f, j, first);
  }

  /** The keys registered for one sheet: its team names in ascending order under its season id. */
  lemma SheetTeamKeys(book: Workbook, smap: map<string, int>, name: string)
    requires name in smap
    ensures var names := SortedSet(SheetTeams(SheetOf(book, name)));
            var keys := SeasonTeams(book, smap)(name);
            |keys| == |names| && forall i :: 0 <= i < |names| ==> keys[i] == (smap[name], names[i])
  {
    var names := SortedSet(SheetTeams(SheetOf(book, name)));
    ApplyAt(names, TeamOf(smap[name]));
  }

  /** A key registered by `PutIds` has a numbered row whose id it maps to. */
  lemma KeyRow<K>(d: seq<(K, int)>, ks: seq<K>, first: int, key: K) returns (i: int)
    requires key in ks
    ensures 0 <= i < |Numbered(ks, first)| && Numbered(ks, first)[i].fields == key
    ensures Get(PutIds(d, ks, first), key) == Some(Numbered(ks, first)[i].id)
  {
    PutIdsGet(d, ks, first, key);
    i :| 0 <= i < |ks| && ks[i] == key && Get(PutIds(d, ks, first), key) == Some(first + i);
    NumberedAt(ks, first);
  }

  /** A team of a registered sheet is among the keys `migrate_teams` registers for it. */
  lemma TeamKeyListed(book: Workbook, smap: map<string, int>, name: string, team: string)
    requires name in smap && team in SheetTeams(SheetOf(book, name))
    ensures (smap[name], team) in SeasonTeams(book, smap)(name)
  {
    var sorted := SortedSet(SheetTeams(SheetOf(book, name)));
    assert team in Elems(sorted);
    var j :| 0 <= j < |sorted| && sorted[j] == team;
    ApplyAt(sorted, TeamOf(smap[name]));
    assert Apply(sorted, TeamOf(smap[name]))[j] == (smap[name], team);
  }

  // ---------------------------------------------------------------------------
  // migrate_team_players

  /**
    The ids of a processed player row: the player's id in `players_map`, and
    the truthy id of the nearest team label at or above the row.
   */
  lemma RowIdsNearest(pm: map<string, int>, tm: seq<(TeamKey, int)>, sid: int, sh: Sheet, k: int, pid: int, tid: int)
    requires RowIds(pm, tm, sid, sh, k) == Some((pid, tid))
    ensures PlayerAt(sh)(k).Some? && PlayerAt(sh)(k).value in pm && pm[PlayerAt(sh)(k).value] == pid && tid != 0
    ensures exists j :: 13 <= j <= k && LabelAt(sh)(j).Some? && Get(tm, (sid, LabelAt(sh)(j).value)) == Some(tid)
                        && forall i :: j < i <= k ==> LabelAt(sh)(i).None?
  {
    NearestIsNearest(LabelAt(sh), 13, k);
  }

  /**
    A membership is linked exactly for a processed player row of the sheet,
    with that row's player and team ids and the sheet's season.
   */
  lemma LinkIff(pm: map<string, int>, tm: seq<(TeamKey, int)>, sid: int, sh: Sheet, m: Membership)
    ensures m in SheetLinks(pm, tm, sid, sh) <==>
              m.seasonId == sid && exists k :: 13 <= k <= sh.maxRow && RowIds(pm, tm, sid, sh, k) == Some((m.playerId, m.teamId))
  {
    var f := LinksAt(pm, tm, sid, sh);
    SpanHas(f, 13, sh.maxRow + 1, m);
    forall k ensures m in f(k) <==> m.seasonId == sid && RowIds(pm, tm, sid, sh, k) == Some((m.playerId, m.teamId)) {
    }
  }

  // ---------------------------------------------------------------------------
  // migrate_games_and_aggregates

  /**
    With weeks that do not repeat, week column `w` holds the truncated score of
    week `w`, and a week without a score stays empty.
   */
  lemma {:induction false} WeekDataAt(scores: seq<(int, real)>)
    requires forall i, j :: 0 <= i < j < |scores| ==> scores[i].0 < scores[j].0
    ensures forall i :: 0 <= i < |scores| && 1 <= scores[i].0 <= 7 ==> WeekData(scores)[scores[i].0 - 1] == Some(Trunc(scores[i].1))
    ensures forall c :: 0 <= c < 7 && (forall i :: 0 <= i < |scores| ==> scores[i].0 != c + 1) ==> WeekData(scores)[c] == None
  {
    if |scores| > 0 {
      var n := |scores| - 1;
      var init := scores[..n];
      assert forall i :: 0 <= i < n ==> init[i] == scores[i];
      WeekDataAt(init);
    }
  }

  /** The aggregate's games are the row's scores counted, its pins their sum truncated. */
  lemma AggregateTotals(pid: int, tid: int, sid: int, name: string, scores: seq<(int, real)>)
    ensures AggregateOf(pid, tid, sid, name, scores).totalGames == |scores|
    ensures AggregateOf(pid, tid, sid, name, scores).totalPins == Trunc(SheetsHandler.Sum(Apply(scores, ScoreValue)))
  {
  }

  /**
    For the scores of a player row, the average, high and low game are
    written exactly when there are scores; the average is the pins over the
    games and lies between the low and the high game, and the low game is at
    most the high game.
   */
  lemma AggregateAverage(parse: string -> Option<real>, sh: Sheet, row: int, pid: int, tid: int, sid: int, name: string)
    ensures var scores := RowScores(parse, sh, row);
            var vs := Apply(scores, ScoreValue);
            var a := AggregateOf(pid, tid, sid, name, scores);
            && (a.average.Some? <==> |scores| > 0)
            && (a.high.Some? <==> |scores| > 0)
            && (a.low.Some? <==> |scores| > 0)
            && (a.average.Some? ==> a.average.value == SheetsHandler.Sum(vs) / (|scores| as real)
                                    && Lowest(vs) <= a.average.value <= Highest(vs))
            && (a.low.Some? && a.high.Some? ==> a.low.value <= a.high.value)
  {
    ScoreListOrdered(parse, sh, row, SheetsHandler.ScoresEnd(sh));
    AggregateOfPositive(pid, tid, sid, name, RowScores(parse, sh, row));
  }

  /** The same facts for any list of positive scores. */
  lemma AggregateOfPositive(pid: int, tid: int, sid: int, name: string, scores: seq<(int, real)>)
    requires forall i :: 0 <= i < |scores| ==> scores[i].1 > 0.0
    ensures var vs := Apply(scores, ScoreValue);
            var a := AggregateOf(pid, tid, sid, name, scores);
            && (a.average.Some? <==> |scores| > 0)
            && (a.high.Some? <==> |scores| > 0)
            && (a.low.Some? <==> |scores| > 0)
            && (a.average.Some? ==> a.average.value == SheetsHandler.Sum(vs) / (|scores| as real)
                                    && Lowest(vs) <= a.average.value <= Highest(vs))
            && (a.low.Some? && a.high.Some? ==> a.low.value <= a.high.value)
  {
    var vs := Apply(scores, ScoreValue);
    AggregateFields(pid, tid, sid, name, scores);
    if |vs| > 0 {
      PositiveValues(scores);
      PositiveStats(vs);
      MonotoneTrunc(Lowest(vs), Highest(vs));
    }
  }

  lemma PositiveValues(scores: seq<(int, real)>)
    requires forall i :: 0 <= i < |scores| ==> scores[i].1 > 0.0
    ensures forall i :: 0 <= i < |Apply(scores, ScoreValue)| ==> Apply(scores, ScoreValue)[i] > 0.0
  {
    ApplyAt(scores, ScoreValue);
  }

  /** The average, high and low columns of an aggregate, read off its score values. */
  lemma AggregateFields(pid: int, tid: int, sid: int, name: string, scores: seq<(int, real)>)
    ensures var vs := Apply(scores, ScoreValue);
            var a := AggregateOf(pid, tid, sid, name, scores);
            && |vs| == |scores|
            && a.average == (if SheetsHandler.Average(vs) > 0.0 then Some(SheetsHandler.Average(vs)) else None)
            && a.high == (if Highest(vs) > 0.0 then Some(Trunc(Highest(vs))) else None)
            && a.low == (if Lowest(vs) > 0.0 then Some(Trunc(Lowest(vs))) else None)
            && (|vs| == 0 ==> SheetsHandler.Average(vs) == 0.0 && Highest(vs) == 0.0 && Lowest(vs) == 0.0)
            && (|vs| > 0 ==> SheetsHandler.Average(vs) == SheetsHandler.Sum(vs) / (|scores| as real))
  {
  }

  /** Over positive values the lowest, the average and the highest are positive and in that order. */
  lemma PositiveStats(vs: seq<real>)
    requires |vs| > 0 && forall i :: 0 <= i < |vs| ==> vs[i] > 0.0
    ensures 0.0 < Lowest(vs) <= SheetsHandler.Average(vs) <= Highest(vs)
  {
    var lo, hi := Lowest(vs), Highest(vs);
    assert lo <= vs[0];
    SheetsHandler.AverageBetween(vs, lo, hi);
  }

  /** The week columns of a player row's aggregate hold its scores of weeks 1 to 7, the other weeks empty. */
  lemma AggregateWeeks(parse: string -> Option<real>, sh: Sheet, row: int, pid: int, tid: int, sid: int, name: string)
    ensures var scores := RowScores(parse, sh, row);
            var a := AggregateOf(pid, tid, sid, name, scores);
            && (forall i :: 0 <= i < |scores| && 1 <= scores[i].0 <= 7 ==> a.weeks[scores[i].0 - 1] == Some(Trunc(scores[i].1)))
            && (forall c :: 0 <= c < 7 && (forall i :: 0 <= i < |scores| ==> scores[i].0 != c + 1) ==> a.weeks[c] == None)
  {
    ScoreListOrdered(parse, sh, row, SheetsHandler.ScoresEnd(sh));
    WeekDataAt(RowScores(parse, sh, row));
  }

  lemma MonotoneTrunc(x: real, y: real)
    requires 0.0 <= x <= y
    ensures Trunc(x) <= Trunc(y)
  {
  }

  /**
    A game comes from one score of a player row of a detailed season under a
    known team, with that week and the score truncated; every such score
    gives one.
   */
  lemma GameIff(v: Visit, sh: Sheet, g: Game)
    ensures g in SheetGames(v, sh) <==> exists k :: 13 <= k <= sh.maxRow && GameFrom(v, sh, k, g)
  {
    var f := GamesAt(v, sh);
    SpanHas(f, 13, sh.maxRow + 1, g);
    forall k ensures g in f(k) <==> GameFrom(v, sh, k, g) {
      GameAtRow(v, sh, k, g);
    }
  }

  /**
    Row `k` of a detailed season is a player row with the game's ids, and one
    of its scores has the game's week and, truncated, its score.
   */
  predicate GameFrom(v: Visit, sh: Sheet, k: int, g: Game) {
    && v.detailed && g.seasonId == v.seasonId
    && RowIds(v.players, v.teams, v.seasonId, sh, k) == Some((g.playerId, g.teamId))
    && exists e :: e in RowScores(v.parse, sh, k) && g.week == e.0 && g.score == Trunc(e.1)
  }

  /** The games of one row, unfolded. */
  lemma GameAtRow(v: Visit, sh: Sheet, k: int, g: Game)
    ensures g in GamesAt(v, sh)(k) <==> GameFrom(v, sh, k, g)
  {
    var ids := RowIds(v.players, v.teams, v.seasonId, sh, k);
    var scores := RowScores(v.parse, sh, k);
    if g in GamesAt(v, sh)(k) {
      var f := GameOf(ids.value.0, ids.value.1, v.seasonId);
      ApplyAt(scores, f);
      var i :| 0 <= i < |scores| && Apply(scores, f)[i] == g;
      assert scores[i] in scores;
    }
    if GameFrom(v, sh, k, g) {
      var e :| e in scores && g.week == e.0 && g.score == Trunc(e.1);
      var f := GameOf(g.playerId, g.teamId, v.seasonId);
      ApplyAt(scores, f);
      var i :| 0 <= i < |scores| && scores[i] == e;
      assert g == Apply(scores, f)[i];
    }
  }

  /**
    An aggregate comes from a player row under a known team whose season is not
    detailed or which has no scores, built from that row's scores; every such
    row gives one.
   */
  lemma AggregateIff(v: Visit, sh: Sheet, a: Aggregate)
    ensures a in SheetAggregates(v, sh) <==> exists k :: 13 <= k <= sh.maxRow && AggregateFrom(v, sh, k, a)
  {
    var f := AggregatesAt(v, sh);
    SpanHas(f, 13, sh.maxRow + 1, a);
    forall k ensures a in f(k) <==> AggregateFrom(v, sh, k, a) {
      AggregateAtRow(v, sh, k, a);
    }
  }

  /**
    Row `k` is a player row with ids whose season is not detailed or which has
    no scores, and `a` is the aggregate of its scores.
   */
  predicate AggregateFrom(v: Visit, sh: Sheet, k: int, a: Aggregate) {
    && RowIds(v.players, v.teams, v.seasonId, sh, k).Some?
    && !(v.detailed && RowScores(v.parse, sh, k) != [])
    && a == AggregateOf(RowIds(v.players, v.teams, v.seasonId, sh, k).value.0,
                        RowIds(v.players, v.teams, v.seasonId, sh, k).value.1,
                        v.seasonId, v.seasonName, RowScores(v.parse, sh, k))
  }

  /** The aggregates of one row, unfolded. */
  lemma AggregateAtRow(v: Visit, sh: Sheet, k: int, a: Aggregate)
    ensures a in AggregatesAt(v, sh)(k) <==> AggregateFrom(v, sh, k, a)
  {
  }

  // ---------------------------------------------------------------------------
  // migrate_team_standings

  /**
    The standings row that row `k` of a sheet yields: the id of the row's team
    label, which is truthy, the season, the `safe_int` figures of columns C–G,
    and the averages of columns H and I where they are positive.
   */
  predicate StandingOfRow(parse: string -> Option<real>, tm: seq<(TeamKey, int)>, sid: int, sh: Sheet, k: int, st: Standing) {
    && StandingsTeamAt(sh)(k).Some?
    && Get(tm, (sid, StandingsTeamAt(sh)(k).value)) == Some(st.teamId) && st.teamId != 0
    && st.seasonId == sid
    && st.wins == SafeInt(parse, sh.At(k, 3), 0) && st.losses == SafeInt(parse, sh.At(k, 4), 0)
    && st.ties == SafeInt(parse, sh.At(k, 5), 0) && st.pinsFor == SafeInt(parse, sh.At(k, 6), 0)
    && st.pinsAgainst == SafeInt(parse, sh.At(k, 7), 0)
    && st.avgPerGame == PositiveOr(SafeFloat(parse, sh.At(k, 8), 0.0))
    && st.avgAgainst == PositiveOr(SafeFloat(parse, sh.At(k, 9), 0.0))
  }

  /**
    A sheet's standings are exactly the rows that its standings block yields,
    from row 2 up to row 16 or the sheet's last row, whichever comes first.
   */
  lemma StandingIff(parse: string -> Option<real>, tm: seq<(TeamKey, int)>, sid: int, sh: Sheet, st: Standing)
    ensures st in SheetStandings(parse, tm, sid, sh) <==>
              exists k :: 2 <= k < SheetsHandler.StandingsEnd(sh) && StandingOfRow(parse, tm, sid, sh, k, st)
  {
    var f := StandingAt(parse, tm, sid, sh);
    SpanHas(f, 2, SheetsHandler.StandingsEnd(sh), st);
    forall k ensures st in f(k) <==> StandingOfRow(parse, tm, sid, sh, k, st) {
    }
  }

  // ---------------------------------------------------------------------------
  // migrate_champions

  /**
    The team of a champion is the value of the first `teams_map` entry, in
    insertion order, of the season whose lower-cased name contains the
    lower-cased champion text; there is none exactly when no entry matches.
   */
  lemma ChampionTeamFirst(tm: seq<(TeamKey, int)>, sid: int, champ: string)
    ensures ChampionTeam(tm, sid, champ).None? <==>
              forall j :: 0 <= j < |tm| ==> !(tm[j].0.0 == sid && Contains(Lower(tm[j].0.1), Lower(champ)))
    ensures ChampionTeam(tm, sid, champ).Some? ==>
              exists j :: 0 <= j < |tm| && tm[j].0.0 == sid && Contains(Lower(tm[j].0.1), Lower(champ))
                          && ChampionTeam(tm, sid, champ) == Some(tm[j].1)
                          && forall k :: 0 <= k < j ==> !(tm[k].0.0 == sid && Contains(Lower(tm[k].0.1), Lower(champ)))
  {
    FirstFromIff(tm, TeamMatches(sid, champ), 0);
  }

  // ---------------------------------------------------------------------------
  // migrate_all

  /**
    Standings and champions share one counter: standings take the ids from
    `next_standing_id` on, and the champions continue where the standings
    stopped.
   */
  lemma ChampionIdsFollowStandings(book: Workbook, parse: string -> Option<real>, show: real -> string, s: MigState)
    ensures var t := ChampionsStep(book, show, StandingsStep(book, parse, s));
            var st := t.newWb.standings;
            && (forall i :: 0 <= i < |st| ==> st[i].id == s.nextStandingId + i)
            && ("Champs" in Keys(book) ==>
                  forall i :: 0 <= i < |t.newWb.champions| ==> t.newWb.champions[i].id == s.nextStandingId + |st| + i)
            && t.nextStandingId == s.nextStandingId + |st| + |t.newWb.champions|
  {
    var s6 := StandingsStep(book, parse, s);
    var st := Gather(SeasonSheets(Keys(book)), SeasonStandings(book, parse, s.teamsMap, s.seasonsMap));
    NumberedAt(st, s.nextStandingId);
    if "Champs" in Keys(book) {
      NumberedAt(SheetChampions(show, s6.seasonsMap, s6.teamsMap, SheetOf(book, "Champs")), s6.nextStandingId);
    }
  }
}
