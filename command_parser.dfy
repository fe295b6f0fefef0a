/**
  The chat command parser. A message is stripped and lower-cased, a season
  token (`season 9`, `s9`) is cut out of it, and what remains is classified
  against fixed pattern lists in a fixed order: keywords, team patterns,
  player patterns, add-score patterns, and otherwise an unknown command.
 */
module CommandParser {
  import opened Wrappers
  import opened Text
  import opened PyNum
  import opened Patterns

  datatype CommandType = TeamScores | PlayerScores | AddScore | ListSeasons | Help | Unknown

  /** The `params` dictionary of a command: each key it may hold, present or absent. */
  datatype Params = Params(season: Option<string>, teamName: Option<string>, playerName: Option<string>, score: Option<int>)

  const NoParams := Params(None, None, None, None)

  datatype Command = Command(kind: CommandType, params: Params)

  // ---------------------------------------------------------------------------
  // Season extraction

  /** The season patterns, tried in this order. */
  const SeasonPatterns := [LongForm, ShortForm]

  /**
    One season pattern applied to the message, if it occurs: every occurrence
    is deleted, the rest stripped and its whitespace runs collapsed; the season
    is "Season " followed by the digits of the leftmost occurrence.
   */
  function ExtractWith(pat: SeasonPattern, message: string): Option<(string, string)>
  {
    var p := Search(pat, message, 0);
    if p.None? then None
    else
      var g := SeasonMatchAt(pat, message, p.value).value;
      Some((Collapse(Strip(RemoveFrom(pat, message, 0))), "Season " + message[g.0..g.1]))
  }

  /** The first of `pats` that occurs decides; if none does, the message is kept and there is no season. */
  function FirstExtraction(pats: seq<SeasonPattern>, message: string): (string, Option<string>)
  {
    if |pats| == 0 then (message, None)
    else
      match ExtractWith(pats[0], message)
      case Some(x) => (x.0, Some(x.1))
      case None => FirstExtraction(pats[1..], message)
  }

  /** The cleaned message and the season `_extract_season` returns. */
  function SeasonExtraction(message: string): (string, Option<string>)
  {
    FirstExtraction(SeasonPatterns, message)
  }

  /** `_extract_season`: the loop over the season patterns that stops at the first that occurs. */
  method ExtractSeason(message: string) returns (cleaned: string, season: Option<string>)
    ensures (cleaned, season) == SeasonExtraction(message)
  {
    season := None;
    cleaned := message;
    var i := 0;
    while i < |SeasonPatterns|
      invariant 0 <= i <= |SeasonPatterns|
      invariant season == None && cleaned == message
      invariant FirstExtraction(SeasonPatterns[i..], message) == SeasonExtraction(message)
    {
      var pat := SeasonPatterns[i];
      var p := Search(pat, message, 0);
      if p.Some? {
        var g := SeasonMatchAt(pat, message, p.value).value;
        season := Some("Season " + message[g.0..g.1]);
        cleaned := Strip(RemoveFrom(pat, cleaned, 0));
        cleaned := Collapse(cleaned);
        return;
      }
      assert SeasonPatterns[i..][1..] == SeasonPatterns[i + 1..];
      i := i + 1;
    }
  }

  /** The long form is tried first, then the short form. */
  lemma SeasonExtractionOrder(message: string)
    ensures SeasonExtraction(message) ==
              if ExtractWith(LongForm, message).Some? then
                (ExtractWith(LongForm, message).value.0, Some(ExtractWith(LongForm, message).value.1))
              else if ExtractWith(ShortForm, message).Some? then
                (ExtractWith(ShortForm, message).value.0, Some(ExtractWith(ShortForm, message).value.1))
              else (message, None)
  {
    var b := ExtractWith(ShortForm, message);
    assert FirstExtraction([ShortForm], message) == if b.Some? then (b.value.0, Some(b.value.1)) else (message, None) by {
      assert [ShortForm][1..] == [];
    }
    assert SeasonPatterns[1..] == [ShortForm];
  }

  /** No season is found exactly when neither pattern matches anywhere, and then the message is kept. */
  lemma NoSeasonToken(message: string)
    ensures SeasonExtraction(message).1.None? <==>
              forall p :: 0 <= p <= |message| ==>
                SeasonMatchAt(LongForm, message, p).None? && SeasonMatchAt(ShortForm, message, p).None?
    ensures SeasonExtraction(message).1.None? ==> SeasonExtraction(message).0 == message
  {
    SeasonExtractionOrder(message);
  }

  /**
    A pattern that occurs yields "Season " with the digits of its leftmost
    match, and a cleaned text that is shorter and single-spaced.
   */
  lemma ExtractWithFound(pat: SeasonPattern, message: string)
    requires ExtractWith(pat, message).Some?
    ensures SingleSpaced(ExtractWith(pat, message).value.0)
    ensures |ExtractWith(pat, message).value.0| < |message|
    ensures exists p, e, f ::
              && SeasonSplit(pat, message, p, e, f)
              && ExtractWith(pat, message).value.1 == "Season " + message[e..f]
              && IsDigits(message[e..f])
              && forall q :: 0 <= q < p ==> SeasonMatchAt(pat, message, q).None?
  {
    RemoveShortens(pat, message);
    CollapseStripped(RemoveFrom(pat, message, 0));
    var p := Search(pat, message, 0).value;
    var g := SeasonMatchAt(pat, message, p).value;
    DigitsSlice(message, g.0, g.1);
  }

  lemma DigitsSlice(s: string, e: int, f: int)
    requires e < f && Digits(s, e, f)
    ensures IsDigits(s[e..f])
  {
  }

  /**
    A found season is "Season " with the digits of the leftmost match of the
    long form, or of the short form when the long form occurs nowhere; the
    cleaned text is shorter than the message and single-spaced.
   */
  lemma SeasonToken(message: string)
    requires SeasonExtraction(message).1.Some?
    ensures SingleSpaced(SeasonExtraction(message).0)
    ensures |SeasonExtraction(message).0| < |message|
    ensures exists pat, p, e, f ::
              && SeasonSplit(pat, message, p, e, f)
              && SeasonExtraction(message).1 == Some("Season " + message[e..f])
              && IsDigits(message[e..f])
              && (forall q :: 0 <= q < p ==> SeasonMatchAt(pat, message, q).None?)
              && (pat.ShortForm? ==> forall q :: 0 <= q <= |message| ==> SeasonMatchAt(LongForm, message, q).None?)
  {
    SeasonExtractionOrder(message);
    var pat := if ExtractWith(LongForm, message).Some? then LongForm else ShortForm;
    ExtractWithFound(pat, message);
  }

  // ---------------------------------------------------------------------------
  // Classification

  const HelpWords := ["help", "?", "commands"]
  const SeasonWords := ["seasons", "list seasons", "show seasons"]

  /** `TEAM_PATTERNS`: `team\s+(.+)`, `team\s+scores`, `teams?`, `standings?`. */
  datatype TeamPattern = TeamName | TeamWordScores | TeamWord | StandingWord
  const TeamPatterns := [TeamName, TeamWordScores, TeamWord, StandingWord]

  /** `PLAYER_PATTERNS`: `player\s+(.+)`, `score\s+(.+)`, `(.+)\s+score`, `my\s+score`, `(.+)\s+stats?`. */
  datatype PlayerPattern = PlayerName | ScoreName | NameScore | MyScore | NameStats
  const PlayerPatterns := [PlayerName, ScoreName, NameScore, MyScore, NameStats]

  /**
    `ADD_SCORE_PATTERNS`: `add\s+score\s+(\d+)\s+(.+)`, `enter\s+score\s+(\d+)\s+(.+)`,
    `score\s+(\d+)\s+(.+)`, `(.+)\s+(\d+)`.
   */
  datatype AddPattern = AddWords | EnterWords | ScoreWord | NameNumber
  const AddPatterns := [AddWords, EnterWords, ScoreWord, NameNumber]

  /**
    `re.match` of a team pattern: None if it does not match, otherwise its
    group 1 if the pattern has one. A pattern ending in an optional letter
    matches whenever its prefix does, since nothing is required after it.
   */
  function TeamMatch(pat: TeamPattern, m: string): Option<Option<string>>
  {
    match pat
    case TeamName => (match KeywordRest(m, "team") case Some(g) => Some(Some(g)) case None => None)
    case TeamWordScores => if KeywordsMatch(m, "team", "scores") then Some(None) else None
    case TeamWord => if StartsWith(m, "team") then Some(None) else None
    case StandingWord => if StartsWith(m, "standing") then Some(None) else None
  }

  /** `re.match` of a player pattern, as for the team patterns. */
  function PlayerMatch(pat: PlayerPattern, m: string): Option<Option<string>>
  {
    match pat
    case PlayerName => (match KeywordRest(m, "player") case Some(g) => Some(Some(g)) case None => None)
    case ScoreName => (match KeywordRest(m, "score") case Some(g) => Some(Some(g)) case None => None)
    case NameScore => (match PrefixBefore(m, "score") case Some(g) => Some(Some(g)) case None => None)
    case MyScore => if KeywordsMatch(m, "my", "score") then Some(None) else None
    case NameStats => (match PrefixBefore(m, "stat") case Some(g) => Some(Some(g)) case None => None)
  }

  /** `re.match` of an add-score pattern: its two groups. */
  function AddMatch(pat: AddPattern, m: string): Option<(string, string)>
  {
    match pat
    case AddWords => TwoWordsNumberRest(m, "add", "score")
    case EnterWords => TwoWordsNumberRest(m, "enter", "score")
    case ScoreWord => WordNumberRest(m, "score")
    case NameNumber => RestThenNumber(m)
  }

  /**
    The team patterns in order: the first that matches gives TEAM_SCORES, with
    `team_name` the stripped capture unless the capture is "scores" or "score".
   */
  function TeamFrom(pats: seq<TeamPattern>, m: string, season: Option<string>): Option<Command>
  {
    if |pats| == 0 then None
    else
      match TeamMatch(pats[0], m)
      case None => TeamFrom(pats[1..], m, season)
      case Some(g) =>
        var name := if g.Some? && g.value != "" && Lower(g.value) !in ["scores", "score"] then Some(Strip(g.value)) else None;
        Some(Command(TeamScores, Params(season, name, None, None)))
  }

  /**
    The player patterns in order: a pattern without a group that matches gives
    PLAYER_SCORES without a name; a capture gives PLAYER_SCORES with the
    stripped capture, unless that is "my", "score" or "scores", in which case
    the next pattern is tried.
   */
  function PlayerFrom(pats: seq<PlayerPattern>, m: string, season: Option<string>): Option<Command>
  {
    if |pats| == 0 then None
    else
      match PlayerMatch(pats[0], m)
      case None => PlayerFrom(pats[1..], m, season)
      case Some(None) => Some(Command(PlayerScores, Params(season, None, None, None)))
      case Some(Some(g)) =>
        if Lower(Strip(g)) !in ["my", "score", "scores"] then Some(Command(PlayerScores, Params(season, None, Some(Strip(g)), None)))
        else PlayerFrom(pats[1..], m, season)
  }

  /**
    `int(groups[0])`, and if that raises `int(groups[1])`: the score and the
    other group, stripped, as the player name; None if neither group is an
    integer.
   */
  function ScoreAndName(g0: string, g1: string): (r: Option<(int, string)>)
    ensures r.None? <==> ParseInt(g0).None? && ParseInt(g1).None?
    ensures r.Some? ==> (ParseInt(g0) == Some(r.value.0) && r.value.1 == Strip(g1))
                        || (ParseInt(g0).None? && ParseInt(g1) == Some(r.value.0) && r.value.1 == Strip(g0))
  {
    match ParseInt(g0)
    case Some(v) => Some((v, Strip(g1)))
    case None =>
      match ParseInt(g1)
      case Some(v) => Some((v, Strip(g0)))
      case None => None
  }

  /**
    The add-score patterns in order: the first whose groups give a score in
    [0, 300] gives ADD_SCORE; a pattern that does not match, has no integer
    group or a score out of range passes to the next.
   */
  function AddFrom(pats: seq<AddPattern>, m: string, season: Option<string>): Option<Command>
  {
    if |pats| == 0 then None
    else
      match AddMatch(pats[0], m)
      case None => AddFrom(pats[1..], m, season)
      case Some(gs) =>
        match ScoreAndName(gs.0, gs.1)
        case None => AddFrom(pats[1..], m, season)
        case Some(sn) =>
          if 0 <= sn.0 <= 300 then Some(Command(AddScore, Params(season, None, Some(sn.1), Some(sn.0))))
          else AddFrom(pats[1..], m, season)
  }

  /** The classification of the lower-cased, season-free text `m`. */
  function Classify(m: string, season: Option<string>): Command
  {
    if m in HelpWords then Command(Help, NoParams)
    else if m in SeasonWords then Command(ListSeasons, Params(season, None, None, None))
    else
      var t := TeamFrom(TeamPatterns, m, season);
      if t.Some? then t.value
      else
        var p := PlayerFrom(PlayerPatterns, m, season);
        if p.Some? then p.value
        else
          var a := AddFrom(AddPatterns, m, season);
          if a.Some? then a.value else Command(Unknown, NoParams)
  }

  /** The text that is classified: the message stripped, lower-cased and without its season token. */
  function Cleaned(message: string): string {
    Lower(SeasonExtraction(Lower(Strip(message))).0)
  }

  /** The season the message names, if any. */
  function SeasonOf(message: string): Option<string> {
    SeasonExtraction(Lower(Strip(message))).1
  }

  /** `CommandParser.parse`. */
  function Parse(message: string): Command {
    Classify(Cleaned(message), SeasonOf(message))
  }

  // ---------------------------------------------------------------------------
  // What the classification promises

  lemma TeamFromResult(pats: seq<TeamPattern>, m: string, season: Option<string>)
    ensures TeamFrom(pats, m, season).Some? <==> exists i :: 0 <= i < |pats| && TeamMatch(pats[i], m).Some?
    ensures TeamFrom(pats, m, season).Some? ==>
              TeamFrom(pats, m, season).value.kind == TeamScores
              && TeamFrom(pats, m, season).value.params.season == season
              && TeamFrom(pats, m, season).value.params.playerName.None?
              && TeamFrom(pats, m, season).value.params.score.None?
  {
    if |pats| > 0 {
      TeamFromResult(pats[1..], m, season);
      if TeamMatch(pats[0], m).None? {
        assert forall i :: 0 < i < |pats| ==> pats[i] == pats[1..][i - 1];
      }
    }
  }

  /** Some player pattern of `pats` captures a text that strips to `n`. */
  ghost predicate CapturedBy(pats: seq<PlayerPattern>, m: string, n: string) {
    exists i, g :: 0 <= i < |pats| && PlayerMatch(pats[i], m) == Some(Some(g)) && n == Strip(g)
  }

  lemma CapturedByTail(pats: seq<PlayerPattern>, m: string, n: string)
    requires |pats| > 0 && CapturedBy(pats[1..], m, n)
    ensures CapturedBy(pats, m, n)
  {
    var i, g :| 0 <= i < |pats[1..]| && PlayerMatch(pats[1..][i], m) == Some(Some(g)) && n == Strip(g);
    assert pats[i + 1] == pats[1..][i];
  }

  lemma {:induction false} PlayerFromResult(pats: seq<PlayerPattern>, m: string, season: Option<string>)
    ensures PlayerFrom(pats, m, season).Some? ==>
              PlayerFrom(pats, m, season).value.kind == PlayerScores
              && PlayerFrom(pats, m, season).value.params.season == season
              && PlayerFrom(pats, m, season).value.params.teamName.None?
              && PlayerFrom(pats, m, season).value.params.score.None?
    ensures PlayerFrom(pats, m, season).Some? && PlayerFrom(pats, m, season).value.params.playerName.Some? ==>
              var n := PlayerFrom(pats, m, season).value.params.playerName.value;
              Lower(n) !in ["my", "score", "scores"] && CapturedBy(pats, m, n)
  {
    if |pats| > 0 {
      PlayerFromResult(pats[1..], m, season);
      var r := PlayerFrom(pats, m, season);
      match PlayerMatch(pats[0], m)
      case None =>
        if r.Some? && r.value.params.playerName.Some? {
          CapturedByTail(pats, m, r.value.params.playerName.value);
        }
      case Some(None) =>
      case Some(Some(g)) =>
        if Lower(Strip(g)) !in ["my", "score", "scores"] {
          assert PlayerMatch(pats[0], m) == Some(Some(g));
        } else if r.Some? && r.value.params.playerName.Some? {
          CapturedByTail(pats, m, r.value.params.playerName.value);
        }
    }
  }

  /** What an add-score result holds: an ADD_SCORE with the season, no team, a name and a score in [0, 300]. */
  lemma {:induction false} AddFromShape(pats: seq<AddPattern>, m: string, season: Option<string>)
    ensures AddFrom(pats, m, season).Some? ==>
              var c := AddFrom(pats, m, season).value;
              c.kind == AddScore && c.params.season == season && c.params.teamName.None?
              && c.params.score.Some? && 0 <= c.params.score.value <= 300 && c.params.playerName.Some?
  {
    if |pats| > 0 {
      AddFromShape(pats[1..], m, season);
    }
  }

  /** An add-score result comes from the groups some pattern of `pats` captured. */
  lemma {:induction false} AddFromResult(pats: seq<AddPattern>, m: string, season: Option<string>)
    ensures AddFrom(pats, m, season).Some? ==>
              var c := AddFrom(pats, m, season).value;
              c.kind == AddScore && c.params.season == season && c.params.teamName.None?
              && c.params.score.Some? && 0 <= c.params.score.value <= 300 && c.params.playerName.Some?
              && exists i :: 0 <= i < |pats| && AddMatch(pats[i], m).Some?
                             && ScoreAndName(AddMatch(pats[i], m).value.0, AddMatch(pats[i], m).value.1)
                                == Some((c.params.score.value, c.params.playerName.value))
  {
    AddFromShape(pats, m, season);
    if |pats| > 0 {
      AddFromResult(pats[1..], m, season);
      var r := AddFrom(pats, m, season);
      if r.Some? && r != AddFrom(pats[1..], m, season) {
        assert AddMatch(pats[0], m).Some?;
      } else if r.Some? {
        var c := r.value;
        var i :| 0 <= i < |pats[1..]| && AddMatch(pats[1..][i], m).Some?
                 && ScoreAndName(AddMatch(pats[1..][i], m).value.0, AddMatch(pats[1..][i], m).value.1)
                    == Some((c.params.score.value, c.params.playerName.value));
        assert pats[i + 1] == pats[1..][i];
      }
    }
  }

  /** HELP exactly for "help", "?" and "commands", and it carries no parameters. */
  lemma HelpCommand(message: string)
    ensures Parse(message).kind == Help <==> Cleaned(message) in HelpWords
    ensures Parse(message).kind == Help ==> Parse(message).params == NoParams
  {
    ClassifiedHelp(Cleaned(message), SeasonOf(message));
  }

  lemma ClassifiedHelp(m: string, season: Option<string>)
    ensures Classify(m, season).kind == Help <==> m in HelpWords
    ensures Classify(m, season).kind == Help ==> Classify(m, season).params == NoParams
  {
    if m !in HelpWords && m !in SeasonWords {
      TeamFromResult(TeamPatterns, m, season);
      PlayerFromResult(PlayerPatterns, m, season);
      AddFromShape(AddPatterns, m, season);
    }
  }

  /** LIST_SEASONS exactly for the three listing phrases; its only parameter is the season, if one was named. */
  lemma ListSeasonsCommand(message: string)
    ensures Parse(message).kind == ListSeasons <==> Cleaned(message) in SeasonWords
    ensures Parse(message).kind == ListSeasons ==> Parse(message).params == Params(SeasonOf(message), None, None, None)
  {
    ClassifiedSeasons(Cleaned(message), SeasonOf(message));
  }

  lemma ClassifiedSeasons(m: string, season: Option<string>)
    ensures Classify(m, season).kind == ListSeasons <==> m in SeasonWords
    ensures Classify(m, season).kind == ListSeasons ==> Classify(m, season).params == Params(season, None, None, None)
  {
    if m !in SeasonWords {
      TeamFromResult(TeamPatterns, m, season);
      PlayerFromResult(PlayerPatterns, m, season);
      AddFromShape(AddPatterns, m, season);
    }
  }

  /** `team_name` as the team patterns set it: the stripped `team\s+(.+)` capture, unless it is "scores" or "score". */
  function TeamNameOf(m: string): Option<string> {
    match KeywordRest(m, "team")
    case Some(g) => if Lower(g) !in ["scores", "score"] then Some(Strip(g)) else None
    case None => None
  }

  lemma TeamFromPatterns(m: string, season: Option<string>)
    ensures TeamFrom(TeamPatterns, m, season) ==
              if StartsWith(m, "team") || StartsWith(m, "standing")
              then Some(Command(TeamScores, Params(season, TeamNameOf(m), None, None)))
              else None
  {
    var ps := TeamPatterns;
    assert ps[1..] == [TeamWordScores, TeamWord, StandingWord];
    assert ps[1..][1..] == [TeamWord, StandingWord];
    assert ps[1..][1..][1..] == [StandingWord];
    assert ps[1..][1..][1..][1..] == [];
    if KeywordRest(m, "team").None? {
      assert TeamFrom(ps, m, season) == TeamFrom(ps[1..], m, season);
      if StartsWith(m, "team") {
        assert TeamFrom(ps[1..][1..], m, season) == Some(Command(TeamScores, Params(season, None, None, None)));
      } else {
        assert TeamFrom(ps[1..], m, season) == TeamFrom(ps[1..][1..], m, season);
        assert TeamFrom(ps[1..][1..], m, season) == TeamFrom(ps[1..][1..][1..], m, season);
        assert TeamFrom(ps[1..][1..][1..], m, season) ==
                 if StartsWith(m, "standing") then Some(Command(TeamScores, Params(season, None, None, None))) else None;
        assert TeamNameOf(m) == None;
      }
    }
  }

  /** A text that starts with one of these words is no keyword command. */
  lemma NotKeyword(m: string, w: string)
    requires w in ["team", "standing", "add", "enter", "score", "player", "my"] && StartsWith(m, w)
    ensures m !in HelpWords && m !in SeasonWords
  {
    assert m[0] == w[0];
    if |w| > 1 { assert m[1] == w[1]; }
  }

  /**
    TEAM_SCORES exactly for the texts that start with "team" or "standing";
    the team name is set only from the first pattern's capture.
   */
  lemma TeamCommand(message: string)
    ensures var m := Cleaned(message);
            Parse(message).kind == TeamScores <==> StartsWith(m, "team") || StartsWith(m, "standing")
    ensures var m := Cleaned(message);
            Parse(message).kind == TeamScores ==> Parse(message).params == Params(SeasonOf(message), TeamNameOf(m), None, None)
  {
    var m := Cleaned(message);
    TeamFromPatterns(m, SeasonOf(message));
    PlayerFromResult(PlayerPatterns, m, SeasonOf(message));
    AddFromResult(AddPatterns, m, SeasonOf(message));
    if StartsWith(m, "team") { NotKeyword(m, "team"); }
    if StartsWith(m, "standing") { NotKeyword(m, "standing"); }
  }

  /** A player pattern returns: it has no group, or its stripped capture is not "my", "score" or "scores". */
  predicate PlayerReturns(pat: PlayerPattern, m: string) {
    match PlayerMatch(pat, m)
    case None => false
    case Some(None) => true
    case Some(Some(g)) => Lower(Strip(g)) !in ["my", "score", "scores"]
  }

  /** An add-score pattern returns: it matches and one of its groups is an integer in [0, 300]. */
  predicate AddReturns(pat: AddPattern, m: string) {
    AddMatch(pat, m).Some? && ScoreAndName(AddMatch(pat, m).value.0, AddMatch(pat, m).value.1).Some?
    && 0 <= ScoreAndName(AddMatch(pat, m).value.0, AddMatch(pat, m).value.1).value.0 <= 300
  }

  lemma PlayerFromHead(pats: seq<PlayerPattern>, m: string, season: Option<string>)
    requires |pats| > 0
    ensures PlayerFrom(pats, m, season).Some? <==> PlayerReturns(pats[0], m) || PlayerFrom(pats[1..], m, season).Some?
  {
  }

  lemma {:induction false} PlayerFromSome(pats: seq<PlayerPattern>, m: string, season: Option<string>)
    ensures PlayerFrom(pats, m, season).Some? <==> exists i :: 0 <= i < |pats| && PlayerReturns(pats[i], m)
  {
    if |pats| > 0 {
      PlayerFromHead(pats, m, season);
      PlayerFromSome(pats[1..], m, season);
      SomeOfCons(pats, pat => PlayerReturns(pat, m));
    }
  }

  lemma AddFromHead(pats: seq<AddPattern>, m: string, season: Option<string>)
    requires |pats| > 0
    ensures AddFrom(pats, m, season).Some? <==> AddReturns(pats[0], m) || AddFrom(pats[1..], m, season).Some?
  {
  }

  /** Some element of a non-empty list satisfies `p` exactly when its head or some element of its tail does. */
  lemma SomeOfCons<T>(xs: seq<T>, p: T -> bool)
    requires |xs| > 0
    ensures (exists i :: 0 <= i < |xs| && p(xs[i])) <==> p(xs[0]) || exists i :: 0 <= i < |xs[1..]| && p(xs[1..][i])
  {
    if exists i :: 0 <= i < |xs| && p(xs[i]) {
      var i :| 0 <= i < |xs| && p(xs[i]);
      if i > 0 {
        assert xs[1..][i - 1] == xs[i];
      }
    }
    if exists i :: 0 <= i < |xs[1..]| && p(xs[1..][i]) {
      var i :| 0 <= i < |xs[1..]| && p(xs[1..][i]);
      assert xs[i + 1] == xs[1..][i];
    }
  }

  lemma {:induction false} AddFromSome(pats: seq<AddPattern>, m: string, season: Option<string>)
    ensures AddFrom(pats, m, season).Some? <==> exists i :: 0 <= i < |pats| && AddReturns(pats[i], m)
  {
    if |pats| > 0 {
      AddFromHead(pats, m, season);
      AddFromSome(pats[1..], m, season);
      SomeOfCons(pats, pat => AddReturns(pat, m));
    }
  }

  /**
    PLAYER_SCORES only after the keyword and team patterns have failed; a
    player name is a stripped capture of a player pattern and never "my",
    "score" or "scores".
   */
  lemma PlayerCommand(message: string)
    ensures var m := Cleaned(message); var c := Parse(message);
            c.kind == PlayerScores ==>
              && m !in HelpWords && m !in SeasonWords && !StartsWith(m, "team") && !StartsWith(m, "standing")
              && c.params.season == SeasonOf(message) && c.params.teamName.None? && c.params.score.None?
              && (c.params.playerName.Some? ==>
                    Lower(c.params.playerName.value) !in ["my", "score", "scores"]
                    && CapturedBy(PlayerPatterns, m, c.params.playerName.value))
  {
    var m := Cleaned(message);
    TeamFromPatterns(m, SeasonOf(message));
    PlayerFromResult(PlayerPatterns, m, SeasonOf(message));
    AddFromResult(AddPatterns, m, SeasonOf(message));
  }

  /**
    ADD_SCORE only when no keyword, team or player pattern applies, and then
    the score is an integer group of an add-score pattern, within [0, 300],
    and the player name is the other group, stripped.
   */
  lemma AddScoreCommand(message: string)
    ensures var m := Cleaned(message); var c := Parse(message);
            c.kind == AddScore ==>
              && m !in HelpWords && m !in SeasonWords && !StartsWith(m, "team") && !StartsWith(m, "standing")
              && (forall i :: 0 <= i < |PlayerPatterns| ==> !PlayerReturns(PlayerPatterns[i], m))
              && c.params.season == SeasonOf(message) && c.params.teamName.None?
              && c.params.score.Some? && 0 <= c.params.score.value <= 300 && c.params.playerName.Some?
              && exists i :: 0 <= i < |AddPatterns| && AddMatch(AddPatterns[i], m).Some?
                             && ScoreAndName(AddMatch(AddPatterns[i], m).value.0, AddMatch(AddPatterns[i], m).value.1)
                                == Some((c.params.score.value, c.params.playerName.value))
  {
    var m := Cleaned(message);
    TeamFromPatterns(m, SeasonOf(message));
    PlayerFromResult(PlayerPatterns, m, SeasonOf(message));
    PlayerFromSome(PlayerPatterns, m, SeasonOf(message));
    AddFromResult(AddPatterns, m, SeasonOf(message));
  }

  /** UNKNOWN, with no parameters, exactly when no keyword and no pattern applies. */
  lemma UnknownCommand(message: string)
    ensures var m := Cleaned(message);
            Parse(message).kind == Unknown <==>
              && m !in HelpWords && m !in SeasonWords && !StartsWith(m, "team") && !StartsWith(m, "standing")
              && (forall i :: 0 <= i < |PlayerPatterns| ==> !PlayerReturns(PlayerPatterns[i], m))
              && (forall i :: 0 <= i < |AddPatterns| ==> !AddReturns(AddPatterns[i], m))
    ensures Parse(message).kind == Unknown ==> Parse(message).params == NoParams
  {
    var m := Cleaned(message);
    TeamFromPatterns(m, SeasonOf(message));
    PlayerFromResult(PlayerPatterns, m, SeasonOf(message));
    PlayerFromSome(PlayerPatterns, m, SeasonOf(message));
    AddFromResult(AddPatterns, m, SeasonOf(message));
    AddFromSome(AddPatterns, m, SeasonOf(message));
  }
  // ---------------------------------------------------------------------------
  // The add-score keywords are shadowed by the player patterns

  /** A text that starts with one of these words starts with no team word. */
  lemma NotTeam(m: string, w: string)
    requires w in ["add", "enter", "score"] && StartsWith(m, w)
    ensures !StartsWith(m, "team") && !StartsWith(m, "standing")
  {
    assert m[0] == w[0] && m[1] == w[1];
  }

  /** A text with no keyword and no team word that a player pattern returns for is PLAYER_SCORES. */
  lemma PlayerClassified(m: string, season: Option<string>)
    requires m !in HelpWords && m !in SeasonWords && !StartsWith(m, "team") && !StartsWith(m, "standing")
    requires exists i :: 0 <= i < |PlayerPatterns| && PlayerReturns(PlayerPatterns[i], m)
    ensures Classify(m, season).kind == PlayerScores
  {
    TeamFromPatterns(m, season);
    PlayerFromSome(PlayerPatterns, m, season);
    PlayerFromResult(PlayerPatterns, m, season);
  }

  /** A word at the start of the text lies on its first line. */
  lemma WordPrefixOnLine(m: string, w: string)
    requires StartsWith(m, w) && forall i :: 0 <= i < |w| ==> w[i] != '\n'
    ensures |w| <= LineEnd(m, 0)
  {
    assert forall i :: 0 <= i < |w| ==> m[i] == w[i];
  }

  /** A stripped capture whose first letter is not `m` or `s` is not "my", "score" or "scores". */
  lemma NotNameWord(g: string)
    requires |g| > 0 && !IsSpace(g[0]) && LowerChar(g[0]) != 'm' && LowerChar(g[0]) != 's'
    ensures Lower(Strip(g)) !in ["my", "score", "scores"]
  {
    StripKeepsFirst(g);
    assert Lower(Strip(g))[0] == LowerChar(g[0]);
  }

  /** After `add score` or `enter score`, `(.+)\s+score` captures text that starts with that word. */
  lemma NameScoreCapture(m: string, w: string)
    requires (w == "add" || w == "enter") && KeywordsMatch(m, w, "score")
    ensures PrefixBefore(m, "score").Some? && PrefixBefore(m, "score").value[0] == w[0]
  {
    WordPrefixOnLine(m, w);
    assert LitSplit(m, "score", |w|, SpaceRunEnd(m, |w|));
  }

  lemma NameScoreReturns(m: string, w: string)
    requires (w == "add" || w == "enter") && KeywordsMatch(m, w, "score")
    ensures PlayerReturns(NameScore, m)
  {
    NameScoreCapture(m, w);
    NotNameWord(PrefixBefore(m, "score").value);
  }

  /** After `score` and whitespace, a digit makes `score\s+(.+)` capture text that starts with it. */
  lemma ScoreNameCapture(m: string)
    requires StartsWith(m, "score") && SpaceRunEnd(m, 5) > 5
    requires SpaceRunEnd(m, 5) < |m| && IsDigit(m[SpaceRunEnd(m, 5)])
    ensures KeywordRest(m, "score").Some? && IsDigit(KeywordRest(m, "score").value[0])
  {
    var b := SpaceRunEnd(m, 5);
    assert RestSplit(m, 5, b);
    var g := KeywordRest(m, "score").value;
    var k :| RestSplit(m, 5, k) && g == RestFrom(m, k) && forall k' :: k < k' ==> !RestSplit(m, 5, k');
    assert k == b;
    assert g[0] == m[b];
  }

  lemma ScoreNameReturns(m: string)
    requires StartsWith(m, "score") && SpaceRunEnd(m, 5) > 5
    requires SpaceRunEnd(m, 5) < |m| && IsDigit(m[SpaceRunEnd(m, 5)])
    ensures PlayerReturns(ScoreName, m)
  {
    ScoreNameCapture(m);
    NotNameWord(KeywordRest(m, "score").value);
  }

  /**
    A message that the `add`, `enter` or `score` add-score pattern matches is
    classified as PLAYER_SCORES: `(.+)\s+score` captures the words before
    "score", and `score\s+(.+)` captures the score and the name.
   */
  lemma KeywordAddShadowed(m: string, season: Option<string>)
    requires AddMatch(AddWords, m).Some? || AddMatch(EnterWords, m).Some? || AddMatch(ScoreWord, m).Some?
    ensures Classify(m, season).kind == PlayerScores
  {
    var w;
    if AddMatch(AddWords, m).Some? || AddMatch(EnterWords, m).Some? {
      w := TwoWordsPlayerReturns(m);
      assert PlayerPatterns[2] == NameScore;
    } else {
      w := "score";
      ScoreWordPlayerReturns(m);
      assert PlayerPatterns[1] == ScoreName;
    }
    NotKeyword(m, w);
    NotTeam(m, w);
    PlayerClassified(m, season);
  }

  /** Text that `(add|enter)\s+score\s+(\d+)\s+(.+)` matches starts with its first word, and `(.+)\s+score` returns for it. */
  lemma TwoWordsPlayerReturns(m: string) returns (w: string)
    requires AddMatch(AddWords, m).Some? || AddMatch(EnterWords, m).Some?
    ensures (w == "add" || w == "enter") && StartsWith(m, w)
    ensures PlayerReturns(NameScore, m)
  {
    w := if AddMatch(AddWords, m).Some? then "add" else "enter";
    TwoWordsStart(m, w);
    NameScoreReturns(m, w);
  }

  /** Text that `score\s+(\d+)\s+(.+)` matches starts with "score", and `score\s+(.+)` returns for it. */
  lemma ScoreWordPlayerReturns(m: string)
    requires AddMatch(ScoreWord, m).Some?
    ensures StartsWith(m, "score")
    ensures PlayerReturns(ScoreName, m)
  {
    ScoreWordDigits(m);
    ScoreNameReturns(m);
  }

  /** `add\s+score…` and `enter\s+score…` match only after the word, whitespace and "score". */
  lemma TwoWordsStart(m: string, w: string)
    requires (w == "add" && AddMatch(AddWords, m).Some?) || (w == "enter" && AddMatch(EnterWords, m).Some?)
    ensures KeywordsMatch(m, w, "score")
  {
  }

  /** `score\s+(\d+)\s+(.+)` puts a digit right after the whitespace that follows "score". */
  lemma ScoreWordDigits(m: string)
    requires AddMatch(ScoreWord, m).Some?
    ensures StartsWith(m, "score") && SpaceRunEnd(m, 5) > 5
    ensures SpaceRunEnd(m, 5) < |m| && IsDigit(m[SpaceRunEnd(m, 5)])
  {
    var b := SpaceRunEnd(m, 5);
    var f, k :| NumberRestSplit(m, b, f, k);
  }

  /** The add-score patterns that start with a keyword. */
  const KeywordAddPatterns := [AddWords, EnterWords, ScoreWord]

  /**
    The classification with the keyword add-score patterns tried before the
    player patterns, so that `add score 150 John` adds a score; the plain
    `(.+)\s+(\d+)` form stays after the player patterns.
   */
  function ClassifyIntended(m: string, season: Option<string>): Command
  {
    if m in HelpWords then Command(Help, NoParams)
    else if m in SeasonWords then Command(ListSeasons, Params(season, None, None, None))
    else
      var t := TeamFrom(TeamPatterns, m, season);
      if t.Some? then t.value
      else
        var k := AddFrom(KeywordAddPatterns, m, season);
        if k.Some? then k.value
        else
          var p := PlayerFrom(PlayerPatterns, m, season);
          if p.Some? then p.value
          else
            var a := AddFrom([NameNumber], m, season);
            if a.Some? then a.value else Command(Unknown, NoParams)
  }

  /** `parse` with the keyword add-score patterns first. */
  function ParseIntended(message: string): Command {
    ClassifyIntended(Cleaned(message), SeasonOf(message))
  }

  /** A line that runs to the end of the text. */
  lemma LineEndAtEnd(m: string, k: int)
    requires 0 <= k <= |m| && forall t :: k <= t < |m| ==> m[t] != '\n'
    ensures LineEnd(m, k) == |m|
    decreases |m| - k
  {
    if k < |m| {
      LineEndAtEnd(m, k + 1);
    }
  }

  /** `(\d+)\s+(.+)` at `i` on digits, one space and a one-line name: the digits and the name. */
  lemma NumberThenName(m: string, i: int, d: string, name: string)
    requires 0 <= i && i + |d| + 1 + |name| == |m|
    requires IsDigits(d) && m[i..i + |d|] == d
    requires m[i + |d|] == ' '
    requires |name| > 0 && !IsSpace(name[0]) && forall j :: 0 <= j < |name| ==> name[j] != '\n'
    requires m[i + |d| + 1..] == name
    ensures NumberThenRest(m, i) == Some((d, name))
  {
    var f := i + |d|;
    assert forall t :: i <= t < f ==> m[t] == d[t - i];
    DigitRunStops(m, i, f);
    assert m[f + 1] == name[0];
    SpaceRunStops(m, f, f + 1);
    assert forall t :: f + 1 <= t < |m| ==> m[t] == name[t - (f + 1)];
    LineEndAtEnd(m, f + 1);
    assert BackOff(m, f, f + 1) == Some(f + 1);
    assert SpaceThenRest(m, f) == Some(f + 1);
    assert RestFrom(m, f + 1) == name;
  }

  /** `add\s+score\s+(\d+)\s+(.+)` on "add score ", digits, one space and a one-line name. */
  lemma AddWordsMatch(m: string, d: string, name: string)
    requires IsDigits(d) && |name| > 0 && !IsSpace(name[0]) && forall i :: 0 <= i < |name| ==> name[i] != '\n'
    requires |m| == 11 + |d| + |name| && m[..10] == "add score "
    requires m[10..10 + |d|] == d && m[10 + |d|] == ' ' && m[11 + |d|..] == name
    ensures AddMatch(AddWords, m) == Some((d, name))
  {
    assert m[..3] == m[..10][..3] == "add";
    assert m[4..9] == m[..10][4..9] == "score";
    assert m[3] == m[..10][3] && m[9] == m[..10][9];
    assert m[4] == m[..10][4];
    assert m[10] == d[0];
    SpaceRunStops(m, 3, 4);
    SpaceRunStops(m, 9, 10);
    assert KeywordsMatch(m, "add", "score");
    NumberThenName(m, 10, d, name);
  }

  /** The add-score form of the help text, `add score N name`, read by the add-score pattern. */
  lemma AddScoreMessage(d: string, name: string)
    requires IsDigits(d) && |name| > 0 && !IsSpace(name[0]) && forall i :: 0 <= i < |name| ==> name[i] != '\n'
    ensures AddMatch(AddWords, "add score " + d + " " + name) == Some((d, name))
  {
    var m := "add score " + d + " " + name;
    assert m[..10] == "add score ";
    assert m[10..10 + |d|] == d && m[10 + |d|] == ' ' && m[11 + |d|..] == name;
    AddWordsMatch(m, d, name);
  }

  /** Which keyword a keyword add-score pattern starts with. */
  lemma KeywordAddStarts(m: string, i: int) returns (w: string)
    requires 0 <= i < |KeywordAddPatterns| && AddMatch(KeywordAddPatterns[i], m).Some?
    ensures w in ["add", "enter", "score"] && StartsWith(m, w)
  {
    w := if i == 0 then "add" else if i == 1 then "enter" else "score";
  }

  /**
    With the keyword add-score patterns first, a message they give a score
    in [0, 300] is ADD_SCORE with that score and name.
   */
  lemma AddScoreIntended(m: string, season: Option<string>)
    requires exists i :: 0 <= i < |KeywordAddPatterns| && AddReturns(KeywordAddPatterns[i], m)
    ensures AddFrom(KeywordAddPatterns, m, season) == Some(ClassifyIntended(m, season))
    ensures ClassifyIntended(m, season).kind == AddScore
  {
    AddFromSome(KeywordAddPatterns, m, season);
    AddFromResult(KeywordAddPatterns, m, season);
    TeamFromPatterns(m, season);
    var i :| 0 <= i < |KeywordAddPatterns| && AddReturns(KeywordAddPatterns[i], m);
    var w := KeywordAddStarts(m, i);
    NotKeyword(m, w);
    NotTeam(m, w);
  }

  /** `add score N name` as written: a player pattern claims it first. */
  lemma AddScoreMessageShadowed(d: string, name: string, season: Option<string>)
    requires IsDigits(d)
    requires |name| > 0 && !IsSpace(name[0]) && forall i :: 0 <= i < |name| ==> name[i] != '\n'
    ensures Classify("add score " + d + " " + name, season).kind == PlayerScores
  {
    AddScoreMessage(d, name);
    KeywordAddShadowed("add score " + d + " " + name, season);
  }

  /** Groups of digits at most 300 and a name, captured by the first keyword pattern, are the add-score result. */
  lemma AddWordsReturns(m: string, d: string, name: string, season: Option<string>)
    requires AddMatch(AddWords, m) == Some((d, name)) && IsDigits(d) && DigitsValue(d) <= 300
    ensures AddReturns(KeywordAddPatterns[0], m)
    ensures AddFrom(KeywordAddPatterns, m, season) == Some(Command(AddScore, Params(season, None, Some(Strip(name)), Some(DigitsValue(d) as int))))
  {
    ParseIntOfDigits(d);
  }

  /** The first keyword add-score pattern reads `add score N name` as score N and the stripped name. */
  lemma AddScoreMessageReturns(d: string, name: string, season: Option<string>)
    requires IsDigits(d) && DigitsValue(d) <= 300
    requires |name| > 0 && !IsSpace(name[0]) && forall i :: 0 <= i < |name| ==> name[i] != '\n'
    ensures AddReturns(KeywordAddPatterns[0], "add score " + d + " " + name)
    ensures AddFrom(KeywordAddPatterns, "add score " + d + " " + name, season)
            == Some(Command(AddScore, Params(season, None, Some(Strip(name)), Some(DigitsValue(d) as int))))
  {
    AddScoreMessage(d, name);
    AddWordsReturns("add score " + d + " " + name, d, name, season);
  }

  /** `add score N name` with N at most 300, under the intended order: ADD_SCORE with score N and the name stripped. */
  lemma AddScoreMessageIntended(d: string, name: string, season: Option<string>)
    requires IsDigits(d) && DigitsValue(d) <= 300
    requires |name| > 0 && !IsSpace(name[0]) && forall i :: 0 <= i < |name| ==> name[i] != '\n'
    ensures ClassifyIntended("add score " + d + " " + name, season)
            == Command(AddScore, Params(season, None, Some(Strip(name)), Some(DigitsValue(d) as int)))
  {
    var m := "add score " + d + " " + name;
    AddScoreMessageReturns(d, name, season);
    AddScoreIntended(m, season);
  }

  /**
    `add score N name` with N at most 300: as written it is PLAYER_SCORES;
    with the keyword add-score patterns first it is ADD_SCORE with score N
    and the name stripped.
   */
  lemma AddScoreMessageClassified(d: string, name: string, season: Option<string>)
    requires IsDigits(d) && DigitsValue(d) <= 300
    requires |name| > 0 && !IsSpace(name[0]) && forall i :: 0 <= i < |name| ==> name[i] != '\n'
    ensures Classify("add score " + d + " " + name, season).kind == PlayerScores
    ensures ClassifyIntended("add score " + d + " " + name, season)
            == Command(AddScore, Params(season, None, Some(Strip(name)), Some(DigitsValue(d) as int)))
  {
    AddScoreMessageShadowed(d, name, season);
    AddScoreMessageIntended(d, name, season);
  }
}
