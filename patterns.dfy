/**
  The regular expressions of the command parser, each as a small matcher with
  Python `re` semantics: `re.match` anchors at the start only (nothing is
  required after the match), `\s` is `str.isspace`, `\d` an ASCII digit, `.`
  any character but a newline, and `+` greedy, backtracking to the longest
  alternative that lets the rest of the pattern match. Each matcher's contract
  states, without the search order, which splits of the text match the
  pattern and which of them the greedy search returns.
 */
module Patterns {
  import opened Wrappers
  import opened Text

  /** Every character of `m[a..b]` is whitespace. */
  predicate Spaces(m: string, a: int, b: int) {
    0 <= a <= b <= |m| && forall t :: a <= t < b ==> IsSpace(m[t])
  }

  /** Every character of `m[a..b]` is a digit. */
  predicate Digits(m: string, a: int, b: int) {
    0 <= a <= b <= |m| && forall t :: a <= t < b ==> IsDigit(m[t])
  }

  /** The end of the whitespace run that starts at `i`. */
  function SpaceRunEnd(m: string, i: int): (r: int)
    requires 0 <= i <= |m|
    ensures Spaces(m, i, r) && (r == |m| || !IsSpace(m[r]))
    decreases |m| - i
  {
    if i < |m| && IsSpace(m[i]) then SpaceRunEnd(m, i + 1) else i
  }

  /** The end of the digit run that starts at `i`. */
  function DigitRunEnd(m: string, i: int): (r: int)
    requires 0 <= i <= |m|
    ensures Digits(m, i, r) && (r == |m| || !IsDigit(m[r]))
    decreases |m| - i
  {
    if i < |m| && IsDigit(m[i]) then DigitRunEnd(m, i + 1) else i
  }

  /** A whitespace run that stops at `e` is the maximal run. */
  lemma SpaceRunStops(m: string, a: int, e: int)
    requires Spaces(m, a, e) && (e == |m| || !IsSpace(m[e]))
    ensures e == SpaceRunEnd(m, a)
    decreases e - a
  {
    if a < e {
      SpaceRunStops(m, a + 1, e);
    }
  }

  /** A digit run that stops at `f` is the maximal run. */
  lemma DigitRunStops(m: string, a: int, f: int)
    requires Digits(m, a, f) && (f == |m| || !IsDigit(m[f]))
    ensures f == DigitRunEnd(m, a)
    decreases f - a
  {
    if a < f {
      DigitRunStops(m, a + 1, f);
    }
  }

  /** No digit run from `a` is longer than the maximal one. */
  lemma DigitRunLongest(m: string, a: int, f: int)
    requires Digits(m, a, f)
    ensures f <= DigitRunEnd(m, a)
    decreases f - a
  {
    if a < f {
      DigitRunLongest(m, a + 1, f);
    }
  }

  /** The end of the line that `i` is on: what a greedy `.+` from `i` can reach. */
  function LineEnd(m: string, i: int): (r: int)
    requires 0 <= i <= |m|
    ensures i <= r <= |m| && (forall t :: i <= t < r ==> m[t] != '\n') && (r == |m| || m[r] == '\n')
    decreases |m| - i
  {
    if i < |m| && m[i] != '\n' then LineEnd(m, i + 1) else i
  }

  // ---------------------------------------------------------------------------
  // `\s+(.+)` after a fixed prefix

  /** `\s+` covers `m[a..k]` and `(.+)` can start at `k`. */
  predicate RestSplit(m: string, a: int, k: int) {
    0 <= a < k < |m| && m[k] != '\n' && Spaces(m, a, k)
  }

  /** The largest `k` in (lo, j] at which `.` can match. */
  function BackOff(m: string, lo: int, j: int): (r: Option<int>)
    requires 0 <= lo <= j <= |m|
    ensures r.Some? ==> lo < r.value <= j && r.value < |m| && m[r.value] != '\n'
                        && forall k :: r.value < k <= j ==> k == |m| || m[k] == '\n'
    ensures r.None? ==> forall k :: lo < k <= j ==> k == |m| || m[k] == '\n'
    decreases j
  {
    if j <= lo then None
    else if j < |m| && m[j] != '\n' then Some(j)
    else BackOff(m, lo, j - 1)
  }

  /**
    `\s+(.+)` at position `a`: the greedy `\s+` gives back whitespace until `.`
    can match, and the capture runs to the end of that line.
   */
  function SpaceThenRest(m: string, a: int): (r: Option<int>)
    requires 0 <= a <= |m|
    ensures r.Some? <==> exists k :: RestSplit(m, a, k)
    ensures r.Some? ==> RestSplit(m, a, r.value) && forall k :: r.value < k ==> !RestSplit(m, a, k)
  {
    var e := SpaceRunEnd(m, a);
    var r := BackOff(m, a, e);
    if r.Some? then
      assert RestSplit(m, a, r.value);
      r
    else
      assert forall k :: !RestSplit(m, a, k);
      None
  }

  /** The capture `(.+)` that starts at `k`. */
  function RestFrom(m: string, k: int): (g: string)
    requires 0 <= k < |m| && m[k] != '\n'
    ensures |g| > 0 && forall t :: 0 <= t < |g| ==> g[t] != '\n'
  {
    m[k..LineEnd(m, k)]
  }

  /** `re.match(kw + r'\s+(.+)', m)`: the capture, if the pattern matches. */
  function KeywordRest(m: string, kw: string): (r: Option<string>)
    ensures r.Some? <==> StartsWith(m, kw) && exists k :: RestSplit(m, |kw|, k)
    ensures r.Some? ==> |r.value| > 0
    ensures r.Some? ==> exists k :: RestSplit(m, |kw|, k) && r.value == RestFrom(m, k)
                                    && forall k' :: k < k' ==> !RestSplit(m, |kw|, k')
  {
    if !StartsWith(m, kw) then None
    else
      var k := SpaceThenRest(m, |kw|);
      if k.Some? then Some(RestFrom(m, k.value)) else None
  }

  // ---------------------------------------------------------------------------
  // `(.+)\s+lit`

  /** `(.+)` covers `m[..j]`, `\s+` covers `m[j..e]` and `lit` starts at `e`. */
  predicate LitSplit(m: string, lit: string, j: int, e: int) {
    1 <= j <= LineEnd(m, 0) && j < e && Spaces(m, j, e) && OccursAt(m, lit, e)
  }

  /** The largest `j` <= `hi` such that `m[..j]` is followed by whitespace and `lit`. */
  function LastLitSplit(m: string, lit: string, hi: int): (r: Option<int>)
    requires |lit| > 0 && !IsSpace(lit[0])
    requires 0 <= hi <= LineEnd(m, 0)
    ensures r.Some? ==> 1 <= r.value <= hi && LitSplit(m, lit, r.value, SpaceRunEnd(m, r.value))
    ensures forall j, e :: LitSplit(m, lit, j, e) && j <= hi ==> r.Some? && j <= r.value
    decreases hi
  {
    if hi < 1 then None
    else
      var e := SpaceRunEnd(m, hi);
      if e > hi && OccursAt(m, lit, e) then Some(hi)
      else
        assert forall e' :: !LitSplit(m, lit, hi, e');
        LastLitSplit(m, lit, hi - 1)
  }

  /** `re.match(r'(.+)\s+' + lit, m)`: the capture, if the pattern matches. */
  function PrefixBefore(m: string, lit: string): (r: Option<string>)
    requires |lit| > 0 && !IsSpace(lit[0])
    ensures r.Some? <==> exists j, e :: LitSplit(m, lit, j, e)
    ensures r.Some? ==> (exists e :: LitSplit(m, lit, |r.value|, e)) && r.value == m[..|r.value|]
                        && forall j, e :: LitSplit(m, lit, j, e) ==> j <= |r.value|
  {
    var j := LastLitSplit(m, lit, LineEnd(m, 0));
    if j.Some? then Some(m[..j.value]) else None
  }

  /** `re.match(kw + r'\s+' + lit, m)`, as in `my\s+score`. */
  predicate KeywordsMatch(m: string, kw: string, lit: string)
    requires |lit| > 0 && !IsSpace(lit[0])
  {
    StartsWith(m, kw) && SpaceRunEnd(m, |kw|) > |kw| && OccursAt(m, lit, SpaceRunEnd(m, |kw|))
  }

  // ---------------------------------------------------------------------------
  // `(\d+)\s+(.+)` and `(.+)\s+(\d+)`

  /** `(\d+)` covers `m[i..f]` and `\s+(.+)` splits at `k`. */
  predicate NumberRestSplit(m: string, i: int, f: int, k: int) {
    i < f && Digits(m, i, f) && RestSplit(m, f, k)
  }

  /**
    `(\d+)\s+(.+)` at position `i`: the digits must run to the whitespace, and
    the text capture is as for `\s+(.+)`.
   */
  function NumberThenRest(m: string, i: int): (r: Option<(string, string)>)
    requires 0 <= i <= |m|
    ensures r.Some? <==> exists f, k :: NumberRestSplit(m, i, f, k)
    ensures r.Some? ==> exists f, k :: NumberRestSplit(m, i, f, k) && r.value == (m[i..f], RestFrom(m, k))
                                       && forall f', k' :: NumberRestSplit(m, i, f', k') ==> f' == f && k' <= k
  {
    var f := DigitRunEnd(m, i);
    var k := SpaceThenRest(m, f);
    NumberRestForced(m, i);
    if f > i && k.Some? then
      assert NumberRestSplit(m, i, f, k.value);
      Some((m[i..f], RestFrom(m, k.value)))
    else None
  }

  /** The digits of `(\d+)\s+` are the whole digit run. */
  lemma NumberRestForced(m: string, i: int)
    requires 0 <= i <= |m|
    ensures forall f, k :: NumberRestSplit(m, i, f, k) ==> f == DigitRunEnd(m, i)
  {
    forall f, k | NumberRestSplit(m, i, f, k) ensures f == DigitRunEnd(m, i) {
      DigitRunStops(m, i, f);
    }
  }

  /** `(.+)` covers `m[..j]`, `\s+` covers `m[j..e]` and `(\d+)` covers `m[e..f]`. */
  predicate RestNumberSplit(m: string, j: int, e: int, f: int) {
    1 <= j <= LineEnd(m, 0) && j < e < f && Spaces(m, j, e) && Digits(m, e, f)
  }

  /** The largest `j` <= `hi` such that `m[..j]` is followed by whitespace and a digit. */
  function LastNumberSplit(m: string, hi: int): (r: Option<int>)
    requires 0 <= hi <= LineEnd(m, 0)
    ensures r.Some? ==> 1 <= r.value <= hi && SpaceRunEnd(m, r.value) > r.value
                        && SpaceRunEnd(m, r.value) < |m| && IsDigit(m[SpaceRunEnd(m, r.value)])
    ensures forall j, e, f :: RestNumberSplit(m, j, e, f) && j <= hi ==> r.Some? && j <= r.value
    decreases hi
  {
    if hi < 1 then None
    else
      var e := SpaceRunEnd(m, hi);
      if e > hi && e < |m| && IsDigit(m[e]) then Some(hi)
      else
        RestNumberForced(m, hi);
        LastNumberSplit(m, hi - 1)
  }

  /** The whitespace of `\s+(\d+)` is the whole run, and the digits are at most the whole run. */
  lemma RestNumberForced(m: string, j: int)
    requires 0 <= j <= |m|
    ensures forall e, f :: RestNumberSplit(m, j, e, f) ==> e == SpaceRunEnd(m, j) && f <= DigitRunEnd(m, e)
  {
    forall e, f | RestNumberSplit(m, j, e, f) ensures e == SpaceRunEnd(m, j) && f <= DigitRunEnd(m, e) {
      SpaceRunStops(m, j, e);
      DigitRunLongest(m, e, f);
    }
  }

  /**
    `re.match(r'(.+)\s+(\d+)', m)`: the longest text capture that whitespace and
    a digit follow, and then the longest run of digits.
   */
  function RestThenNumber(m: string): (r: Option<(string, string)>)
    ensures r.Some? <==> exists j, e, f :: RestNumberSplit(m, j, e, f)
    ensures r.Some? ==> exists j, e, f :: RestNumberSplit(m, j, e, f) && r.value == (m[..j], m[e..f])
                                          && forall j', e', f' :: RestNumberSplit(m, j', e', f') ==>
                                                                    j' <= j && (j' == j ==> f' <= f)
  {
    var j := LastNumberSplit(m, LineEnd(m, 0));
    if j.Some? then
      var e := SpaceRunEnd(m, j.value);
      var f := DigitRunEnd(m, e);
      assert RestNumberSplit(m, j.value, e, f);
      RestNumberForced(m, j.value);
      Some((m[..j.value], m[e..f]))
    else None
  }

  /**
    `re.match(w1 + r'\s+' + w2 + r'\s+(\d+)\s+(.+)', m)`, as in
    `add\s+score\s+(\d+)\s+(.+)`: both captures, if it matches.
   */
  function TwoWordsNumberRest(m: string, w1: string, w2: string): Option<(string, string)>
    requires |w2| > 0 && !IsSpace(w2[0])
  {
    if !KeywordsMatch(m, w1, w2) then None
    else
      var a := SpaceRunEnd(m, |w1|) + |w2|;
      var b := SpaceRunEnd(m, a);
      if b > a then NumberThenRest(m, b) else None
  }

  /** `re.match(w + r'\s+(\d+)\s+(.+)', m)`, as in `score\s+(\d+)\s+(.+)`. */
  function WordNumberRest(m: string, w: string): Option<(string, string)>
  {
    if !StartsWith(m, w) then None
    else
      var b := SpaceRunEnd(m, |w|);
      if b > |w| then NumberThenRest(m, b) else None
  }

  // ---------------------------------------------------------------------------
  // The season patterns, `\bseason\s+(\d+)\b` and `\bs(\d+)\b`, case-insensitive

  datatype SeasonPattern = LongForm | ShortForm

  /** `\b` before a word character at `p`. */
  predicate WordStart(s: string, p: int)
    requires 0 <= p <= |s|
  {
    p == 0 || !IsWord(s[p - 1])
  }

  /** `\b` after a word character ending at `f`. */
  predicate WordEnd(s: string, f: int)
    requires 0 <= f <= |s|
  {
    f == |s| || !IsWord(s[f])
  }

  /** The text before the digits matches at `p` and the digits may start at `e`. */
  predicate SeasonHead(pat: SeasonPattern, s: string, p: int, e: int) {
    0 <= p <= |s| && WordStart(s, p) &&
    match pat
    case LongForm => p + 6 < e <= |s| && Lower(s[p..p + 6]) == "season" && Spaces(s, p + 6, e)
    case ShortForm => p < |s| && LowerChar(s[p]) == 's' && e == p + 1
  }

  /** The pattern matches at `p` with its digit group `s[e..f]`. */
  predicate SeasonSplit(pat: SeasonPattern, s: string, p: int, e: int, f: int) {
    SeasonHead(pat, s, p, e) && e < f && Digits(s, e, f) && WordEnd(s, f)
  }

  /** The span of the digit group when the pattern matches at `p`; no other split matches there. */
  function SeasonMatchAt(pat: SeasonPattern, s: string, p: int): (r: Option<(int, int)>)
    requires 0 <= p <= |s|
    ensures r.Some? ==> SeasonSplit(pat, s, p, r.value.0, r.value.1)
    ensures forall e, f :: SeasonSplit(pat, s, p, e, f) ==> r == Some((e, f))
  {
    var e := if pat.LongForm? then (if p + 6 <= |s| then SpaceRunEnd(s, p + 6) else p) else p + 1;
    SeasonSplitForced(pat, s, p);
    if !SeasonHead(pat, s, p, e) || e > |s| then None
    else
      var f := DigitRunEnd(s, e);
      if f > e && WordEnd(s, f) then Some((e, f)) else None
  }

  /** At a given position the whitespace and the digits of a season pattern are whole runs. */
  lemma SeasonSplitForced(pat: SeasonPattern, s: string, p: int)
    requires 0 <= p <= |s|
    ensures forall e, f :: SeasonSplit(pat, s, p, e, f) ==>
              e == (if pat.LongForm? then SpaceRunEnd(s, p + 6) else p + 1) && f == DigitRunEnd(s, e)
  {
    forall e, f | SeasonSplit(pat, s, p, e, f)
      ensures e == (if pat.LongForm? then SpaceRunEnd(s, p + 6) else p + 1) && f == DigitRunEnd(s, e)
    {
      if pat.LongForm? { SpaceRunStops(s, p + 6, e); }
      DigitRunStops(s, e, f);
    }
  }

  /** `re.search` from position `q`: the leftmost position at or after `q` where the pattern matches. */
  function Search(pat: SeasonPattern, s: string, q: int): (r: Option<int>)
    requires 0 <= q <= |s|
    ensures r.Some? ==> q <= r.value <= |s| && SeasonMatchAt(pat, s, r.value).Some?
                        && forall p :: q <= p < r.value ==> SeasonMatchAt(pat, s, p).None?
    ensures r.None? ==> forall p :: q <= p <= |s| ==> SeasonMatchAt(pat, s, p).None?
    decreases |s| - q
  {
    if SeasonMatchAt(pat, s, q).Some? then Some(q)
    else if q == |s| then None
    else Search(pat, s, q + 1)
  }

  /**
    `re.sub(pattern, '', s)` from position `q`: every non-overlapping match,
    leftmost first, is deleted; `\b` still looks at the characters around
    each match in `s`.
   */
  function RemoveFrom(pat: SeasonPattern, s: string, q: int): (r: string)
    requires 0 <= q <= |s|
    ensures |r| <= |s| - q
    decreases |s| - q
  {
    var p := Search(pat, s, q);
    if p.None? then s[q..]
    else
      var f := SeasonMatchAt(pat, s, p.value).value.1;
      s[q..p.value] + RemoveFrom(pat, s, f)
  }

  /** A text without any match is left as it is. */
  lemma RemoveNothing(pat: SeasonPattern, s: string)
    requires Search(pat, s, 0).None?
    ensures RemoveFrom(pat, s, 0) == s
  {
  }

  /** A match deletes at least one character. */
  lemma RemoveShortens(pat: SeasonPattern, s: string)
    requires Search(pat, s, 0).Some?
    ensures |RemoveFrom(pat, s, 0)| < |s|
  {
    var p := Search(pat, s, 0).value;
    var f := SeasonMatchAt(pat, s, p).value.1;
    assert |RemoveFrom(pat, s, 0)| == p + |RemoveFrom(pat, s, f)|;
  }

  // ---------------------------------------------------------------------------
  // `re.sub(r'\s+', ' ', t)`

  /** Every run of whitespace becomes a single space. */
  function Collapse(t: string): (r: string)
    ensures |r| <= |t|
    decreases |t|
  {
    if |t| == 0 then []
    else if IsSpace(t[0]) then
      var rest := StripLeft(t);
      [' '] + Collapse(rest)
    else [t[0]] + Collapse(t[1..])
  }

  /** Single spaces between words: no other whitespace, no spaces at the ends, none doubled. */
  predicate SingleSpaced(r: string) {
    && (forall i :: 0 <= i < |r| ==> IsSpace(r[i]) ==> r[i] == ' ')
    && (forall i :: 0 <= i < |r| - 1 ==> !(r[i] == ' ' && r[i + 1] == ' '))
    && (|r| > 0 ==> r[0] != ' ' && r[|r| - 1] != ' ')
  }

  /** `Collapse(t)` holds no whitespace but single spaces. */
  lemma {:induction false} CollapseSpaces(t: string)
    ensures forall i :: 0 <= i < |Collapse(t)| ==> IsSpace(Collapse(t)[i]) ==> Collapse(t)[i] == ' '
    ensures forall i :: 0 <= i < |Collapse(t)| - 1 ==> !(Collapse(t)[i] == ' ' && Collapse(t)[i + 1] == ' ')
    decreases |t|
  {
    if |t| > 0 {
      if IsSpace(t[0]) {
        var rest := StripLeft(t);
        CollapseSpaces(rest);
        CollapseEnds(rest);
      } else {
        CollapseSpaces(t[1..]);
      }
    }
  }

  /** `Collapse(t)` starts or ends with a space exactly when `t` starts or ends with whitespace. */
  lemma {:induction false} CollapseEnds(t: string)
    ensures |Collapse(t)| > 0 <==> |t| > 0
    ensures |t| > 0 ==> (Collapse(t)[0] == ' ' <==> IsSpace(t[0]))
    ensures |t| > 0 ==> (Collapse(t)[|Collapse(t)| - 1] == ' ' <==> IsSpace(t[|t| - 1]))
    decreases |t|
  {
    if |t| > 0 {
      if IsSpace(t[0]) {
        var rest := StripLeft(t);
        CollapseEnds(rest);
        StripLeftSuffix(t);
        if |rest| == 0 {
          assert Collapse(t) == [' '];
        } else {
          assert t[|t| - 1] == rest[|rest| - 1];
        }
      } else {
        CollapseEnds(t[1..]);
        if |t| == 1 {
          assert Collapse(t) == [t[0]];
        }
      }
    }
  }

  /** Collapsing the whitespace of a stripped text leaves it single-spaced. */
  lemma CollapseStripped(t: string)
    ensures SingleSpaced(Collapse(Strip(t)))
  {
    CollapseSpaces(Strip(t));
    CollapseEnds(Strip(t));
  }
}
