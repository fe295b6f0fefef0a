/**
  The spreadsheet as the bot sees it through openpyxl: a workbook is an
  ordered list of sheet names and a sheet per name; a sheet is a 1-based grid
  of cells together with its `max_row` and `max_column`. A cell is empty
  (`None`), a number, or a string; the empty string is a string, not an empty
  cell.

  Python's `float(str)` is a parameter `parse` throughout: it returns the
  number a string denotes, or None where Python raises ValueError.
 */
module Cells {
  import opened Wrappers
  import opened Text
  import opened PyNum
  import opened Dict

  datatype Cell = Blank | Num(x: real) | Text(s: string)

  datatype Sheet = Sheet(maxRow: nat, maxCol: nat, cells: map<(int, int), Cell>) {

    /** `sheet.cell(row=r, column=c).value`. */
    function At(r: int, c: int): Cell {
      if (r, c) in cells then cells[(r, c)] else Blank
    }

    /**
      `sheet.cell(row=r, column=c, value=v)`: one cell changes, and the sheet's
      dimensions grow to include it.
     */
    function Write(r: int, c: int, v: Cell): (s: Sheet)
      requires 1 <= r && 1 <= c
      ensures s.At(r, c) == v
      ensures forall r', c' :: (r', c') != (r, c) ==> s.At(r', c') == At(r', c')
      ensures s.maxRow == if r <= maxRow then maxRow else r
      ensures s.maxCol == if c <= maxCol then maxCol else c
    {
      Sheet(if r <= maxRow then maxRow else r, if c <= maxCol then maxCol else c, cells[(r, c) := v])
    }
  }

  /**
    A workbook: its sheets in tab order, keyed by name. `workbook.sheetnames` is
    `Keys(book)` and `workbook[name]` is `Get(book, name)`.
   */
  type Workbook = seq<(string, Sheet)>

  /**
    `value and isinstance(value, str) and value.strip()`: the cell holds a
    string that is not blank.
   */
  predicate HasText(c: Cell) {
    c.Text? && !AllSpace(c.s)
  }

  /** The test as the handler writes it: a non-empty string whose `strip()` is non-empty. */
  lemma HasTextIff(c: Cell)
    ensures HasText(c) <==> c.Text? && c.s != "" && Strip(c.s) != ""
  {
    if c.Text? {
      StripEmpty(c.s);
    }
  }

  /** Python truthiness of a cell value. */
  predicate Truthy(c: Cell) {
    match c
    case Blank => false
    case Num(x) => x != 0.0
    case Text(s) => s != ""
  }

  /** The cell holds a number, or a string that `float()` accepts. */
  predicate Converts(parse: string -> Option<real>, c: Cell) {
    c.Num? || (c.Text? && parse(c.s).Some?)
  }

  /** `safe_float(value, default)` of both the bot and the migration tool. */
  function SafeFloat(parse: string -> Option<real>, c: Cell, default: real): (r: real)
  {
    match c
    case Blank => default
    case Num(x) => x
    case Text(s) => parse(s).GetOr(default)
  }

  /**
    `safe_float` falls back to its default exactly when the value is not a
    number and not a numeric string; otherwise the default plays no part.
   */
  lemma SafeFloatDefault(parse: string -> Option<real>, c: Cell)
    ensures !Converts(parse, c) <==> forall d :: SafeFloat(parse, c, d) == d
    ensures Converts(parse, c) ==> forall d, e :: SafeFloat(parse, c, d) == SafeFloat(parse, c, e)
  {
    if Converts(parse, c) {
      var v := SafeFloat(parse, c, 0.0);
      assert SafeFloat(parse, c, v + 1.0) != v + 1.0;
    }
  }

  /** `safe_int(value, default)`: `int(value)` for numbers, `int(float(value))` for strings. */
  function SafeInt(parse: string -> Option<real>, c: Cell, default: int): (r: int)
  {
    match c
    case Blank => default
    case Num(x) => Trunc(x)
    case Text(s) => if parse(s).Some? then Trunc(parse(s).value) else default
  }

  /**
    Where `safe_float` does not fall back to its default, `safe_int` is its
    truncation toward zero; where it does, so does `safe_int`.
   */
  lemma SafeIntTruncatesSafeFloat(parse: string -> Option<real>, c: Cell, d: int, e: real)
    ensures (c.Blank? || (c.Text? && parse(c.s).None?)) ==>
              SafeInt(parse, c, d) == d && SafeFloat(parse, c, e) == e
    ensures !(c.Blank? || (c.Text? && parse(c.s).None?)) ==>
              SafeInt(parse, c, d) == Trunc(SafeFloat(parse, c, e))
  {
  }

  /** `safe_int` of a number moves it toward zero by less than one. */
  lemma SafeIntOfNumber(parse: string -> Option<real>, x: real, d: int)
    ensures var r := SafeInt(parse, Num(x), d);
            (0.0 <= x ==> 0 <= r && r as real <= x < r as real + 1.0)
            && (x < 0.0 ==> r <= 0 && r as real - 1.0 < x <= r as real)
  {
  }

  /** Sheets whose name starts with "Season", in workbook order (`get_seasons`). */
  function SeasonSheets(names: seq<string>): (r: seq<string>)
    ensures forall n :: n in r <==> n in names && StartsWith(n, "Season")
    ensures |r| <= |names|
  {
    if |names| == 0 then []
    else (if StartsWith(names[0], "Season") then [names[0]] else []) + SeasonSheets(names[1..])
  }

  /**
    The season sheets of two runs of sheets are those of the first run
    followed by those of the second: the filter keeps workbook order.
   */
  lemma {:induction false} SeasonSheetsAppend(a: seq<string>, b: seq<string>)
    ensures SeasonSheets(a + b) == SeasonSheets(a) + SeasonSheets(b)
  {
    if |a| == 0 {
      assert a + b == b;
    } else {
      assert (a + b)[1..] == a[1..] + b;
      SeasonSheetsAppend(a[1..], b);
    }
  }

  /** One sheet is listed, once, exactly when its name starts with "Season". */
  lemma SeasonSheetsOne(name: string)
    ensures SeasonSheets([name]) == if StartsWith(name, "Season") then [name] else []
  {
    assert [name][1..] == [];
  }

  /**
    The season number used to order season sheets:
    `int(name.split()[-1]) if name.split()[-1].isdigit() else 0`.
   */
  function SeasonNumber(name: string): nat
  {
    match LastToken(name)
    case Some(t) => if IsDigits(t) then DigitsValue(t) else 0
    case None => 0
  }

  /** The name's last field is a digit string, so `int(name.split()[-1])` does not raise. */
  predicate HasSeasonNumber(name: string) {
    LastToken(name).Some? && IsDigits(LastToken(name).value)
  }
}
