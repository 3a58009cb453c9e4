/**
 * Values of the sample tables the server keeps (`headings` and `rows`), with the few Python
 * operations the server applies to them: `repr`, `list.index`, and the acceptance comparison
 * `fabs(row[sardcol]) > row[mpecol]`.
 */
module Cells {
  import opened Wrappers
  import opened Text

  /** A table value: the sample tables hold numbers and strings. */
  datatype Cell = Num(n: int) | Str(s: string)

  function Abs(x: int): nat
  {
    if x < 0 then -x else x
  }

  /** The characters Python escapes inside a quoted string: backslash, quote and newline. */
  function Escape(s: string): (r: string)
    ensures Free(r, '\n')
  {
    if |s| == 0 then ""
    else
      var c := s[|s| - 1];
      Escape(s[..|s| - 1])
      + (if c == '\n' then "\\n" else if c == '\\' then "\\\\" else if c == '\'' then "\\'" else [c])
  }

  /** Python's `repr` of a cell: a number in decimal, a string quoted and escaped. */
  function Repr(c: Cell): (r: string)
    ensures Free(r, '\n')
  {
    match c
    case Num(n) =>
      assert forall i :: 0 <= i < |NatStr(Abs(n))| ==> IsDigit(NatStr(Abs(n))[i]);
      IntStr(n)
    case Str(s) => "'" + Escape(s) + "'"
  }

  /** `str(values).strip("[]")`: the reprs of the items separated by ", ", on one line. */
  function ListText(cs: seq<Cell>): (r: string)
    ensures Free(r, '\n')
  {
    if |cs| == 0 then ""
    else if |cs| == 1 then Repr(cs[0])
    else ListText(cs[..|cs| - 1]) + ", " + Repr(cs[|cs| - 1])
  }

  /** A list of strings as cells (the headings). */
  function Strs(ss: seq<string>): (r: seq<Cell>)
    ensures |r| == |ss| && forall i :: 0 <= i < |ss| ==> r[i] == Str(ss[i])
  {
    seq(|ss|, i requires 0 <= i < |ss| => Str(ss[i]))
  }

  /** `k` zero cells: the values appended to every row when a column is added. */
  function Zeros(k: nat): (r: seq<Cell>)
    ensures |r| == k && forall i :: 0 <= i < k ==> r[i] == Num(0)
  {
    seq(k, _ => Num(0))
  }

  /** Every row extended with `k` zeros. */
  function PadRows(rows: seq<seq<Cell>>, k: nat): (r: seq<seq<Cell>>)
    ensures |r| == |rows| && forall i :: 0 <= i < |rows| ==> r[i] == rows[i] + Zeros(k)
  {
    seq(|rows|, i requires 0 <= i < |rows| => rows[i] + Zeros(k))
  }

  /** Python's `list.index`: the first position of `x`, or `None` when `x` is absent. */
  function IndexOf<T(==)>(xs: seq<T>, x: T): (r: Option<nat>)
    ensures r.Some? ==> r.value < |xs| && xs[r.value] == x && x !in xs[..r.value]
    ensures r.None? <==> x !in xs
  {
    if |xs| == 0 then None
    else if xs[0] == x then Some(0)
    else match IndexOf(xs[1..], x)
      case None => None
      case Some(i) =>
        assert xs[..i + 1] == [xs[0]] + xs[1..][..i];
        Some(i + 1)
  }

  /** The text of the `ValueError` raised by `list.index` for a missing string. */
  function NotInList(x: string): string
  {
    "'" + x + "' is not in list"
  }

  /** `headings.index(name)`, raising `ValueError` when the column is absent. */
  function ColumnIndex(headings: seq<string>, name: string): (r: Result<nat>)
    ensures r.Ok? <==> name in headings
    ensures r.Ok? ==> r.value < |headings| && headings[r.value] == name && name !in headings[..r.value]
    ensures r.Err? ==> r.msg == NotInList(name)
  {
    match IndexOf(headings, name)
    case None => Err(NotInList(name))
    case Some(i) => Ok(i)
  }

  const IndexOutOfRange := "list index out of range"
  const FabsOfStr := "must be real number, not str"
  const CompareWithStr := "'>' not supported between instances of 'float' and 'str'"

  /**
   * `fabs(row[sard]) > row[mpe]` as Python evaluates it: the sard cell is read and converted
   * first, then the mpe cell; a missing cell raises `IndexError`, a string raises `TypeError`.
   */
  function Exceeds(row: seq<Cell>, sard: nat, mpe: nat): (r: Result<bool>)
    ensures r.Ok? <==> sard < |row| && mpe < |row| && row[sard].Num? && row[mpe].Num?
    ensures r.Ok? ==> (r.value <==> Abs(row[sard].n) > row[mpe].n)
  {
    if sard >= |row| then Err(IndexOutOfRange)
    else if !row[sard].Num? then Err(FabsOfStr)
    else if mpe >= |row| then Err(IndexOutOfRange)
    else if !row[mpe].Num? then Err(CompareWithStr)
    else Ok(Abs(row[sard].n) > row[mpe].n)
  }

  /** The rendered rows of a table, one line each. */
  function RowTexts(rows: seq<seq<Cell>>): (r: seq<string>)
    ensures |r| == |rows| && forall i :: 0 <= i < |rows| ==> r[i] == ListText(rows[i])
  {
    seq(|rows|, i requires 0 <= i < |rows| => ListText(rows[i]))
  }

  /**
   * The text the `xport` endpoints answer: the rendered headings, then a newline and the
   * rendered row for every row, appended one row at a time.
   */
  function ExportText(headings: seq<string>, rows: seq<seq<Cell>>): string
  {
    if |rows| == 0 then ListText(Strs(headings))
    else ExportText(headings, rows[..|rows| - 1]) + "\n" + ListText(rows[|rows| - 1])
  }

  /** The export is the heading line and the row lines joined by newlines. */
  lemma {:induction false} ExportTextJoin(headings: seq<string>, rows: seq<seq<Cell>>)
    ensures ExportText(headings, rows) == Join([ListText(Strs(headings))] + RowTexts(rows))
  {
    var lines := [ListText(Strs(headings))] + RowTexts(rows);
    if |rows| > 0 {
      var init := rows[..|rows| - 1];
      ExportTextJoin(headings, init);
      assert lines[..|lines| - 1] == [ListText(Strs(headings))] + RowTexts(init);
    }
  }

  /**
   * The export has one line per row after the heading line: splitting it on newlines gives
   * back the heading text and each row's text, in order.
   */
  lemma ExportLines(headings: seq<string>, rows: seq<seq<Cell>>)
    ensures Split(ExportText(headings, rows), '\n') == [ListText(Strs(headings))] + RowTexts(rows)
    ensures |Split(ExportText(headings, rows), '\n')| == |rows| + 1
  {
    var lines := [ListText(Strs(headings))] + RowTexts(rows);
    forall k | 0 <= k < |lines| ensures Free(lines[k], '\n') {
      if k > 0 {
        assert lines[k] == ListText(rows[k - 1]);
      }
    }
    ExportTextJoin(headings, rows);
    SplitJoin(lines, '\n');
  }
}
