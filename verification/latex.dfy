/**
 * What the two LaTeX report builders (`reports/texwriter.py` and `reports/tables.py`) share:
 * the Pass/Fail word, the measurement-system table, and the machinery of the sample table
 * (column lookup, cell formatting, the per-row verdict and the fixed frame around the rows).
 *
 * Every builder makes a Python list of lines and answers `'\n'.join(lines)`; the model keeps
 * that list (`...Lines`) and the joined text (`...Tex`). Numbers the package computes as floats
 * (fit error, p-values, residual statistics, areas) reach the builders as already rendered
 * text; table cells are `Cells.Cell` values, and `:.kf` of a whole number is rendered exactly.
 */
module Latex {
  import opened Wrappers
  import opened Text
  import opened Cells

  /** The word the report tables use for a boolean outcome. */
  function PassFail(b: bool): string
  {
    if b then "Pass" else "Fail"
  }

  /** Pass/Fail loses nothing: the word gives back the outcome. */
  lemma PassFailReads(a: bool, b: bool)
    ensures PassFail(a) == "Pass" <==> a
    ensures PassFail(a) == "Fail" <==> !a
    ensures PassFail(a) == PassFail(b) <==> a == b
  {
    assert "Pass"[0] != "Fail"[0];
  }

  /** The end of most table rows: a space, `\\` and `\hline`. */
  const RowEnd := " \\\\\\hline"

  /** The closing of a bold verdict cell. */
  const BoldEnd := "}" + RowEnd

  /** Whatever precedes and follows it, a verdict word reads "Pass" exactly when the outcome holds. */
  lemma VerdictAt(prefix: string, b: bool, tail: string)
    ensures EndsWith(prefix + PassFail(b) + tail, "Pass" + tail) <==> b
    ensures EndsWith(prefix + PassFail(b) + tail, "Fail" + tail) <==> !b
    ensures |prefix| + 4 <= |prefix + PassFail(b) + tail|
    ensures StartsWith((prefix + PassFail(b) + tail)[|prefix|..], "Pass") <==> b
  {
    var s := prefix + PassFail(b) + tail;
    var k := |tail| + 1;
    assert s[|s| - k] == (if b then 's' else 'l');
    assert s[|prefix|] == (if b then 'P' else 'F');
    if EndsWith(s, "Pass" + tail) {
      assert s[|s| - k] == s[|s| - |tail| - 4..][3];
    }
    if EndsWith(s, "Fail" + tail) {
      assert s[|s| - k] == s[|s| - |tail| - 4..][3];
    }
    if StartsWith(s[|prefix|..], "Pass") {
      assert s[|prefix|] == s[|prefix|..][..4][0];
    }
  }

  /** The last cell of a summary row: the outcome in bold, then the row end. */
  function BoldVerdict(b: bool): string
  {
    "\\textbf{" + PassFail(b) + "}" + RowEnd
  }

  /** Whatever precedes it, a row ending in a bold verdict ends in a bold "Pass" exactly when the outcome holds. */
  lemma BoldVerdictEnd(prefix: string, b: bool)
    ensures EndsWith(prefix + BoldVerdict(b), BoldVerdict(true)) <==> b
  {
    var s := prefix + BoldVerdict(b);
    var t := BoldVerdict(true);
    var k := |RowEnd| + 2;
    assert t[|t| - k] == 's';
    assert s[|s| - k] == (if b then 's' else 'l');
    if EndsWith(s, t) {
      assert s[|s| - k] == s[|s| - |t|..][|t| - k];
    }
  }

  /** A line ends in a given verdict word followed by `tail`. */
  predicate Reads(line: string, word: string, tail: string)
  {
    EndsWith(line, word + tail)
  }

  /** Lines both builders' small tables share. */
  const TableStart := "\\begin{table}[ht]\\centering"
  const FourColumns := "\\begin{tabular}{|l|c|c|c|}\\hline"
  const TestHeading := "\\textbf{Test} & \\textbf{Success Criterion} & \\textbf{Outcome} & \\textbf{Pass / Fail} \\\\\\hline"
  const TableEnd := "\\end{table}"
  const AcceptanceCells := "Acceptance of data & $\\Delta SAR \\in [-U, +O]$ & "
  const CreationCaption := "\\caption{Summary of the GPI Model creation outcomes for the measurement system described in Table~\\ref{tab:system}.}"
  const AcceptanceCaption := "\\end{tabular}\\caption{Result for the acceptance criterion.}\\label{tab:acceptance}"
  const FittingCaption := "\\end{tabular}\\caption{Quantification (normalized mean squared error) of the semi-variogram fitting quality, which affects the GPI model quality.} \\label{tab:nrmse}"
  const ParametersStart := "\\begin{table}[h!]\\centering"
  const TwoColumns := "\\begin{tabular}{|l|c|}\\hline"
  const ParameterHeading := "\\textbf{Parameter} & \\textbf{Value} \\\\\\hline"
  const ParametersCaptionLead := "\\caption{Range of the exposure parameter space covered by the test configurations. The GPI model can therefore be considered to be "

  /** The row giving the size of the training data. */
  function SizeRow(sampleSize: int): string
  {
    "Size of training data & " + IntStr(sampleSize) + RowEnd
  }

  /** The caption of the parameter table, naming what the range is for the model. */
  function ParametersCaption(word: string): string
  {
    ParametersCaptionLead + word + " within this range.}"
  }

  /** `ModelMetadata`, the description of the measurement system the reports print. */
  datatype ModelMetadata = ModelMetadata(
    filename: string, systemName: string, manufacturer: string, phantomType: string,
    hardwareVersion: string, softwareVersion: string, acceptanceCriteria: string,
    normalizedRMSError: string)

  /** One `name & {value} \\\hline` row of the measurement-system table. */
  function MetadataRow(name: string, value: string): string
  {
    name + " & {" + value + "}" + RowEnd
  }

  /** The text between the braces of a measurement-system row. */
  function MetadataValue(row: string, name: string): string
    requires |name| + 4 + |RowEnd| + 1 <= |row|
  {
    row[|name| + 4..|row| - |RowEnd| - 1]
  }

  /** A metadata string is printed verbatim: reading the row back gives it unchanged. */
  lemma MetadataRowRoundTrip(name: string, value: string)
    ensures |name| + 4 + |RowEnd| + 1 <= |MetadataRow(name, value)|
    ensures MetadataValue(MetadataRow(name, value), name) == value
  {
    var row := MetadataRow(name, value);
    assert row == name + " & {" + value + "}" + RowEnd;
    assert row[|name| + 4..|row| - |RowEnd| - 1] == value;
  }

  /**
   * The lines of `write_model_metadata_tex`. The list literal lacks a comma after
   * `\end{tabular}`, so Python joins it with the caption into one element.
   */
  function ModelMetadataLines(mm: ModelMetadata): seq<string>
  {
    [ "\\begin{table}[ht]\\centering",
      "\\begin{tabular}{|l|c|}\\hline",
      MetadataRow("Measurement system name", mm.systemName),
      MetadataRow("Manufacturer", mm.manufacturer),
      MetadataRow("Phantom type", mm.phantomType),
      MetadataRow("Hardware version", mm.hardwareVersion),
      MetadataRow("Software version", mm.softwareVersion),
      "\\end{tabular}" + "\\caption{Measurement system analyzed in this report.}",
      "\\label{tab:system}",
      "\\end{table}" ]
  }

  /** `write_model_metadata_tex` (the same text in `texwriter.py` and `tables.py`). */
  function ModelMetadataTex(mm: ModelMetadata): string
  {
    Join(ModelMetadataLines(mm))
  }

  /** The five metadata strings in the order the table prints them. */
  function MetadataFields(mm: ModelMetadata): seq<string>
  {
    [mm.systemName, mm.manufacturer, mm.phantomType, mm.hardwareVersion, mm.softwareVersion]
  }

  const MetadataNames := ["Measurement system name", "Manufacturer", "Phantom type", "Hardware version", "Software version"]

  /**
   * The measurement-system table is ten lines, not eleven (the tabular end and the caption
   * share a line), and lines 2 to 6 give back the five metadata strings verbatim, in order.
   */
  lemma ModelMetadataShape(mm: ModelMetadata)
    ensures var lines := ModelMetadataLines(mm);
      |lines| == 10
      && (forall k :: 0 <= k < 5 ==>
            |MetadataNames[k]| + 4 + |RowEnd| + 1 <= |lines[k + 2]|
            && MetadataValue(lines[k + 2], MetadataNames[k]) == MetadataFields(mm)[k])
      && lines[7] == "\\end{tabular}" + "\\caption{Measurement system analyzed in this report.}"
  {
    var lines := ModelMetadataLines(mm);
    forall k | 0 <= k < 5
      ensures |MetadataNames[k]| + 4 + |RowEnd| + 1 <= |lines[k + 2]|
      ensures MetadataValue(lines[k + 2], MetadataNames[k]) == MetadataFields(mm)[k]
    {
      MetadataRowRoundTrip(MetadataNames[k], MetadataFields(mm)[k]);
    }
  }

  // ---------------------------------------------------------------------------------------
  // The sample table
  // ---------------------------------------------------------------------------------------

  /** The columns a sample table needs, in the order its cells are printed. */
  const Required := ["antenna", "power", "modulation", "par", "bandwidth", "distance", "angle",
                     "x", "y", "sar10g", "u10g", "sard10g", "mpe10g"]

  /**
   * How a cell is written: `"{" + cell + "}"` (string concatenation), `f"{cell}"`,
   * `f"{cell:.kf}"`, or `f"{100 * cell:.kf}"`.
   */
  datatype Format = Braced | Plain | Fixed(places: nat) | Percent(places: nat)

  const ConcatInt := "can only concatenate str (not \"int\") to str"
  const FormatStr := "Unknown format code 'f' for object of type 'str'"

  /** `:.kf` of a whole number: its digits, then a point and `k` zeros when `k > 0`. */
  function FixedText(n: int, places: nat): string
  {
    IntStr(n) + (if places == 0 then "" else "." + Repeat('0', places))
  }

  /**
   * One formatted cell. A number in braces raises `TypeError`, a string under a float format
   * raises `ValueError` (`100 * s` is a string too).
   */
  function FormatCell(c: Cell, f: Format): (r: Result<string>)
    ensures r.Err? <==> (f.Braced? && c.Num?) || ((f.Fixed? || f.Percent?) && c.Str?)
    ensures r.Err? ==> r.msg == (if f.Braced? then ConcatInt else FormatStr)
    ensures f.Braced? && c.Str? ==> r == Ok("{" + c.s + "}")
    ensures f.Plain? ==> r == Ok(if c.Num? then IntStr(c.n) else c.s)
  {
    match f
    case Braced => if c.Str? then Ok("{" + c.s + "}") else Err(ConcatInt)
    case Plain => Ok(if c.Num? then IntStr(c.n) else c.s)
    case Fixed(k) => if c.Num? then Ok(FixedText(c.n, k)) else Err(FormatStr)
    case Percent(k) => if c.Num? then Ok(FixedText(100 * c.n, k)) else Err(FormatStr)
  }

  /** The usable cells of a row: every looked-up column is inside the row and formats. */
  predicate CellsFormat(row: seq<Cell>, idx: seq<nat>, formats: seq<Format>)
    requires |idx| == |formats|
  {
    forall k :: 0 <= k < |idx| ==> idx[k] < |row| && FormatCell(row[idx[k]], formats[k]).Ok?
  }

  /**
   * The cells of a row, each followed by `" & "`, evaluated left to right as the f-string
   * concatenation does: the first column outside the row or failing to format raises.
   */
  function RowCells(row: seq<Cell>, idx: seq<nat>, formats: seq<Format>): (r: Result<string>)
    requires |idx| == |formats|
    ensures r.Ok? <==> CellsFormat(row, idx, formats)
    ensures r.Err? ==> exists k :: 0 <= k < |idx| && (idx[k] >= |row| || FormatCell(row[idx[k]], formats[k]).Err?)
  {
    if |idx| == 0 then Ok("")
    else if idx[0] >= |row| then Err(IndexOutOfRange)
    else match FormatCell(row[idx[0]], formats[0])
      case Err(e) => Err(e)
      case Ok(t) =>
        match RowCells(row, idx[1..], formats[1..])
        case Err(e) => Err(e)
        case Ok(rest) => Ok(t + " & " + rest)
  }

  /** The end of a row whose deviation exceeds the maximum permissible error. */
  const NoMark := "N\t\\\\\\hline"
  /** The end of a row within the maximum permissible error. */
  const YesMark := "Y \\\\\\hline"

  /**
   * One line of the sample table: the formatted cells, then "N" when |sard10g| > mpe10g and
   * "Y" otherwise (the comparison runs after the whole line is formatted).
   */
  function RowLine(row: seq<Cell>, idx: seq<nat>, formats: seq<Format>, sard: nat, mpe: nat): Result<string>
    requires |idx| == |formats|
  {
    match RowCells(row, idx, formats)
    case Err(e) => Err(e)
    case Ok(cells) =>
      match Exceeds(row, sard, mpe)
      case Err(e) => Err(e)
      case Ok(bad) => Ok(cells + (if bad then NoMark else YesMark))
  }

  /** A row line ends in "N" exactly when the row's deviation exceeds its mpe, in "Y" otherwise. */
  lemma RowLineVerdict(row: seq<Cell>, idx: seq<nat>, formats: seq<Format>, sard: nat, mpe: nat)
    requires |idx| == |formats|
    ensures var r := RowLine(row, idx, formats, sard, mpe);
      r.Ok? <==> CellsFormat(row, idx, formats) && Exceeds(row, sard, mpe).Ok?
    ensures var r := RowLine(row, idx, formats, sard, mpe);
      r.Ok? ==>
        (EndsWith(r.value, NoMark) <==> Abs(row[sard].n) > row[mpe].n)
        && (EndsWith(r.value, YesMark) <==> Abs(row[sard].n) <= row[mpe].n)
  {
    var r := RowLine(row, idx, formats, sard, mpe);
    if r.Ok? {
      var s := r.value;
      var bad := Exceeds(row, sard, mpe).value;
      assert |NoMark| == |YesMark| == 10;
      assert s[|s| - 10] == (if bad then 'N' else 'Y');
      if EndsWith(s, NoMark) {
        assert s[|s| - 10] == s[|s| - 10..][0];
      }
      if EndsWith(s, YesMark) {
        assert s[|s| - 10] == s[|s| - 10..][0];
      }
    }
  }

  /** The lines of all rows, in order; the first row that raises aborts the table. */
  function RowLines(rows: seq<seq<Cell>>, idx: seq<nat>, formats: seq<Format>, sard: nat, mpe: nat): (r: Result<seq<string>>)
    requires |idx| == |formats|
    ensures r.Ok? <==> forall i :: 0 <= i < |rows| ==> RowLine(rows[i], idx, formats, sard, mpe).Ok?
    ensures r.Ok? ==>
      |r.value| == |rows|
      && forall i :: 0 <= i < |rows| ==> r.value[i] == RowLine(rows[i], idx, formats, sard, mpe).value
    ensures r.Err? ==>
      exists i :: 0 <= i < |rows| && RowLine(rows[i], idx, formats, sard, mpe) == Err(r.msg)
        && forall j :: 0 <= j < i ==> RowLine(rows[j], idx, formats, sard, mpe).Ok?
  {
    if |rows| == 0 then Ok([])
    else match RowLine(rows[0], idx, formats, sard, mpe)
      case Err(e) => Err(e)
      case Ok(line) =>
        match RowLines(rows[1..], idx, formats, sard, mpe)
        case Err(e) =>
          assert exists i ::
              1 <= i < |rows| && RowLine(rows[i], idx, formats, sard, mpe) == Err(e)
              && forall j :: 0 <= j < i ==> RowLine(rows[j], idx, formats, sard, mpe).Ok? by {
            var i :|
              0 <= i < |rows[1..]| && RowLine(rows[1..][i], idx, formats, sard, mpe) == Err(e)
              && forall j :: 0 <= j < i ==> RowLine(rows[1..][j], idx, formats, sard, mpe).Ok?;
            assert rows[1..][i] == rows[i + 1];
            forall j | 1 <= j < i + 1 ensures RowLine(rows[j], idx, formats, sard, mpe).Ok? {
              assert rows[j] == rows[1..][j - 1];
            }
          }
          Err(e)
        case Ok(rest) =>
          assert forall i :: 1 <= i < |rows| ==> rows[i] == rows[1..][i - 1];
          Ok([line] + rest)
  }

  /** The two heading rows of the sample table, repeated on every page. */
  const SymbolRow := "&\t$P_f$\t&\t\t&\tPAPR\t&\tBW\t&\t$s$\t&\t$\\theta$\t&\t$x$\t&\t$y$\t&\t$SAR$\t&\t$u_{s}$\t&\t$\\Delta SAR$\t&\t$mpe$\t&\tPass \\\\"
  const FirstUnitRow := "ant.\t&\t(dB)\t&\tMod\t&\t(dB)\t&\t(MHz)\t&\t(mm)\t&\t(°)\t&\t(mm)\t&\t(mm)\t&\t(W/kg)\t&\t(\\%)\t&\t(dB)\t&\t(dB)\t&\t?\t\\\\\\hline"
  const UnitRow := "antenna\t&\t(dB)\t&\tMod\t&\t(dB)\t&\t(MHz)\t&\t(mm)\t&\t(°)\t&\t(mm)\t&\t(mm)\t&\t(W/kg)\t&\t(\\%)\t&\t(dB)\t&\t(dB)\t&\t?\t\\\\\\hline"
  const ContinuedFoot := "\\hline \\multicolumn{14}{|r|}{{Continued on next page}} \\\\ \\hline"

  /** The table's opening: 15 lines, the caption on the third and again on the eighth. */
  function Header(caption: string, tag: string): (r: seq<string>)
    ensures |r| == 15 && r[0] == "\\begin{center}"
  {
    [ "\\begin{center}",
      "\\begin{longtable}{|l|c|c|c|c|c|c|c|c|c|c|c|c|c|}",
      "\\caption{" + caption + ".} \\label{" + tag + "} \\\\\\hline",
      SymbolRow,
      FirstUnitRow,
      "\\endfirsthead",
      "\\multicolumn{14}{c}",
      "{{\\tablename\\ \\thetable{} " + caption + " -- continued from previous page}} \\\\\\hline",
      SymbolRow,
      UnitRow,
      "\\endhead",
      ContinuedFoot,
      "\\endfoot",
      "\\hline",
      "\\endlastfoot" ]
  }

  /** The table's closing lines. */
  const Footer := ["\\end{longtable}", "\\end{center}"]

  /** Where the looked-up columns sit: the 13 required ones, then sard10g and mpe10g. */
  datatype Columns = Columns(idx: seq<nat>, sard: nat, mpe: nat)

  /** The column positions are those of the required names in the headings. */
  predicate LocatesRequired(headings: seq<string>, cols: Columns)
  {
    |cols.idx| == |Required|
    && (forall k :: 0 <= k < |Required| ==> cols.idx[k] < |headings| && headings[cols.idx[k]] == Required[k])
    && cols.sard < |headings| && headings[cols.sard] == "sard10g"
    && cols.mpe < |headings| && headings[cols.mpe] == "mpe10g"
  }

  /** The first required column missing from the headings, scanning from `from`. */
  function FirstMissing(headings: seq<string>, from: nat): (r: Option<nat>)
    requires from <= |Required|
    ensures r.Some? ==>
      from <= r.value < |Required| && Required[r.value] !in headings
      && forall k :: from <= k < r.value ==> Required[k] in headings
    ensures r.None? ==> forall k :: from <= k < |Required| ==> Required[k] in headings
    decreases |Required| - from
  {
    if from == |Required| then None
    else if Required[from] !in headings then Some(from)
    else FirstMissing(headings, from + 1)
  }

  /** The first positions of the required columns, once all are known to be present. */
  function Positions(headings: seq<string>, names: seq<string>): (r: seq<nat>)
    requires forall k :: 0 <= k < |names| ==> names[k] in headings
    ensures |r| == |names| && forall k :: 0 <= k < |names| ==> r[k] < |headings| && headings[r[k]] == names[k]
  {
    seq(|names|, k requires 0 <= k < |names| => ColumnIndex(headings, names[k]).value)
  }

  /**
   * The column lookup both builders start with: `headings.index("mpe10g")` and
   * `headings.index("sard10g")` unguarded, then every required column in order; a missing
   * required column gives `missing(name)` as the error.
   */
  function LocateColumns(headings: seq<string>, missing: string -> string): (r: Result<Columns>)
    ensures r.Ok? <==> forall k :: 0 <= k < |Required| ==> Required[k] in headings
    ensures r.Ok? ==> LocatesRequired(headings, r.value)
    ensures "mpe10g" !in headings ==> r == Err(NotInList("mpe10g"))
    ensures "mpe10g" in headings && "sard10g" !in headings ==> r == Err(NotInList("sard10g"))
    ensures "mpe10g" in headings && "sard10g" in headings && r.Err? ==>
      var m := FirstMissing(headings, 0);
      m.Some? && r.msg == missing(Required[m.value])
  {
    assert Required[12] == "mpe10g" && Required[11] == "sard10g";
    match ColumnIndex(headings, "mpe10g")
    case Err(e) => Err(e)
    case Ok(mpe) =>
      match ColumnIndex(headings, "sard10g")
      case Err(e) => Err(e)
      case Ok(sard) =>
        match FirstMissing(headings, 0)
        case Some(k) => Err(missing(Required[k]))
        case None => Ok(Columns(Positions(headings, Required), sard, mpe))
  }

  /**
   * A sample table: the opening lines, one line per row, the closing lines; a missing column
   * or a row that raises gives that error instead. The table opens with `\begin{center}` and
   * has 17 more lines than the data set has rows, the last two closing the long table and the
   * centring.
   */
  function SampleTableLines(headings: seq<string>, rows: seq<seq<Cell>>, caption: string, tag: string,
                            formats: seq<Format>, missing: string -> string): (r: Result<seq<string>>)
    requires |formats| == |Required|
    ensures LocateColumns(headings, missing).Err? ==> r == Err(LocateColumns(headings, missing).msg)
    ensures r.Ok? ==>
      |r.value| == |rows| + 17 && r.value[0] == "\\begin{center}"
      && r.value[|r.value| - 2..] == ["\\end{longtable}", "\\end{center}"]
  {
    match LocateColumns(headings, missing)
    case Err(e) => Err(e)
    case Ok(cols) =>
      match RowLines(rows, cols.idx, formats, cols.sard, cols.mpe)
      case Err(e) => Err(e)
      case Ok(lines) =>
        var all := Header(caption, tag) + lines + Footer;
        assert all[|all| - 2..] == Footer;
        Ok(all)
  }

  /** `'\n'.join` of a sample table, or the error that stopped it. */
  function SampleTableTex(headings: seq<string>, rows: seq<seq<Cell>>, caption: string, tag: string,
                          formats: seq<Format>, missing: string -> string): Result<string>
    requires |formats| == |Required|
  {
    match SampleTableLines(headings, rows, caption, tag, formats, missing)
    case Err(e) => Err(e)
    case Ok(lines) => Ok(Join(lines))
  }

  /**
   * The loop over the required columns: each is looked up in turn and the first one missing
   * raises `missing(name)`; otherwise the positions found are exactly `Positions`.
   */
  method FindColumns(headings: seq<string>, missing: string -> string) returns (r: Result<seq<nat>>)
    ensures r.Ok? <==> forall k :: 0 <= k < |Required| ==> Required[k] in headings
    ensures r.Ok? ==> r.value == Positions(headings, Required)
    ensures r.Err? ==> FirstMissing(headings, 0).Some? && r.msg == missing(Required[FirstMissing(headings, 0).value])
  {
    var idx: seq<nat> := [];
    var k := 0;
    while k < |Required|
      invariant 0 <= k <= |Required|
      invariant forall j :: 0 <= j < k ==> Required[j] in headings
      invariant |idx| == k && forall j :: 0 <= j < k ==> idx[j] == ColumnIndex(headings, Required[j]).value
    {
      var found := ColumnIndex(headings, Required[k]);
      if found.Err? {
        FirstMissingIs(headings, k);
        return Err(missing(Required[k]));
      }
      idx := idx + [found.value];
      k := k + 1;
    }
    assert idx == Positions(headings, Required);
    return Ok(idx);
  }

  /** The first missing column is the one after a run of present ones. */
  lemma FirstMissingIs(headings: seq<string>, k: nat)
    requires k < |Required| && Required[k] !in headings
    requires forall j :: 0 <= j < k ==> Required[j] in headings
    ensures FirstMissing(headings, 0) == Some(k)
  {
  }

  /**
   * The loop over the rows: one line per row, in order, stopping at the first row that raises;
   * the outcome is exactly `RowLines`.
   */
  method FormatRows(rows: seq<seq<Cell>>, idx: seq<nat>, formats: seq<Format>, sard: nat, mpe: nat)
    returns (r: Result<seq<string>>)
    requires |idx| == |formats|
    ensures r == RowLines(rows, idx, formats, sard, mpe)
  {
    var lines: seq<string> := [];
    var i := 0;
    while i < |rows|
      invariant 0 <= i <= |rows|
      invariant |lines| == i
      invariant forall j :: 0 <= j < i ==>
        RowLine(rows[j], idx, formats, sard, mpe).Ok? && lines[j] == RowLine(rows[j], idx, formats, sard, mpe).value
    {
      var line := RowLine(rows[i], idx, formats, sard, mpe);
      if line.Err? {
        return Err(line.msg);
      }
      lines := lines + [line.value];
      i := i + 1;
    }
    var all := RowLines(rows, idx, formats, sard, mpe);
    assert all.Ok?;
    assert all.value == lines;
    return Ok(lines);
  }

  /**
   * The whole of `write_sample_table_tex`: the two unguarded lookups, the column loop, the row
   * loop, then the opening and closing lines around the row lines, joined by newlines.
   */
  method WriteSampleTable(headings: seq<string>, rows: seq<seq<Cell>>, caption: string, tag: string,
                          formats: seq<Format>, missing: string -> string) returns (r: Result<string>)
    requires |formats| == |Required|
    ensures r == SampleTableTex(headings, rows, caption, tag, formats, missing)
  {
    var lines := Header(caption, tag);
    var mpecol := ColumnIndex(headings, "mpe10g");
    if mpecol.Err? {
      return Err(mpecol.msg);
    }
    var sardcol := ColumnIndex(headings, "sard10g");
    if sardcol.Err? {
      return Err(sardcol.msg);
    }
    var idx := FindColumns(headings, missing);
    if idx.Err? {
      return Err(idx.msg);
    }
    var body := FormatRows(rows, idx.value, formats, sardcol.value, mpecol.value);
    if body.Err? {
      return Err(body.msg);
    }
    lines := lines + body.value + Footer;
    return Ok(Join(lines));
  }

  /**
   * The table exists exactly when every required column is present and every row formats and
   * compares, and its line for row `i` ends in "N" exactly when row `i` fails the acceptance
   * criterion |sard10g| <= mpe10g.
   */
  lemma SampleTableVerdicts(headings: seq<string>, rows: seq<seq<Cell>>, caption: string, tag: string,
                            formats: seq<Format>, missing: string -> string)
    requires |formats| == |Required|
    ensures var r := SampleTableLines(headings, rows, caption, tag, formats, missing);
      r.Ok? <==>
        (forall k :: 0 <= k < |Required| ==> Required[k] in headings)
        && var cols := LocateColumns(headings, missing).value;
        forall i :: 0 <= i < |rows| ==> RowLine(rows[i], cols.idx, formats, cols.sard, cols.mpe).Ok?
    ensures var r := SampleTableLines(headings, rows, caption, tag, formats, missing);
      r.Ok? ==>
        var cols := LocateColumns(headings, missing).value;
        forall i :: 0 <= i < |rows| ==>
          r.value[15 + i] == RowLine(rows[i], cols.idx, formats, cols.sard, cols.mpe).value
          && (EndsWith(r.value[15 + i], NoMark) <==> Abs(rows[i][cols.sard].n) > rows[i][cols.mpe].n)
  {
    var r := SampleTableLines(headings, rows, caption, tag, formats, missing);
    if r.Ok? {
      var cols := LocateColumns(headings, missing).value;
      var lines := RowLines(rows, cols.idx, formats, cols.sard, cols.mpe).value;
      var head := Header(caption, tag);
      assert r.value == head + lines + Footer;
      forall i | 0 <= i < |rows|
        ensures r.value[15 + i] == RowLine(rows[i], cols.idx, formats, cols.sard, cols.mpe).value
        ensures EndsWith(r.value[15 + i], NoMark) <==> Abs(rows[i][cols.sard].n) > rows[i][cols.mpe].n
      {
        BetweenHeaderAndFooter(head, lines, Footer, i);
        RowLineVerdict(rows[i], cols.idx, formats, cols.sard, cols.mpe);
      }
    }
  }

  /** Line `15 + i` of a table with a 15-line opening is its `i`-th row line. */
  lemma BetweenHeaderAndFooter(head: seq<string>, lines: seq<string>, foot: seq<string>, i: nat)
    requires |head| == 15 && i < |lines|
    ensures (head + lines + foot)[15 + i] == lines[i]
  {
  }
}
