/**
 * The report fragments of `reports/tables.py`, the creation-stage report: the creation
 * summary, the parameter table, the acceptance and fitting tables, and the sample table.
 * The measurement-system table is `Latex.ModelMetadataLines`, identical in both builders.
 */
module Tables {
  import opened Wrappers
  import opened Text
  import opened Cells
  import opened Latex
  import SampleData

  // ----- The model-fitting row -----

  const FittingLead := "Model fitting & $nrmse "

  /** The rest of the fitting row between the comparator and the verdict. */
  function FittingMiddle(gfval: string): string
  {
    "$ 25~\\%  & " + gfval + "~\\%   & \\textbf{"
  }

  /**
   * The comparator as written, `("<" if gfok else ">")`: `gfok` is already the word "Pass"
   * or "Fail", and a non-empty string is true.
   */
  function ComparatorAsWritten(gfok: string): string
  {
    if gfok != "" then "<" else ">"
  }

  function FittingRowAsWritten(gfres: (bool, real), gfval: string): string
  {
    FittingLead + ComparatorAsWritten(PassFail(gfres.0)) + FittingMiddle(gfval) + PassFail(gfres.0) + BoldEnd
  }

  /**
   * As written, the row always states `nrmse < 25 %`: a failed fit is reported with the
   * criterion it failed shown as met.
   */
  lemma FittingComparatorAlwaysLess(gfres: (bool, real), gfval: string)
    ensures var row := FittingRowAsWritten(gfres, gfval);
      |FittingLead| < |row| && row[|FittingLead|] == '<'
    ensures !gfres.0 ==> Reads(FittingRowAsWritten(gfres, gfval), "Fail", BoldEnd)
  {
    var p := FittingLead + ComparatorAsWritten(PassFail(gfres.0)) + FittingMiddle(gfval);
    var row := p + PassFail(gfres.0) + BoldEnd;
    assert row[|FittingLead|] == ComparatorAsWritten(PassFail(gfres.0))[0];
    if !gfres.0 {
      assert row[|row| - |BoldEnd| - 4..] == "Fail" + BoldEnd;
    }
  }

  /** The comparator as evidently intended: `<` when the fit passed, `>` when it failed. */
  function Comparator(ok: bool): string
  {
    if ok then "<" else ">"
  }

  function FittingRow(gfres: (bool, real), gfval: string): string
  {
    FittingLead + Comparator(gfres.0) + FittingMiddle(gfval) + PassFail(gfres.0) + BoldEnd
  }

  /** With the corrected comparator the row states `<` exactly when its verdict is "Pass". */
  lemma FittingRowConsistent(gfres: (bool, real), gfval: string)
    ensures var row := FittingRow(gfres, gfval);
      |FittingLead| < |row|
      && (row[|FittingLead|] == '<' <==> gfres.0)
      && (row[|FittingLead|] == '<' <==> Reads(row, "Pass", BoldEnd))
  {
    var p := FittingLead + Comparator(gfres.0) + FittingMiddle(gfval);
    var row := p + PassFail(gfres.0) + BoldEnd;
    assert row[|FittingLead|] == Comparator(gfres.0)[0];
    VerdictAt(p, gfres.0, BoldEnd);
  }

  /** As written, the fitting row still reads "Pass" exactly when the fit is good. */
  lemma FittingRowAsWrittenReads(gfres: (bool, real), gfval: string)
    ensures Reads(FittingRowAsWritten(gfres, gfval), "Pass", BoldEnd) <==> gfres.0
  {
    VerdictAt(FittingLead + ComparatorAsWritten(PassFail(gfres.0)) + FittingMiddle(gfval), gfres.0, BoldEnd);
  }

  // ----- Tables -----

  /** The acceptance row of the creation summary: a bold verdict. */
  function SummaryAcceptanceRow(accepted: bool): string
  {
    AcceptanceCells + "See Table~\\ref{tab:acceptance}& \\textbf{" + PassFail(accepted) + BoldEnd
  }

  lemma SummaryAcceptanceReads(accepted: bool)
    ensures Reads(SummaryAcceptanceRow(accepted), "Pass", BoldEnd) <==> accepted
  {
    VerdictAt(AcceptanceCells + "See Table~\\ref{tab:acceptance}& \\textbf{", accepted, BoldEnd);
  }

  /** The creation summary around a given fitting row. */
  function CreationSummaryAround(accepted: bool, fitting: string): seq<string>
  {
    [ TableStart,
      FourColumns,
      TestHeading,
      SummaryAcceptanceRow(accepted),
      fitting,
      "\\end{tabular}",
      CreationCaption,
      "\\label{tab:summary}",
      TableEnd ]
  }

  /** `write_model_creation_summary_tex` as written: its fitting row always shows `<`. */
  function CreationSummaryLines(data: SampleData.Goodfit, gfval: string): seq<string>
  {
    CreationSummaryAround(data.accept, FittingRowAsWritten(data.gfres, gfval))
  }

  /**
   * Nine lines; both rows read "Pass" exactly on their own verdicts, while the fitting row
   * shows `<` whatever the fit.
   */
  lemma CreationSummaryVerdicts(data: SampleData.Goodfit, gfval: string)
    ensures var lines := CreationSummaryLines(data, gfval);
      |lines| == 9
      && (Reads(lines[3], "Pass", BoldEnd) <==> data.accept)
      && (Reads(lines[4], "Pass", BoldEnd) <==> data.gfres.0)
      && |FittingLead| < |lines[4]| && lines[4][|FittingLead|] == '<'
  {
    var lines := CreationSummaryLines(data, gfval);
    assert lines[3] == SummaryAcceptanceRow(data.accept) && lines[4] == FittingRowAsWritten(data.gfres, gfval);
    SummaryAcceptanceReads(data.accept);
    FittingRowAsWrittenReads(data.gfres, gfval);
    FittingComparatorAlwaysLess(data.gfres, gfval);
  }

  /** `write_model_creation_summary_tex` as intended, with the comparator taken from the verdict. */
  function CreationSummaryLinesAsIntended(data: SampleData.Goodfit, gfval: string): seq<string>
  {
    CreationSummaryAround(data.accept, FittingRow(data.gfres, gfval))
  }

  /** Nine lines; both rows read "Pass" on their verdicts, and the comparator agrees with the fit. */
  lemma CreationSummaryIntendedVerdicts(data: SampleData.Goodfit, gfval: string)
    ensures var lines := CreationSummaryLinesAsIntended(data, gfval);
      |lines| == 9
      && (Reads(lines[3], "Pass", BoldEnd) <==> data.accept)
      && (Reads(lines[4], "Pass", BoldEnd) <==> data.gfres.0)
      && |FittingLead| < |lines[4]| && (lines[4][|FittingLead|] == '<' <==> data.gfres.0)
  {
    var lines := CreationSummaryLinesAsIntended(data, gfval);
    assert lines[3] == SummaryAcceptanceRow(data.accept) && lines[4] == FittingRow(data.gfres, gfval);
    SummaryAcceptanceReads(data.accept);
    FittingRowConsistent(data.gfres, gfval);
  }

  /**
   * `write_sample_parameters_tex`: a missing comma joins the size row and `\end{tabular}`
   * into one entry, so the list has nine entries; `areaX` and `areaY` are the measurement
   * area as Python renders the configuration's floats.
   */
  function SampleParametersLines(cfg: SampleData.SampleConfig, areaX: string, areaY: string): seq<string>
  {
    [ ParametersStart,
      TwoColumns,
      ParameterHeading,
      "Measurement area: $x$,$y$ (mm) & " + areaX + ", " + areaY + RowEnd,
      "Frequency range (MHz) & " + IntStr(cfg.fRangeMin) + " -- " + IntStr(cfg.fRangeMax) + "\\\\\\hline",
      SizeRow(cfg.sampleSize) + "\\end{tabular}",
      ParametersCaption("relevant"),
      "\\label{tab:params}",
      TableEnd ]
  }

  /** Nine entries; the sixth starts with the size row and ends the tabular. */
  lemma SampleParametersShape(cfg: SampleData.SampleConfig, areaX: string, areaY: string)
    ensures var lines := SampleParametersLines(cfg, areaX, areaY);
      |lines| == 9
      && StartsWith(lines[5], SizeRow(cfg.sampleSize)) && EndsWith(lines[5], "\\end{tabular}")
      && lines[6] == ParametersCaption("relevant")
  {
    var l := SizeRow(cfg.sampleSize) + "\\end{tabular}";
    assert l[..|SizeRow(cfg.sampleSize)|] == SizeRow(cfg.sampleSize);
    assert l[|l| - |"\\end{tabular}"|..] == "\\end{tabular}";
  }

  /** `write_model_creation_acceptance_tex`: a non-bold verdict. */
  function CreationAcceptanceLines(accepted: bool): seq<string>
  {
    [ "\\begin{table}[h]\\centering",
      FourColumns,
      TestHeading,
      AcceptanceCells + "See Table~\\ref{tab:acceptance}& " + PassFail(accepted) + RowEnd,
      AcceptanceCaption,
      TableEnd ]
  }

  lemma CreationAcceptanceVerdict(accepted: bool)
    ensures var lines := CreationAcceptanceLines(accepted);
      |lines| == 6 && (Reads(lines[3], "Pass", RowEnd) <==> accepted)
  {
    VerdictAt(AcceptanceCells + "See Table~\\ref{tab:acceptance}& ", accepted, RowEnd);
  }

  /** The fitting table around a given fitting row. */
  function ModelFittingAround(fitting: string): seq<string>
  {
    [ TableStart,
      FourColumns,
      TestHeading,
      fitting,
      FittingCaption,
      TableEnd ]
  }

  /** `write_model_fitting_tex` as written: its row always shows `<`. */
  function ModelFittingLines(gfres: (bool, real), gfval: string): seq<string>
  {
    ModelFittingAround(FittingRowAsWritten(gfres, gfval))
  }

  /** Six lines; the row reads "Pass" exactly when the fit is good, and shows `<` whatever the fit. */
  lemma ModelFittingVerdict(gfres: (bool, real), gfval: string)
    ensures var lines := ModelFittingLines(gfres, gfval);
      |lines| == 6
      && (Reads(lines[3], "Pass", BoldEnd) <==> gfres.0)
      && |FittingLead| < |lines[3]| && lines[3][|FittingLead|] == '<'
  {
    FittingRowAsWrittenReads(gfres, gfval);
    FittingComparatorAlwaysLess(gfres, gfval);
  }

  /** `write_model_fitting_tex` as intended, with the comparator taken from the verdict. */
  function ModelFittingLinesAsIntended(gfres: (bool, real), gfval: string): seq<string>
  {
    ModelFittingAround(FittingRow(gfres, gfval))
  }

  /** Six lines; the row reads "Pass" and shows `<` exactly when the fit is good. */
  lemma ModelFittingIntendedVerdict(gfres: (bool, real), gfval: string)
    ensures var lines := ModelFittingLinesAsIntended(gfres, gfval);
      |lines| == 6
      && (Reads(lines[3], "Pass", BoldEnd) <==> gfres.0)
      && |FittingLead| < |lines[3]| && (lines[3][|FittingLead|] == '<' <==> gfres.0)
  {
    FittingRowConsistent(gfres, gfval);
  }

  // ----- The sample table -----

  const TablesCaption := "Test configurations and measurement outcomes for 10-gram average SAR"

  /** The formats of the 13 cells: the third column with three decimals, then whole numbers. */
  const TablesFormats := [Braced, Plain, Plain, Fixed(3), Fixed(0), Fixed(0), Fixed(0), Fixed(0), Fixed(0),
                          Fixed(3), Percent(0), Fixed(1), Fixed(1)]

  /**
   * `write_sample_table_tex`: labelled `tab:training`; a missing required column raises the
   * `ValueError` of `list.index` (the test `i < 0` after it can never hold).
   */
  method WriteSampleTableTex(ds: SampleData.DataSet) returns (r: Result<string>)
    ensures r == SampleTableTex(ds.headings, ds.rows, TablesCaption, "tab:training", TablesFormats, NotInList)
  {
    r := WriteSampleTable(ds.headings, ds.rows, TablesCaption, "tab:training", TablesFormats, NotInList);
  }
}
