/**
 * The report fragments of `reports/texwriter.py`: the one-line verdict, the summary tables of
 * the three stages, the parameter and outcome tables, and the sample table.
 *
 * Each table builder makes a list of lines and answers `'\n'.join(lines)` (`Text.Join`); the
 * model states its properties on that list. Floating-point numbers the builders render
 * (`:.1f` of the fit error, `:.3f` of residual statistics) arrive as already rendered text.
 */
module TexWriter {
  import opened Wrappers
  import opened Text
  import opened Cells
  import opened Latex
  import SampleData

  /** `ReportStage` of `reports/texutils.py`: CREATION, CONFIRMATION and VALIDATION. */
  datatype ReportStage = Creation | Confirmation | Validation

  /** The `AttributeError` a missing class or object attribute raises. */
  function NoAttribute(owner: string, name: string): string
  {
    owner + " has no attribute '" + name + "'"
  }

  /** `ReportStage.NAME`: only the three members exist; any other name raises. */
  function StageMember(name: string): (r: Result<ReportStage>)
    ensures r.Ok? <==> name == "CREATION" || name == "CONFIRMATION" || name == "VALIDATION"
    ensures r.Ok? ==> (r.value.Creation? <==> name == "CREATION") && (r.value.Validation? <==> name == "VALIDATION")
    ensures r.Err? ==> r.msg == NoAttribute("type object 'ReportStage'", name)
  {
    if name == "CREATION" then Ok(Creation)
    else if name == "CONFIRMATION" then Ok(Confirmation)
    else if name == "VALIDATION" then Ok(Validation)
    else Err(NoAttribute("type object 'ReportStage'", name))
  }

  /** The stage name the third branch of the builders uses, which the enumeration lacks. */
  lemma NoVerificationStage()
    ensures StageMember("VERIFICATION") == Err(NoAttribute("type object 'ReportStage'", "VERIFICATION"))
  {
    assert "VERIFICATION"[1] == 'E';
  }

  // ----- The one-line summary -----

  const Lead := "\\textbf{\\textit{The SAR measurement system described in Table~\\ref{tab:system} "
  const Completed := "successfully completed"
  const NotCompleted := "failed to complete"
  const CreationStep := " the GPI model creation step"
  const ConfirmationStep := " the GPI model confirmation step"
  const Search := " the critical data space search"
  const Validated := " In combination with the model confirmation step, the system can therefore be considered successfully validated"

  function Verb(success: bool): string
  {
    if success then Completed else NotCompleted
  }

  /** The two verbs differ, so the summary's opening gives back the outcome. */
  lemma VerbDistinct(a: bool, b: bool)
    ensures Verb(a) == Verb(b) <==> a == b
  {
    assert |Completed| != |NotCompleted|;
  }

  /** The sentence after the verb, stage by stage (the third stage as the code means it). */
  function StageSentence(stage: ReportStage, success: bool): string
  {
    match stage
    case Creation => CreationStep + "."
    case Confirmation => ConfirmationStep + "."
    case Validation => Search + "." + (if success then Validated + "." else "")
  }

  /** What the summary says after the verb: the stage's sentence, closing the bold text. */
  function SummaryEnding(stage: ReportStage, success: bool): string
  {
    StageSentence(stage, success) + "}}"
  }

  /** A summary line opens with its lead and ends with the close of its sentence. */
  lemma Framed(lead: string, sentence: string)
    ensures var r := lead + (sentence + "}}") + "\n";
      StartsWith(r, lead) && EndsWith(r, "}}\n")
      && (|sentence| >= 2 ==> r[|r| - 5] == sentence[|sentence| - 2])
  {
    var r := lead + (sentence + "}}") + "\n";
    assert r[..|lead|] == lead;
    assert r[|r| - 3..] == "}}\n";
  }

  /** A summary line whose sentence ends in `v` and a full stop ends with `v`, the stop and the close. */
  lemma EndsWithSentence(lead: string, p: string, v: string)
    ensures EndsWith(lead + (p + (v + ".") + "}}") + "\n", v + ".}}\n")
  {
    var r := lead + (p + (v + ".") + "}}") + "\n";
    var t := v + ".}}\n";
    assert |r| - |t| == |lead| + |p|;
    forall i | 0 <= i < |t| ensures r[|lead| + |p| + i] == t[i] {
      if i < |v| {
        assert r[|lead| + |p| + i] == v[i];
      }
    }
    assert r[|r| - |t|..] == t;
  }

  /**
   * `write_one_line_summary` as written: the CREATION and CONFIRMATION branches are taken
   * first; for any other stage the third test evaluates `ReportStage.VERIFICATION`, which
   * raises, so the third stage never gets its sentence.
   */
  function WriteOneLineSummary(success: bool, stage: ReportStage): (r: Result<string>)
    ensures r.Ok? <==> !stage.Validation?
    ensures r.Err? ==> r.msg == NoAttribute("type object 'ReportStage'", "VERIFICATION")
    ensures r.Ok? ==> r.value == OneLineSummary(success, stage)
  {
    var line := Lead + Verb(success);
    if stage == Creation then Ok(line + SummaryEnding(Creation, success) + "\n")
    else if stage == Confirmation then Ok(line + SummaryEnding(Confirmation, success) + "\n")
    else
      NoVerificationStage();
      match StageMember("VERIFICATION")
      case Err(e) => Err(e)
      case Ok(third) => Ok(line + (if stage == third then SummaryEnding(stage, success) else "") + "\n")
  }

  /**
   * The one-line summary as evidently intended, the third branch naming the third stage: the
   * lead, the verb of the outcome, the stage's sentence closing the bold text, and a newline.
   */
  function OneLineSummary(success: bool, stage: ReportStage): (r: string)
    ensures StartsWith(r, Lead + Verb(success))
    ensures EndsWith(r, "}}\n")
  {
    Framed(Lead + Verb(success), StageSentence(stage, success));
    Lead + Verb(success) + SummaryEnding(stage, success) + "\n"
  }

  /**
   * The summary claims the system validated exactly when the critical data space search
   * succeeded.
   */
  lemma OneLineSummaryValidated(success: bool, stage: ReportStage)
    ensures EndsWith(OneLineSummary(success, stage), Validated + ".}}\n") <==> stage.Validation? && success
  {
    var r := OneLineSummary(success, stage);
    var t := Validated + ".}}\n";
    var sentence := StageSentence(stage, success);
    Framed(Lead + Verb(success), sentence);
    assert sentence[|sentence| - 2] == (if stage.Validation? && success then 'd' else if stage.Validation? then 'h' else 'p');
    assert t[|t| - 5] == 'd';
    if EndsWith(r, t) {
      assert r[|r| - 5] == r[|r| - |t|..][|t| - 5];
    }
    if stage.Validation? && success {
      EndsWithSentence(Lead + Verb(success), Search + ".", Validated);
    }
  }

  // ----- Summary tables -----


  const ConfirmationCaption := "\\end{tabular}\\caption{Summary of the GPI Model confirmation outcomes for the measurement system described in Table~\\ref{tab:system}.} \\label{tab:summary}"
  const VerificationHeading := "\\textbf{Test} & \\textbf{Success Criterion} & \\textbf{Outcomes} & \\textbf{Pass / Fail} \\\\\\hline"
  const VerificationCaption := "\\end{tabular}\\caption{Summary of the critical data space search outcomes for the measurement system described in Table~\\ref{tab:system}.} \\label{tab:summary}"
  const NormalityHeading := "\\textbf{Test} & \\textbf{Specification} & \\textbf{Value} & \\textbf{Pass / Fail} \\\\\\hline"
  const NormalityCaption := "\\end{tabular}\\caption{Summary results of the \\textit{GPI Model Confirmation} step for the measurement system described in Table~\\ref{tab:system}.} \\label{tab:normality}"
  const SimilarityCaption := "\\end{tabular}\\caption{Summary of the GPI model confirmation results for the measurement system described in Table~\\ref{tab:system}.} \\label{tab:qq}"
  const CriticalCaption := "\\caption{Outcome of the critical data space search.}"
  const FailureRisk := "Minimum failure risk & 5\\% \\\\\\hline"

  /** The model-fitting row up to its verdict: the criterion `nrmse < 25 %` and the rendered error. */
  function FittingPrefix(gfval: string): string
  {
    "Model fitting & $nrmse < $ 25~\\%  & " + gfval + "~\\%   & \\textbf{"
  }

  /** `write_creation_summary_tex`: `gfval` is the fit error in percent, rendered with one decimal. */
  function CreationSummaryLines(data: SampleData.Goodfit, gfval: string): seq<string>
  {
    [ TableStart,
      FourColumns,
      TestHeading,
      AcceptanceCells + "See Table~\\ref{tab:acceptance}& \\textbf{" + PassFail(data.accept) + BoldEnd,
      FittingPrefix(gfval) + PassFail(data.gfres.0) + BoldEnd,
      "\\end{tabular}",
      CreationCaption,
      "\\label{tab:summary}",
      TableEnd ]
  }

  /** The creation summary has nine lines; its acceptance row passes iff the data were accepted, its fitting row iff the fit passed. */
  lemma CreationSummaryVerdicts(data: SampleData.Goodfit, gfval: string)
    ensures var lines := CreationSummaryLines(data, gfval);
      |lines| == 9
      && (Reads(lines[3], "Pass", BoldEnd) <==> data.accept)
      && (Reads(lines[4], "Pass", BoldEnd) <==> data.gfres.0)
      && StartsWith(lines[4], FittingPrefix(gfval))
  {
    var lines := CreationSummaryLines(data, gfval);
    RowReads(lines[3], AcceptanceCells + "See Table~\\ref{tab:acceptance}& \\textbf{", data.accept);
    RowReads(lines[4], FittingPrefix(gfval), data.gfres.0);
    assert lines[4][..|FittingPrefix(gfval)|] == FittingPrefix(gfval);
  }

  /** A row ending in a bold verdict reads "Pass" iff its test passed. */
  lemma RowReads(line: string, prefix: string, b: bool)
    requires line == prefix + PassFail(b) + BoldEnd
    ensures Reads(line, "Pass", BoldEnd) <==> b
  {
    VerdictAt(prefix, b, BoldEnd);
  }

  /** The outcomes of the residual tests: Shapiro-Wilk normality, QQ location and QQ scale. */
  datatype ResidualOutcome = ResidualOutcome(normalityOk: bool, locationOk: bool, scaleOk: bool)

  function LocationPrefix(location: string): string
  {
    "Similarity & location $\\in$ [-1, 1] & " + location + " & \\textbf{"
  }

  function ScaleMiddle(scale: string): string
  {
    "} \\\\\\cline{2-4} & scale $\\in$ [0.5, 1.5] & " + scale + " & \\textbf{"
  }

  /** The similarity row: the location verdict mid-line, the scale verdict at its end. */
  function SimilarityRow(res: ResidualOutcome, location: string, scale: string): string
  {
    LocationPrefix(location) + PassFail(res.locationOk) + ScaleMiddle(scale) + PassFail(res.scaleOk) + BoldEnd
  }

  /** Both similarity verdicts can be read back from the row. */
  lemma SimilarityRowVerdicts(res: ResidualOutcome, location: string, scale: string)
    ensures var row := SimilarityRow(res, location, scale);
      |LocationPrefix(location)| + 4 <= |row|
      && (StartsWith(row[|LocationPrefix(location)|..], "Pass") <==> res.locationOk)
      && (Reads(row, "Pass", BoldEnd) <==> res.scaleOk)
  {
    var p := LocationPrefix(location);
    var row := SimilarityRow(res, location, scale);
    VerdictAt(p + PassFail(res.locationOk) + ScaleMiddle(scale), res.scaleOk, BoldEnd);
    assert row[|p|] == (if res.locationOk then 'P' else 'F');
    if StartsWith(row[|p|..], "Pass") {
      assert row[|p|] == row[|p|..][0];
    }
  }

  /**
   * `write_confirmation_summary_tex`: `normality`, `location` and `scale` are the residual
   * statistics rendered with three decimals.
   */
  function ConfirmationSummaryLines(accepted: bool, res: ResidualOutcome, normality: string, location: string, scale: string): seq<string>
  {
    [ TableStart,
      FourColumns,
      TestHeading,
      AcceptanceCells + "See Table~\\ref{tab:test}& \\textbf{" + PassFail(accepted) + BoldEnd,
      "Normality & $p \\ge$ 0.05 & " + normality + "& \\textbf{" + PassFail(res.normalityOk) + BoldEnd,
      SimilarityRow(res, location, scale),
      ConfirmationCaption,
      TableEnd ]
  }

  /** The confirmation summary has eight lines, and each of its four verdicts reads "Pass" iff its test passed. */
  lemma ConfirmationSummaryVerdicts(accepted: bool, res: ResidualOutcome, normality: string, location: string, scale: string)
    ensures var lines := ConfirmationSummaryLines(accepted, res, normality, location, scale);
      |lines| == 8
      && (Reads(lines[3], "Pass", BoldEnd) <==> accepted)
      && (Reads(lines[4], "Pass", BoldEnd) <==> res.normalityOk)
      && lines[5] == SimilarityRow(res, location, scale)
  {
    var lines := ConfirmationSummaryLines(accepted, res, normality, location, scale);
    RowReads(lines[3], AcceptanceCells + "See Table~\\ref{tab:test}& \\textbf{", accepted);
    RowReads(lines[4], "Normality & $p \\ge$ 0.05 & " + normality + "& \\textbf{", res.normalityOk);
  }

  /** `write_verification_summary_tex`. */
  function VerificationSummaryLines(accepted: bool): seq<string>
  {
    [ TableStart,
      FourColumns,
      VerificationHeading,
      AcceptanceCells + "See Section~\\ref{subsec:acceptance_criteria} & \\textbf{" + PassFail(accepted) + BoldEnd,
      VerificationCaption,
      TableEnd ]
  }

  /** The verification summary has six lines and passes iff the data were accepted. */
  lemma VerificationSummaryVerdict(accepted: bool)
    ensures var lines := VerificationSummaryLines(accepted);
      |lines| == 6 && (Reads(lines[3], "Pass", BoldEnd) <==> accepted) && (Reads(lines[3], "Fail", BoldEnd) <==> !accepted)
  {
    var p := AcceptanceCells + "See Section~\\ref{subsec:acceptance_criteria} & \\textbf{";
    VerdictAt(p, accepted, BoldEnd);
  }

  // ----- Parameter and outcome tables -----


  /** The word that says what the range of parameters was, per stage. */
  function StageWord(stage: ReportStage): string
  {
    if stage == Creation then "relevant" else if stage == Confirmation then "confirmed" else "critically examined"
  }

  /** The three stages are told apart by their word. */
  lemma StageWordDistinct(a: ReportStage, b: ReportStage)
    ensures StageWord(a) == StageWord(b) <==> a == b
  {
    if a != b {
      assert StageWord(a)[1] != StageWord(b)[1];
    }
  }


  /** The lines of the parameter table before the optional size row. */
  function ParametersHead(cfg: SampleData.SampleConfig, areaX: string, areaY: string): seq<string>
  {
    [ ParametersStart,
      TwoColumns,
      ParameterHeading,
      "Measurement area: $x$,$y$ (mm) & " + areaX + ", " + areaY + RowEnd,
      "Frequency range (MHz) & " + IntStr(cfg.fRangeMin) + " -- " + IntStr(cfg.fRangeMax) + "\\\\\\hline" ]
  }

  /** The object attributes `ModelMetadata` has; reading any other raises. */
  function MetadataAttribute(md: ModelMetadata, name: string): (r: Result<string>)
    ensures r.Err? <==> name !in MetadataAttributes
    ensures r.Err? ==> r.msg == NoAttribute("'ModelMetadata' object", name)
  {
    if name == "filename" then Ok(md.filename)
    else if name == "systemName" then Ok(md.systemName)
    else if name == "manufacturer" then Ok(md.manufacturer)
    else if name == "phantomType" then Ok(md.phantomType)
    else if name == "hardwareVersion" then Ok(md.hardwareVersion)
    else if name == "softwareVersion" then Ok(md.softwareVersion)
    else if name == "acceptanceCriteria" then Ok(md.acceptanceCriteria)
    else if name == "normalizedRMSError" then Ok(md.normalizedRMSError)
    else Err(NoAttribute("'ModelMetadata' object", name))
  }

  const MetadataAttributes := {"filename", "systemName", "manufacturer", "phantomType", "hardwareVersion",
                               "softwareVersion", "acceptanceCriteria", "normalizedRMSError"}

  /**
   * `write_sample_parameters_tex` as written: the area row reads `md.modelAreaX`, which
   * `ModelMetadata` does not have, and the size-row test reads `ReportStage.VERIFICATION`,
   * which the enumeration does not have; the first of these raises for every input.
   */
  function WriteSampleParametersTex(cfg: SampleData.SampleConfig, md: ModelMetadata, stage: ReportStage): (r: Result<seq<string>>)
    ensures r == Err(NoAttribute("'ModelMetadata' object", "modelAreaX"))
  {
    assert "modelAreaX" !in MetadataAttributes by {
      assert "modelAreaX"[0] == 'm' && "modelAreaX"[1] == 'o';
    }
    match MetadataAttribute(md, "modelAreaX")
    case Err(e) => Err(e)
    case Ok(areaX) =>
      match MetadataAttribute(md, "modelAreaY")
      case Err(e) => Err(e)
      case Ok(areaY) =>
        match StageMember("VERIFICATION")
        case Err(e) => Err(e)
        case Ok(third) =>
          Ok(ParametersHead(cfg, areaX, areaY) + (if stage != third then [SizeRow(cfg.sampleSize)] else [])
             + ["\\end{tabular}", ParametersCaption(StageWord(stage)), "\\label{tab:params}", TableEnd])
  }

  /**
   * The parameter table as evidently intended: the model area given as rendered text, the
   * size row omitted for the third stage.
   */
  function SampleParametersLines(cfg: SampleData.SampleConfig, areaX: string, areaY: string, stage: ReportStage): seq<string>
  {
    ParametersHead(cfg, areaX, areaY)
    + (if !stage.Validation? then [SizeRow(cfg.sampleSize)] else [])
    + ["\\end{tabular}", ParametersCaption(StageWord(stage)), "\\label{tab:params}", TableEnd]
  }

  /**
   * The table has ten lines for creation and confirmation and nine for the critical search,
   * the sixth being the training-set size exactly when it is there; the caption names the
   * stage's word.
   */
  lemma SampleParametersShape(cfg: SampleData.SampleConfig, areaX: string, areaY: string, stage: ReportStage)
    ensures var lines := SampleParametersLines(cfg, areaX, areaY, stage);
      |lines| == (if stage.Validation? then 9 else 10)
      && (!stage.Validation? <==> lines[5] == SizeRow(cfg.sampleSize))
      && lines[|lines| - 3] == ParametersCaption(StageWord(stage))
      && lines[3] == "Measurement area: $x$,$y$ (mm) & " + areaX + ", " + areaY + RowEnd
  {
    var lines := SampleParametersLines(cfg, areaX, areaY, stage);
    if stage.Validation? {
      assert lines[5] == "\\end{tabular}";
      assert SizeRow(cfg.sampleSize)[0] == 'S';
    }
  }

  const CriticalCount := "Number of critical cases & "

  /** `write_outcome_critical`: `:.0f` of a whole number is its decimal digits. */
  function OutcomeCriticalLines(sampleSize: int): seq<string>
  {
    [ ParametersStart,
      TwoColumns,
      ParameterHeading,
      FailureRisk,
      CriticalCount + IntStr(sampleSize) + "\\\\\\hline",
      "\\end{tabular}",
      CriticalCaption,
      "\\label{tab:outcome_critical}",
      TableEnd ]
  }

  /** The number of critical cases can be read back from its row. */
  lemma {:induction false} OutcomeCriticalCount(sampleSize: int)
    ensures var line := OutcomeCriticalLines(sampleSize)[4];
      |CriticalCount| + 8 <= |line| && StartsWith(line, CriticalCount)
      && var count := line[|CriticalCount|..|line| - 8];
      sampleSize >= 0 ==> (forall i :: 0 <= i < |count| ==> IsDigit(count[i])) && ParseNat(count) == sampleSize
  {
    var line := OutcomeCriticalLines(sampleSize)[4];
    assert line[..|CriticalCount|] == CriticalCount;
    if sampleSize >= 0 {
      assert line[|CriticalCount|..|line| - 8] == NatStr(sampleSize);
      NatStrRoundTrip(sampleSize);
    }
  }

  /** `write_sample_acceptance_tex`: the verdict here is not bold. */
  function SampleAcceptanceLines(accepted: bool): seq<string>
  {
    [ "\\begin{table}[h]\\centering",
      FourColumns,
      TestHeading,
      AcceptanceCells + "See Table~\\ref{tab:test}& " + PassFail(accepted) + RowEnd,
      AcceptanceCaption,
      TableEnd ]
  }

  lemma SampleAcceptanceVerdict(accepted: bool)
    ensures var lines := SampleAcceptanceLines(accepted);
      |lines| == 6 && (Reads(lines[3], "Pass", RowEnd) <==> accepted)
  {
    VerdictAt(AcceptanceCells + "See Table~\\ref{tab:test}& ", accepted, RowEnd);
  }

  /** `write_model_fitting_tex`. */
  function ModelFittingLines(gfres: (bool, real), gfval: string): seq<string>
  {
    [ TableStart,
      FourColumns,
      TestHeading,
      FittingPrefix(gfval) + PassFail(gfres.0) + BoldEnd,
      FittingCaption,
      TableEnd ]
  }

  lemma ModelFittingVerdict(gfres: (bool, real), gfval: string)
    ensures var lines := ModelFittingLines(gfres, gfval);
      |lines| == 6 && (Reads(lines[3], "Pass", BoldEnd) <==> gfres.0)
  {
    VerdictAt(FittingPrefix(gfval), gfres.0, BoldEnd);
  }

  /** `write_normality_tex`: `percent` is the p-value times 100 with one decimal. */
  function NormalityLines(res: ResidualOutcome, percent: string): seq<string>
  {
    [ TableStart,
      FourColumns,
      NormalityHeading,
      "Normality & $p \\ge$ 5\\,\\% & " + percent + "\\,\\% & \\textbf{" + PassFail(res.normalityOk) + BoldEnd,
      NormalityCaption,
      TableEnd ]
  }

  lemma NormalityVerdict(res: ResidualOutcome, percent: string)
    ensures var lines := NormalityLines(res, percent);
      |lines| == 6 && (Reads(lines[3], "Pass", BoldEnd) <==> res.normalityOk)
  {
    VerdictAt("Normality & $p \\ge$ 5\\,\\% & " + percent + "\\,\\% & \\textbf{", res.normalityOk, BoldEnd);
  }

  /** `write_similarity_tex`. */
  function SimilarityLines(res: ResidualOutcome, location: string, scale: string): seq<string>
  {
    [ TableStart,
      FourColumns,
      TestHeading,
      SimilarityRow(res, location, scale),
      SimilarityCaption,
      TableEnd ]
  }

  /** The similarity table has six lines; its row reads "Pass" at the location cell iff the location test passed, and at its end iff the scale test passed. */
  lemma SimilarityVerdicts(res: ResidualOutcome, location: string, scale: string)
    ensures var lines := SimilarityLines(res, location, scale);
      |lines| == 6 && lines[0] == TableStart && lines[5] == TableEnd
      && |LocationPrefix(location)| + 4 <= |lines[3]|
      && (StartsWith(lines[3][|LocationPrefix(location)|..], "Pass") <==> res.locationOk)
      && (Reads(lines[3], "Pass", BoldEnd) <==> res.scaleOk)
  {
    SimilarityRowVerdicts(res, location, scale);
  }

  // ----- The sample table -----

  /** The caption of the sample table, per stage. */
  function Caption(stage: ReportStage): string
  {
    if stage == Creation then "Training Data Set for 10-gram average SAR"
    else if stage == Confirmation then "Test configurations and measurement outcomes for 10-gram average SAR"
    else "Critical Configurations and Measurement Outcomes for 10-gram average SAR"
  }

  /** The formats of the 13 cells: braced antenna, plain power and modulation, then fixed-point. */
  const TexFormats := [Braced, Plain, Plain, Fixed(2), Fixed(1), Fixed(0), Fixed(0), Fixed(0), Fixed(0),
                       Fixed(3), Percent(0), Fixed(1), Fixed(1)]

  /** The error a missing required column raises here. */
  function MustContain(col: string): string
  {
    "Dataset must contain '" + col + "'"
  }

  /**
   * `write_sample_table_tex`: the sample table of the data set, captioned per stage and
   * labelled `tab:test`.
   */
  method WriteSampleTableTex(ds: SampleData.DataSet, stage: ReportStage) returns (r: Result<string>)
    ensures r == SampleTableTex(ds.headings, ds.rows, Caption(stage), "tab:test", TexFormats, MustContain)
  {
    r := WriteSampleTable(ds.headings, ds.rows, Caption(stage), "tab:test", TexFormats, MustContain);
  }
}
