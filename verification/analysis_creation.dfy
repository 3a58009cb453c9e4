/**
 * `sar.steps.AnalysisCreation`: the "Create & Analyze" request and its two result labels,
 * the export of the model (the editor's values plus both results), the export button that a
 * finished analysis enables, and the variogram plot. One request is one step: the
 * transport's reply is an input.
 */
module AnalysisCreation {
  import opened Wrappers
  import opened Cells
  import opened Widgets
  import opened StepUtils
  import opened Resources

  const AcceptanceKey := "Acceptance criteria"
  const RmsErrorKey := "Normalized RMS error"

  /** What a result label shows after a reply: the value under its key, else the "" set before the request. */
  function ResultText(data: map<string, string>, key: string): (r: string)
    ensures key in data ==> r == data[key]
    ensures key !in data ==> r == ""
  {
    if key in data then data[key] else ""
  }

  /** A label's value as the export sends it: its text, or null. */
  function LabelEntry(value: Option<string>): (r: Option<Cell>)
    ensures r.Some? <==> value.Some?
    ensures value.Some? ==> r == Some(Str(value.value))
  {
    match value
    case Some(text) => Some(Str(text))
    case None => None
  }

  /**
   * The `data` of the export request: every named item of the editor under its name, then
   * the two results under "acceptanceCriteria" and "normalizedRMSError".
   */
  function ExportPayload(values: map<string, Cell>, acceptance: Option<string>, rmsError: Option<string>)
    : (p: map<string, Option<Cell>>)
    ensures p.Keys == values.Keys + {"acceptanceCriteria", "normalizedRMSError"}
    ensures p["acceptanceCriteria"] == LabelEntry(acceptance) && p["normalizedRMSError"] == LabelEntry(rmsError)
    ensures forall k :: k in values && k != "acceptanceCriteria" && k != "normalizedRMSError" ==> p[k] == Some(values[k])
  {
    (map k | k in values :: Some(values[k]))["acceptanceCriteria" := LabelEntry(acceptance)]["normalizedRMSError" := LabelEntry(rmsError)]
  }

  /** No item of the model editor is named like one of the two results. */
  lemma ResultKeysAreNew()
    ensures "acceptanceCriteria" !in FormValues(ModelEditorItems())
    ensures "normalizedRMSError" !in FormValues(ModelEditorItems())
  {
    ModelEditorValues();
  }

  /**
   * Exported from the untouched editor, the model carries the editor defaults next to the
   * two results: no editor item is overwritten by a result.
   */
  lemma DefaultExportPayload(acceptance: Option<string>, rmsError: Option<string>)
    ensures var p := ExportPayload(FormValues(ModelEditorItems()), acceptance, rmsError);
      "filename" in p && p["filename"] == Some(Str("Model.json"))
      && "modelAreaX" in p && p["modelAreaX"] == Some(Num(100))
      && "modelAreaY" in p && p["modelAreaY"] == Some(Num(200))
      && p["acceptanceCriteria"] == LabelEntry(acceptance)
      && p["normalizedRMSError"] == LabelEntry(rmsError)
  {
    var values := FormValues(ModelEditorItems());
    ResultKeysAreNew();
    ModelEditorValues();
  }

  /** The `TypeError` of calling `setSource` on a tab page, which has no such method. */
  const PageHasNoSetSource := "this.__variogramImage.setSource is not a function"

  /**
   * `__populateVariogramImage` with the endpoint name `key`, as written: `__variogramImage`
   * holds the tab page, not the image inside it. The URL is read first, which throws for an
   * unregistered name; a registered one reaches the call on the page, which throws too. It
   * throws for every name, the registered "getSemivariogram" included.
   */
  function PopulateAsWritten(key: string): (error: string)
    ensures key !in AnalysisCreationEndPoints ==> error == ReadOfUndefined("url")
    ensures key in AnalysisCreationEndPoints ==> error == PageHasNoSetSource
    ensures error == ReadOfUndefined("url") || error == PageHasNoSetSource
  {
    AnalysisCreationRegistered();
    match EndPointUrl("analysisCreation", key)
    case Err(msg) => msg
    case Ok(_) => PageHasNoSetSource
  }

  /** Fixing the endpoint name alone is not enough: the call on the page still throws. */
  lemma RenamedKeyStillThrows()
    ensures PopulateAsWritten("getSemivariogram") == PageHasNoSetSource
    ensures PopulateAsWritten("getVariogram") == ReadOfUndefined("url")
  {
    SemivariogramRoute();
    VariogramUrls();
  }

  /** The export button: created disabled. */
  method NewExportButton() returns (b: FetchButton)
    ensures fresh(b) && b.Valid() && b.attached && !b.enabled && !b.fetching && b.icon == None
  {
    b := new FetchButton(None, true);
    b.SetEnabled(false);
  }

  /** The model editor of `modelEditor`. */
  method NewEditor() returns (form: Form)
    ensures fresh(form) && form.items == ModelEditorItems()
  {
    form := new Form();
    form.Add(Header("Model information"));
    form.Add(TextField("Filename", "filename", "Model.json"));
    form.Add(TextField("System name", "systemName", "A SAR System"));
    form.Add(TextField("Manufacturer", "manufacturer", "A Manufacturer"));
    form.Add(TextField("Phantom type", "phantomType", "Flat"));
    form.Add(TextField("Hardware version", "hardwareVersion", "AD 385 12B"));
    form.Add(TextField("Software version", "softwareVersion", "V2.0"));
    form.AddMeasurementArea(true);
  }

  class AnalysisStep {
    /** The plain (not pass/fail coloured) value labels of the acceptance and of the RMS error. */
    const acceptance: Label
    const rmsError: Label
    const createButton: FetchButton
    const exportButton: FetchButton
    const editor: Form
    /** The image viewer of `__createVariogramView`, placed inside `variogramPage`. */
    const variogram: Image
    /** The "Variogram" tab page: what `__variogramImage` holds. */
    const variogramPage: TabPage
    /** The `data` of every export request sent. */
    var sent: seq<map<string, Option<Cell>>>
    /** The files handed to the browser. */
    var downloads: seq<Download<string>>
    ghost var Repr: set<object>

    /** The widgets are distinct and all in `Repr`; no handler changes the editor. */
    ghost predicate Parts()
      reads this
    {
      this !in Repr && acceptance in Repr && rmsError in Repr && acceptance != rmsError
      && !acceptance.decorated && !rmsError.decorated
      && createButton in Repr && exportButton in Repr && createButton != exportButton
      && createButton.attached && exportButton.attached
      && editor !in Repr && variogram in Repr
    }

    ghost predicate Valid()
      reads this, Repr
    {
      Parts() && acceptance.Valid() && rmsError.Valid() && createButton.Valid() && exportButton.Valid()
    }

    /** No result, no plot, export disabled, and the editor holds its defaults. */
    constructor()
      ensures Valid() && fresh(Repr) && fresh(editor)
      ensures acceptance.value == None && rmsError.value == None && variogram.source == None
      ensures createButton.enabled && !createButton.fetching && !exportButton.enabled && !exportButton.fetching
      ensures editor.items == ModelEditorItems() && sent == [] && downloads == []
      ensures variogramPage.title == "Variogram"
    {
      var create := new FetchButton(None, true);
      var acceptanceValue := new Label(false);
      var rmsErrorValue := new Label(false);
      var form := NewEditor();
      var xport := NewExportButton();
      var image := new Image();
      acceptance := acceptanceValue;
      rmsError := rmsErrorValue;
      createButton := create;
      exportButton := xport;
      editor := form;
      variogram := image;
      variogramPage := CreateTabPage("Variogram");
      sent := [];
      downloads := [];
      Repr := {acceptanceValue, rmsErrorValue, create, xport, image};
    }

    /**
     * The create button as written: busy while the request runs; both labels show "" until
     * the reply, whose results then replace them and export is enabled. The `then` goes on
     * to `__populateVariogramImage`, which throws (see `PopulateAsWritten`); the `catch`
     * swallows the error, so the plot keeps its source. A rejected request leaves "" in
     * both labels and the rest as it was.
     */
    method Create(reply: Reply<map<string, string>>) returns (outcome: Outcome<map<string, string>>)
      requires Valid() && !createButton.fetching
      modifies Repr
      ensures Valid() && outcome == Fetch("analysisCreation", "create", reply)
      ensures !createButton.fetching && createButton.enabled && createButton.icon == old(createButton.icon)
      ensures outcome.Resolved? ==>
        acceptance.value == Some(ResultText(outcome.response, AcceptanceKey))
        && rmsError.value == Some(ResultText(outcome.response, RmsErrorKey))
        && exportButton.enabled
      ensures outcome.Rejected? ==>
        acceptance.value == Some("") && rmsError.value == Some("") && exportButton.enabled == old(exportButton.enabled)
      ensures variogram.source == old(variogram.source)
      ensures exportButton.fetching == old(exportButton.fetching) && exportButton.icon == old(exportButton.icon)
    {
      createButton.SetFetching(true);
      outcome := AnalyzeAsWritten(reply);
      createButton.SetFetching(false);
    }

    /**
     * The promise chain of the create handler as written: the request, then on a reply
     * `__trainingDataAnalyzed`, whose error the `catch` drops. The create button is untouched.
     */
    method AnalyzeAsWritten(reply: Reply<map<string, string>>) returns (outcome: Outcome<map<string, string>>)
      requires Valid()
      modifies Repr
      ensures Valid() && outcome == Fetch("analysisCreation", "create", reply)
      ensures createButton.fetching == old(createButton.fetching) && createButton.icon == old(createButton.icon)
      ensures createButton.savedIcon == old(createButton.savedIcon) && createButton.rotating == old(createButton.rotating)
      ensures createButton.enabled == old(createButton.enabled)
      ensures outcome.Resolved? ==>
        acceptance.value == Some(ResultText(outcome.response, AcceptanceKey))
        && rmsError.value == Some(ResultText(outcome.response, RmsErrorKey))
        && exportButton.enabled
      ensures outcome.Rejected? ==>
        acceptance.value == Some("") && rmsError.value == Some("") && exportButton.enabled == old(exportButton.enabled)
      ensures variogram.source == old(variogram.source)
      ensures exportButton.fetching == old(exportButton.fetching) && exportButton.icon == old(exportButton.icon)
    {
      outcome := RequestAnalysis(reply);
      if outcome.Resolved? {
        var _ := TrainingDataAnalyzedAsWritten();
      }
    }

    /**
     * The create button as intended: the same, except that the `then` ends with the plot
     * showing the registered semivariogram.
     */
    method CreateAsIntended(reply: Reply<map<string, string>>) returns (outcome: Outcome<map<string, string>>)
      requires Valid() && !createButton.fetching
      modifies Repr
      ensures Valid() && outcome == Fetch("analysisCreation", "create", reply)
      ensures !createButton.fetching && createButton.enabled && createButton.icon == old(createButton.icon)
      ensures outcome.Resolved? ==>
        acceptance.value == Some(ResultText(outcome.response, AcceptanceKey))
        && rmsError.value == Some(ResultText(outcome.response, RmsErrorKey))
        && exportButton.enabled && variogram.source == Some("/analysis-creation/variogram")
      ensures outcome.Rejected? ==>
        acceptance.value == Some("") && rmsError.value == Some("")
        && exportButton.enabled == old(exportButton.enabled) && variogram.source == old(variogram.source)
      ensures exportButton.fetching == old(exportButton.fetching) && exportButton.icon == old(exportButton.icon)
    {
      createButton.SetFetching(true);
      outcome := RequestAnalysis(reply);
      if outcome.Resolved? {
        TrainingDataAnalyzed();
      }
      createButton.SetFetching(false);
    }

    /**
     * What the create handler does while its button is busy, up to `__trainingDataAnalyzed`:
     * the labels are emptied, the request is made, and a reply's results are shown.
     */
    method RequestAnalysis(reply: Reply<map<string, string>>) returns (outcome: Outcome<map<string, string>>)
      requires Valid()
      modifies Repr
      ensures Valid() && outcome == Fetch("analysisCreation", "create", reply)
      ensures createButton.fetching == old(createButton.fetching) && createButton.icon == old(createButton.icon)
      ensures createButton.savedIcon == old(createButton.savedIcon) && createButton.rotating == old(createButton.rotating)
      ensures createButton.enabled == old(createButton.enabled)
      ensures exportButton.enabled == old(exportButton.enabled)
      ensures exportButton.fetching == old(exportButton.fetching) && exportButton.icon == old(exportButton.icon)
      ensures variogram.source == old(variogram.source)
      ensures outcome.Resolved? ==>
        acceptance.value == Some(ResultText(outcome.response, AcceptanceKey))
        && rmsError.value == Some(ResultText(outcome.response, RmsErrorKey))
      ensures outcome.Rejected? ==> acceptance.value == Some("") && rmsError.value == Some("")
    {
      acceptance.SetValue(Some(""));
      rmsError.SetValue(Some(""));
      outcome := Fetch("analysisCreation", "create", reply);
      if outcome.Resolved? {
        var data := outcome.response;
        if AcceptanceKey in data {
          acceptance.SetValue(Some(data[AcceptanceKey]));
        }
        if RmsErrorKey in data {
          rmsError.SetValue(Some(data[RmsErrorKey]));
        }
      }
    }

    /**
     * `__trainingDataAnalyzed` as written: export is enabled, then `__populateVariogramImage`
     * throws before anything reaches the plot, which keeps its source.
     */
    method TrainingDataAnalyzedAsWritten() returns (error: string)
      requires Valid()
      modifies Repr
      ensures Valid() && exportButton.enabled && variogram.source == old(variogram.source)
      ensures error == ReadOfUndefined("url")
      ensures acceptance.value == old(acceptance.value) && rmsError.value == old(rmsError.value)
      ensures createButton.fetching == old(createButton.fetching) && createButton.icon == old(createButton.icon)
      ensures createButton.savedIcon == old(createButton.savedIcon) && createButton.rotating == old(createButton.rotating)
      ensures createButton.enabled == old(createButton.enabled)
      ensures exportButton.fetching == old(exportButton.fetching) && exportButton.icon == old(exportButton.icon)
    {
      exportButton.SetEnabled(true);
      VariogramUrls();
      error := PopulateAsWritten("getVariogram");
    }

    /**
     * `__trainingDataAnalyzed` as intended: export is enabled and the image viewer inside
     * the "Variogram" page shows the registered semivariogram; the results and the buttons'
     * busy state are untouched.
     */
    method TrainingDataAnalyzed()
      requires Valid()
      modifies Repr
      ensures Valid() && exportButton.enabled && variogram.source == Some("/analysis-creation/variogram")
      ensures acceptance.value == old(acceptance.value) && rmsError.value == old(rmsError.value)
      ensures createButton.fetching == old(createButton.fetching) && createButton.icon == old(createButton.icon)
      ensures createButton.savedIcon == old(createButton.savedIcon) && createButton.rotating == old(createButton.rotating)
      ensures createButton.enabled == old(createButton.enabled)
      ensures exportButton.fetching == old(exportButton.fetching) && exportButton.icon == old(exportButton.icon)
    {
      exportButton.SetEnabled(true);
      VariogramUrls();
      var url := EndPointUrl("analysisCreation", "getSemivariogram");
      variogram.SetSource(url.value);
    }

    /**
     * The export button (a disabled button receives no click): the request carries the
     * editor's values and both results; its reply is saved as "Model.json".
     */
    method Export(reply: Reply<string>) returns (outcome: Outcome<string>)
      requires Valid() && exportButton.enabled && !exportButton.fetching
      modifies this, exportButton
      ensures Valid() && outcome == Fetch("analysisCreation", "xport", reply)
      ensures sent == old(sent) + [ExportPayload(FormValues(editor.items), acceptance.value, rmsError.value)]
      ensures outcome.Resolved? ==> downloads == old(downloads) + [Download("Model.json", outcome.response)]
      ensures outcome.Rejected? ==> downloads == old(downloads)
      ensures !exportButton.fetching && exportButton.enabled && exportButton.icon == old(exportButton.icon)
    {
      exportButton.SetFetching(true);
      outcome := SendExport(reply);
      exportButton.SetFetching(false);
    }

    /** What the export handler does while its button is busy. */
    method SendExport(reply: Reply<string>) returns (outcome: Outcome<string>)
      modifies this
      ensures outcome == Fetch("analysisCreation", "xport", reply)
      ensures sent == old(sent) + [ExportPayload(FormValues(editor.items), acceptance.value, rmsError.value)]
      ensures outcome.Resolved? ==> downloads == old(downloads) + [Download("Model.json", outcome.response)]
      ensures outcome.Rejected? ==> downloads == old(downloads)
      ensures Repr == old(Repr)
    {
      sent := sent + [ExportPayload(FormValues(editor.items), acceptance.value, rmsError.value)];
      outcome := Fetch("analysisCreation", "xport", reply);
      if outcome.Resolved? {
        downloads := downloads + [Download("Model.json", outcome.response)];
      }
    }
  }

  /**
   * An analysis, then an export from the untouched editor: the model sent holds the
   * results the analysis showed next to the editor defaults.
   */
  method CreateThenExport(step: AnalysisStep, created: map<string, string>, exported: Reply<string>)
    requires step.Valid() && !step.createButton.fetching && !step.exportButton.fetching
    requires step.editor.items == ModelEditorItems()
    requires AcceptanceKey in created
    modifies step, step.Repr
    ensures |step.sent| > 0
    ensures var p := step.sent[|step.sent| - 1];
      "acceptanceCriteria" in p && p["acceptanceCriteria"] == Some(Str(created[AcceptanceKey]))
      && "filename" in p && p["filename"] == Some(Str("Model.json"))
  {
    AnalysisRequestsResolve(Succeeded(created));
    var outcome := step.Create(Succeeded(created));
    var _ := step.Export(exported);
    DefaultExportPayload(Some(created[AcceptanceKey]), Some(ResultText(created, RmsErrorKey)));
  }
}
