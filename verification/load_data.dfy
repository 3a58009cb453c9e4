/**
 * `sar.steps.LoadData` and the four steps built on it (`LoadTrainingData`, `LoadTestData`,
 * `LoadCriticalData`, `LoadModel`): the nullable `stepData` property, what its apply hook
 * shows, hides and fires, the reset button, and the upload of a selected file.
 *
 * `stepData` is a qooxdoo property, so its apply hook runs only when the value changes. Every
 * non-null value is an object freshly parsed from a server reply, never the one already
 * held, so the hook runs on every set except null over null.
 */
module LoadData {
  import opened Wrappers
  import opened Widgets
  import opened StepUtils
  import opened Resources

  /** The three steps that load a table. */
  datatype Kind = TrainingData | TestData | CriticalData

  /** The resource each step posts its file to and resets. */
  function ResourceName(k: Kind): string
  {
    match k
    case TrainingData => "trainingData"
    case TestData => "testData"
    case CriticalData => "criticalData"
  }

  /** The URL path segment of that resource. */
  function ResourcePath(k: Kind): string
  {
    match k
    case TrainingData => "training-data"
    case TestData => "test-data"
    case CriticalData => "critical-data"
  }

  /** The data event each step fires with its new `stepData`. */
  function EventName(k: Kind): string
  {
    match k
    case TrainingData => "trainingDataSet"
    case TestData => "testDataSet"
    case CriticalData => "criticalDataSet"
  }

  const TableExtensions: seq<string> := ["csv"]
  const ModelExtensions: seq<string> := ["json"]

  /** A request a step sends: a `fetch` of an endpoint, or a file posted to an endpoint's URL. */
  datatype Request = Fetch(resource: string, endpoint: string) | Post(resource: string, endpoint: string, file: string)

  /** What the server answers to an upload: the parsed body of a 200 reply, or another status. */
  datatype Upload<T> = Loaded(body: T) | Refused(status: int)

  /**
   * Each loading resource registers "load" as a POST and "resetData" as a GET under its own
   * path, so the uploads and the resets of the steps reach registered endpoints.
   */
  lemma LoadResourcesRegistered(k: Kind)
    ensures GetEndPoints(ResourceName(k)) == Ok(LoadEndPoints(ResourcePath(k)))
    ensures "load" in LoadEndPoints(ResourcePath(k)) && "resetData" in LoadEndPoints(ResourcePath(k))
    ensures LoadEndPoints(ResourcePath(k))["load"].verb == "POST"
    ensures LoadEndPoints(ResourcePath(k))["resetData"].verb == "GET"
  {
    LoadVerbs(ResourcePath(k));
    match k
    case TrainingData => assert Registry["trainingData"] == LoadEndPoints("training-data");
    case TestData => assert Registry["testData"] == LoadEndPoints("test-data");
    case CriticalData => assert Registry["criticalData"] == LoadEndPoints("critical-data");
  }

  /** Under any path, "load" is a POST and "resetData" a GET. */
  lemma LoadVerbs(path: string)
    ensures "load" in LoadEndPoints(path) && "resetData" in LoadEndPoints(path)
    ensures LoadEndPoints(path)["load"].verb == "POST" && LoadEndPoints(path)["resetData"].verb == "GET"
  {
  }

  /** The same holds for the model upload of "loadModel", under "model". */
  lemma LoadModelRegistered()
    ensures GetEndPoints("loadModel") == Ok(LoadEndPoints("model"))
    ensures "load" in LoadEndPoints("model") && LoadEndPoints("model")["load"].verb == "POST"
  {
  }

  /** The message of calling `resetValue`, which `sar.widget.FileInput` does not have. */
  const NoResetValue := "fileInput.resetValue is not a function"

  /**
   * The widgets `LoadData` builds around its table: the file input, the row holding the
   * reset button and the selected file's name, and the table.
   */
  class DataView {
    var fileInputShown: bool
    var resetRowShown: bool
    /** The file the input holds, by name. */
    var selectedFile: Option<string>
    /** The label next to the reset button. */
    var fileNameLabel: Option<string>
    const table: DataTable

    /** Both rows start visible: nothing hides the reset row before the first apply. */
    constructor()
      ensures fileInputShown && resetRowShown && selectedFile == None && fileNameLabel == None
      ensures fresh(table) && !table.hasModel && table.columns == [] && table.rows == []
    {
      fileInputShown := true;
      resetRowShown := true;
      selectedFile := None;
      fileNameLabel := None;
      table := new DataTable();
    }

    /**
     * `_applyStepData`: data hides the file input, shows the reset row and fills the table
     * from it; null shows the file input, hides the reset row and empties the table.
     */
    method ApplyStepData(d: Option<TableData>)
      modifies this, table
      ensures fileInputShown == d.None? && resetRowShown == d.Some?
      ensures selectedFile == old(selectedFile) && fileNameLabel == old(fileNameLabel)
      ensures d.Some? ==>
        table.hasModel && table.columns == ColumnLabels(d.value)
        && table.rows == (if d.value.rows.Some? then d.value.rows.value else [])
      ensures d.None? ==>
        table.hasModel == old(table.hasModel) && table.columns == old(table.columns)
        && table.rows == (if old(table.hasModel) then [] else old(table.rows))
    {
      if d.Some? {
        fileInputShown := false;
        resetRowShown := true;
      } else {
        fileInputShown := true;
        resetRowShown := false;
      }
      if d.Some? {
        table.Populate(d.value);
      } else {
        table.Empty();
      }
    }

    /** The "selectionChanged" listener of `LoadData`: the label shows the name of a selected file. */
    method SelectionChanged(file: Option<string>)
      modifies this
      ensures selectedFile == file
      ensures fileNameLabel == (if file.Some? then file else old(fileNameLabel))
      ensures fileInputShown == old(fileInputShown) && resetRowShown == old(resetRowShown)
    {
      selectedFile := file;
      if file.Some? {
        fileNameLabel := file;
      }
    }
  }

  /** The table the view shows for `d`, once applied: the rows of `d`, or none. */
  ghost predicate TableShows(t: DataTable, d: Option<TableData>)
    reads t
  {
    (d.Some? ==>
      t.hasModel && t.columns == ColumnLabels(d.value)
      && t.rows == (if d.value.rows.Some? then d.value.rows.value else []))
    && (d.None? ==> t.rows == [])
  }

  /** `LoadTrainingData`, `LoadTestData` or `LoadCriticalData`, as `kind` says. */
  class LoadTableStep {
    const kind: Kind
    const extensions: seq<string>
    const view: DataView
    var stepData: Option<TableData>
    /** The values the step's data event carried, in order. */
    var events: seq<Option<TableData>>
    var requests: seq<Request>
    /** The `model` property; only `LoadTestData` reacts to it. */
    var model: Metadata
    /** The options column: the file input, the reset row, and for test data the model viewer. */
    var options: seq<Panel>

    ghost predicate Valid()
      reads this, view, view.table
    {
      view.fileInputShown == stepData.None?
      && (stepData.Some? ==> view.resetRowShown)
      && TableShows(view.table, stepData)
      && |options| == (if kind == TestData then 3 else 2)
      && options[..2] == [FileInputPanel, ResetPanel]
      && (kind == TestData ==> ShowsModel(options[2], model, true, true))
    }

    constructor(kind: Kind)
      ensures this.kind == kind && extensions == TableExtensions && fresh(view) && fresh(view.table)
      ensures stepData == None && events == [] && requests == [] && model == None
      ensures view.fileInputShown && view.resetRowShown && Valid()
    {
      this.kind := kind;
      extensions := TableExtensions;
      view := new DataView();
      stepData := None;
      events := [];
      requests := [];
      model := None;
      if kind == TestData {
        var viewer := NewViewer(None, true, true);
        options := [FileInputPanel, ResetPanel, viewer];
      } else {
        options := [FileInputPanel, ResetPanel];
      }
      new;
      assert options[..2] == [FileInputPanel, ResetPanel];
    }

    /**
     * `setStepData(v)`: unless null is set over null, the base apply runs and then the data
     * event fires with the same value.
     */
    method SetStepData(v: Option<TableData>)
      requires Valid()
      modifies this, view, view.table
      ensures Valid() && stepData == v && requests == old(requests) && model == old(model) && options == old(options)
      ensures view.selectedFile == old(view.selectedFile) && view.fileNameLabel == old(view.fileNameLabel)
      ensures v.None? && old(stepData).None? ==> events == old(events) && view.resetRowShown == old(view.resetRowShown)
      ensures v.Some? || old(stepData).Some? ==> events == old(events) + [v] && view.resetRowShown == v.Some?
    {
      if v.Some? || stepData.Some? {
        stepData := v;
        view.ApplyStepData(v);
        events := events + [v];
      }
    }

    /** `_resetPressed`: `stepData` becomes null, then the resource's "resetData" is fetched. */
    method ResetPressed()
      requires Valid()
      modifies this, view, view.table
      ensures Valid() && stepData == None && model == old(model) && options == old(options)
      ensures view.selectedFile == old(view.selectedFile) && view.fileNameLabel == old(view.fileNameLabel)
      ensures requests == old(requests) + [Fetch(ResourceName(kind), "resetData")]
      ensures events == old(events) + (if old(stepData).Some? then [None] else [])
    {
      SetStepData(None);
      requests := requests + [Fetch(ResourceName(kind), "resetData")];
    }

    /**
     * The reset button as written: its first call, `fileInput.resetValue()`, throws, so the
     * listener stops there and nothing changes.
     */
    method PressResetAsWritten() returns (error: string)
      ensures error == NoResetValue
    {
      error := NoResetValue;
    }

    /** The reset button with the file input cleared by hand: then `_resetPressed` runs. */
    method PressReset()
      requires Valid()
      modifies this, view, view.table
      ensures Valid() && stepData == None && view.selectedFile == None && model == old(model)
      ensures requests == old(requests) + [Fetch(ResourceName(kind), "resetData")]
      ensures events == old(events) + (if old(stepData).Some? then [None] else [])
    {
      view.selectedFile := None;
      ResetPressed();
    }

    /**
     * Selecting a file: the step posts it to the resource's "load" URL and the base listener
     * shows its name; a 200 reply becomes the new `stepData`, any other leaves it as it was.
     * An empty selection does nothing.
     */
    method SelectFile(file: Option<string>, reply: Upload<TableData>)
      requires Valid()
      modifies this, view, view.table
      ensures Valid() && view.selectedFile == file && model == old(model)
      ensures file.None? ==> stepData == old(stepData) && events == old(events) && requests == old(requests)
      ensures file.Some? ==>
        requests == old(requests) + [Post(ResourceName(kind), "load", file.value)] && view.fileNameLabel == file
      ensures file.Some? && reply.Loaded? ==> stepData == Some(reply.body) && events == old(events) + [stepData]
      ensures file.Some? && reply.Refused? ==> stepData == old(stepData) && events == old(events)
    {
      if file.Some? {
        requests := requests + [Post(ResourceName(kind), "load", file.value)];
      }
      view.SelectionChanged(file);
      if file.Some? && reply.Loaded? {
        SetStepData(Some(reply.body));
      }
    }

    /**
     * `setModel(md)`: `LoadTestData` replaces its viewer by one of `md` at the end of the
     * column; the other two steps only log the model.
     */
    method SetModel(md: Metadata)
      requires Valid()
      modifies this
      ensures Valid() && model == md && stepData == old(stepData) && events == old(events) && requests == old(requests)
      ensures kind != TestData ==> options == old(options)
      ensures kind == TestData ==> |options| == 3 && options[..2] == old(options)[..2]
    {
      model := md;
      if kind == TestData {
        var viewer := NewViewer(md, true, true);
        options := options[..2] + [viewer];
        assert options[..2] == old(options)[..2];
      }
    }
  }

  /** The parsed reply to a model upload: its "data" and its "metadata", each possibly absent. */
  datatype ModelReply = ModelReply(data: Option<TableData>, metadata: Option<Metadata>)

  /** The metadata a reply carries to `modelSet`: null without a reply or a "metadata" key. */
  function ModelOf(resp: Option<ModelReply>): Metadata
  {
    if resp.Some? && resp.value.metadata.Some? then resp.value.metadata.value else None
  }

  /** `LoadModel`. */
  class LoadModelStep {
    const extensions: seq<string>
    const view: DataView
    var stepData: Option<ModelReply>
    /** The values `modelSet` carried, in order. */
    var modelSets: seq<Metadata>
    var requests: seq<Request>
    /** The options column: the file input, the reset row and the model viewer. */
    var options: seq<Panel>

    ghost predicate Valid()
      reads this, view, view.table
    {
      view.fileInputShown == (stepData.None? || stepData.value.data.None?)
      && TableShows(view.table, if stepData.Some? then stepData.value.data else None)
      && |options| == 3 && options[..2] == [FileInputPanel, ResetPanel] && options[2].ViewerPanel?
    }

    constructor()
      ensures extensions == ModelExtensions && fresh(view) && fresh(view.table)
      ensures stepData == None && modelSets == [] && requests == [] && Valid()
      ensures ShowsModel(options[2], None, false, true)
    {
      extensions := ModelExtensions;
      view := new DataView();
      stepData := None;
      modelSets := [];
      requests := [];
      var viewer := NewViewer(None, false, true);
      options := [FileInputPanel, ResetPanel, viewer];
      new;
      assert options[..2] == [FileInputPanel, ResetPanel];
    }

    /**
     * `setStepData(resp)`: unless null is set over null, the base apply gets `resp["data"]`,
     * a reply with "metadata" replaces the viewer by one of it, and `modelSet` fires with
     * that metadata, or null.
     */
    method SetStepData(resp: Option<ModelReply>)
      requires Valid()
      modifies this, view, view.table
      ensures Valid() && stepData == resp && requests == old(requests)
      ensures view.selectedFile == old(view.selectedFile)
      ensures resp.None? && old(stepData).None? ==> modelSets == old(modelSets) && options == old(options)
      ensures resp.Some? || old(stepData).Some? ==> modelSets == old(modelSets) + [ModelOf(resp)]
      ensures resp.Some? && resp.value.metadata.Some? ==> ShowsModel(options[2], ModelOf(resp), false, true)
      ensures !(resp.Some? && resp.value.metadata.Some?) ==> options == old(options)
    {
      if resp.Some? || stepData.Some? {
        stepData := resp;
        view.ApplyStepData(if resp.Some? then resp.value.data else None);
        if resp.Some? && resp.value.metadata.Some? {
          var viewer := NewViewer(resp.value.metadata.value, false, true);
          options := options[..2] + [viewer];
          assert options[..2] == old(options)[..2];
        }
        modelSets := modelSets + [ModelOf(resp)];
      }
    }

    /** `_resetPressed`: `stepData` becomes null, so `modelSet(null)` fires, then "resetData" is fetched. */
    method ResetPressed()
      requires Valid()
      modifies this, view, view.table
      ensures Valid() && stepData == None && options == old(options)
      ensures requests == old(requests) + [Fetch("loadModel", "resetData")]
      ensures modelSets == old(modelSets) + (if old(stepData).Some? then [None] else [])
    {
      SetStepData(None);
      requests := requests + [Fetch("loadModel", "resetData")];
    }

    /** Selecting a model file: it is posted to "loadModel"'s "load" URL; a 200 reply becomes `stepData`. */
    method SelectFile(file: Option<string>, reply: Upload<ModelReply>)
      requires Valid()
      modifies this, view, view.table
      ensures Valid() && view.selectedFile == file
      ensures file.None? ==> stepData == old(stepData) && modelSets == old(modelSets) && requests == old(requests)
      ensures file.Some? ==> requests == old(requests) + [Post("loadModel", "load", file.value)]
      ensures file.Some? && reply.Loaded? ==>
        stepData == Some(reply.body) && modelSets == old(modelSets) + [ModelOf(Some(reply.body))]
      ensures file.Some? && reply.Refused? ==> stepData == old(stepData) && modelSets == old(modelSets)
    {
      if file.Some? {
        requests := requests + [Post("loadModel", "load", file.value)];
      }
      view.SelectionChanged(file);
      if file.Some? && reply.Loaded? {
        SetStepData(Some(reply.body));
      }
    }
  }

  /**
   * Loading a model and resetting: `modelSet` first carries the reply's metadata and then
   * null, and the step ends with its file input back.
   */
  method LoadThenReset(step: LoadModelStep, file: string, body: ModelReply)
    requires step.Valid()
    modifies step, step.view, step.view.table
    ensures step.Valid() && step.stepData == None && step.view.fileInputShown
    ensures step.modelSets == old(step.modelSets) + [ModelOf(Some(body)), None]
  {
    step.SelectFile(Some(file), Loaded(body));
    step.ResetPressed();
  }
}
