/**
 * `sar.steps.Utils` of the client: column aliases and the data table, the `{timestamp}`
 * query substitution, the model viewer's grid, the forms with the measurement area, and tab
 * pages. Widgets are reduced to the state the code sets on them.
 */
module StepUtils {
  import opened Wrappers
  import opened Text
  import opened Cells
  import opened Widgets

  // ----- Column aliases -----

  /** An entry of `COLUMN_ALIASES`: the heading ids it covers and the label shown for them. */
  datatype Alias = Alias(ids: seq<string>, caption: string)

  /** `COLUMN_ALIASES`, in the order `Object.entries` lists them. */
  const ColumnAliases: seq<Alias> := [
    Alias(["number", "no."], "no."),
    Alias(["antenna"], "Antenna"),
    Alias(["frequency"], "f (MHz)"),
    Alias(["power"], "Pf (dBm)"),
    Alias(["modulation"], "Mod"),
    Alias(["description"], "Description"),
    Alias(["par"], "PAPR (dB)"),
    Alias(["bandwidth"], "BW (MHz)"),
    Alias(["distance"], "s (mm)"),
    Alias(["angle"], "\U{03B8} (\U{00B0})"),
    Alias(["x"], "x (mm)"),
    Alias(["y"], "y (mm)"),
    Alias(["sar1g"], "SAR 1g (W/Kg)"),
    Alias(["sar10g"], "SAR 10g (W/Kg)"),
    Alias(["u1g"], "u 1g (dB)"),
    Alias(["u10g"], "u 10g (dB)"),
    Alias(["pass"], "Failure Risk (%)")
  ]

  /** The first entry whose ids include `id`: `Array.prototype.find` over the entries. */
  function FirstAlias(aliases: seq<Alias>, id: string): (r: Option<nat>)
    ensures r.Some? ==>
      r.value < |aliases| && id in aliases[r.value].ids
      && forall k :: 0 <= k < r.value ==> id !in aliases[k].ids
    ensures r.None? ==> forall k :: 0 <= k < |aliases| ==> id !in aliases[k].ids
  {
    if |aliases| == 0 then None
    else if id in aliases[0].ids then Some(0)
    else
      match FirstAlias(aliases[1..], id)
      case None => None
      case Some(k) => Some(k + 1)
  }

  /** The label of the first entry covering `id`, or `id` itself. */
  function AliasIn(aliases: seq<Alias>, id: string): (r: string)
    ensures (forall k :: 0 <= k < |aliases| ==> id !in aliases[k].ids) ==> r == id
    ensures forall k :: (0 <= k < |aliases| && id in aliases[k].ids
      && (forall j :: 0 <= j < k ==> id !in aliases[j].ids)) ==> r == aliases[k].caption
  {
    match FirstAlias(aliases, id)
    case None => id
    case Some(k) =>
      assert forall k' :: (0 <= k' < |aliases| && id in aliases[k'].ids
        && (forall j :: 0 <= j < k' ==> id !in aliases[j].ids)) ==> k' == k;
      aliases[k].caption
  }

  /** `__getAliasFromId`. */
  function AliasFromId(id: string): string
  {
    AliasIn(ColumnAliases, id)
  }

  /** Both "number" and "no." are shown as "no."; an unknown id is shown as it is. */
  lemma NumberAliases(unknown: string)
    requires forall k :: 0 <= k < |ColumnAliases| ==> unknown !in ColumnAliases[k].ids
    ensures AliasFromId("number") == "no." && AliasFromId("no.") == "no."
    ensures AliasFromId(unknown) == unknown
  {
    var first := ColumnAliases[0];
    assert first == Alias(["number", "no."], "no.");
    assert "number" in first.ids && "no." in first.ids;
  }

  // ----- The data table -----

  /** The JSON object a table is filled from: "headings" and "rows" may each be absent. */
  datatype TableData = TableData(headings: Option<seq<string>>, rows: Option<seq<seq<Cell>>>)

  const ColumnWidth := 70

  /** The labels `populateDataTable` gives the columns. */
  function ColumnLabels(data: TableData): (labels: seq<string>)
    ensures data.headings.None? ==> labels == []
    ensures data.headings.Some? ==>
      |labels| == |data.headings.value|
      && forall i :: 0 <= i < |labels| ==> labels[i] == AliasFromId(data.headings.value[i])
  {
    if data.headings.None? then [] else seq(|data.headings.value|, i requires 0 <= i < |data.headings.value| => AliasFromId(data.headings.value[i]))
  }

  /** The `forEach` of `populateDataTable` that pushes one label per heading. */
  method AliasLabels(aliases: seq<Alias>, headings: seq<string>) returns (labels: seq<string>)
    ensures |labels| == |headings|
    ensures forall k :: 0 <= k < |labels| ==> labels[k] == AliasIn(aliases, headings[k])
  {
    labels := [];
    var i := 0;
    while i < |headings|
      invariant 0 <= i <= |headings|
      invariant |labels| == i
      invariant forall k :: 0 <= k < i ==> labels[k] == AliasIn(aliases, headings[k])
    {
      labels := labels + [AliasIn(aliases, headings[i])];
      i := i + 1;
    }
  }

  /** A `qx.ui.table.Table`: whether it has a table model, the column labels and widths, and the rows. */
  class DataTable {
    var hasModel: bool
    var columns: seq<string>
    var widths: seq<int>
    var rows: seq<seq<Cell>>

    constructor()
      ensures !hasModel && columns == [] && widths == [] && rows == []
    {
      hasModel := false;
      columns := [];
      widths := [];
      rows := [];
    }

    /**
     * `populateDataTable`: a new table model with one label per heading, in order (none
     * without "headings"), every column 70 wide, and the rows only when "rows" is present.
     */
    method Populate(data: TableData)
      modifies this
      ensures hasModel
      ensures columns == ColumnLabels(data)
      ensures |widths| == |columns| && forall i :: 0 <= i < |widths| ==> widths[i] == ColumnWidth
      ensures rows == (if data.rows.Some? then data.rows.value else [])
    {
      var labels: seq<string> := [];
      if data.headings.Some? {
        labels := AliasLabels(ColumnAliases, data.headings.value);
      }
      hasModel := true;
      columns := labels;
      rows := [];
      var w: seq<int> := [];
      var i := 0;
      while i < |labels|
        invariant 0 <= i <= |labels|
        invariant |w| == i && forall k :: 0 <= k < i ==> w[k] == ColumnWidth
      {
        w := w + [ColumnWidth];
        i := i + 1;
      }
      widths := w;
      if data.rows.Some? {
        rows := data.rows.value;
      }
    }

    /** `emptyDataTable`: the rows become empty when there is a table model; nothing else changes. */
    method Empty()
      modifies this
      ensures hasModel == old(hasModel) && columns == old(columns) && widths == old(widths)
      ensures rows == (if old(hasModel) then [] else old(rows))
    {
      if hasModel {
        rows := [];
      }
    }
  }

  // ----- Query timestamp -----

  const TimestampMark := "{timestamp}"

  /**
   * `setTimestampOnQuery`: the first "{timestamp}" becomes the decimal clock value `now`
   * (the value of `Date.now()`); a URL without it comes back unchanged.
   */
  function SetTimestampOnQuery(url: string, now: nat): (r: string)
    ensures !Contains(url, TimestampMark) ==> r == url
    ensures Contains(url, TimestampMark) ==>
      var i := Find(url, TimestampMark).value;
      i + |TimestampMark| <= |url| && url[i..i + |TimestampMark|] == TimestampMark
      && (forall j: nat :: j < i ==> !OccursAt(url, TimestampMark, j))
      && r == url[..i] + NatStr(now) + url[i + |TimestampMark|..]
  {
    FindSpec(url, TimestampMark);
    ReplaceFirst(url, TimestampMark, NatStr(now))
  }

  /** Only the first mark is replaced: a later one stays in the URL. */
  lemma TimestampOnlyFirst(before: string, after: string, now: nat)
    requires '{' !in before
    ensures SetTimestampOnQuery(before + TimestampMark + after, now) == before + NatStr(now) + after
  {
    var url := before + TimestampMark + after;
    assert OccursAt(url, TimestampMark, |before|) by {
      assert url[|before|..|before| + |TimestampMark|] == TimestampMark;
    }
    FindSpec(url, TimestampMark);
    var i := Find(url, TimestampMark).value;
    forall j: nat | j < |before| ensures !OccursAt(url, TimestampMark, j) {
      assert url[j] == before[j] && before[j] != TimestampMark[0];
      assert j + |TimestampMark| <= |url| ==> url[j..j + |TimestampMark|][0] != TimestampMark[0];
    }
    assert url[..i] == before;
    assert url[i + |TimestampMark|..] == after;
  }

  // ----- The model viewer -----

  /** A metadata field the viewer lists: its key and its title. */
  datatype Field = Field(id: string, caption: string)

  const ShortFields: seq<Field> := [
    Field("filename", "Filename"),
    Field("systemName", "System name"),
    Field("manufacturer", "Manufacturer"),
    Field("phantomType", "Phantom type"),
    Field("hardwareVersion", "Hardware version"),
    Field("softwareVersion", "Software version")
  ]

  const LongFields: seq<Field> := ShortFields + [
    Field("acceptanceCriteria", "Acceptance criteria"),
    Field("normalizedRMSError", "Norm. RMS Error")
  ]

  function ViewerFields(long: bool): (fields: seq<Field>)
    ensures |fields| == if long then 8 else 6
    ensures fields[..6] == ShortFields
  {
    if long then LongFields else ShortFields
  }

  /** The two fields whose value labels get the Pass/Fail colouring. */
  predicate Graded(id: string)
  {
    id == "acceptanceCriteria" || id == "normalizedRMSError"
  }

  /** The model metadata a viewer shows: null, or an object of string values. */
  type Metadata = Option<map<string, string>>

  /** A value label is shown for a field present in the metadata with a non-empty (truthy) value. */
  predicate Shown(data: Metadata, id: string)
  {
    data.Some? && id in data.value && data.value[id] != ""
  }

  /** A label placed in the viewer's grid: its text and its colour. */
  datatype GridLabel = GridLabel(text: string, colour: Colour)

  const ViewerTitle := "Model Information"

  /** The label of one value, as `decoratePassFailLabel` then `setValue` leave it. */
  function ValueLabel(id: string, value: string): GridLabel
  {
    GridLabel(value, if Graded(id) then PassFailColour(Some(value)) else DefaultColour)
  }

  /**
   * The grid of a viewer listing `fields`: the title, when asked for, takes row 0; field k's
   * title takes column 0 of row k + offset, and its value column 1 of the same row when the
   * metadata has a truthy value. Nothing else is placed.
   */
  ghost predicate ViewerGrid(grid: map<(nat, nat), GridLabel>, fields: seq<Field>, data: Metadata, withTitle: bool)
  {
    var offset := if withTitle then 1 else 0;
    (withTitle ==> (0, 0) in grid && grid[(0, 0)] == GridLabel(ViewerTitle, DefaultColour))
    && (forall k :: 0 <= k < |fields| ==> FieldPlaced(grid, fields[k], k + offset, data))
    && (forall cell :: cell in grid ==> cell.1 <= 1 && cell.0 < offset + |fields|)
    && (forall cell :: cell in grid && cell.1 == 1 ==> offset <= cell.0)
  }

  /** Row `row` holds the field's title, and its value exactly when the value is shown. */
  ghost predicate FieldPlaced(grid: map<(nat, nat), GridLabel>, field: Field, row: nat, data: Metadata)
  {
    (row, 0) in grid && grid[(row, 0)] == GridLabel(field.caption + ":", DefaultColour)
    && ((row, 1) in grid <==> Shown(data, field.id))
    && (Shown(data, field.id) ==> grid[(row, 1)] == ValueLabel(field.id, data.value[field.id]))
  }

  /** The cells of one field, placed at row `row` of `grid`. */
  function PlaceField(grid: map<(nat, nat), GridLabel>, field: Field, row: nat, data: Metadata): map<(nat, nat), GridLabel>
  {
    var g := grid[(row, 0) := GridLabel(field.caption + ":", DefaultColour)];
    if Shown(data, field.id) then g[(row, 1) := ValueLabel(field.id, data.value[field.id])] else g
  }

  /** Placing the next field keeps the earlier rows and adds its own. */
  lemma PlaceFieldStep(grid: map<(nat, nat), GridLabel>, fields: seq<Field>, idx: nat, data: Metadata, withTitle: bool)
    requires idx < |fields| && ViewerGrid(grid, fields[..idx], data, withTitle)
    ensures ViewerGrid(PlaceField(grid, fields[idx], idx + (if withTitle then 1 else 0), data), fields[..idx + 1], data, withTitle)
  {
    var offset := if withTitle then 1 else 0;
    var g := PlaceField(grid, fields[idx], idx + offset, data);
    var before, after := fields[..idx], fields[..idx + 1];
    forall k | 0 <= k < |after| ensures FieldPlaced(g, after[k], k + offset, data) {
      if k < idx {
        assert before[k] == after[k];
        assert FieldPlaced(grid, before[k], k + offset, data);
      }
    }
  }

  /** The loop of `modelViewer` over the listed fields. */
  method PlaceFields(fields: seq<Field>, data: Metadata, withTitle: bool) returns (grid: map<(nat, nat), GridLabel>)
    ensures ViewerGrid(grid, fields, data, withTitle)
  {
    var offset := if withTitle then 1 else 0;
    grid := map[];
    if withTitle {
      grid := grid[(0, 0) := GridLabel(ViewerTitle, DefaultColour)];
    }
    var idx := 0;
    while idx < |fields|
      invariant 0 <= idx <= |fields|
      invariant ViewerGrid(grid, fields[..idx], data, withTitle)
    {
      PlaceFieldStep(grid, fields, idx, data, withTitle);
      var entry := fields[idx];
      grid := grid[(idx + offset, 0) := GridLabel(entry.caption + ":", DefaultColour)];
      if Shown(data, entry.id) {
        grid := grid[(idx + offset, 1) := ValueLabel(entry.id, data.value[entry.id])];
      }
      idx := idx + 1;
    }
    assert fields[..idx] == fields;
  }

  /** `modelViewer(data, withTitle, long)`: six fields, eight when `long`. */
  method ModelViewer(data: Metadata, withTitle: bool, long: bool) returns (grid: map<(nat, nat), GridLabel>)
    ensures ViewerGrid(grid, ViewerFields(long), data, withTitle)
  {
    grid := PlaceFields(ViewerFields(long), data, withTitle);
  }

  /**
   * A child of a step's options column. A model viewer keeps the metadata it was built from
   * and its grid; the other children are only told apart.
   */
  datatype Panel =
    | FileInputPanel
    | ResetPanel
    | ControlsPanel
    | ViewerPanel(shows: Metadata, grid: map<(nat, nat), GridLabel>)

  /** `p` is a viewer of `data` built by `modelViewer(data, withTitle, long)`. */
  ghost predicate ShowsModel(p: Panel, data: Metadata, withTitle: bool, long: bool)
  {
    p.ViewerPanel? && p.shows == data && ViewerGrid(p.grid, ViewerFields(long), data, withTitle)
  }

  /** A new viewer panel for `data`. */
  method NewViewer(data: Metadata, withTitle: bool, long: bool) returns (p: Panel)
    ensures ShowsModel(p, data, withTitle, long)
  {
    var grid := ModelViewer(data, withTitle, long);
    p := ViewerPanel(data, grid);
  }

  // ----- Forms -----

  /** What a form holds: group headers, and named text fields and spinners. */
  datatype FormItem =
    | Header(title: string)
    | TextField(caption: string, key: string, text: string)
    | Spinner(caption: string, key: string, minimum: int, maximum: int, value: int)

  /** The value `getValue` gives for a named item. */
  function ItemValue(item: FormItem): Cell
  {
    match item
    case Header(_) => Str("")
    case TextField(_, _, text) => Str(text)
    case Spinner(_, _, _, _, value) => Num(value)
  }

  /** A `qx.ui.form.Form`: its items in the order they were added. */
  class Form {
    var items: seq<FormItem>

    constructor()
      ensures items == []
    {
      items := [];
    }

    method Add(item: FormItem)
      modifies this
      ensures items == old(items) + [item]
    {
      items := items + [item];
    }

    /** `addMeasurementAreaToForm(form, isModel)`. */
    method AddMeasurementArea(isModel: bool)
      modifies this
      ensures items == old(items) + MeasurementArea(isModel)
    {
      Add(Header("Measurement area (mm)"));
      Add(Spinner("x", if isModel then "modelAreaX" else "measAreaX", 80, 1000, 100));
      Add(Spinner("y", if isModel then "modelAreaY" else "measAreaY", 160, 1000, 200));
    }
  }

  /** The header and the two spinners `addMeasurementAreaToForm` adds. */
  function MeasurementArea(isModel: bool): seq<FormItem>
  {
    [ Header("Measurement area (mm)"),
      Spinner("x", if isModel then "modelAreaX" else "measAreaX", 80, 1000, 100),
      Spinner("y", if isModel then "modelAreaY" else "measAreaY", 160, 1000, 200) ]
  }

  /**
   * The spinners' ranges are x in [80, 1000] and y in [160, 1000], each starting inside its
   * range (100 and 200); the keys name the model's area or the measured area.
   */
  lemma MeasurementAreaBounds(isModel: bool)
    ensures var items := MeasurementArea(isModel);
      |items| == 3 && items[1].Spinner? && items[2].Spinner?
      && items[1].minimum == 80 && items[1].maximum == 1000
      && items[2].minimum == 160 && items[2].maximum == 1000
      && items[1].minimum <= items[1].value <= items[1].maximum
      && items[2].minimum <= items[2].value <= items[2].maximum
      && items[1].key == (if isModel then "modelAreaX" else "measAreaX")
      && items[2].key == (if isModel then "modelAreaY" else "measAreaY")
  {
  }

  /** The items of `modelEditor`: the model information fields, then the model's area. */
  function ModelEditorItems(): seq<FormItem>
  {
    ModelInformation() + MeasurementArea(true)
  }

  /** `form.getItems()` read through `getValue`: each named item's value under its name. */
  function FormValues(items: seq<FormItem>): (values: map<string, Cell>)
    ensures forall key :: key in values <==> exists i :: 0 <= i < |items| && !items[i].Header? && items[i].key == key
  {
    if |items| == 0 then map[]
    else
      var last := items[|items| - 1];
      var rest := FormValues(items[..|items| - 1]);
      if last.Header? then rest else rest[last.key := ItemValue(last)]
  }

  /** Reading two runs of items one after the other: a later name overrides an earlier one. */
  lemma {:induction false} FormValuesAppend(a: seq<FormItem>, b: seq<FormItem>)
    ensures FormValues(a + b) == FormValues(a) + FormValues(b)
  {
    if |b| == 0 {
      assert a + b == a;
    } else {
      var last := b[|b| - 1];
      assert (a + b)[..|a + b| - 1] == a + b[..|b| - 1];
      FormValuesAppend(a, b[..|b| - 1]);
    }
  }

  /** The model-information part of the editor: a header and six named text fields. */
  function ModelInformation(): seq<FormItem>
  {
    [ Header("Model information"),
      TextField("Filename", "filename", "Model.json"),
      TextField("System name", "systemName", "A SAR System"),
      TextField("Manufacturer", "manufacturer", "A Manufacturer"),
      TextField("Phantom type", "phantomType", "Flat"),
      TextField("Hardware version", "hardwareVersion", "AD 385 12B"),
      TextField("Software version", "softwareVersion", "V2.0") ]
  }

  lemma ModelInformationValues()
    ensures FormValues(ModelInformation()) == map[
      "filename" := Str("Model.json"), "systemName" := Str("A SAR System"),
      "manufacturer" := Str("A Manufacturer"), "phantomType" := Str("Flat"),
      "hardwareVersion" := Str("AD 385 12B"), "softwareVersion" := Str("V2.0")]
  {
    var items := ModelInformation();
    assert items[..1][..0] == [];
    var m: map<string, Cell> := map[];
    m := m["filename" := Str("Model.json")];
    assert items[..2][..1] == items[..1];
    assert FormValues(items[..2]) == m;
    m := m["systemName" := Str("A SAR System")];
    assert items[..3][..2] == items[..2];
    assert FormValues(items[..3]) == m;
    m := m["manufacturer" := Str("A Manufacturer")];
    assert items[..4][..3] == items[..3];
    assert FormValues(items[..4]) == m;
    m := m["phantomType" := Str("Flat")];
    assert items[..5][..4] == items[..4];
    assert FormValues(items[..5]) == m;
    m := m["hardwareVersion" := Str("AD 385 12B")];
    assert items[..6][..5] == items[..5];
    assert FormValues(items[..6]) == m;
    m := m["softwareVersion" := Str("V2.0")];
    assert items[..7][..6] == items[..6];
    assert FormValues(items[..7]) == m;
    assert items[..7] == items;
  }

  lemma MeasurementAreaValues(isModel: bool)
    ensures FormValues(MeasurementArea(isModel)) == map[
      (if isModel then "modelAreaX" else "measAreaX") := Num(100),
      (if isModel then "modelAreaY" else "measAreaY") := Num(200)]
  {
    var items := MeasurementArea(isModel);
    assert items[..2][..1] == items[..1];
    assert items[..1][..0] == [];
  }

  /** The values of the untouched model editor: its eight named items with their defaults. */
  lemma ModelEditorValues()
    ensures FormValues(ModelEditorItems()) == map[
      "filename" := Str("Model.json"), "systemName" := Str("A SAR System"),
      "manufacturer" := Str("A Manufacturer"), "phantomType" := Str("Flat"),
      "hardwareVersion" := Str("AD 385 12B"), "softwareVersion" := Str("V2.0"),
      "modelAreaX" := Num(100), "modelAreaY" := Num(200)]
  {
    FormValuesAppend(ModelInformation(), MeasurementArea(true));
    ModelInformationValues();
    MeasurementAreaValues(true);
  }

  // ----- Downloads -----

  /** `downloadJson(data, filename)` or `downloadCSV(data, filename)`: the browser saves `content` as `fileName`. */
  datatype Download<T> = Download(fileName: string, content: T)

  // ----- Tab pages -----

  /** A `qx.ui.tabview.Page`: its title and the minimum width of its button. */
  datatype TabPage = TabPage(title: string, minWidth: int)

  /** `createTabPage`: the button is ten pixels wide per character of the title, so it is not elided. */
  function CreateTabPage(title: string): (page: TabPage)
    ensures page.title == title && page.minWidth == 10 * |title|
  {
    TabPage(title, |title| * 10)
  }
}
