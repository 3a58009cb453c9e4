/**
 * `sar.steps.SearchSpace`: the search for critical test conditions, the label counting
 * them, the `criticalsFound` event, the table and distribution plot of the result, the
 * export of the search space, and the reaction to a new model. One request is one step:
 * the transport's reply is an input.
 */
module SearchSpace {
  import opened Wrappers
  import opened Text
  import opened Widgets
  import opened StepUtils
  import opened Resources

  /**
   * What the criticals label shows for a reply: the number of its rows in decimal, or
   * nothing when there is no reply or it has no "rows". The text reads back as that number.
   */
  function CriticalsText(data: Option<TableData>): (r: Option<string>)
    ensures r.Some? <==> data.Some? && data.value.rows.Some?
    ensures r.Some? ==> (forall i :: 0 <= i < |r.value| ==> IsDigit(r.value[i]))
    ensures r.Some? ==> ParseNat(r.value) == |data.value.rows.value|
  {
    if data.Some? && data.value.rows.Some? then
      NatStrRoundTrip(|data.value.rows.value|);
      Some(NatStr(|data.value.rows.value|))
    else None
  }

  /** The `criticalsFound` events a reply fires: one carrying the row count, when there are rows. */
  function CriticalsEvents(data: Option<TableData>): (r: seq<nat>)
    ensures |r| <= 1
    ensures |r| == 1 <==> CriticalsText(data).Some?
    ensures |r| == 1 ==> NatStr(r[0]) == CriticalsText(data).value
  {
    if data.Some? && data.value.rows.Some? then [|data.value.rows.value|] else []
  }

  /** The export button: created disabled. */
  method NewExportButton() returns (b: FetchButton)
    ensures fresh(b) && b.Valid() && b.attached && !b.enabled && !b.fetching && b.icon == None
  {
    b := new FetchButton(None, true);
    b.SetEnabled(false);
  }

  class SearchStep {
    /** The plain value label of "Critical test conditions found:". */
    const criticals: Label
    /** The image viewer of the "Distribution" tab. */
    const distribution: Image
    /** The table of the "Data" tab. */
    const table: DataTable
    const searchButton: FetchButton
    const exportButton: FetchButton
    /** The `model` property. */
    var model: Metadata
    /** The options column: the model viewer, then the search grid and the export button. */
    var options: seq<Panel>
    /** The payloads of the `criticalsFound` events fired. */
    var criticalsFound: seq<nat>
    /** The files handed to the browser. */
    var downloads: seq<Download<string>>
    ghost var Repr: set<object>

    /** The widgets are distinct and all in `Repr`. */
    ghost predicate Parts()
      reads this
    {
      this !in Repr && criticals in Repr && !criticals.decorated && distribution in Repr && table in Repr
      && searchButton in Repr && exportButton in Repr && searchButton != exportButton
      && searchButton.attached && exportButton.attached
    }

    ghost predicate Valid()
      reads this, Repr
    {
      Parts() && criticals.Valid() && searchButton.Valid() && exportButton.Valid()
      && |options| == 2 && options[0].ViewerPanel? && options[0].shows == model && options[1] == ControlsPanel
    }

    /** No model, no result, an empty table, and export disabled. */
    constructor()
      ensures Valid() && fresh(Repr) && model == None && ShowsModel(options[0], None, true, false)
      ensures criticals.value == None && distribution.source == None && !table.hasModel && table.rows == []
      ensures searchButton.enabled && !searchButton.fetching && !exportButton.enabled && !exportButton.fetching
      ensures criticalsFound == [] && downloads == []
    {
      var viewer := NewViewer(None, true, false);
      var search := new FetchButton(None, true);
      var value := new Label(false);
      var xport := NewExportButton();
      var image := new Image();
      var data := new DataTable();
      criticals := value;
      distribution := image;
      table := data;
      searchButton := search;
      exportButton := xport;
      model := None;
      options := [viewer, ControlsPanel];
      criticalsFound := [];
      downloads := [];
      Repr := {value, image, data, search, xport};
    }

    /**
     * `setModel(md)`, unless null is set over null: the viewer at index 0 is replaced by
     * one of `md`; the results stay.
     */
    method SetModel(md: Metadata)
      requires Valid()
      modifies this
      ensures Valid() && model == md && Repr == old(Repr)
      ensures md.Some? || old(model).Some? ==> ShowsModel(options[0], md, true, false)
      ensures criticalsFound == old(criticalsFound) && downloads == old(downloads)
    {
      if md.Some? || model.Some? {
        model := md;
        var viewer := NewViewer(md, true, false);
        options := [viewer] + options[1..];
      }
    }

    /**
     * The search button: busy while the request runs, and the count and the plot are reset
     * before it. The search resource registers no "search", so the request always rejects
     * and the step shows no result: nothing is counted, no event fires, export and the
     * table stay as they were.
     */
    method Search(reply: Reply<Option<TableData>>) returns (outcome: Outcome<Option<TableData>>)
      requires Valid() && !searchButton.fetching
      modifies this, Repr
      ensures Valid() && Repr == old(Repr) && outcome == Fetch("searchSpace", "search", reply)
      ensures outcome == Rejected(NotAFunction, None)
      ensures criticals.value == None && distribution.source == None
      ensures criticalsFound == old(criticalsFound) && exportButton.enabled == old(exportButton.enabled)
      ensures table.rows == old(table.rows) && table.columns == old(table.columns)
      ensures !searchButton.fetching && searchButton.enabled && searchButton.icon == old(searchButton.icon)
    {
      searchButton.SetFetching(true);
      criticals.ResetValue();
      distribution.ResetSource();
      UnregisteredCallsReject(reply);
      outcome := Fetch("searchSpace", "search", reply);
      Searched(outcome);
      searchButton.SetFetching(false);
    }

    /** The `then` of the search handler, for whatever outcome the request has. */
    method Searched(outcome: Outcome<Option<TableData>>)
      requires Valid()
      modifies this, Repr
      ensures Valid() && Repr == old(Repr) && model == old(model) && options == old(options)
      ensures outcome.Rejected? ==>
        criticals.value == old(criticals.value) && criticalsFound == old(criticalsFound)
        && exportButton.enabled == old(exportButton.enabled)
        && table.rows == old(table.rows) && table.columns == old(table.columns)
      ensures outcome.Resolved? ==>
        exportButton.enabled && criticals.value == CriticalsText(outcome.response)
        && criticalsFound == old(criticalsFound) + CriticalsEvents(outcome.response)
      ensures distribution.source == old(distribution.source)
      ensures searchButton.fetching == old(searchButton.fetching) && searchButton.icon == old(searchButton.icon)
      ensures searchButton.savedIcon == old(searchButton.savedIcon) && searchButton.rotating == old(searchButton.rotating)
      ensures searchButton.enabled == old(searchButton.enabled)
    {
      if outcome.Resolved? {
        var _ := SpaceSearched(outcome.response);
      }
    }

    /**
     * `__spaceSearched`: export is enabled; the label shows the number of rows and
     * `criticalsFound` fires with it, or the label is reset when the reply has no rows; a
     * reply fills the table; then reading the URL of "getDistribution", which the search
     * resource does not register, throws, and the plot keeps its source.
     */
    method SpaceSearched(data: Option<TableData>) returns (error: Result<string>)
      requires Valid()
      modifies this, Repr
      ensures Valid() && Repr == old(Repr) && model == old(model) && options == old(options)
      ensures exportButton.enabled && criticals.value == CriticalsText(data)
      ensures criticalsFound == old(criticalsFound) + CriticalsEvents(data)
      ensures data.Some? ==>
        table.hasModel && table.columns == ColumnLabels(data.value)
        && table.rows == (if data.value.rows.Some? then data.value.rows.value else [])
      ensures data.None? ==> table.rows == old(table.rows) && table.columns == old(table.columns)
      ensures distribution.source == old(distribution.source) && error == Err(ReadOfUndefined("url"))
      ensures searchButton.fetching == old(searchButton.fetching) && searchButton.icon == old(searchButton.icon)
      ensures searchButton.savedIcon == old(searchButton.savedIcon) && searchButton.rotating == old(searchButton.rotating)
      ensures searchButton.enabled == old(searchButton.enabled)
    {
      exportButton.SetEnabled(true);
      ShowCount(data);
      error := FetchResults(data);
    }

    /** The label and the event of `__spaceSearched`. */
    method ShowCount(data: Option<TableData>)
      requires criticals.Valid() && !criticals.decorated
      modifies this, criticals
      ensures criticals.Valid() && criticals.value == CriticalsText(data)
      ensures criticalsFound == old(criticalsFound) + CriticalsEvents(data)
      ensures Repr == old(Repr) && model == old(model) && options == old(options)
    {
      if data.Some? && data.value.rows.Some? {
        var count := |data.value.rows.value|;
        criticals.SetValue(Some(NatStr(count)));
        criticalsFound := criticalsFound + [count];
      } else {
        criticals.ResetValue();
      }
    }

    /** `__fetchResults`: a reply fills the table, then the distribution's URL is read. */
    method FetchResults(data: Option<TableData>) returns (error: Result<string>)
      modifies table
      ensures data.Some? ==>
        table.hasModel && table.columns == ColumnLabels(data.value)
        && table.rows == (if data.value.rows.Some? then data.value.rows.value else [])
      ensures data.None? ==> table.rows == old(table.rows) && table.columns == old(table.columns)
      ensures error == Err(ReadOfUndefined("url"))
    {
      if data.Some? {
        table.Populate(data.value);
      }
      DistributionUrl();
      error := EndPointUrl("searchSpace", "getDistribution");
    }

    /**
     * The export button (a disabled button receives no click): busy while the request
     * runs. The search resource registers no "xport" either, so nothing is downloaded.
     */
    method Export(reply: Reply<string>) returns (outcome: Outcome<string>)
      requires Valid() && exportButton.enabled && !exportButton.fetching
      modifies this, exportButton
      ensures Valid() && outcome == Fetch("searchSpace", "xport", reply)
      ensures outcome == Rejected(NotAFunction, None) && downloads == old(downloads)
      ensures !exportButton.fetching && exportButton.enabled && exportButton.icon == old(exportButton.icon)
    {
      exportButton.SetFetching(true);
      UnregisteredCallsReject(reply);
      outcome := Fetch("searchSpace", "xport", reply);
      Exported(outcome);
      exportButton.SetFetching(false);
    }

    /** The `then` of the export handler: the reply is saved as "SearchSpace.csv". */
    method Exported(outcome: Outcome<string>)
      modifies this
      ensures outcome.Resolved? ==> downloads == old(downloads) + [Download("SearchSpace.csv", outcome.response)]
      ensures outcome.Rejected? ==> downloads == old(downloads)
      ensures Repr == old(Repr) && model == old(model) && options == old(options)
    {
      if outcome.Resolved? {
        downloads := downloads + [Download("SearchSpace.csv", outcome.response)];
      }
    }
  }
}
