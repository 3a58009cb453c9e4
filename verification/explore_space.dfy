/**
 * `sar.steps.ExploreSpace`: the search of the test space, the table and distribution plot
 * of its result, and the export of the critical tests, whose handler, as written, makes the
 * wrong button busy. One request is one step: the transport's reply is an input.
 */
module ExploreSpace {
  import opened Wrappers
  import opened Widgets
  import opened StepUtils
  import opened Resources

  /** The export button: created disabled. */
  method NewExportButton() returns (b: FetchButton)
    ensures fresh(b) && b.Valid() && b.attached && !b.enabled && !b.fetching && b.icon == None
  {
    b := new FetchButton(None, true);
    b.SetEnabled(false);
  }

  class ExploreStep {
    /** The table of the "Data" tab. */
    const table: DataTable
    /** The image viewer of the "Distribution" tab. */
    const distribution: Image
    const searchButton: FetchButton
    const exportButton: FetchButton
    /** The files handed to the browser. */
    var downloads: seq<Download<string>>
    ghost var Repr: set<object>

    ghost predicate Valid()
      reads this, Repr
    {
      this !in Repr && table in Repr && distribution in Repr
      && searchButton in Repr && exportButton in Repr && searchButton != exportButton
      && searchButton.attached && exportButton.attached
      && searchButton.Valid() && exportButton.Valid()
    }

    /** An empty table, no plot, and export disabled. */
    constructor()
      ensures Valid() && fresh(Repr)
      ensures !table.hasModel && table.rows == [] && distribution.source == None
      ensures searchButton.enabled && !searchButton.fetching && !exportButton.enabled && !exportButton.fetching
      ensures downloads == []
    {
      var search := new FetchButton(None, true);
      var xport := NewExportButton();
      var data := new DataTable();
      var image := new Image();
      table := data;
      distribution := image;
      searchButton := search;
      exportButton := xport;
      downloads := [];
      Repr := {data, image, search, xport};
    }

    /**
     * The search button: busy while the request runs. The search resource registers no
     * "search", so the request always rejects and the step keeps its results and its
     * disabled export.
     */
    method Search(reply: Reply<Option<TableData>>) returns (outcome: Outcome<Option<TableData>>)
      requires Valid() && !searchButton.fetching
      modifies Repr
      ensures Valid() && outcome == Fetch("searchSpace", "search", reply)
      ensures outcome == Rejected(NotAFunction, None)
      ensures exportButton.enabled == old(exportButton.enabled)
      ensures table.rows == old(table.rows) && table.columns == old(table.columns)
      ensures distribution.source == old(distribution.source)
      ensures !searchButton.fetching && searchButton.enabled && searchButton.icon == old(searchButton.icon)
    {
      searchButton.SetFetching(true);
      UnregisteredCallsReject(reply);
      outcome := Fetch("searchSpace", "search", reply);
      Searched(outcome);
      searchButton.SetFetching(false);
    }

    /** The `then` of the search handler, for whatever outcome the request has. */
    method Searched(outcome: Outcome<Option<TableData>>)
      requires Valid()
      modifies Repr
      ensures Valid()
      ensures outcome.Rejected? ==>
        exportButton.enabled == old(exportButton.enabled)
        && table.rows == old(table.rows) && table.columns == old(table.columns)
      ensures outcome.Resolved? ==> exportButton.enabled
      ensures outcome.Resolved? && outcome.response.Some? ==> table.hasModel && table.columns == ColumnLabels(outcome.response.value)
      ensures distribution.source == old(distribution.source)
      ensures searchButton.fetching == old(searchButton.fetching) && searchButton.icon == old(searchButton.icon)
      ensures searchButton.savedIcon == old(searchButton.savedIcon) && searchButton.rotating == old(searchButton.rotating)
      ensures searchButton.enabled == old(searchButton.enabled)
    {
      if outcome.Resolved? {
        var _ := SpaceSearched(outcome.response);
      }
    }

    /**
     * `__spaceSearched`: export is enabled and a reply fills the table; then reading the
     * URL of "getDistribution", which the search resource does not register, throws, and
     * the plot keeps its source.
     */
    method SpaceSearched(data: Option<TableData>) returns (error: Result<string>)
      requires Valid()
      modifies Repr
      ensures Valid() && exportButton.enabled
      ensures data.Some? ==>
        table.hasModel && table.columns == ColumnLabels(data.value)
        && table.rows == (if data.value.rows.Some? then data.value.rows.value else [])
      ensures data.None? ==> table.rows == old(table.rows) && table.columns == old(table.columns)
      ensures distribution.source == old(distribution.source) && error == Err(ReadOfUndefined("url"))
      ensures searchButton.fetching == old(searchButton.fetching) && searchButton.icon == old(searchButton.icon)
      ensures searchButton.savedIcon == old(searchButton.savedIcon) && searchButton.rotating == old(searchButton.rotating)
      ensures searchButton.enabled == old(searchButton.enabled)
    {
      exportButton.SetEnabled(true);
      if data.Some? {
        table.Populate(data.value);
      }
      DistributionUrl();
      error := EndPointUrl("searchSpace", "getDistribution");
    }

    /**
     * The export handler as written: it makes the search button busy, and the `finally`
     * clears the export button, which never was. The search button is left busy and, being
     * attached, disabled with its spinner; the export button does not change; nothing is
     * downloaded.
     */
    method ExportAsWritten(reply: Reply<string>) returns (outcome: Outcome<string>)
      requires Valid() && exportButton.enabled && !exportButton.fetching && !searchButton.fetching
      modifies Repr
      ensures Valid() && outcome == Rejected(NotAFunction, None) && downloads == old(downloads)
      ensures searchButton.fetching && !searchButton.enabled && searchButton.icon == Some(SpinnerIcon)
      ensures !exportButton.fetching && exportButton.enabled && exportButton.icon == old(exportButton.icon)
    {
      searchButton.SetFetching(true);
      UnregisteredCallsReject(reply);
      outcome := Fetch("searchSpace", "xport", reply);
      exportButton.SetFetching(false);
    }

    /**
     * The export handler as intended: the export button is busy while the request runs,
     * the search button is untouched, and a reply is saved as "SearchSpace.csv" (what
     * `__testDataExported` does).
     */
    method Export(reply: Reply<string>) returns (outcome: Outcome<string>)
      requires Valid() && exportButton.enabled && !exportButton.fetching
      modifies this, exportButton
      ensures Valid() && Repr == old(Repr) && outcome == Fetch("searchSpace", "xport", reply)
      ensures outcome.Resolved? ==> downloads == old(downloads) + [Download("SearchSpace.csv", outcome.response)]
      ensures outcome.Rejected? ==> downloads == old(downloads)
      ensures !exportButton.fetching && exportButton.enabled && exportButton.icon == old(exportButton.icon)
    {
      exportButton.SetFetching(true);
      outcome := Fetch("searchSpace", "xport", reply);
      Exported(outcome);
      exportButton.SetFetching(false);
    }

    /** `__testDataExported`: the reply is saved as "SearchSpace.csv". */
    method Exported(outcome: Outcome<string>)
      modifies this
      ensures outcome.Resolved? ==> downloads == old(downloads) + [Download("SearchSpace.csv", outcome.response)]
      ensures outcome.Rejected? ==> downloads == old(downloads)
      ensures Repr == old(Repr)
    {
      if outcome.Resolved? {
        downloads := downloads + [Download("SearchSpace.csv", outcome.response)];
      }
    }
  }

  /**
   * After one export as written, the search button stays disabled: no further search can
   * start until something else clears its busy flag; the intended handler leaves it as it was.
   */
  method ExportThenSearchable(step: ExploreStep, reply: Reply<string>) returns (asWritten: bool, intended: bool)
    requires step.Valid() && step.exportButton.enabled && !step.exportButton.fetching
    requires !step.searchButton.fetching && step.searchButton.enabled
    modifies step, step.Repr
    ensures !asWritten && intended
  {
    var _ := step.Export(reply);
    intended := step.searchButton.enabled && !step.searchButton.fetching;
    var _ := step.ExportAsWritten(reply);
    var enabled, busy := step.searchButton.enabled, step.searchButton.fetching;
    asWritten := enabled && !busy;
  }
}
