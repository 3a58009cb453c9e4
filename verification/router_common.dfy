/**
 * The shared state behind the HTTP routers (`routers/common.py`): the training and test data
 * sets, which keep only headings and rows, and the model guards with the goodfit report the
 * analysis and confirmation steps display.
 */
module RouterCommon {
  import opened Wrappers
  import opened Cells
  import opened Text
  import SampleData

  /** An HTTP answer: status code and body text. */
  datatype Response = Response(status: int, body: string)

  const PackageRaised := "The IEC62209 package raised an exception: "

  /** What `Work.generate_sample` produced: the column list and row lists, or the exception it raised. */
  datatype Generated =
    | Produced(headings: seq<string>, values: seq<seq<Cell>>, listsOk: bool)
    | GenerationRaised(msg: string)

  /**
   * The answer of a `generate` endpoint: 200 with an empty body when generation went through,
   * otherwise 500 with the exception's text after a fixed prefix.
   */
  function GenerateResponse(r: Result<()>): (resp: Response)
    ensures resp.status == 200 <==> r.Ok?
    ensures r.Ok? ==> resp.body == ""
    ensures r.Err? ==> resp.status == 500 && resp.body == PackageRaised + r.msg
  {
    match r
    case Ok(_) => Response(200, "")
    case Err(e) => Response(500, PackageRaised + e)
  }

  /** The routers' data set has no `plot_distribution`: calling it raises `AttributeError`. */
  const NoPlotDistribution := "'DataSetInterface' object has no attribute 'plot_distribution'"

  class DataSet {
    var headings: seq<string>
    var rows: seq<seq<Cell>>

    constructor ()
      ensures headings == [] && rows == []
    {
      headings := [];
      rows := [];
    }

    /** `clear`. */
    method Clear()
      modifies this
      ensures headings == [] && rows == []
    {
      headings := [];
      rows := [];
    }

    /** `to_dict`: the headings and rows, nothing else. */
    function ToDict(): (d: SampleData.TableDict)
      reads this
      ensures d.headings == headings && d.rows == rows
    {
      SampleData.TableDict(headings, rows)
    }

    /**
     * `generate`: a failure leaves the table as it was; otherwise the table is the generated
     * one, numbered from 1 in a leading "no." column unless it already has one.
     */
    method Generate(work: Generated) returns (r: Result<()>)
      modifies this
      ensures work.GenerationRaised? ==> r == Err(work.msg) && headings == old(headings) && rows == old(rows)
      ensures work.Produced? && !work.listsOk ==>
        r == Err(SampleData.InvalidSample) && headings == old(headings) && rows == old(rows)
      ensures work.Produced? && work.listsOk ==>
        r == Ok(())
        && headings == SampleData.WithIdHeading(work.headings)
        && rows == SampleData.WithIds(work.headings, work.values)
    {
      if work.GenerationRaised? {
        return Err(work.msg);
      }
      if !work.listsOk {
        return Err(SampleData.InvalidSample);
      }
      var needIds := SampleData.IdHeading !in work.headings;
      headings := if needIds then [SampleData.IdHeading] + work.headings else work.headings;
      rows := [];
      var idx := 1;
      var i := 0;
      while i < |work.values|
        invariant 0 <= i <= |work.values|
        invariant needIds ==> idx == i + 1
        invariant rows == SampleData.WithIds(work.headings, work.values)[..i]
        invariant headings == SampleData.WithIdHeading(work.headings)
      {
        var row := work.values[i];
        if needIds {
          row := [Num(idx)] + row;
          idx := idx + 1;
        }
        rows := rows + [row];
        i := i + 1;
      }
      assert rows == SampleData.WithIds(work.headings, work.values);
      r := Ok(());
    }
  }

  /**
   * The loop shared by the exporting endpoints: every row is extended with `k` zeros (the
   * `row += [0, ...]` on the stored row) and its text appended to the export.
   */
  method PadAndExport(headings: seq<string>, rows: seq<seq<Cell>>, k: nat) returns (padded: seq<seq<Cell>>, text: string)
    ensures padded == PadRows(rows, k)
    ensures text == ExportText(headings, padded)
  {
    padded := [];
    text := ListText(Strs(headings));
    var i := 0;
    while i < |rows|
      invariant 0 <= i <= |rows|
      invariant padded == PadRows(rows, k)[..i]
      invariant text == ExportText(headings, padded)
    {
      var row := rows[i] + Zeros(k);
      var next := padded + [row];
      assert next[..|next| - 1] == padded && next[|next| - 1] == row;
      assert ExportText(headings, next) == text + "\n" + ListText(row);
      assert next == PadRows(rows, k)[..i + 1];
      text := text + "\n" + ListText(row);
      padded := next;
      i := i + 1;
    }
  }

  /** Zero added columns leave every row as it was. */
  lemma PadRowsZero(rows: seq<seq<Cell>>)
    ensures PadRows(rows, 0) == rows
  {
    forall i | 0 <= i < |rows| ensures PadRows(rows, 0)[i] == rows[i] {
      assert rows[i] + Zeros(0) == rows[i];
    }
  }

  /** What `Work.load_init_sample` did: loaded a sample (with its size and whether it was kept), or raised. */
  datatype InitLoad =
    | InitLoaded(headings: seq<string>, values: seq<seq<Cell>>, size: nat, kept: bool)
    | InitLoadRaised(msg: string)

  const EmptySample := "Empty sample"

  function EmptyFile(filename: string): string
  {
    "Failed to load data, or " + filename + " is empty"
  }

  /** The two entries of the goodfit report. */
  const AcceptanceKey := "Acceptance criteria"
  const RmsKey := "Normalized RMS error"

  /** The class-level `Work` of the routers' `ModelInterface`, seen through its model slot. */
  class ModelInterface {
    var slot: SampleData.ModelSlot

    constructor ()
      ensures slot == SampleData.Missing
    {
      slot := SampleData.Missing;
    }

    /** `has_model`: a lookup that raises counts as no model. */
    function HasModel(): (b: bool)
      reads this
      ensures b <==> slot == SampleData.Loaded
    {
      slot.Loaded?
    }

    /** `raise_if_no_model`. */
    function RaiseIfNoModel(): (r: Result<()>)
      reads this
      ensures r.Ok? <==> HasModel()
      ensures r.Err? ==> r.msg == SampleData.NoModel
    {
      if HasModel() then Ok(()) else Err(SampleData.NoModel)
    }

    /**
     * `goodfit_test`: needs a model. The report says "Pass" exactly when the package's fit
     * verdict holds, and gives the normalized RMS error (rendered by the package's number format)
     * followed by "< 25%" when it holds and "> 25%" when it does not.
     */
    function GoodfitTest(verdict: bool, nrmsePercent: string): (r: Result<map<string, string>>)
      reads this
      ensures r.Ok? <==> HasModel()
      ensures r.Err? ==> r.msg == SampleData.NoModel
      ensures r.Ok? ==>
        r.value.Keys == {AcceptanceKey, RmsKey}
        && (r.value[AcceptanceKey] == "Pass" <==> verdict)
        && (r.value[AcceptanceKey] == "Fail" <==> !verdict)
        && r.value[RmsKey] == nrmsePercent + " " + (if verdict then "< 25%" else "> 25%")
    {
      if !HasModel() then Err(SampleData.NoModel)
      else Ok(map[AcceptanceKey := if verdict then "Pass" else "Fail",
                  RmsKey := nrmsePercent + " " + (if verdict then "< 25%" else "> 25%")])
    }

    /**
     * `plot_model`: the lookup is not guarded, so an exception it raises propagates; without
     * a model the method falls off its end and answers None instead of raising; with one it
     * answers the plot.
     */
    function PlotModel(): (r: Result<Option<()>>)
      reads this
      ensures r.Ok? <==> !slot.LookupRaises?
      ensures slot.LookupRaises? ==> r == Err(slot.error)
      ensures r.Ok? ==> (r.value.Some? <==> HasModel())
    {
      match slot
      case LookupRaises(e) => Err(e)
      case Loaded => Ok(Some(()))
      case Missing => Ok(None)
    }
  }

  /**
   * `load_init_sample`: an exception of the package propagates; a sample the package did not
   * keep is "Empty sample"; an empty one names the file; otherwise its headings and rows.
   */
  function LoadInitSample(filename: string, load: InitLoad): (r: Result<SampleData.TableDict>)
    ensures r.Ok? <==> load.InitLoaded? && load.kept && load.size > 0
    ensures r.Ok? ==> r.value == SampleData.TableDict(load.headings, load.values)
    ensures load.InitLoadRaised? ==> r == Err(load.msg)
    ensures load.InitLoaded? && !load.kept ==> r == Err(EmptySample)
    ensures load.InitLoaded? && load.kept && load.size == 0 ==> r == Err(EmptyFile(filename))
  {
    match load
    case InitLoadRaised(e) => Err(e)
    case InitLoaded(h, v, size, kept) =>
      if !kept then Err(EmptySample)
      else if size == 0 then Err(EmptyFile(filename))
      else Ok(SampleData.TableDict(h, v))
  }
}
