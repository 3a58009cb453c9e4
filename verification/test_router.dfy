/** The `/test-set-generation` router (`routers/test_set_generation.py`), acting on the shared test data set. */
module TestRouter {
  import opened Wrappers
  import opened Cells
  import opened RouterCommon

  /** `generate`: 200 and an empty body when the test set was generated, 500 with the reason otherwise. */
  method Generate(ds: DataSet, work: Generated) returns (resp: Response)
    modifies ds
    ensures resp.status == 200 <==> work.Produced? && work.listsOk
    ensures resp.status == 200 ==>
      resp.body == "" && ds.headings == SampleData.WithIdHeading(work.headings) && ds.rows == SampleData.WithIds(work.headings, work.values)
    ensures resp.status != 200 ==>
      resp.status == 500 && ds.headings == old(ds.headings) && ds.rows == old(ds.rows)
      && resp.body == PackageRaised + (if work.GenerationRaised? then work.msg else SampleData.InvalidSample)
  {
    var r := ds.Generate(work);
    resp := GenerateResponse(r);
  }

  /** `data`: the table as it is. */
  function Data(ds: DataSet): (d: SampleData.TableDict)
    reads ds
    ensures d.headings == ds.headings && d.rows == ds.rows
  {
    ds.ToDict()
  }

  /** `distribution`: the data set cannot plot, so the answer is always a 500 carrying the error. */
  function Distribution(): (resp: Response)
    ensures resp.status == 500 && resp.body == NoPlotDistribution
  {
    Response(500, NoPlotDistribution)
  }

  /**
   * `xport` reads the test set without changing it: the heading line, then one line per row
   * (so, by `Cells.ExportLines`, exactly one more line than there are rows).
   */
  method Xport(ds: DataSet) returns (text: string)
    ensures text == ExportText(ds.headings, ds.rows)
  {
    PadRowsZero(ds.rows);
    var rows;
    rows, text := PadAndExport(ds.headings, ds.rows, 0);
  }

  /** `reset`: the test set is emptied. */
  method Reset(ds: DataSet)
    modifies ds
    ensures ds.headings == [] && ds.rows == []
  {
    ds.Clear();
  }
}
