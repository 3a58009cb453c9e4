/**
 * The `/training-set-generation` router (`routers/training_set_generation.py`), acting on the
 * shared training data set.
 */
module TrainingRouter {
  import opened Wrappers
  import opened Cells
  import opened RouterCommon

  /** `reset`: the training set is emptied. */
  method Reset(ds: DataSet)
    modifies ds
    ensures ds.headings == [] && ds.rows == []
  {
    ds.Clear();
  }

  /** `distribution`: the data set cannot plot, so the answer is always a 500 carrying the error. */
  function Distribution(): (resp: Response)
    ensures resp.status == 500 && resp.body == NoPlotDistribution
  {
    Response(500, NoPlotDistribution)
  }

  /** `data`: the table as it is. */
  function Data(ds: DataSet): (d: SampleData.TableDict)
    reads ds
    ensures d.headings == ds.headings && d.rows == ds.rows
  {
    ds.ToDict()
  }

  /**
   * The table after `xport`: unless a "sar_1g" column exists, the columns "sar10g" and "u10g"
   * are appended to the stored headings and two zeros to every stored row.
   */
  function Padded(headings: seq<string>, rows: seq<seq<Cell>>): (seq<string>, seq<seq<Cell>>)
  {
    if "sar_1g" in headings then (headings, rows)
    else (headings + ["sar10g", "u10g"], PadRows(rows, 2))
  }

  /**
   * `xport` extends the stored table in place (through the aliased lists) and answers its
   * text: the heading line, then one line per row.
   */
  method Xport(ds: DataSet) returns (text: string)
    modifies ds
    ensures (ds.headings, ds.rows) == Padded(old(ds.headings), old(ds.rows))
    ensures text == ExportText(ds.headings, ds.rows)
  {
    var needExtra := "sar_1g" !in ds.headings;
    if needExtra {
      ds.headings := ds.headings + ["sar10g", "u10g"];
    } else {
      PadRowsZero(ds.rows);
    }
    var padded;
    padded, text := PadAndExport(ds.headings, ds.rows, if needExtra then 2 else 0);
    ds.rows := padded;
  }

  /**
   * The export is not idempotent: "sar_1g" is never added, so every further export appends two
   * more columns and two more zeros per row.
   */
  lemma XportNotIdempotent(headings: seq<string>, rows: seq<seq<Cell>>)
    requires "sar_1g" !in headings
    ensures var once := Padded(headings, rows);
      var twice := Padded(once.0, once.1);
      |twice.0| == |headings| + 4 && twice.0 == headings + ["sar10g", "u10g", "sar10g", "u10g"]
      && forall i :: 0 <= i < |rows| ==> twice.1[i] == rows[i] + Zeros(4)
  {
    var once := Padded(headings, rows);
    assert "sar_1g" !in once.0;
    forall i | 0 <= i < |rows| ensures Padded(once.0, once.1).1[i] == rows[i] + Zeros(4) {
      assert Zeros(2) + Zeros(2) == Zeros(4);
    }
  }

  /** The export as evidently intended: the columns it adds are the ones it checks for. */
  function PaddedFixed(headings: seq<string>, rows: seq<seq<Cell>>): (seq<string>, seq<seq<Cell>>)
  {
    if "sar10g" in headings then (headings, rows)
    else (headings + ["sar10g", "u10g"], PadRows(rows, 2))
  }

  /** With the corrected check, exporting twice leaves the table as the first export left it. */
  lemma PaddedFixedIdempotent(headings: seq<string>, rows: seq<seq<Cell>>)
    ensures var once := PaddedFixed(headings, rows);
      PaddedFixed(once.0, once.1) == once
  {
    var once := PaddedFixed(headings, rows);
    if "sar10g" !in headings {
      assert once.0[|headings|] == "sar10g";
    }
  }

  /** The corrected `xport`: same text, but a table that already has the extra columns is left alone. */
  method XportFixed(ds: DataSet) returns (text: string)
    modifies ds
    ensures (ds.headings, ds.rows) == PaddedFixed(old(ds.headings), old(ds.rows))
    ensures text == ExportText(ds.headings, ds.rows)
  {
    var needExtra := "sar10g" !in ds.headings;
    if needExtra {
      ds.headings := ds.headings + ["sar10g", "u10g"];
    } else {
      PadRowsZero(ds.rows);
    }
    var padded;
    padded, text := PadAndExport(ds.headings, ds.rows, if needExtra then 2 else 0);
    ds.rows := padded;
  }

  /** `generate`: 200 and an empty body when the training set was generated, 500 with the reason otherwise. */
  method Generate(ds: DataSet, work: Generated) returns (resp: Response)
    modifies ds
    ensures resp.status == 200 <==> work.Produced? && work.listsOk
    ensures resp.status == 200 ==>
      resp.body == "" && ds.headings == SampleData.WithIdHeading(work.headings) && ds.rows == SampleData.WithIds(work.headings, work.values)
    ensures resp.status != 200 ==>
      resp.status == 500 && ds.headings == old(ds.headings) && ds.rows == old(ds.rows)
      && resp.body == PackageRaised + (if work.GenerationRaised? then work.msg else SampleData.InvalidSample)
  {
    var r := ds.Generate(work);
    resp := GenerateResponse(r);
  }
}
