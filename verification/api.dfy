/**
 * The earlier training-set endpoints of `api.py`, which keep the table in the class attributes
 * of `TrainingSetGeneration` rather than in a data set object.
 */
module Api {
  import opened Wrappers
  import opened Cells
  import opened RouterCommon

  /** `TrainingSetConfig`: the body of a generate request (only the sample size reaches the package). */
  datatype TrainingSetConfig = TrainingSetConfig(fRangeMin: int, fRangeMax: int, measAreaX: int, measAreaY: int, sampleSize: int)

  const Malformed := "Malformed parameters"
  const ExtraColumns := ["sar_1g", "sar_10g", "u_1g", "u_10g"]

  /** The table after `export_training_set`: four SAR columns and four zeros per row, unless "sar_1g" is present. */
  function Padded(headings: seq<string>, rows: seq<seq<Cell>>): (seq<string>, seq<seq<Cell>>)
  {
    if "sar_1g" in headings then (headings, rows)
    else (headings + ExtraColumns, PadRows(rows, 4))
  }

  /** Here the column checked for is one of those added, so a second export changes nothing. */
  lemma PaddedIdempotent(headings: seq<string>, rows: seq<seq<Cell>>)
    ensures var once := Padded(headings, rows);
      Padded(once.0, once.1) == once
  {
    var once := Padded(headings, rows);
    if "sar_1g" !in headings {
      assert once.0[|headings|] == "sar_1g";
    }
  }

  /** The class attributes `TrainingSetGeneration.headings` and `.rows`. */
  class TrainingSetGeneration {
    var headings: seq<string>
    var rows: seq<seq<Cell>>

    constructor ()
      ensures headings == [] && rows == []
    {
      headings := [];
      rows := [];
    }

    /** `get_training_set_data`: the stored table, nothing else. */
    function GetData(): (d: SampleData.TableDict)
      reads this
      ensures d.headings == headings && d.rows == rows
    {
      SampleData.TableDict(headings, rows)
    }

    /** `export_training_set`: extends the stored table in place and answers its text. */
    method Export() returns (text: string)
      modifies this
      ensures (headings, rows) == Padded(old(headings), old(rows))
      ensures text == ExportText(headings, rows)
    {
      var needExtra := "sar_1g" !in headings;
      if needExtra {
        headings := headings + ExtraColumns;
      } else {
        PadRowsZero(rows);
      }
      var padded;
      padded, text := PadAndExport(headings, rows, if needExtra then 4 else 0);
      rows := padded;
    }

    /**
     * `generate_training_set`: the table is emptied first. Without a configuration the answer is
     * 400; when the package raises or produces no lists, 500 with the reason and an empty table;
     * otherwise 200 and the generated table, numbered from 1 unless it has a "no." column.
     */
    method Generate(config: Option<TrainingSetConfig>, work: Generated) returns (resp: Response)
      modifies this
      ensures config.None? ==> resp == Response(400, Malformed) && headings == [] && rows == []
      ensures config.Some? && work.GenerationRaised? ==>
        resp == Response(500, PackageRaised + work.msg) && headings == [] && rows == []
      ensures config.Some? && work.Produced? && !work.listsOk ==>
        resp == Response(500, PackageRaised + SampleData.InvalidSample) && headings == [] && rows == []
      ensures config.Some? && work.Produced? && work.listsOk ==>
        resp == Response(200, "")
        && headings == SampleData.WithIdHeading(work.headings)
        && rows == SampleData.WithIds(work.headings, work.values)
    {
      headings := [];
      rows := [];
      if config.None? {
        return Response(400, Malformed);
      }
      if work.GenerationRaised? {
        return Response(500, PackageRaised + work.msg);
      }
      if !work.listsOk {
        return Response(500, PackageRaised + SampleData.InvalidSample);
      }
      var needIds := SampleData.IdHeading !in work.headings;
      headings := if needIds then [SampleData.IdHeading] + work.headings else work.headings;
      var idx := 1;
      var i := 0;
      while i < |work.values|
        invariant 0 <= i <= |work.values|
        invariant needIds ==> idx == i + 1
        invariant rows == SampleData.WithIds(work.headings, work.values)[..i]
        invariant headings == SampleData.WithIdHeading(work.headings)
      {
        var row := work.values[i];
        if needIds {
          row := [Num(idx)] + row;
          idx := idx + 1;
        }
        rows := rows + [row];
        i := i + 1;
      }
      assert rows == SampleData.WithIds(work.headings, work.values);
      resp := Response(200, "");
    }
  }
}
