/**
 * The server's sample tables and model guards (`DataSetInterface` and `ModelInterface` of
 * `utils/common.py`). A data set keeps the sample it came from, the column names (`headings`),
 * the rows, and the configuration used to generate it. The sample itself, the `Work` object of
 * the external package and its statistics are opaque: they enter as inputs.
 */
module SampleData {
  import opened Wrappers
  import opened Cells

  /**
   * `SampleConfig` with its pydantic defaults. The two area fields are reals because
   * `from_dataframe` assigns `2 * xmax` to them without validation.
   */
  datatype SampleConfig = SampleConfig(fRangeMin: int, fRangeMax: int, measAreaX: real, measAreaY: real, sampleSize: int)

  const DefaultConfig := SampleConfig(300, 6000, 0.0, 0.0, 0)

  /** One named column of a sample, in the order `to_json()["data"]` lists them. */
  datatype Column = Column(key: string, values: seq<Cell>)

  /** A sample of the external package: its columns and the half-widths `xmax`, `ymax` of its metadata. */
  datatype Frame = Frame(columns: seq<Column>, xmax: real, ymax: real)

  /** What `Work.generate_sample` produced: the sample with its column list and row lists, or the exception it raised. */
  datatype Generated =
    | Produced(frame: Frame, headings: seq<string>, values: seq<seq<Cell>>, listsOk: bool)
    | GenerationRaised(msg: string)

  /** The JSON body `to_dict` returns. */
  datatype TableDict = TableDict(headings: seq<string>, rows: seq<seq<Cell>>)

  const NoSample := "Sample data not present"
  const InvalidSample := "Invalid sample generated"
  const EmptyData := "Empty or ill-formed data"
  const IdHeading := "no."

  function Keys(columns: seq<Column>): (ks: seq<string>)
    ensures |ks| == |columns| && forall k :: 0 <= k < |columns| ==> ks[k] == columns[k].key
  {
    seq(|columns|, k requires 0 <= k < |columns| => columns[k].key)
  }

  /** The number of rows of a sample: the length of its first column. */
  function Height(columns: seq<Column>): nat
  {
    if |columns| == 0 then 0 else |columns[0].values|
  }

  /** `df[col] = 0`: the column is overwritten with zeros when present, appended otherwise. */
  function AssignZeros(f: Frame, col: string): Frame
  {
    var z := Column(col, Zeros(Height(f.columns)));
    match IndexOf(Keys(f.columns), col)
    case Some(k) => f.(columns := f.columns[k := z])
    case None => f.(columns := f.columns + [z])
  }

  function AssignAllZeros(f: Frame, cols: seq<string>): Frame
  {
    if |cols| == 0 then f else AssignZeros(AssignAllZeros(f, cols[..|cols| - 1]), cols[|cols| - 1])
  }

  /** The headings of a generated sample: the id column is put in front unless present. */
  function WithIdHeading(headings: seq<string>): seq<string>
  {
    if IdHeading in headings then headings else [IdHeading] + headings
  }

  /** Every row led by its 1-based position. */
  function Numbered(values: seq<seq<Cell>>): (r: seq<seq<Cell>>)
    ensures |r| == |values|
  {
    seq(|values|, i requires 0 <= i < |values| => [Num(i + 1)] + values[i])
  }

  function WithIds(headings: seq<string>, values: seq<seq<Cell>>): seq<seq<Cell>>
  {
    if IdHeading in headings then values else Numbered(values)
  }

  /** Every row without its first cell: the id column taken off again. */
  function DropIds(rows: seq<seq<Cell>>): seq<seq<Cell>>
  {
    if |rows| == 0 then []
    else
      var last := rows[|rows| - 1];
      DropIds(rows[..|rows| - 1]) + [if |last| == 0 then last else last[1..]]
  }

  /** Dropping the id column of numbered rows gives the rows back, and the ids count from 1. */
  lemma {:induction false} NumberedRoundTrip(values: seq<seq<Cell>>)
    ensures DropIds(Numbered(values)) == values
    ensures forall i :: 0 <= i < |values| ==> Numbered(values)[i][0] == Num(i + 1)
  {
    if |values| > 0 {
      var n := |values|;
      assert Numbered(values)[..n - 1] == Numbered(values[..n - 1]);
      NumberedRoundTrip(values[..n - 1]);
      assert values[..n - 1] + [values[n - 1]] == values;
    }
  }

  /** Row `n` of a sample: the `n`-th value of every column, `IndexError` when a column is shorter. */
  function RowAt(columns: seq<Column>, n: nat): Result<seq<Cell>>
  {
    if |columns| == 0 then Ok([])
    else match RowAt(columns[..|columns| - 1], n)
      case Err(e) => Err(e)
      case Ok(row) =>
        var last := columns[|columns| - 1];
        if n < |last.values| then Ok(row + [last.values[n]]) else Err(IndexOutOfRange)
  }

  /** The first `count` rows of a sample. */
  function RowsUpTo(columns: seq<Column>, count: nat): Result<seq<seq<Cell>>>
  {
    if count == 0 then Ok([])
    else match RowsUpTo(columns, count - 1)
      case Err(e) => Err(e)
      case Ok(rows) =>
        match RowAt(columns, count - 1)
        case Err(e) => Err(e)
        case Ok(row) => Ok(rows + [row])
  }

  /** The rows `from_dataframe` builds from a sample's columns. */
  function Transpose(columns: seq<Column>): Result<seq<seq<Cell>>>
  {
    if |columns| == 0 then Err(EmptyData) else RowsUpTo(columns, Height(columns))
  }

  /** A column holds at least `n + 1` values. */
  predicate Reaches(c: Column, n: nat)
  {
    n < |c.values|
  }

  lemma {:induction false} RowAtSpec(columns: seq<Column>, n: nat)
    ensures RowAt(columns, n).Ok? <==> forall k :: 0 <= k < |columns| ==> Reaches(columns[k], n)
    ensures RowAt(columns, n).Err? ==> RowAt(columns, n).msg == IndexOutOfRange
    ensures RowAt(columns, n).Ok? ==>
      |RowAt(columns, n).value| == |columns|
      && forall k :: 0 <= k < |columns| ==> RowAt(columns, n).value[k] == columns[k].values[n]
  {
    if |columns| > 0 {
      var init := columns[..|columns| - 1];
      RowAtSpec(init, n);
      assert forall k :: 0 <= k < |init| ==> init[k] == columns[k];
    }
  }

  lemma {:induction false} RowsUpToSpec(columns: seq<Column>, count: nat)
    ensures RowsUpTo(columns, count).Ok? <==>
      forall n, k :: 0 <= n < count && 0 <= k < |columns| ==> Reaches(columns[k], n)
    ensures RowsUpTo(columns, count).Err? ==> RowsUpTo(columns, count).msg == IndexOutOfRange
    ensures RowsUpTo(columns, count).Ok? ==>
      var rows := RowsUpTo(columns, count).value;
      |rows| == count
      && forall n :: 0 <= n < count ==>
        |rows[n]| == |columns|
        && forall k :: 0 <= k < |columns| ==> Reaches(columns[k], n) && rows[n][k] == columns[k].values[n]
  {
    if count > 0 {
      RowsUpToSpec(columns, count - 1);
      RowAtSpec(columns, count - 1);
    }
  }

  /**
   * `from_dataframe` fails on a sample without columns and on one whose columns are shorter than
   * the first; otherwise row `n`, column `k` of the table is the `n`-th value of the `k`-th column.
   */
  lemma TransposeSpec(columns: seq<Column>)
    ensures Transpose(columns).Err? <==>
      |columns| == 0 || exists k :: 0 <= k < |columns| && |columns[k].values| < Height(columns)
    ensures Transpose(columns).Err? ==>
      Transpose(columns).msg == (if |columns| == 0 then EmptyData else IndexOutOfRange)
    ensures Transpose(columns).Ok? ==>
      var rows := Transpose(columns).value;
      |rows| == Height(columns)
      && forall n :: 0 <= n < |rows| ==>
        |rows[n]| == |columns|
        && forall k :: 0 <= k < |columns| ==> Reaches(columns[k], n) && rows[n][k] == columns[k].values[n]
  {
    if |columns| > 0 {
      var h := Height(columns);
      RowsUpToSpec(columns, h);
      if exists k :: 0 <= k < |columns| && |columns[k].values| < h {
        var k :| 0 <= k < |columns| && |columns[k].values| < h;
        assert !Reaches(columns[k], |columns[k].values|);
      }
    }
  }

  /** One more row of the sample, or the step that fails. */
  lemma RowsUpToStep(columns: seq<Column>, n: nat)
    requires RowsUpTo(columns, n).Ok?
    ensures RowAt(columns, n).Ok? ==> RowsUpTo(columns, n + 1) == Ok(RowsUpTo(columns, n).value + [RowAt(columns, n).value])
    ensures RowAt(columns, n).Err? ==> RowsUpTo(columns, n + 1).Err?
  {
  }

  /** Once a row fails, every longer prefix fails with the same error. */
  lemma {:induction false} RowsUpToStaysErr(columns: seq<Column>, n: nat, m: nat)
    requires n <= m && RowsUpTo(columns, n).Err?
    ensures RowsUpTo(columns, m) == RowsUpTo(columns, n)
    decreases m - n
  {
    if n < m {
      RowsUpToStaysErr(columns, n + 1, m);
    }
  }

  /**
   * `acceptance_criteria`'s loop as a specification: the rows are visited in order; an error
   * raised on a row ends the scan, and so does the first row whose SAR deviation exceeds its MPE.
   */
  function Scan(rows: seq<seq<Cell>>, sard: nat, mpe: nat): Result<bool>
  {
    if |rows| == 0 then Ok(true)
    else match Exceeds(rows[0], sard, mpe)
      case Err(e) => Err(e)
      case Ok(over) => if over then Ok(false) else Scan(rows[1..], sard, mpe)
  }

  /** A row whose comparison can be evaluated (long enough, both cells numbers). */
  predicate Comparable(row: seq<Cell>, sard: nat, mpe: nat)
  {
    Exceeds(row, sard, mpe).Ok?
  }

  predicate WithinMpe(row: seq<Cell>, sard: nat, mpe: nat)
    requires Comparable(row, sard, mpe)
  {
    !Exceeds(row, sard, mpe).value
  }

  /**
   * On rows that can all be compared, the early `break` does not change the verdict: the data
   * pass exactly when every row's |SAR deviation| stays within its MPE.
   */
  lemma {:induction false} ScanVerdict(rows: seq<seq<Cell>>, sard: nat, mpe: nat)
    requires forall i :: 0 <= i < |rows| ==> Comparable(rows[i], sard, mpe)
    ensures Scan(rows, sard, mpe) == Ok(forall i :: 0 <= i < |rows| ==> WithinMpe(rows[i], sard, mpe))
  {
    if |rows| > 0 {
      ScanVerdict(rows[1..], sard, mpe);
      assert forall i :: 1 <= i < |rows| ==> rows[1..][i - 1] == rows[i];
    }
  }

  /** The break also skips rows that could not be compared: a failing row hides a malformed one after it. */
  lemma BreakHidesLaterError()
    ensures Scan([[Num(2), Num(1)], [Str("x")]], 0, 1) == Ok(false)
    ensures Exceeds([Str("x")], 0, 1).Err?
  {
  }

  /** `acceptance_criteria`: the column lookups raise when a column is missing; a missing data set passes. */
  function Acceptance(data: Option<TableDict>): Result<bool>
  {
    match data
    case None => Ok(true)
    case Some(t) =>
      match ColumnIndex(t.headings, "mpe10g")
      case Err(e) => Err(e)
      case Ok(mpe) =>
        match ColumnIndex(t.headings, "sard10g")
        case Err(e) => Err(e)
        case Ok(sard) => Scan(t.rows, sard, mpe)
  }

  class DataSet {
    var sample: Option<Frame>
    var headings: seq<string>
    var rows: seq<seq<Cell>>
    var config: SampleConfig

    constructor ()
      ensures sample == None && headings == [] && rows == [] && config == DefaultConfig
    {
      sample := None;
      headings := [];
      rows := [];
      config := DefaultConfig;
    }

    /** `clear`: back to the state of a new data set. */
    method Clear()
      modifies this
      ensures sample == None && headings == [] && rows == [] && config == DefaultConfig
    {
      sample := None;
      headings := [];
      rows := [];
      config := DefaultConfig;
    }

    /** `to_dict`: the headings and rows, nothing else. */
    function ToDict(): (d: TableDict)
      reads this
      ensures d.headings == headings && d.rows == rows
    {
      TableDict(headings, rows)
    }

    /**
     * `add_columns`: without a sample nothing changes and an exception is raised; otherwise
     * every column name is appended to the headings, zero-filled in the sample, and every
     * row grows by one zero per column.
     */
    method AddColumns(cols: seq<string>) returns (r: Result<()>)
      modifies this
      ensures old(sample).None? ==> r == Err(NoSample) && sample == old(sample) && headings == old(headings) && rows == old(rows)
      ensures old(sample).Some? ==>
        r == Ok(())
        && headings == old(headings) + cols
        && rows == PadRows(old(rows), |cols|)
        && sample == Some(AssignAllZeros(old(sample).value, cols))
      ensures config == old(config)
    {
      if sample.None? {
        return Err(NoSample);
      }
      assert Zeros(0) == [];
      assert forall k :: 0 <= k < |rows| ==> rows[k] + Zeros(0) == rows[k];
      assert PadRows(old(rows), 0) == rows;
      var i := 0;
      while i < |cols|
        invariant 0 <= i <= |cols|
        invariant headings == old(headings) + cols[..i]
        invariant rows == PadRows(old(rows), i)
        invariant sample == Some(AssignAllZeros(old(sample).value, cols[..i]))
        invariant config == old(config)
      {
        headings := headings + [cols[i]];
        assert cols[..i + 1][..i] == cols[..i];
        sample := Some(AssignZeros(sample.value, cols[i]));
        var j := 0;
        while j < |rows|
          invariant 0 <= j <= |rows| == |old(rows)|
          invariant forall k :: 0 <= k < j ==> rows[k] == old(rows)[k] + Zeros(i + 1)
          invariant forall k :: j <= k < |rows| ==> rows[k] == old(rows)[k] + Zeros(i)
          invariant headings == old(headings) + cols[..i + 1] && config == old(config)
          invariant sample == Some(AssignAllZeros(old(sample).value, cols[..i + 1]))
        {
          assert Zeros(i) + [Num(0)] == Zeros(i + 1);
          rows := rows[j := rows[j] + [Num(0)]];
          j := j + 1;
        }
        i := i + 1;
      }
      assert cols[..i] == cols;
      r := Ok(());
    }

    /**
     * `generate`: the configuration is reset first. When the package raises, that is all that
     * changes; when the sample is not made of lists, the sample is kept but the table is not.
     * Otherwise the table is the generated one, numbered from 1 in a leading "no." column
     * unless it already has one, and the configuration is the one requested.
     */
    method Generate(cfg: SampleConfig, work: Generated) returns (r: Result<()>)
      modifies this
      ensures work.GenerationRaised? ==>
        r == Err(work.msg) && config == DefaultConfig
        && sample == old(sample) && headings == old(headings) && rows == old(rows)
      ensures work.Produced? && !work.listsOk ==>
        r == Err(InvalidSample) && config == DefaultConfig
        && sample == Some(work.frame) && headings == old(headings) && rows == old(rows)
      ensures work.Produced? && work.listsOk ==>
        r == Ok(()) && config == cfg && sample == Some(work.frame)
        && headings == WithIdHeading(work.headings) && rows == WithIds(work.headings, work.values)
    {
      config := DefaultConfig;
      if work.GenerationRaised? {
        return Err(work.msg);
      }
      sample := Some(work.frame);
      if !work.listsOk {
        return Err(InvalidSample);
      }
      var needIds := IdHeading !in work.headings;
      headings := if needIds then [IdHeading] + work.headings else work.headings;
      rows := [];
      var idx := 1;
      var i := 0;
      while i < |work.values|
        invariant 0 <= i <= |work.values|
        invariant needIds ==> idx == i + 1
        invariant rows == WithIds(work.headings, work.values)[..i]
        invariant sample == Some(work.frame) && headings == WithIdHeading(work.headings)
      {
        var row := work.values[i];
        if needIds {
          row := [Num(idx)] + row;
          idx := idx + 1;
        }
        rows := rows + [row];
        i := i + 1;
      }
      assert rows == WithIds(work.headings, work.values);
      config := cfg;
      r := Ok(());
    }

    /**
     * `from_dataframe`: a new data set holding the sample, its column names in order and its
     * rows; the measurement area is twice the sample's half-widths and the size its row count.
     */
    static method FromDataframe(frame: Frame) returns (r: Result<DataSet>)
      ensures r.Err? <==> Transpose(frame.columns).Err?
      ensures r.Err? ==> r.msg == Transpose(frame.columns).msg
      ensures r.Ok? ==>
        fresh(r.value)
        && r.value.sample == Some(frame)
        && r.value.headings == Keys(frame.columns)
        && r.value.rows == Transpose(frame.columns).value
        && r.value.config == DefaultConfig.(measAreaX := 2.0 * frame.xmax, measAreaY := 2.0 * frame.ymax, sampleSize := Height(frame.columns))
    {
      var ds := new DataSet();
      ds.sample := Some(frame);
      var cols := frame.columns;
      var i := 0;
      while i < |cols|
        invariant 0 <= i <= |cols|
        invariant ds.headings == Keys(cols[..i])
        invariant ds.rows == [] && ds.sample == Some(frame) && ds.config == DefaultConfig
      {
        ds.headings := ds.headings + [cols[i].key];
        i := i + 1;
      }
      assert cols[..i] == cols;
      if |ds.headings| == 0 {
        return Err(EmptyData);
      }
      var nrows := |cols[0].values|;
      var n := 0;
      while n < nrows
        invariant 0 <= n <= nrows
        invariant RowsUpTo(cols, n) == Ok(ds.rows)
        invariant ds.headings == Keys(cols) && ds.sample == Some(frame) && ds.config == DefaultConfig
      {
        var row := ReadRow(cols, n);
        if row.Err? {
          RowsUpToStaysErr(cols, n + 1, nrows);
          return Err(row.msg);
        }
        ds.rows := ds.rows + [row.value];
        n := n + 1;
      }
      ds.config := ds.config.(measAreaX := 2.0 * frame.xmax, measAreaY := 2.0 * frame.ymax, sampleSize := nrows);
      r := Ok(ds);
    }
  }

  /** How `work.data.get("model")` turns out: a model, nothing, or the lookup itself raising `error`. */
  datatype ModelSlot = Loaded | Missing | LookupRaises(error: string)

  /** `Goodfit`: whether the training data meet the acceptance criteria, and the fit test's (verdict, nrmse). */
  datatype Goodfit = Goodfit(accept: bool, gfres: (bool, real))

  const NoModel := "No model loaded"
  const NoResiduals := "Residuals have not been calculated"

  /** The class-level state of `ModelInterface`: the model slot of its `Work`, the residuals and the last goodfit. */
  class ModelInterface {
    var slot: ModelSlot
    var residuals: seq<real>
    var goodfit: Goodfit

    /** Residuals are only ever computed for a loaded model, and `clear` drops both together. */
    predicate Valid()
      reads this
    {
      |residuals| > 0 ==> slot == Loaded
    }

    constructor ()
      ensures Valid() && slot == Missing && residuals == [] && goodfit == Goodfit(false, (false, 0.0))
    {
      slot := Missing;
      residuals := [];
      goodfit := Goodfit(false, (false, 0.0));
    }

    /** `clear`: no model, no residuals, a default goodfit. */
    method Clear()
      modifies this
      ensures Valid() && slot == Missing && residuals == [] && goodfit == Goodfit(false, (false, 0.0))
    {
      slot := Missing;
      residuals := [];
      goodfit := Goodfit(false, (false, 0.0));
    }

    /** `make_model`: the package fits a model (when it raises, nothing here changes). */
    method MakeModel(fitted: bool)
      requires Valid()
      modifies this
      ensures Valid() && residuals == old(residuals) && goodfit == old(goodfit)
      ensures slot == (if fitted then Loaded else old(slot))
    {
      if fitted {
        slot := Loaded;
      }
    }

    /** `has_model`: true exactly when the lookup finds a model; a lookup that raises counts as no model. */
    function HasModel(): (b: bool)
      reads this
      ensures b <==> slot == Loaded
      ensures slot.LookupRaises? ==> !b
    {
      match slot
      case Loaded => true
      case Missing => false
      case LookupRaises(_) => false
    }

    /** `raise_if_no_model`. */
    function RaiseIfNoModel(): (r: Result<()>)
      reads this
      ensures r.Ok? <==> HasModel()
      ensures r.Err? ==> r.msg == NoModel
    {
      if HasModel() then Ok(()) else Err(NoModel)
    }

    /** `compute_residuals`: needs a model; stores what the package computed and answers true. */
    method ComputeResiduals(computed: seq<real>) returns (r: Result<bool>)
      requires Valid()
      modifies this
      ensures Valid() && slot == old(slot) && goodfit == old(goodfit)
      ensures old(HasModel()) ==> r == Ok(true) && residuals == computed
      ensures !old(HasModel()) ==> r == Err(NoModel) && residuals == old(residuals)
    {
      if !HasModel() {
        return Err(NoModel);
      }
      residuals := computed;
      r := Ok(true);
    }

    /** `residuals_test`: needs a model, then residuals; the package's verdicts are passed through. */
    function ResidualsTest<T>(verdicts: T): (r: Result<T>)
      reads this
      ensures r.Ok? <==> HasModel() && |residuals| > 0
      ensures r.Ok? ==> r.value == verdicts
      ensures r.Err? ==> r.msg == (if !HasModel() then NoModel else NoResiduals)
    {
      if !HasModel() then Err(NoModel)
      else if |residuals| == 0 then Err(NoResiduals)
      else Ok(verdicts)
    }

    /** `plot_residuals` checks only for residuals, not for a model. */
    function PlotResiduals(): (r: Result<()>)
      reads this
      ensures r.Ok? <==> |residuals| > 0
      ensures r.Err? ==> r.msg == NoResiduals
    {
      if |residuals| == 0 then Err(NoResiduals) else Ok(())
    }

    /** The missing model check of `plot_residuals` is harmless: residuals imply a model. */
    lemma PlotResidualsImpliesModel()
      requires Valid()
      ensures PlotResiduals().Ok? ==> HasModel()
    {
    }

    /**
     * `dump_model_to_json`: the lookup is not guarded, so an exception it raises propagates;
     * no model raises "no model has been created".
     */
    function DumpModelGuard(): (r: Result<()>)
      reads this
      ensures r.Ok? <==> HasModel()
      ensures slot.LookupRaises? ==> r == Err(slot.error)
      ensures slot == Missing ==> r == Err("no model has been created")
    {
      match slot
      case Loaded => Ok(())
      case Missing => Err("no model has been created")
      case LookupRaises(e) => Err(e)
    }

    /**
     * `goodfit_test`: needs a model; checks the training set against the acceptance criteria
     * (an exception there propagates), then records the package's fit verdict beside it.
     */
    method GoodfitTest(trainingSet: DataSet, gfres: (bool, real)) returns (r: Result<Goodfit>)
      requires Valid()
      modifies this
      ensures Valid() && slot == old(slot) && residuals == old(residuals)
      ensures !old(HasModel()) ==> r == Err(NoModel) && goodfit == old(goodfit)
      ensures old(HasModel()) ==>
        var data := Acceptance(Some(TableDict(trainingSet.headings, trainingSet.rows)));
        (data.Err? ==> r == Err(data.msg) && goodfit == old(goodfit))
        && (data.Ok? ==> r == Ok(Goodfit(data.value, gfres)) && goodfit == r.value)
    {
      if !HasModel() {
        return Err(NoModel);
      }
      var dataok := AcceptanceCriteria(trainingSet);
      if dataok.Err? {
        return Err(dataok.msg);
      }
      goodfit := Goodfit(dataok.value, gfres);
      r := Ok(goodfit);
    }

    /**
     * `explore_space`: needs a model; the package's critical sample becomes the critical set,
     * extended with zero-filled "sar10g" and "u10g" columns.
     */
    method ExploreSpace(critical: Frame) returns (r: Result<DataSet>)
      ensures !HasModel() ==> r == Err(NoModel)
      ensures HasModel() ==>
        (r.Err? <==> Transpose(critical.columns).Err?)
        && (r.Ok? ==>
          r.value.headings == Keys(critical.columns) + ["sar10g", "u10g"]
          && r.value.rows == PadRows(Transpose(critical.columns).value, 2))
    {
      if !HasModel() {
        return Err(NoModel);
      }
      r := DataSet.FromDataframe(critical);
      if r.Ok? {
        var added := r.value.AddColumns(["sar10g", "u10g"]);
      }
    }
  }

  /**
   * The inner loop of `from_dataframe`: row `n` read column by column, raising `IndexError`
   * at the first column too short for it.
   */
  method ReadRow(cols: seq<Column>, n: nat) returns (r: Result<seq<Cell>>)
    ensures r == RowAt(cols, n)
  {
    var row := [];
    var k := 0;
    while k < |cols|
      invariant 0 <= k <= |cols|
      invariant RowAt(cols[..k], n) == Ok(row)
    {
      assert cols[..k + 1][..k] == cols[..k];
      if n >= |cols[k].values| {
        assert RowAt(cols[..k + 1], n).Err?;
        RowAtSpec(cols[..k + 1], n);
        RowAtSpec(cols, n);
        assert cols[..k + 1][k] == cols[k];
        return Err(IndexOutOfRange);
      }
      row := row + [cols[k].values[n]];
      k := k + 1;
    }
    assert cols[..k] == cols;
    r := Ok(row);
  }

  /**
   * `acceptance_criteria` with its loop and early `break`: the verdict is that of `Acceptance`
   * (and so, by `ScanVerdict`, true exactly when every row stays within its MPE).
   */
  method AcceptanceCriteria(data: DataSet?) returns (r: Result<bool>)
    ensures r == Acceptance(if data == null then None else Some(TableDict(data.headings, data.rows)))
  {
    if data == null {
      return Ok(true);
    }
    var mpecol := ColumnIndex(data.headings, "mpe10g");
    if mpecol.Err? {
      return Err(mpecol.msg);
    }
    var sardcol := ColumnIndex(data.headings, "sard10g");
    if sardcol.Err? {
      return Err(sardcol.msg);
    }
    var rows := data.rows;
    var i := 0;
    var dataok := true;
    while i < |rows|
      invariant 0 <= i <= |rows|
      invariant Scan(rows, sardcol.value, mpecol.value) == Scan(rows[i..], sardcol.value, mpecol.value)
    {
      var over := Exceeds(rows[i], sardcol.value, mpecol.value);
      if over.Err? {
        return Err(over.msg);
      }
      if over.value {
        dataok := false;
        break;
      }
      assert rows[i..][1..] == rows[i + 1..];
      i := i + 1;
    }
    if dataok {
      assert rows[i..] == [];
    }
    r := Ok(dataok);
  }
}
