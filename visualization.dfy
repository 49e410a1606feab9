/**
 * The visualization step of `/analyze`: which rows the data frame is built from, and which
 * kind of chart is drawn from the frame's column kinds.
 */
module Visualization {
  import opened Wrappers
  import opened Seqs
  import opened Json
  import opened Merge

  /** A frame column; `numeric` stands for an `int64` or `float64` dtype. */
  datatype Column = Column(name: string, numeric: bool)

  /** The three figures `/analyze` can draw. */
  datatype Chart =
    | Scatter(x: string, y: string)
    | Histogram(x: string)
    | ValueCountBar(column: string)

  /**
   * What the model uses of pandas: `frameError(rows)` is the message `pd.DataFrame(rows)`
   * raises, if any, and `columns(rows)` the columns, with their kinds, of the frame built
   * from `rows`.
   */
  datatype Pandas = Pandas(frameError: seq<Json> -> Option<string>, columns: seq<Json> -> seq<Column>)

  /** The `IndexError` of `df.columns[0]` on a frame without columns. */
  const EmptyColumnsError: string := "index 0 is out of bounds for axis 0 with size 0"

  /** The `KeyError` of `merged_data["files"]` on the empty merge result. */
  const MissingFilesError: string := "'files'"

  /** `df.select_dtypes(include=['int64', 'float64']).columns`, as positions in column order. */
  function NumericIndices(cols: seq<Column>): (r: seq<nat>)
    ensures forall m | 0 <= m < |r| :: r[m] < |cols| && cols[r[m]].numeric
    ensures forall m, n | 0 <= m < n < |r| :: r[m] < r[n]
    ensures forall k | 0 <= k < |cols| && cols[k].numeric :: k in r
  {
    if |cols| == 0 then []
    else
      var init := NumericIndices(cols[..|cols| - 1]);
      assert forall k | 0 <= k < |cols| - 1 :: cols[..|cols| - 1][k] == cols[k];
      if cols[|cols| - 1].numeric then init + [|cols| - 1] else init
  }

  /** The chart decision: two numeric columns or more, exactly one, or none. */
  function ChooseChart(cols: seq<Column>): (r: Result<Chart, string>)
    ensures r.Err? <==> cols == []
    ensures r.Ok? && r.value.ValueCountBar? ==>
      r.value.column == cols[0].name && forall k | 0 <= k < |cols| :: !cols[k].numeric
  {
    var numeric := NumericIndices(cols);
    if |numeric| >= 2 then Ok(Scatter(cols[numeric[0]].name, cols[numeric[1]].name))
    else if |numeric| == 1 then Ok(Histogram(cols[numeric[0]].name))
    else if |cols| == 0 then Err(EmptyColumnsError)
    else Ok(ValueCountBar(cols[0].name))
  }

  ghost predicate TwoNumeric(cols: seq<Column>)
  {
    exists i, j | 0 <= i < j < |cols| :: cols[i].numeric && cols[j].numeric
  }

  ghost predicate OnlyNumeric(cols: seq<Column>, i: int)
  {
    0 <= i < |cols| && cols[i].numeric && forall k | 0 <= k < |cols| && k != i :: !cols[k].numeric
  }

  /** A scatter plot is drawn exactly when the frame has at least two numeric columns. */
  lemma ScatterIffTwoNumeric(cols: seq<Column>)
    ensures (ChooseChart(cols).Ok? && ChooseChart(cols).value.Scatter?) <==> TwoNumeric(cols)
  {
    var numeric := NumericIndices(cols);
    if TwoNumeric(cols) {
      var i, j :| 0 <= i < j < |cols| && cols[i].numeric && cols[j].numeric;
      assert i in numeric && j in numeric;
      var m :| 0 <= m < |numeric| && numeric[m] == i;
      var n :| 0 <= n < |numeric| && numeric[n] == j;
      assert m != n;
    }
    if |numeric| >= 2 {
      assert cols[numeric[0]].numeric && cols[numeric[1]].numeric && numeric[0] < numeric[1];
    }
  }

  /** The scatter plot's axes are the first two numeric columns, in column order. */
  lemma ScatterAxes(cols: seq<Column>)
    requires ChooseChart(cols).Ok? && ChooseChart(cols).value.Scatter?
    ensures exists i, j | 0 <= i < j < |cols| ::
      && cols[i] == Column(ChooseChart(cols).value.x, true)
      && cols[j] == Column(ChooseChart(cols).value.y, true)
      && forall k | 0 <= k < j && k != i :: !cols[k].numeric
  {
    var numeric := NumericIndices(cols);
    var i, j := numeric[0], numeric[1];
    forall k | 0 <= k < j && k != i
      ensures !cols[k].numeric
    {
    }
    assert cols[i] == Column(ChooseChart(cols).value.x, true);
    assert cols[j] == Column(ChooseChart(cols).value.y, true);
  }

  lemma {:induction false} NumericIndicesNone(cols: seq<Column>)
    requires forall k | 0 <= k < |cols| :: !cols[k].numeric
    ensures NumericIndices(cols) == []
    decreases |cols|
  {
    if |cols| > 0 {
      NumericIndicesNone(cols[..|cols| - 1]);
    }
  }

  lemma {:induction false} NumericIndicesOnly(cols: seq<Column>, i: int)
    requires OnlyNumeric(cols, i)
    ensures NumericIndices(cols) == [i]
    decreases |cols|
  {
    var init := cols[..|cols| - 1];
    if i == |cols| - 1 {
      NumericIndicesNone(init);
    } else {
      assert OnlyNumeric(init, i);
      NumericIndicesOnly(init, i);
    }
  }

  /** A histogram is drawn exactly when one column is numeric, and it is of that column. */
  lemma HistogramIffOneNumeric(cols: seq<Column>)
    ensures (ChooseChart(cols).Ok? && ChooseChart(cols).value.Histogram?) <==> exists i :: OnlyNumeric(cols, i)
    ensures forall i | OnlyNumeric(cols, i) :: ChooseChart(cols) == Ok(Histogram(cols[i].name))
  {
    var numeric := NumericIndices(cols);
    forall i | OnlyNumeric(cols, i)
      ensures numeric == [i]
    {
      NumericIndicesOnly(cols, i);
    }
    if |numeric| == 1 {
      assert OnlyNumeric(cols, numeric[0]) by {
        forall k | 0 <= k < |cols| && k != numeric[0]
          ensures !cols[k].numeric
        {
        }
      }
    }
  }

  /** One value of `merged_data["files"].values()` as a frame: a list gives its rows, a dict one row, anything else none. */
  function Contribution(v: Json, pd: Pandas): (r: Option<seq<Json>>)
    ensures r.Some? <==> (v.Arr? && pd.frameError(v.items).None?) || (v.Obj? && pd.frameError([v]).None?)
    ensures r.Some? ==> pd.frameError(r.value).None?
    ensures r.Some? && v.Arr? ==> r.value == v.items
    ensures r.Some? && v.Obj? ==> r.value == [v]
  {
    match v
    case Arr(items) => if pd.frameError(items).None? then Some(items) else None
    case Obj(_) => if pd.frameError([v]).None? then Some([v]) else None
    case _ => None
  }

  /** The list `dfs` of the frames built from the file values, in order; a frame that raises is skipped. */
  function Frames(values: seq<Json>, pd: Pandas): (r: seq<seq<Json>>)
    ensures |r| <= |values|
    ensures forall i | 0 <= i < |r| :: pd.frameError(r[i]).None?
  {
    if |values| == 0 then []
    else
      var init := Frames(values[..|values| - 1], pd);
      match Contribution(values[|values| - 1], pd)
      case None => init
      case Some(rows) => init + [rows]
  }

  /** The rows of the frame, `None` when there is no frame, or the error raised while building it. */
  function FrameRows(merged: Json, pd: Pandas): (r: Result<Option<seq<Json>>, string>)
    requires MergedShape(merged)
    ensures merged == Obj([]) ==> r == Err(MissingFilesError)
    ensures r == Ok(None) ==> !HasKey(merged.members, "merged_data") && HasKey(merged.members, "files")
    ensures HasKey(merged.members, "merged_data") && r.Ok? ==> r.value.Some? && pd.frameError(r.value.value).None?
  {
    var ms := merged.members;
    if HasKey(ms, "merged_data") then
      var items := Get(ms, "merged_data").value.items;
      if pd.frameError(items).Some? then Err(pd.frameError(items).value) else Ok(Some(items))
    else if HasKey(ms, "files") then
      var frames := Frames(Values(Get(ms, "files").value.members), pd);
      if frames == [] then Ok(None) else Ok(Some(Flatten(frames)))
    else
      Err(MissingFilesError)
  }

  /** The figure drawn from a frame with the given rows, or the error raised while drawing it. */
  function Plot(rows: seq<Json>, pd: Pandas, render: Chart -> Result<Json, string>): (r: Result<Option<Json>, string>)
    ensures pd.columns(rows) == [] ==> r == Err(EmptyColumnsError)
    ensures r.Ok? ==> r.value.Some?
    ensures r.Ok? ==> ChooseChart(pd.columns(rows)).Ok? && render(ChooseChart(pd.columns(rows)).value) == Ok(r.value.value)
  {
    match ChooseChart(pd.columns(rows))
    case Err(e) => Err(e)
    case Ok(chart) =>
      match render(chart)
      case Err(e) => Err(e)
      case Ok(fig) => Ok(Some(fig))
  }

  /** `plot_json`: `None` without a frame, the figure drawn from the frame, or the error raised on the way. */
  function VisualizationOutcome(merged: Json, pd: Pandas, render: Chart -> Result<Json, string>): (v: Result<Option<Json>, string>)
    requires MergedShape(merged)
    ensures FrameRows(merged, pd) == Ok(None) ==> v == Ok(None)
    ensures v.Ok? && v.value.None? ==> FrameRows(merged, pd) == Ok(None)
  {
    match FrameRows(merged, pd)
    case Err(e) => Err(e)
    case Ok(None) => Ok(None)
    case Ok(Some(rows)) => Plot(rows, pd, render)
  }

  /** The loop over `merged_data["files"].values()` that appends to `dfs`. */
  method ExtractFrames(values: seq<Json>, pd: Pandas) returns (frames: seq<seq<Json>>)
    ensures frames == Frames(values, pd)
  {
    frames := [];
    for i := 0 to |values|
      invariant frames == Frames(values[..i], pd)
    {
      assert values[..i + 1][..i] == values[..i];
      var v := values[i];
      if v.Arr? {
        if pd.frameError(v.items).None? {
          frames := frames + [v.items];
        }
      } else if v.Obj? {
        if pd.frameError([v]).None? {
          frames := frames + [[v]];
        }
      }
    }
    assert values[..|values|] == values;
  }

  /** The `try` block that builds `plot_json`. */
  method Visualize(merged: Json, pd: Pandas, render: Chart -> Result<Json, string>) returns (v: Result<Option<Json>, string>)
    requires MergedShape(merged)
    ensures v == VisualizationOutcome(merged, pd, render)
  {
    var ms := merged.members;
    var rows: seq<Json>;
    if HasKey(ms, "merged_data") {
      var items := Get(ms, "merged_data").value.items;
      if pd.frameError(items).Some? {
        return Err(pd.frameError(items).value);
      }
      rows := items;
    } else if HasKey(ms, "files") {
      var frames := ExtractFrames(Values(Get(ms, "files").value.members), pd);
      if frames == [] {
        return Ok(None);
      }
      rows := Flatten(frames);
    } else {
      return Err(MissingFilesError);
    }
    var chart := ChooseChart(pd.columns(rows));
    if chart.Err? {
      return Err(chart.error);
    }
    var fig := render(chart.value);
    if fig.Err? {
      return Err(fig.error);
    }
    return Ok(Some(fig.value));
  }

  /** There is no frame exactly when no file value yields one. */
  lemma {:induction false} FramesEmpty(values: seq<Json>, pd: Pandas)
    ensures Frames(values, pd) == [] <==> forall i | 0 <= i < |values| :: Contribution(values[i], pd).None?
    decreases |values|
  {
    if |values| > 0 {
      var init := values[..|values| - 1];
      FramesEmpty(init, pd);
      assert forall i | 0 <= i < |init| :: init[i] == values[i];
    }
  }

  /** When every file holds one dict that pandas accepts, the frame's rows are those dicts, in file order. */
  lemma {:induction false} FramesOfDicts(values: seq<Json>, pd: Pandas)
    requires forall i | 0 <= i < |values| :: values[i].Obj? && pd.frameError([values[i]]).None?
    ensures Flatten(Frames(values, pd)) == values
    decreases |values|
  {
    if |values| > 0 {
      var init := values[..|values| - 1];
      var last := values[|values| - 1];
      FramesOfDicts(init, pd);
      FlattenAppend(Frames(init, pd), [[last]]);
      FlattenSingle([last]);
      assert values == init + [last];
    }
  }

  /** When every file holds a list that pandas accepts, the frame's rows are their rows, in file order. */
  lemma {:induction false} FramesOfLists(values: seq<Json>, pd: Pandas)
    requires forall i | 0 <= i < |values| :: values[i].Arr? && pd.frameError(values[i].items).None?
    ensures AllArrays(values) && Flatten(Frames(values, pd)) == Concat(values)
    decreases |values|
  {
    if |values| > 0 {
      var init := values[..|values| - 1];
      var last := values[|values| - 1];
      FramesOfLists(init, pd);
      FlattenAppend(Frames(init, pd), [last.items]);
      FlattenSingle(last.items);
      assert values == init + [last];
      ConcatAppend(init, [last]);
      ConcatSingle(last.items);
    }
  }

  /** For the merge of array documents the frame is built from the concatenated items. */
  lemma FrameRowsOfArrays(docs: seq<Json>, pd: Pandas)
    requires docs != [] && AllArrays(docs)
    ensures MergedShape(Obj([("merged_data", Arr(Concat(docs)))]))
    ensures pd.frameError(Concat(docs)).None? ==>
      FrameRows(Obj([("merged_data", Arr(Concat(docs)))]), pd) == Ok(Some(Concat(docs)))
  {
    var ms := [("merged_data", Arr(Concat(docs)))];
    assert ms[0].0 == "merged_data";
  }

  /** For the numbered merge the frames come from the documents themselves, in document order. */
  lemma FrameRowsOfFiles(entries: seq<(string, Json)>, docs: seq<Json>, pd: Pandas)
    requires NumberedFiles(entries, docs)
    ensures MergedShape(Obj([("files", Obj(entries))]))
    ensures FrameRows(Obj([("files", Obj(entries))]), pd) ==
      if Frames(docs, pd) == [] then Ok(None) else Ok(Some(Flatten(Frames(docs, pd))))
  {
    var ms := [("files", Obj(entries))];
    assert ms[0].0 == "files";
    assert !HasKey(ms, "merged_data");
    NumberedFilesValues(entries, docs);
  }
}
