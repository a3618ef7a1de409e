/**
 * The "Classify Images" widget. Once it has both a model and a table, a worker finds
 * the first image column and walks the rows: a row whose file exists is resized to
 * 224 x 224, scaled to [0, 1] and handed to the model, and the class variable's name
 * for the model's most likely class is kept. Rows whose file is missing are skipped;
 * a file that exists but does not decode makes `cv2.resize` raise, and an image the
 * network cannot take makes `model.predict` raise.
 * The widget then adds the predictions as a new meta column "Prediction", whose
 * values are the distinct predictions in sorted order.
 */
module ImageNetClassify {
  import opened Wrappers
  import opened Tables
  import opened Images
  import opened Paths
  import opened Progress
  import opened Selection
  import opened ImageTable
  import opened StringOrder
  import opened Keras

  /** The `ValueError` of `metas.index(None)` when no meta column is tagged as an image. */
  const NotInTuple: string := "tuple.index(x): x not in tuple"
  /** The `AttributeError` of `cv.str_val` when the table has no class variable. */
  const NoClassVar: string := "'NoneType' object has no attribute 'str_val'"
  /** The `IndexError` of `cv.str_val` when the class variable has no name for the model's index. */
  const IndexOutOfRange: string := "tuple index out of range"
  /**
   * The start of numpy's `ValueError` when `add_column` stores a column whose length
   * neither matches the table nor is one.
   */
  const ShapeMismatch: string := "could not broadcast input array"

  const Waiting: string := "Waiting for input..."
  const Working: string := "Classifying..."
  const Complete: string := "Classification complete."
  const PredictionName: string := "Prediction"

  /** What the model is given for the file at `path`: the image resized to 224 x 224 and scaled to [0, 1]. */
  function ClassifyInput(path: string): Image {
    Applied(ScaleToUnit, Applied(Resize(224, 224), Decoded(path)))
  }

  /** The model sees the file itself, resized and then scaled, and nothing else. */
  lemma ClassifyInputStages(path: string)
    ensures Source(ClassifyInput(path)) == path
    ensures History(ClassifyInput(path)) == [Resize(224, 224), ScaleToUnit]
    ensures ClassifyInput(path) == Apply(Decoded(path), [Resize(224, 224), ScaleToUnit])
  {
    var sized := Applied(Resize(224, 224), Decoded(path));
    assert Source(sized) == path && History(sized) == [Resize(224, 224)];
    assert [Resize(224, 224), ScaleToUnit][..1] == [Resize(224, 224)];
  }

  /**
   * `np.argmax(model.predict(img))`: the index of the class `model` finds most likely,
   * or the exception `model.predict` raises (Keras raises a `ValueError` when the image
   * does not have the shape the network's input expects, and a model without layers
   * cannot predict at all), where `predict` stands for the network.
   */
  function Argmax(predict: (KerasModel, Image) -> Result<nat>, model: KerasModel): Image -> Result<nat> {
    img => predict(model, img)
  }

  /** The class index the model gives the image of row `i`, or the exception of `predict`. */
  function RowClass(rows: seq<Row>, col: nat, origin: string, argmax: Image -> Result<nat>, i: nat): Result<nat>
    requires i < |rows| && col < |rows[i].metas|
  {
    argmax(ClassifyInput(Join(origin, rows[i].metas[col])))
  }

  /**
   * The row gets no name: `predict` raised, or `cv.str_val(c)` raises because there is
   * no class variable or it has no name for the index `c`.
   */
  predicate NoLabel(values: Option<seq<string>>, c: Result<nat>) {
    c.Err? || values.None? || c.value >= |values.value|
  }

  /** `cv.str_val(c)` where neither it nor `predict` raises. */
  function Label(values: Option<seq<string>>, c: Result<nat>): string {
    if c.Ok? && values.Some? && c.value < |values.value| then values.value[c.value] else ""
  }

  /**
   * For each row, whether the loop raises there: its file exists, and either
   * `cv2.imread` does not decode it (so `cv2.resize` gets None), or `predict` raises,
   * or its class has no name.
   */
  function Failing(rows: seq<Row>, col: nat, origin: string, values: Option<seq<string>>,
                   argmax: Image -> Result<nat>, onDisk: string -> bool, decodes: string -> bool): (r: seq<bool>)
    requires HasColumn(rows, col)
    ensures |r| == |rows|
  {
    seq(|rows|, i requires 0 <= i < |rows| =>
      onDisk(Join(origin, rows[i].metas[col])) &&
      (!decodes(Join(origin, rows[i].metas[col])) || NoLabel(values, RowClass(rows, col, origin, argmax, i))))
  }

  /**
   * The exception of a row where the loop raises: OpenCV's for a file that does not
   * decode, then `predict`'s, otherwise `str_val`'s.
   */
  function RowError(rows: seq<Row>, col: nat, origin: string, values: Option<seq<string>>,
                    argmax: Image -> Result<nat>, decodes: string -> bool, i: nat): string
    requires i < |rows| && col < |rows[i].metas|
  {
    if !decodes(Join(origin, rows[i].metas[col])) then EmptyInput
    else if RowClass(rows, col, origin, argmax, i).Err? then RowClass(rows, col, origin, argmax, i).msg
    else if values.None? then NoClassVar else IndexOutOfRange
  }

  /**
   * The first row where the loop raises is the first row whose file exists and either
   * does not decode, or makes `predict` raise, or has a class without a name; there is
   * none exactly when every existing file decodes and gets a named class.
   */
  lemma FirstFailingRow(rows: seq<Row>, col: nat, origin: string, values: Option<seq<string>>,
                        argmax: Image -> Result<nat>, onDisk: string -> bool, decodes: string -> bool)
    requires HasColumn(rows, col)
    ensures match FirstTrue(Failing(rows, col, origin, values, argmax, onDisk, decodes))
      case Some(f) =>
        f < |rows| && onDisk(Join(origin, rows[f].metas[col])) &&
        (!decodes(Join(origin, rows[f].metas[col])) || NoLabel(values, RowClass(rows, col, origin, argmax, f))) &&
        forall k :: 0 <= k < f && onDisk(Join(origin, rows[k].metas[col])) ==>
          decodes(Join(origin, rows[k].metas[col])) && !NoLabel(values, RowClass(rows, col, origin, argmax, k))
      case None =>
        forall k :: 0 <= k < |rows| && onDisk(Join(origin, rows[k].metas[col])) ==>
          decodes(Join(origin, rows[k].metas[col])) && !NoLabel(values, RowClass(rows, col, origin, argmax, k))
  {
    var failing := Failing(rows, col, origin, values, argmax, onDisk, decodes);
    var n := match FirstTrue(failing) case Some(f) => f case None => |rows|;
    forall k | 0 <= k < n && onDisk(Join(origin, rows[k].metas[col]))
      ensures decodes(Join(origin, rows[k].metas[col])) && !NoLabel(values, RowClass(rows, col, origin, argmax, k))
    {
      assert !failing[k];
    }
    if FirstTrue(failing).Some? {
      assert failing[n];
    }
  }

  /** The rows the loop classifies: those whose file exists, before the row where it raises. */
  function Classified(rows: seq<Row>, col: nat, origin: string, values: Option<seq<string>>,
                      argmax: Image -> Result<nat>, onDisk: string -> bool, decodes: string -> bool): (r: seq<nat>)
    requires HasColumn(rows, col)
    ensures forall k :: 0 <= k < |r| ==> r[k] < |rows|
  {
    var present := Present(rows, col, origin, onDisk);
    var stop := StopAt(Failing(rows, col, origin, values, argmax, onDisk, decodes));
    PositionsBounded(present[..stop]);
    Positions(present[..stop])
  }

  /** The predictions for the rows `done`, in order. */
  function Predictions(rows: seq<Row>, col: nat, origin: string, values: Option<seq<string>>,
                       argmax: Image -> Result<nat>, done: seq<nat>): (r: seq<string>)
    requires HasColumn(rows, col)
    requires forall k :: 0 <= k < |done| ==> done[k] < |rows|
    ensures |r| == |done|
  {
    seq(|done|, k requires 0 <= k < |done| => Label(values, RowClass(rows, col, origin, argmax, done[k])))
  }

  /**
   * What the loop of `ClassifyWorker.run` over rows whose image column is `col` ends
   * with: the progress values of the rows it classified; an exception exactly when some
   * row with an existing file does not decode, makes `predict` raise or has a class
   * without a name, naming why for the first such row; otherwise the predictions of the
   * classified rows, in order.
   */
  ghost predicate RowsOutcome(rows: seq<Row>, col: nat, origin: string, values: Option<seq<string>>,
                              argmax: Image -> Result<nat>, onDisk: string -> bool, decodes: string -> bool,
                              r: Result<seq<string>>, ps: seq<int>)
    requires HasColumn(rows, col)
  {
    var done := Classified(rows, col, origin, values, argmax, onDisk, decodes);
    ps == Percentages(done, |rows|) &&
    (r.Err? <==> FirstTrue(Failing(rows, col, origin, values, argmax, onDisk, decodes)).Some?) &&
    (r.Err? ==> var f := FirstTrue(Failing(rows, col, origin, values, argmax, onDisk, decodes)).value;
      r.msg == RowError(rows, col, origin, values, argmax, decodes, f)) &&
    (r.Ok? ==> r.value == Predictions(rows, col, origin, values, argmax, done))
  }

  /**
   * The loop of `ClassifyWorker.run`: the predictions and progress values of the rows
   * with an existing file, or the exception of the first such row that does not decode,
   * makes `predict` raise or whose class has no name.
   */
  method ClassifyRows(rows: seq<Row>, col: nat, origin: string, values: Option<seq<string>>,
                      argmax: Image -> Result<nat>, onDisk: string -> bool, decodes: string -> bool)
    returns (r: Result<seq<string>>, ghost ps: seq<int>)
    requires HasColumn(rows, col)
    ensures RowsOutcome(rows, col, origin, values, argmax, onDisk, decodes, r, ps)
  {
    ghost var done: seq<nat> := [];
    var results: seq<string> := [];
    ps := [];
    var i := 0;
    while i < |rows|
      invariant LoopState(rows, col, origin, values, argmax, onDisk, decodes, i, done, results, ps)
      decreases |rows| - i
    {
      var imgPath := Join(origin, rows[i].metas[col]);
      if !onDisk(imgPath) {
        SkipStep(rows, col, origin, values, argmax, onDisk, decodes, i, done, results, ps);
        i := i + 1;
        continue;
      }
      if !decodes(imgPath) {
        // `cv2.imread` returned None, and `cv2.resize` raises on it
        LoopStops(rows, col, origin, values, argmax, onDisk, decodes, i, done, results, ps);
        r := Err(EmptyInput);
        return;
      }
      var img := Decoded(imgPath);
      img := Applied(Resize(224, 224), img);
      img := Applied(ScaleToUnit, img);
      var c := argmax(img);
      assert c == RowClass(rows, col, origin, argmax, i);
      if c.Err? {
        // `model.predict` raised
        LoopStops(rows, col, origin, values, argmax, onDisk, decodes, i, done, results, ps);
        r := Err(c.msg);
        return;
      }
      if values.None? || c.value >= |values.value| {
        LoopStops(rows, col, origin, values, argmax, onDisk, decodes, i, done, results, ps);
        r := Err(if values.None? then NoClassVar else IndexOutOfRange);
        return;
      }
      ClassifyStep(rows, col, origin, values, argmax, onDisk, decodes, i, done, results, ps);
      results := results + [values.value[c.value]];
      ps := ps + [IntPercent(i, |rows|)];
      done := done + [i];
      i := i + 1;
    }
    LoopStops(rows, col, origin, values, argmax, onDisk, decodes, i, done, results, ps);
    r := Ok(results);
  }

  /**
   * The loop's state after the first `i` rows: no row before `i` raised, `done` lists
   * the rows before `i` whose file exists, and `results` and `ps` hold the prediction
   * and progress value of each of them, in order.
   */
  predicate LoopState(rows: seq<Row>, col: nat, origin: string, values: Option<seq<string>>,
                      argmax: Image -> Result<nat>, onDisk: string -> bool, decodes: string -> bool,
                      i: nat, done: seq<nat>, results: seq<string>, ps: seq<int>)
  {
    i <= |rows| && HasColumn(rows, col) &&
    (forall k :: 0 <= k < i ==> !Failing(rows, col, origin, values, argmax, onDisk, decodes)[k]) &&
    done == Positions(Present(rows, col, origin, onDisk)[..i]) &&
    |results| == |done| && |ps| == |done| &&
    forall k :: 0 <= k < |done| ==>
      done[k] < i &&
      results[k] == Label(values, RowClass(rows, col, origin, argmax, done[k])) &&
      ps[k] == IntPercent(done[k], |rows|)
  }

  /** A row whose file is missing is skipped and leaves the loop's state as it was. */
  lemma SkipStep(rows: seq<Row>, col: nat, origin: string, values: Option<seq<string>>,
                 argmax: Image -> Result<nat>, onDisk: string -> bool, decodes: string -> bool,
                 i: nat, done: seq<nat>, results: seq<string>, ps: seq<int>)
    requires i < |rows|
    requires LoopState(rows, col, origin, values, argmax, onDisk, decodes, i, done, results, ps)
    requires !onDisk(Join(origin, rows[i].metas[col]))
    ensures LoopState(rows, col, origin, values, argmax, onDisk, decodes, i + 1, done, results, ps)
  {
    var present := Present(rows, col, origin, onDisk);
    PositionsStep(present, i);
    assert !Failing(rows, col, origin, values, argmax, onDisk, decodes)[i];
  }

  /**
   * A row the model classifies and whose class has a name adds that name and the row's
   * progress value.
   */
  lemma ClassifyStep(rows: seq<Row>, col: nat, origin: string, values: Option<seq<string>>,
                     argmax: Image -> Result<nat>, onDisk: string -> bool, decodes: string -> bool,
                     i: nat, done: seq<nat>, results: seq<string>, ps: seq<int>)
    requires i < |rows|
    requires LoopState(rows, col, origin, values, argmax, onDisk, decodes, i, done, results, ps)
    requires onDisk(Join(origin, rows[i].metas[col])) && decodes(Join(origin, rows[i].metas[col]))
    requires !NoLabel(values, RowClass(rows, col, origin, argmax, i))
    ensures LoopState(rows, col, origin, values, argmax, onDisk, decodes, i + 1, done + [i],
                      results + [values.value[RowClass(rows, col, origin, argmax, i).value]],
                      ps + [IntPercent(i, |rows|)])
  {
    var present := Present(rows, col, origin, onDisk);
    PositionsStep(present, i);
    assert !Failing(rows, col, origin, values, argmax, onDisk, decodes)[i];
  }

  /** Where the loop ends, at row `i`, its state is the one its contract names. */
  lemma LoopStops(rows: seq<Row>, col: nat, origin: string, values: Option<seq<string>>,
                  argmax: Image -> Result<nat>, onDisk: string -> bool, decodes: string -> bool,
                  i: nat, done: seq<nat>, results: seq<string>, ps: seq<int>)
    requires LoopState(rows, col, origin, values, argmax, onDisk, decodes, i, done, results, ps)
    requires i == |rows| || (onDisk(Join(origin, rows[i].metas[col])) &&
                             (!decodes(Join(origin, rows[i].metas[col])) ||
                              NoLabel(values, RowClass(rows, col, origin, argmax, i))))
    ensures done == Classified(rows, col, origin, values, argmax, onDisk, decodes)
    ensures ps == Percentages(done, |rows|)
    ensures i < |rows| <==> FirstTrue(Failing(rows, col, origin, values, argmax, onDisk, decodes)).Some?
    ensures i < |rows| ==> FirstTrue(Failing(rows, col, origin, values, argmax, onDisk, decodes)) == Some(i)
    ensures i == |rows| ==> results == Predictions(rows, col, origin, values, argmax, done)
  {
    var failing := Failing(rows, col, origin, values, argmax, onDisk, decodes);
    if i < |rows| {
      assert failing[i];
    }
    assert StopAt(failing) == i;
  }

  /**
   * What one run of the worker on `data` returns and emits, with `argmax` the model's
   * class choice, `index` the first image-tagged meta column and `origin` its origin
   * attribute. Without an image column,
   * `metas.index(None)` raises before any row is read. An absent origin raises at the
   * first row (an empty table never uses it).
   */
  ghost predicate Worked(data: Table, index: Option<nat>, origin: Option<string>,
                         argmax: Image -> Result<nat>, onDisk: string -> bool, decodes: string -> bool,
                         r: Result<seq<string>>, ps: seq<int>)
  {
    match index
    case None => r == Err(NotInTuple) && ps == []
    case Some(col) =>
      if |data.rows| > 0 && origin.None? then r == Err(NoOrigin) && ps == []
      else
        var o := if origin.Some? then origin.value else "";
        HasColumn(data.rows, col) &&
        RowsOutcome(data.rows, col, o, data.domain.classValues, argmax, onDisk, decodes, r, ps)
  }

  /** `ClassifyWorker`: the model and table of one run and the progress values it emitted. */
  class ClassifyWorker {
    const model: KerasModel
    const data: Table
    /** The values sent on the `progress` signal, oldest first. */
    ghost var emitted: seq<int>

    constructor (model: KerasModel, data: Table)
      ensures this.model == model && this.data == data && emitted == []
    {
      this.model := model;
      this.data := data;
      emitted := [];
    }

    /**
     * `run`, with `predict` standing for the network and `onDisk` for `os.path.exists`.
     * Returns the list it sends on `finished`, or the exception that ends it.
     */
    method Run(predict: (KerasModel, Image) -> Result<nat>, onDisk: string -> bool, decodes: string -> bool) returns (r: Result<seq<string>>)
      requires WellFormed(data)
      modifies this`emitted
      ensures |emitted| >= |old(emitted)| && emitted[..|old(emitted)|] == old(emitted)
      ensures Worked(data, old(FirstImageIndex(data.domain.metas)), old(FirstOrigin(Some(data))),
                     Argmax(predict, model), onDisk, decodes, r, emitted[|old(emitted)|..])
    {
      ghost var ps;
      r, ps := Work(data, Argmax(predict, model), onDisk, decodes);
      ghost var e0 := emitted;
      emitted := emitted + ps;
      assert emitted[|e0|..] == ps;
    }
  }

  /** The body of `ClassifyWorker.run` on `data`, with `argmax` the model's class choice. */
  method Work(data: Table, argmax: Image -> Result<nat>, onDisk: string -> bool, decodes: string -> bool)
    returns (r: Result<seq<string>>, ghost ps: seq<int>)
    requires WellFormed(data)
    ensures Worked(data, FirstImageIndex(data.domain.metas), FirstOrigin(Some(data)), argmax, onDisk, decodes, r, ps)
  {
    var found := ImageTableVariables(data);
    if found.Err? {
      return Err(NotInTuple), [];
    }
    var (origin, col) := found.value;
    assert MetasOf(Some(data)) == data.domain.metas;
    assert FirstOrigin(Some(data)) == origin;
    WellFormedHasColumn(data, col);
    if |data.rows| > 0 && origin.None? {
      return Err(NoOrigin), [];
    }
    var o := if origin.Some? then origin.value else "";
    r, ps := ClassifyRows(data.rows, col, o, data.domain.classValues, argmax, onDisk, decodes);
  }

  /**
   * What `Table.add_column` stores for `cells` in a table of `n` rows: the cells
   * themselves when there is one per row, the single cell in every row when there is
   * one, and otherwise nothing (numpy raises).
   */
  function Broadcast(cells: seq<string>, n: nat): (r: Option<seq<string>>)
    ensures r.Some? <==> |cells| == n || |cells| == 1
    ensures r.Some? ==> |r.value| == n
    ensures r.Some? ==> forall k :: 0 <= k < n ==> r.value[k] == (if |cells| == n then cells[k] else cells[0])
  {
    if |cells| == n then Some(cells)
    else if |cells| == 1 then Some(seq(n, _ => cells[0]))
    else None
  }

  /** `data.add_column(v, cells, to_metas=True)`: the table with `cells` as a last meta column `v`. */
  function Annotated(t: Table, v: Variable, cells: seq<string>): Table
    requires |cells| == |t.rows|
  {
    Table(Domain(t.domain.attributeCount, t.domain.metas + [v], t.domain.classValues),
          seq(|t.rows|, k requires 0 <= k < |t.rows| => Row(t.rows[k].metas + [cells[k]], t.rows[k].y)))
  }

  /**
   * Adding the column keeps the table well formed and every row, in order, with its
   * old meta values and class value; the new last meta value of row `k` is `cells[k]`.
   */
  lemma AnnotatedFacts(t: Table, v: Variable, cells: seq<string>)
    requires WellFormed(t) && |cells| == |t.rows|
    ensures WellFormed(Annotated(t, v, cells))
    ensures |Annotated(t, v, cells).domain.metas| == |t.domain.metas| + 1
    ensures Annotated(t, v, cells).domain.metas[|t.domain.metas|] == v
    ensures |Annotated(t, v, cells).rows| == |t.rows|
    ensures forall k :: 0 <= k < |t.rows| ==>
      var row := Annotated(t, v, cells).rows[k];
      row.metas[..|t.domain.metas|] == t.rows[k].metas && row.metas[|t.domain.metas|] == cells[k] &&
      row.y == t.rows[k].y
  {
    var a := Annotated(t, v, cells);
    forall r | r in a.rows ensures |r.metas| == |a.domain.metas| {
      var k :| 0 <= k < |a.rows| && a.rows[k] == r;
      assert t.rows[k] in t.rows;
    }
    forall k | 0 <= k < |t.rows|
      ensures a.rows[k].metas[..|t.domain.metas|] == t.rows[k].metas
    {
      assert t.rows[k] in t.rows;
    }
  }

  /**
   * What `try_classify` and then `handle_results` do: nothing without a model and a
   * table; otherwise the worker's result `result` and progress `ps` as `Worked` states
   * them, and then either the exception that stops the run or the annotated table.
   */
  ghost predicate Outcome(model: Option<KerasModel>, data: Option<Table>,
                          index: Option<nat>, origin: Option<string>,
                          predict: (KerasModel, Image) -> Result<nat>, onDisk: string -> bool, decodes: string -> bool,
                          info0: string, output0: Option<Table>,
                          info: string, output: Option<Table>, events: seq<Event>,
                          result: Result<seq<string>>, ps: seq<int>, raised: Option<string>)
  {
    if model.None? || data.None? then
      raised == None && info == info0 && output == output0 && events == []
    else
      Worked(data.value, index, origin, Argmax(predict, model.value), onDisk, decodes, result, ps) &&
      if result.Err? then
        // the worker raised: `finished` is never sent and the bar stays open
        raised == Some(result.msg) && info == Working && output == output0 && events == [Init] + Shown(ps)
      else match Broadcast(result.value, |data.value.rows|)
        case None =>
          raised == Some(ShapeMismatch) && info == Working && output == output0 && events == [Init] + Shown(ps)
        case Some(cells) =>
          var t := data.value;
          var m := |t.domain.metas|;
          raised == None && info == Complete && output.Some? &&
          |output.value.domain.metas| == m + 1 &&
          var v := output.value.domain.metas[m];
          v.name == PredictionName && v.values == SortedSet(result.value) &&
          output.value == Annotated(t, v, cells) &&
          events == [Init] + Shown(ps) + [Finished]
  }

  /**
   * `try_classify` on the given state: runs a worker to the end and hands its list to
   * `handle_results`, which builds the "Prediction" variable and the annotated table.
   */
  method Classify(model: Option<KerasModel>, data: Option<Table>,
                  predict: (KerasModel, Image) -> Result<nat>, onDisk: string -> bool, decodes: string -> bool,
                  info0: string, output0: Option<Table>)
    returns (info: string, output: Option<Table>, ghost events: seq<Event>,
             ghost result: Result<seq<string>>, ghost ps: seq<int>, raised: Option<string>)
    requires data.Some? ==> WellFormed(data.value)
    ensures Outcome(model, data, old(FirstImageIndex(MetasOf(data))), old(FirstOrigin(data)), predict, onDisk, decodes,
                    info0, output0, info, output, events, result, ps, raised)
    ensures model.Some? && data.Some? && raised == None ==>
      output.Some? && |output.value.domain.metas| == |data.value.domain.metas| + 1 &&
      fresh(output.value.domain.metas[|data.value.domain.metas|]) &&
      output.value.domain.metas[|data.value.domain.metas|].attributes == map[]
  {
    info, output, events, result, ps, raised := info0, output0, [], Ok([]), [], None;
    if model.None? || data.None? {
      return;
    }
    ghost var index, origin := FirstImageIndex(data.value.domain.metas), FirstOrigin(data);
    assert MetasOf(data) == data.value.domain.metas;
    info := Working;
    events := [Init];
    var worker := new ClassifyWorker(model.value, data.value);
    assert index == FirstImageIndex(data.value.domain.metas) && origin == FirstOrigin(Some(data.value));
    var r := worker.Run(predict, onDisk, decodes);
    result, ps := r, worker.emitted;
    events := events + Shown(ps);
    if r.Err? {
      raised := Some(r.msg);
      return;
    }
    // `handle_results`
    var v := new Variable(PredictionName, SortedSet(r.value), map[]);
    var cells := Broadcast(r.value, |data.value.rows|);
    if cells.None? {
      raised := Some(ShapeMismatch);
      return;
    }
    output := Some(Annotated(data.value, v, cells.value));
    events := events + [Finished];
    info := Complete;
  }

  /** The widget `OWImageNetClassify`: its inputs and what it has shown and sent. */
  class ImageNetClassify {
    var model: Option<KerasModel>
    var data: Option<Table>
    /** The text of the info label. */
    var info: string
    /** The last table sent on the output. */
    var output: Option<Table>
    /** Everything shown on the progress bar, oldest first. */
    ghost var progress: seq<Event>

    constructor ()
      ensures model == None && data == None && info == Waiting && output == None && progress == []
    {
      model, data, info, output, progress := None, None, Waiting, None, [];
    }

    /**
     * `try_classify`. `predict` stands for the network, `onDisk` for `os.path.exists`;
     * `raised` is the exception that escapes, if any.
     */
    method TryClassify(predict: (KerasModel, Image) -> Result<nat>, onDisk: string -> bool, decodes: string -> bool)
      returns (raised: Option<string>, ghost result: Result<seq<string>>, ghost ps: seq<int>)
      requires data.Some? ==> WellFormed(data.value)
      modifies this`info, this`output, this`progress
      ensures |progress| >= |old(progress)| && progress[..|old(progress)|] == old(progress)
      ensures Outcome(old(model), old(data), old(FirstImageIndex(MetasOf(data))), old(FirstOrigin(data)),
                      predict, onDisk, decodes, old(info), old(output), info, output,
                      progress[|old(progress)|..], result, ps, raised)
    {
      var i, out;
      ghost var events;
      i, out, events, result, ps, raised := Classify(model, data, predict, onDisk, decodes, info, output);
      ghost var p0 := progress;
      info, output := i, out;
      progress := progress + events;
      assert progress[|p0|..] == events;
    }

    /** `set_model`: remembers the model and tries to classify. */
    method SetModel(m: Option<KerasModel>, predict: (KerasModel, Image) -> Result<nat>, onDisk: string -> bool, decodes: string -> bool)
      returns (raised: Option<string>, ghost result: Result<seq<string>>, ghost ps: seq<int>)
      requires data.Some? ==> WellFormed(data.value)
      modifies this`model, this`info, this`output, this`progress
      ensures model == m && data == old(data)
      ensures |progress| >= |old(progress)| && progress[..|old(progress)|] == old(progress)
      ensures Outcome(m, old(data), old(FirstImageIndex(MetasOf(data))), old(FirstOrigin(data)),
                      predict, onDisk, decodes, old(info), old(output), info, output,
                      progress[|old(progress)|..], result, ps, raised)
    {
      ghost var index, origin := FirstImageIndex(MetasOf(data)), FirstOrigin(data);
      model := m;
      assert index == FirstImageIndex(MetasOf(data)) && origin == FirstOrigin(data);
      raised, result, ps := TryClassify(predict, onDisk, decodes);
    }

    /** `set_data`: remembers the table and tries to classify. */
    method SetData(d: Option<Table>, predict: (KerasModel, Image) -> Result<nat>, onDisk: string -> bool, decodes: string -> bool)
      returns (raised: Option<string>, ghost result: Result<seq<string>>, ghost ps: seq<int>)
      requires d.Some? ==> WellFormed(d.value)
      modifies this`data, this`info, this`output, this`progress
      ensures data == d && model == old(model)
      ensures |progress| >= |old(progress)| && progress[..|old(progress)|] == old(progress)
      ensures Outcome(old(model), d, old(FirstImageIndex(MetasOf(d))), old(FirstOrigin(d)),
                      predict, onDisk, decodes, old(info), old(output), info, output,
                      progress[|old(progress)|..], result, ps, raised)
    {
      ghost var index, origin := FirstImageIndex(MetasOf(d)), FirstOrigin(d);
      data := d;
      assert index == FirstImageIndex(MetasOf(data)) && origin == FirstOrigin(data);
      raised, result, ps := TryClassify(predict, onDisk, decodes);
    }
  }

  /**
   * When no row raises, the classified rows are exactly the rows whose file exists,
   * in increasing order.
   */
  lemma ClassifiedRowsFacts(rows: seq<Row>, col: nat, origin: string, values: Option<seq<string>>,
                            argmax: Image -> Result<nat>, onDisk: string -> bool, decodes: string -> bool)
    requires HasColumn(rows, col)
    requires FirstTrue(Failing(rows, col, origin, values, argmax, onDisk, decodes)).None?
    ensures var done := Classified(rows, col, origin, values, argmax, onDisk, decodes);
      done == Positions(Present(rows, col, origin, onDisk)) && Increasing(done) &&
      (forall i: nat :: i in done <==> i < |rows| && onDisk(Join(origin, rows[i].metas[col])))
  {
    var present := Present(rows, col, origin, onDisk);
    var failing := Failing(rows, col, origin, values, argmax, onDisk, decodes);
    assert StopAt(failing) == |rows|;
    assert present[..|rows|] == present;
    var done := Classified(rows, col, origin, values, argmax, onDisk, decodes);
    assert done == Positions(present);
    PositionsIncreasing(present);
    forall i: nat ensures i in done <==> i < |rows| && onDisk(Join(origin, rows[i].metas[col])) {
      PositionsMembers(present, i);
    }
  }

  /**
   * When no row raises, the prediction for the `k`-th classified row is the class
   * variable's name for the model's index on that row.
   */
  lemma ClassifiedLabels(rows: seq<Row>, col: nat, origin: string, values: Option<seq<string>>,
                         argmax: Image -> Result<nat>, onDisk: string -> bool, decodes: string -> bool, k: nat)
    requires HasColumn(rows, col)
    requires FirstTrue(Failing(rows, col, origin, values, argmax, onDisk, decodes)).None?
    requires k < |Classified(rows, col, origin, values, argmax, onDisk, decodes)|
    ensures var done := Classified(rows, col, origin, values, argmax, onDisk, decodes);
      var c := RowClass(rows, col, origin, argmax, done[k]);
      c.Ok? && values.Some? && c.value < |values.value| &&
      Predictions(rows, col, origin, values, argmax, done)[k] == values.value[c.value]
  {
    var failing := Failing(rows, col, origin, values, argmax, onDisk, decodes);
    var done := Classified(rows, col, origin, values, argmax, onDisk, decodes);
    ClassifiedRowsFacts(rows, col, origin, values, argmax, onDisk, decodes);
    var i := done[k];
    assert i in done;
    assert !failing[i];
    var c := RowClass(rows, col, origin, argmax, i);
    assert !NoLabel(values, c);
    assert Predictions(rows, col, origin, values, argmax, done)[k] == Label(values, c);
  }

  /**
   * When no row raises, there is one prediction per row exactly when every row's file
   * exists, and then prediction `k` belongs to row `k` (so `add_column` lines them up).
   */
  lemma ResultsAligned(rows: seq<Row>, col: nat, origin: string, values: Option<seq<string>>,
                       argmax: Image -> Result<nat>, onDisk: string -> bool, decodes: string -> bool)
    requires HasColumn(rows, col)
    requires FirstTrue(Failing(rows, col, origin, values, argmax, onDisk, decodes)).None?
    ensures var preds := Predictions(rows, col, origin, values, argmax, Classified(rows, col, origin, values, argmax, onDisk, decodes));
      (|preds| == |rows| <==> forall i :: 0 <= i < |rows| ==> onDisk(Join(origin, rows[i].metas[col]))) &&
      (|preds| == |rows| ==> forall i :: 0 <= i < |rows| ==> preds[i] == Label(values, RowClass(rows, col, origin, argmax, i)))
  {
    var present := Present(rows, col, origin, onDisk);
    assert present[..|rows|] == present;
    assert forall i :: 0 <= i < |rows| ==> present[i] == onDisk(Join(origin, rows[i].metas[col]));
    PositionsAll(present);
  }

  /**
   * The progress values of a run stay in [0, 100] and never decrease; when no row
   * raises they end at 100 exactly when the last row's file exists.
   */
  lemma ClassifyProgress(rows: seq<Row>, col: nat, origin: string, values: Option<seq<string>>,
                         argmax: Image -> Result<nat>, onDisk: string -> bool, decodes: string -> bool)
    requires HasColumn(rows, col)
    ensures var ps := Percentages(Classified(rows, col, origin, values, argmax, onDisk, decodes), |rows|);
      (forall k :: 0 <= k < |ps| ==> 0 <= ps[k] <= 100) &&
      (forall a, b :: 0 <= a < b < |ps| ==> ps[a] <= ps[b]) &&
      (FirstTrue(Failing(rows, col, origin, values, argmax, onDisk, decodes)).None? ==>
        ((|ps| > 0 && ps[|ps| - 1] == 100) <==> (|rows| > 0 && onDisk(Join(origin, rows[|rows| - 1].metas[col])))))
  {
    var present := Present(rows, col, origin, onDisk);
    var failing := Failing(rows, col, origin, values, argmax, onDisk, decodes);
    var stop := StopAt(failing);
    assert Classified(rows, col, origin, values, argmax, onDisk, decodes) == Positions(present[..stop]);
    PrefixPercentagesFacts(present, stop);
    if FirstTrue(failing).None? && |rows| > 0 {
      assert stop == |rows|;
      assert present[|rows| - 1] == onDisk(Join(origin, rows[|rows| - 1].metas[col]));
    }
  }

  /**
   * The "Prediction" values are the distinct predictions, each once, in increasing
   * order; when no row raised, each is one of the class variable's value names.
   */
  lemma PredictionValues(rows: seq<Row>, col: nat, origin: string, values: Option<seq<string>>,
                         argmax: Image -> Result<nat>, onDisk: string -> bool, decodes: string -> bool)
    requires HasColumn(rows, col)
    requires FirstTrue(Failing(rows, col, origin, values, argmax, onDisk, decodes)).None?
    ensures var preds := Predictions(rows, col, origin, values, argmax, Classified(rows, col, origin, values, argmax, onDisk, decodes));
      var vs := SortedSet(preds);
      StrictlySorted(vs) && (forall i, j :: 0 <= i < j < |vs| ==> vs[i] != vs[j]) &&
      (forall y :: y in vs <==> y in preds) &&
      (forall y :: y in vs ==> values.Some? && y in values.value)
  {
    var done := Classified(rows, col, origin, values, argmax, onDisk, decodes);
    var preds := Predictions(rows, col, origin, values, argmax, done);
    SortedSetFacts(preds);
    StrictlySortedDistinct(SortedSet(preds));
    forall y | y in SortedSet(preds) ensures values.Some? && y in values.value {
      var k :| 0 <= k < |preds| && preds[k] == y;
      ClassifiedLabels(rows, col, origin, values, argmax, onDisk, decodes, k);
      assert preds[k] == values.value[RowClass(rows, col, origin, argmax, done[k]).value];
    }
  }
}
