/**
 * The "Preprocess Images" widget. A worker resolves the image column of the input
 * table, then walks its rows: every image file that exists is run through grayscale,
 * resize and min-max normalisation (each when enabled) and a cast to 8 bits, and is
 * written under the output folder at the same relative path. The widget then sends
 * the table, with the image column's origin pointing at the output folder.
 */
module ImagePreprocessor {
  import opened Wrappers
  import opened Tables
  import opened Images
  import opened Paths
  import opened Progress
  import opened Selection
  import opened ImageTable

  const Waiting: string := "Waiting for input..."
  const Working: string := "Preprocessing..."
  const Complete: string := "Preprocessing complete."
  const NoData: string := "No data"
  /** The text of the exception `img.astype` raises when `img` is None. */
  const NoAstype: string := "'NoneType' object has no attribute 'astype'"

  /** The pipeline settings the widget hands to its worker. */
  datatype Settings = Settings(grayscale: bool, resize: bool, width: int, height: int, normalize: bool)

  /** The settings' defaults: no grayscale, resize to 224 x 224, no normalisation. */
  const DefaultSettings: Settings := Settings(false, true, 224, 224, false)

  /** One call of `settings_changed(attr, value)`. */
  datatype SettingChange =
    | SetGrayscale(on: bool)
    | SetResize(on: bool)
    | SetWidth(width: int)
    | SetHeight(height: int)
    | SetNormalize(on: bool)

  /** The settings after one change: only the named setting takes the new value. */
  function Changed(s: Settings, c: SettingChange): Settings {
    match c
    case SetGrayscale(b) => s.(grayscale := b)
    case SetResize(b) => s.(resize := b)
    case SetWidth(w) => s.(width := w)
    case SetHeight(h) => s.(height := h)
    case SetNormalize(b) => s.(normalize := b)
  }

  /**
   * The image written for the file at `path`: grayscale conversion, resize and min-max
   * normalisation to 0..255, each when enabled and in that order, then a cast to uint8.
   */
  function Preprocessed(path: string, s: Settings): Image {
    var gray := if s.grayscale then Applied(Grayscale, Decoded(path)) else Decoded(path);
    var sized := if s.resize then Applied(Resize(s.width, s.height), gray) else gray;
    var normal := if s.normalize then Applied(NormalizeMinMax(0, 255), sized) else sized;
    Applied(ToUint8, normal)
  }

  /** The stage list of the pipeline, first stage first. */
  function PipelineStages(s: Settings): seq<Stage> {
    (if s.grayscale then [Grayscale] else []) +
    (if s.resize then [Resize(s.width, s.height)] else []) +
    (if s.normalize then [NormalizeMinMax(0, 255)] else []) +
    [ToUint8]
  }

  /** The written image is the source file run through exactly the enabled stages, in order. */
  lemma PreprocessedStages(path: string, s: Settings)
    ensures Source(Preprocessed(path, s)) == path
    ensures History(Preprocessed(path, s)) == PipelineStages(s)
    ensures Preprocessed(path, s) == Apply(Decoded(path), PipelineStages(s))
  {
    PreprocessedRecords(path, s);
    ApplyRecords(Decoded(path), PipelineStages(s));
    ImageDetermined(Preprocessed(path, s), Apply(Decoded(path), PipelineStages(s)));
  }

  lemma PreprocessedRecords(path: string, s: Settings)
    ensures Source(Preprocessed(path, s)) == path
    ensures History(Preprocessed(path, s)) == PipelineStages(s)
  {
    var d := Decoded(path);
    var gray := if s.grayscale then Applied(Grayscale, d) else d;
    var sized := if s.resize then Applied(Resize(s.width, s.height), gray) else gray;
    var normal := if s.normalize then Applied(NormalizeMinMax(0, 255), sized) else sized;
    assert History(gray) == (if s.grayscale then [Grayscale] else []);
    assert History(sized) == History(gray) + (if s.resize then [Resize(s.width, s.height)] else []);
    assert History(normal) == History(sized) + (if s.normalize then [NormalizeMinMax(0, 255)] else []);
    assert Source(gray) == path;
    assert Source(sized) == path;
    assert Source(normal) == path;
  }

  /**
   * The exception a row whose file does not decode raises: `cv2.cvtColor` or `cv2.resize`
   * fails on the empty input when enabled; otherwise the None reaches `img.astype`
   * (`cv2.normalize` hands an empty input back as None).
   */
  function UnreadError(s: Settings): string {
    if s.grayscale || s.resize then EmptyInput else NoAstype
  }

  /** The directory of each of the files `ws`, in order. */
  function OutDirs(ws: seq<Write>): (r: seq<string>)
    ensures |r| == |ws|
  {
    seq(|ws|, k requires 0 <= k < |ws| => Dirname(ws[k].Path()))
  }

  /**
   * The directories `os.makedirs` creates for files whose directories are `dirs`,
   * written in order: each directory that neither was on disk as the run started nor
   * was created for an earlier file.
   */
  function Created(onDisk: string -> bool, dirs: seq<string>): seq<string>
    decreases |dirs|
  {
    if dirs == [] then []
    else
      var m := Created(onDisk, dirs[..|dirs| - 1]);
      var d := dirs[|dirs| - 1];
      if !onDisk(d) && d !in m then m + [d] else m
  }

  /** `Created` for all but the last directory, extended by the last one if it is still missing. */
  lemma CreatedLast(onDisk: string -> bool, dirs: seq<string>)
    requires dirs != []
    ensures var m, d := Created(onDisk, dirs[..|dirs| - 1]), dirs[|dirs| - 1];
      Created(onDisk, dirs) == if !onDisk(d) && d !in m then m + [d] else m
  {
  }

  /** No directory is created twice. */
  lemma {:induction false} CreatedDistinct(onDisk: string -> bool, dirs: seq<string>)
    ensures var made := Created(onDisk, dirs);
      forall a, b :: 0 <= a < b < |made| ==> made[a] != made[b]
    decreases |dirs|
  {
    if dirs != [] {
      CreatedDistinct(onDisk, dirs[..|dirs| - 1]);
      CreatedLast(onDisk, dirs);
    }
  }

  /** Only directories missing when the run started are created. */
  lemma {:induction false} CreatedMissing(onDisk: string -> bool, dirs: seq<string>)
    ensures var made := Created(onDisk, dirs);
      forall k :: 0 <= k < |made| ==> !onDisk(made[k])
    decreases |dirs|
  {
    if dirs != [] {
      CreatedMissing(onDisk, dirs[..|dirs| - 1]);
      CreatedLast(onDisk, dirs);
    }
  }

  /** Every file's directory was on disk or is created. */
  lemma CreatedCovers(onDisk: string -> bool, dirs: seq<string>)
    ensures forall k :: 0 <= k < |dirs| ==> onDisk(dirs[k]) || dirs[k] in Created(onDisk, dirs)
  {
    forall k | 0 <= k < |dirs| ensures onDisk(dirs[k]) || dirs[k] in Created(onDisk, dirs) {
      CreatedCoversOne(onDisk, dirs, k);
    }
  }

  /** The directory of file `k` was on disk or is created. */
  lemma {:induction false} CreatedCoversOne(onDisk: string -> bool, dirs: seq<string>, k: nat)
    requires k < |dirs|
    ensures onDisk(dirs[k]) || dirs[k] in Created(onDisk, dirs)
    decreases |dirs|
  {
    var front := dirs[..|dirs| - 1];
    CreatedLast(onDisk, dirs);
    if k < |front| {
      CreatedCoversOne(onDisk, front, k);
      assert dirs[k] == front[k];
    }
  }

  /**
   * What row `i` produced: its image, preprocessed and written under `dir` at the row's
   * own relative path, and the progress value `p` emitted after it.
   */
  ghost predicate RowOutput(rows: seq<Row>, col: nat, origin: string, dir: string, s: Settings,
                            i: nat, w: Write, p: int)
  {
    i < |rows| && col < |rows[i].metas| &&
    w == Write(dir, rows[i].metas[col], Preprocessed(Join(origin, rows[i].metas[col]), s)) &&
    p == IntPercent(i, |rows|)
  }

  /**
   * `ws`, `ps` and `made` are the files written, the progress values emitted and the
   * directories created for the processed rows `done`, in order; the directories are
   * exactly the ones `Created` names for those files.
   */
  ghost predicate Processed(rows: seq<Row>, col: nat, origin: string, dir: string, s: Settings,
                            onDisk: string -> bool, done: seq<nat>,
                            ws: seq<Write>, ps: seq<int>, made: seq<string>)
  {
    |ws| == |done| && |ps| == |done| &&
    (forall k :: 0 <= k < |done| ==> RowOutput(rows, col, origin, dir, s, done[k], ws[k], ps[k])) &&
    made == Created(onDisk, OutDirs(ws))
  }

  /**
   * The loop of `PreprocessWorker.run`, over rows whose image column is `col`: it
   * processes the rows whose file exists, in order, and raises at the first one whose
   * file does not decode (`decodes` says which paths `cv2.imread` decodes).
   */
  method ProcessRows(rows: seq<Row>, col: nat, origin: string, dir: string, s: Settings,
                     onDisk: string -> bool, decodes: string -> bool)
    returns (ghost ws: seq<Write>, ghost ps: seq<int>, ghost made: seq<string>, raised: Option<string>)
    requires HasColumn(rows, col)
    ensures var stop := StopAt(Unreadable(rows, col, origin, onDisk, decodes));
      Processed(rows, col, origin, dir, s, onDisk, Positions(Present(rows, col, origin, onDisk)[..stop]), ws, ps, made) &&
      raised == if stop < |rows| then Some(UnreadError(s)) else None
  {
    ws, ps, made, raised := [], [], [], None;
    var i := 0;
    while i < |rows|
      invariant RowsState(rows, col, origin, dir, s, onDisk, decodes, i, ws, ps, made)
      decreases |rows| - i
    {
      var imgPath := Join(origin, rows[i].metas[col]);
      if !onDisk(imgPath) {
        SkipRow(rows, col, origin, dir, s, onDisk, decodes, i, ws, ps, made);
        i := i + 1;
        continue;
      }
      if !decodes(imgPath) {
        // `cv2.imread` returned None: the next call on the image raises
        RowsStop(rows, col, origin, dir, s, onDisk, decodes, i, ws, ps, made);
        raised := Some(UnreadError(s));
        return;
      }
      ws, ps, made := ProcessRow(rows, col, origin, dir, s, onDisk, decodes, i, ws, ps, made);
      i := i + 1;
    }
    RowsStop(rows, col, origin, dir, s, onDisk, decodes, i, ws, ps, made);
  }

  /**
   * The loop's state after the first `i` rows: none of them stopped it, and `ws`, `ps`
   * and `made` are what the rows among them whose file exists produced.
   */
  ghost predicate RowsState(rows: seq<Row>, col: nat, origin: string, dir: string, s: Settings,
                            onDisk: string -> bool, decodes: string -> bool,
                            i: nat, ws: seq<Write>, ps: seq<int>, made: seq<string>)
  {
    i <= |rows| && HasColumn(rows, col) &&
    (forall k :: 0 <= k < i ==> !Unreadable(rows, col, origin, onDisk, decodes)[k]) &&
    Processed(rows, col, origin, dir, s, onDisk, Positions(Present(rows, col, origin, onDisk)[..i]), ws, ps, made)
  }

  /**
   * One pass of the loop for a row whose file exists and decodes: its image through
   * the enabled stages, written under `dir`, after creating a missing directory.
   */
  method ProcessRow(rows: seq<Row>, col: nat, origin: string, dir: string, s: Settings,
                    onDisk: string -> bool, decodes: string -> bool,
                    i: nat, ghost ws: seq<Write>, ghost ps: seq<int>, ghost made: seq<string>)
    returns (ghost ws': seq<Write>, ghost ps': seq<int>, ghost made': seq<string>)
    requires i < |rows| && RowsState(rows, col, origin, dir, s, onDisk, decodes, i, ws, ps, made)
    requires onDisk(Join(origin, rows[i].metas[col])) && decodes(Join(origin, rows[i].metas[col]))
    ensures RowsState(rows, col, origin, dir, s, onDisk, decodes, i + 1, ws', ps', made')
  {
    var imgPath := Join(origin, rows[i].metas[col]);
    var img := Decoded(imgPath);
    if s.grayscale {
      img := Applied(Grayscale, img);
    }
    if s.resize {
      img := Applied(Resize(s.width, s.height), img);
    }
    if s.normalize {
      img := Applied(NormalizeMinMax(0, 255), img);
    }
    img := Applied(ToUint8, img);
    assert img == Preprocessed(imgPath, s);
    ghost var w := Write(dir, rows[i].metas[col], img);
    var outDir := Dirname(Join(dir, rows[i].metas[col]));
    made' := made;
    if !onDisk(outDir) && outDir !in made {
      made' := made + [outDir];
    }
    WriteRow(rows, col, origin, dir, s, onDisk, i, ws, ps, made, made');
    ws', ps' := ws + [w], ps + [IntPercent(i, |rows|)];
    RowsStep(rows, col, origin, dir, s, onDisk, decodes, i, ws, ps, made, ws', ps', made');
  }

  /**
   * Where the loop ends, at row `i` (the end of the table, or a row whose file exists
   * and does not decode), its state is the one `ProcessRows` names.
   */
  lemma RowsStop(rows: seq<Row>, col: nat, origin: string, dir: string, s: Settings,
                 onDisk: string -> bool, decodes: string -> bool,
                 i: nat, ws: seq<Write>, ps: seq<int>, made: seq<string>)
    requires RowsState(rows, col, origin, dir, s, onDisk, decodes, i, ws, ps, made)
    requires i == |rows| || (onDisk(Join(origin, rows[i].metas[col])) && !decodes(Join(origin, rows[i].metas[col])))
    ensures StopAt(Unreadable(rows, col, origin, onDisk, decodes)) == i
    ensures Processed(rows, col, origin, dir, s, onDisk, Positions(Present(rows, col, origin, onDisk)[..i]), ws, ps, made)
  {
    var unreadable := Unreadable(rows, col, origin, onDisk, decodes);
    if i < |rows| {
      StopsAtUnreadable(unreadable, i);
    } else {
      StopsAtEnd(unreadable);
    }
  }

  /** A loop that has passed every earlier flag and meets a set one stops there. */
  lemma StopsAtUnreadable(flags: seq<bool>, i: nat)
    requires i < |flags| && flags[i]
    requires forall k :: 0 <= k < i ==> !flags[k]
    ensures StopAt(flags) == i
  {
  }

  /** A loop that meets no set flag stops after the last entry. */
  lemma StopsAtEnd(flags: seq<bool>)
    requires forall k :: 0 <= k < |flags| ==> !flags[k]
    ensures StopAt(flags) == |flags|
  {
  }

  /** A row that does not stop the loop takes it from row `i` to row `i + 1`. */
  lemma RowsStep(rows: seq<Row>, col: nat, origin: string, dir: string, s: Settings,
                 onDisk: string -> bool, decodes: string -> bool, i: nat,
                 ws: seq<Write>, ps: seq<int>, made: seq<string>, ws': seq<Write>, ps': seq<int>, made': seq<string>)
    requires i < |rows| && RowsState(rows, col, origin, dir, s, onDisk, decodes, i, ws, ps, made)
    requires onDisk(Join(origin, rows[i].metas[col])) ==> decodes(Join(origin, rows[i].metas[col]))
    requires Processed(rows, col, origin, dir, s, onDisk, Positions(Present(rows, col, origin, onDisk)[..i + 1]), ws', ps', made')
    ensures RowsState(rows, col, origin, dir, s, onDisk, decodes, i + 1, ws', ps', made')
  {
    assert !Unreadable(rows, col, origin, onDisk, decodes)[i];
  }

  /** A row whose file is missing is skipped: nothing is written or created. */
  lemma SkipRow(rows: seq<Row>, col: nat, origin: string, dir: string, s: Settings,
                onDisk: string -> bool, decodes: string -> bool,
                i: nat, ws: seq<Write>, ps: seq<int>, made: seq<string>)
    requires i < |rows| && RowsState(rows, col, origin, dir, s, onDisk, decodes, i, ws, ps, made)
    requires !onDisk(Join(origin, rows[i].metas[col]))
    ensures RowsState(rows, col, origin, dir, s, onDisk, decodes, i + 1, ws, ps, made)
  {
    PositionsStep(Present(rows, col, origin, onDisk), i);
    assert !Unreadable(rows, col, origin, onDisk, decodes)[i];
  }

  /**
   * A row whose file exists writes its preprocessed image, after creating its directory
   * when that is neither on disk nor created already, and emits its progress value.
   */
  lemma WriteRow(rows: seq<Row>, col: nat, origin: string, dir: string, s: Settings,
                 onDisk: string -> bool, i: nat, ws: seq<Write>, ps: seq<int>, made: seq<string>,
                 made': seq<string>)
    requires HasColumn(rows, col) && i < |rows|
    requires Processed(rows, col, origin, dir, s, onDisk, Positions(Present(rows, col, origin, onDisk)[..i]), ws, ps, made)
    requires onDisk(Join(origin, rows[i].metas[col]))
    requires var d := Dirname(Join(dir, rows[i].metas[col]));
      made' == if !onDisk(d) && d !in made then made + [d] else made
    ensures Processed(rows, col, origin, dir, s, onDisk, Positions(Present(rows, col, origin, onDisk)[..i + 1]),
                      ws + [Write(dir, rows[i].metas[col], Preprocessed(Join(origin, rows[i].metas[col]), s))],
                      ps + [IntPercent(i, |rows|)], made')
  {
    var present := Present(rows, col, origin, onDisk);
    PositionsStep(present, i);
    var done, done' := Positions(present[..i]), Positions(present[..i + 1]);
    assert done' == done + [i];
    var w := Write(dir, rows[i].metas[col], Preprocessed(Join(origin, rows[i].metas[col]), s));
    var ws', ps' := ws + [w], ps + [IntPercent(i, |rows|)];
    forall k | 0 <= k < |done'| ensures RowOutput(rows, col, origin, dir, s, done'[k], ws'[k], ps'[k]) {
      if k < |done| {
        assert done'[k] == done[k] && ws'[k] == ws[k] && ps'[k] == ps[k];
      }
    }
    CreatedStep(onDisk, ws, w, made, made');
  }

  /** Writing one more file creates its directory exactly when it is still missing. */
  lemma CreatedStep(onDisk: string -> bool, ws: seq<Write>, w: Write, made: seq<string>, made': seq<string>)
    requires made == Created(onDisk, OutDirs(ws))
    requires var d := Dirname(w.Path());
      made' == if !onDisk(d) && d !in made then made + [d] else made
    ensures made' == Created(onDisk, OutDirs(ws + [w]))
  {
    var dirs := OutDirs(ws + [w]);
    assert dirs[..|ws|] == OutDirs(ws);
    CreatedLast(onDisk, dirs);
  }

  /** `PreprocessWorker`: the settings of one run and what that run emitted and wrote. */
  class PreprocessWorker {
    const data: Table
    const outputDir: string
    const settings: Settings
    const origin: Option<string>
    const imageColIndex: nat
    /** The values sent on the `progress` signal, oldest first. */
    ghost var emitted: seq<int>
    /** The files written, oldest first. */
    ghost var writes: seq<Write>
    /** The directories created, oldest first. */
    ghost var made: seq<string>

    /** The fields `__init__` stores once the image column is resolved. */
    constructor (data: Table, outputDir: string, settings: Settings, origin: Option<string>, imageColIndex: nat)
      ensures this.data == data && this.outputDir == outputDir && this.settings == settings
      ensures this.origin == origin && this.imageColIndex == imageColIndex
      ensures emitted == [] && writes == [] && made == []
    {
      this.data := data;
      this.outputDir := outputDir;
      this.settings := settings;
      this.origin := origin;
      this.imageColIndex := imageColIndex;
      emitted, writes, made := [], [], [];
    }

    /** The image column is a meta column of a well-formed table. */
    predicate Valid() {
      WellFormed(data) && imageColIndex < |data.domain.metas|
    }

    /** The image column's variable, whose origin the run retargets. */
    function ImageVariable(): Variable
      requires Valid()
    {
      data.domain.metas[imageColIndex]
    }

    /** Where the row loop stops: at the first row whose file exists and does not decode, or at the end. */
    function Stop(onDisk: string -> bool, decodes: string -> bool): nat
      requires Valid() && origin.Some?
    {
      WellFormedHasColumn(data, imageColIndex);
      StopAt(Unreadable(data.rows, imageColIndex, origin.value, onDisk, decodes))
    }

    /**
     * `run`. `onDisk` answers `os.path.exists` for the files and directories present
     * before the run, `decodes` which paths `cv2.imread` decodes. A None origin makes
     * the first `os.path.join` raise; a file that does not decode makes its row raise.
     * Only a run that reaches the end retargets the origin.
     */
    method Run(onDisk: string -> bool, decodes: string -> bool) returns (r: Result<Table>)
      requires Valid()
      modifies this`emitted, this`writes, this`made, ImageVariable()
      ensures |data.rows| > 0 && origin.None? ==> r == Err(NoOrigin)
      ensures origin.Some? && Stop(onDisk, decodes) < |data.rows| ==> r == Err(UnreadError(settings))
      ensures r.Ok? <==> !(|data.rows| > 0 && origin.None?) && !(origin.Some? && Stop(onDisk, decodes) < |data.rows|)
      ensures r.Ok? ==> r.value == Table(data.domain, data.rows)
      ensures ImageVariable().attributes ==
        if r.Ok? then old(ImageVariable().attributes)["origin" := outputDir] else old(ImageVariable().attributes)
      ensures origin.None? ==> emitted == old(emitted) && writes == old(writes) && made == old(made)
      ensures origin.Some? ==>
        |emitted| >= |old(emitted)| && emitted[..|old(emitted)|] == old(emitted) &&
        |writes| >= |old(writes)| && writes[..|old(writes)|] == old(writes) &&
        |made| >= |old(made)| && made[..|old(made)|] == old(made) &&
        HasColumn(data.rows, imageColIndex) &&
        Processed(data.rows, imageColIndex, origin.value, outputDir, settings, onDisk,
                  Positions(Present(data.rows, imageColIndex, origin.value, onDisk)[..Stop(onDisk, decodes)]),
                  writes[|old(writes)|..], emitted[|old(emitted)|..], made[|old(made)|..])
    {
      WellFormedHasColumn(data, imageColIndex);
      if |data.rows| > 0 && origin.None? {
        return Err(NoOrigin);
      }
      if origin.Some? {
        var ws, ps, mk, raised := ProcessRows(data.rows, imageColIndex, origin.value, outputDir, settings,
                                              onDisk, decodes);
        ghost var e0, w0, m0 := emitted, writes, made;
        emitted, writes, made := emitted + ps, writes + ws, made + mk;
        assert emitted[|e0|..] == ps && writes[|w0|..] == ws && made[|m0|..] == mk;
        if raised.Some? {
          return Err(raised.value);
        }
      }
      var copy := Table(data.domain, data.rows);
      var v := data.domain.metas[imageColIndex];
      v.attributes := v.attributes["origin" := outputDir];
      r := Ok(copy);
    }
  }

  /**
   * `PreprocessWorker(data, ...)`: resolves the image column first, so a table without
   * one raises before any file is touched.
   */
  method NewWorker(data: Table, outputDir: string, settings: Settings) returns (r: Result<PreprocessWorker>)
    requires WellFormed(data)
    ensures r.Err? <==> FirstImageIndex(data.domain.metas).None?
    ensures r.Err? ==> r.msg == NoImageVariable
    ensures r.Ok? ==>
      fresh(r.value) && r.value.Valid() &&
      r.value.data == data && r.value.outputDir == outputDir && r.value.settings == settings &&
      FirstImageIndex(data.domain.metas) == Some(r.value.imageColIndex) &&
      r.value.origin == Attribute(data.domain.metas[r.value.imageColIndex], "origin") &&
      r.value.emitted == [] && r.value.writes == [] && r.value.made == []
  {
    var found := ImageTableVariables(data);
    if found.Err? {
      return Err(found.msg);
    }
    var (origin, index) := found.value;
    var w := new PreprocessWorker(data, outputDir, settings, origin, index);
    r := Ok(w);
  }

  /** The variable whose origin a run retargets: the first image-tagged meta column. */
  function ImageColumn(data: Option<Table>): set<Variable>
    reads MetasOf(data)
  {
    match FirstImageIndex(MetasOf(data))
    case Some(k) => {MetasOf(data)[k]}
    case None => {}
  }

  /** Whether `try_preprocess` starts a worker: there is data and a non-empty output folder. */
  predicate Ready(data: Option<Table>, dir: Option<string>) {
    data.Some? && dir.Some? && dir.value != ""
  }

  /**
   * What `try_preprocess` does, given the first image column `index` of the input and
   * its `origin`: the info text and output it leaves (starting from `info0` and
   * `output0`), the progress events, files and directories it adds, and the exception
   * it raises, if any.
   */
  ghost predicate Outcome(data: Option<Table>, dir: Option<string>, s: Settings,
                          onDisk: string -> bool, decodes: string -> bool, index: Option<nat>, origin: Option<string>,
                          info0: string, output0: Option<Table>,
                          info: string, output: Option<Table>, events: seq<Event>,
                          ws: seq<Write>, made: seq<string>, raised: Option<string>)
  {
    if !Ready(data, dir) then
      // no data or no folder: nothing happens
      raised == None && info == info0 && output == output0 && events == [] && ws == [] && made == []
    else if index.None? || (|data.value.rows| > 0 && origin.None?) then
      // the worker's constructor or its first `os.path.join` raises: the bar stays open
      raised == Some(if index.None? then NoImageVariable else NoOrigin) &&
      info == Working && output == output0 && events == [Init] && ws == [] && made == []
    else
      var rows := data.value.rows;
      var col := index.value;
      HasColumn(rows, col) &&
      if origin.None? then
        // no rows: the empty table is sent on
        raised == None && info == Complete && output == Some(Table(data.value.domain, rows)) &&
        events == [Init, Finished] && ws == [] && made == []
      else
        // the files of the existing images are written, in row order, up to the first
        // that does not decode
        var stop := StopAt(Unreadable(rows, col, origin.value, onDisk, decodes));
        var done := Positions(Present(rows, col, origin.value, onDisk)[..stop]);
        (forall k :: 0 <= k < |done| ==> done[k] < |rows|) &&
        Processed(rows, col, origin.value, dir.value, s, onDisk, done, ws, Percentages(done, |rows|), made) &&
        if stop < |rows| then
          // that row raises inside the worker: `finished` is never emitted
          raised == Some(UnreadError(s)) && info == Working && output == output0 &&
          events == [Init] + Shown(Percentages(done, |rows|))
        else
          // every row is sent on
          raised == None && info == Complete && output == Some(Table(data.value.domain, rows)) &&
          events == [Init] + Shown(Percentages(done, |rows|)) + [Finished]
  }

  /**
   * The outcome of a run whose worker was built on image column `col` with origin
   * `origin`, from what the worker returned (`r`) and what it emitted, wrote and created.
   */
  lemma WorkerOutcome(data: Table, dir: string, s: Settings, onDisk: string -> bool, decodes: string -> bool,
                      col: nat, origin: Option<string>, info0: string, output0: Option<Table>,
                      r: Result<Table>, emitted: seq<int>, ws: seq<Write>, made: seq<string>)
    requires WellFormed(data) && col < |data.domain.metas| && dir != ""
    requires origin.None? ==> r == if |data.rows| > 0 then Err(NoOrigin) else Ok(Table(data.domain, data.rows))
    requires origin.None? ==> emitted == [] && ws == [] && made == []
    requires origin.Some? ==>
      HasColumn(data.rows, col) &&
      var stop := StopAt(Unreadable(data.rows, col, origin.value, onDisk, decodes));
      (r == if stop < |data.rows| then Err(UnreadError(s)) else Ok(Table(data.domain, data.rows))) &&
      Processed(data.rows, col, origin.value, dir, s, onDisk,
                Positions(Present(data.rows, col, origin.value, onDisk)[..stop]), ws, emitted, made)
    ensures Outcome(Some(data), Some(dir), s, onDisk, decodes, Some(col), origin, info0, output0,
                    if r.Ok? then Complete else Working, if r.Ok? then Some(r.value) else output0,
                    [Init] + Shown(emitted) + (if r.Ok? then [Finished] else []), ws, made,
                    if r.Ok? then None else Some(r.msg))
  {
    WellFormedHasColumn(data, col);
    var rows := data.rows;
    if origin.Some? {
      var stop := StopAt(Unreadable(rows, col, origin.value, onDisk, decodes));
      var done := Positions(Present(rows, col, origin.value, onDisk)[..stop]);
      assert forall k :: 0 <= k < |done| ==> done[k] < |rows| by {
        forall k | 0 <= k < |done| ensures done[k] < |rows| {
          assert RowOutput(rows, col, origin.value, dir, s, done[k], ws[k], emitted[k]);
        }
      }
      assert emitted == Percentages(done, |rows|) by {
        forall k | 0 <= k < |done| ensures emitted[k] == Percentages(done, |rows|)[k] {
          assert RowOutput(rows, col, origin.value, dir, s, done[k], ws[k], emitted[k]);
        }
      }
    }
  }

  /**
   * `try_preprocess` on the given state: builds a worker, runs it to the end and hands
   * its table to `handle_preprocessed`. The worker retargets the origin of the image
   * column in place, on the domain the input table shares.
   */
  method Preprocess(data: Option<Table>, dir: Option<string>, s: Settings,
                    onDisk: string -> bool, decodes: string -> bool, info0: string, output0: Option<Table>)
    returns (info: string, output: Option<Table>, ghost events: seq<Event>,
             ghost ws: seq<Write>, ghost made: seq<string>, raised: Option<string>)
    requires data.Some? ==> WellFormed(data.value)
    modifies ImageColumn(data)
    ensures Outcome(data, dir, s, onDisk, decodes, old(FirstImageIndex(MetasOf(data))), old(FirstOrigin(data)),
                    info0, output0, info, output, events, ws, made, raised)
    ensures var index := old(FirstImageIndex(MetasOf(data)));
      Ready(data, dir) && index.Some? ==>
        MetasOf(data)[index.value].attributes ==
          if raised.None? then old(MetasOf(data)[index.value].attributes)["origin" := dir.value]
          else old(MetasOf(data)[index.value].attributes)
  {
    info, output, events, ws, made, raised := info0, output0, [], [], [], None;
    if !(data.Some? && dir.Some? && dir.value != "") {
      return;
    }
    info := Working;
    events := [Init];
    var created := NewWorker(data.value, dir.value, s);
    if created.Err? {
      raised := Some(created.msg);
      return;
    }
    var worker := created.value;
    var r := worker.Run(onDisk, decodes);
    WorkerOutcome(data.value, dir.value, s, onDisk, decodes, worker.imageColIndex, worker.origin, info0, output0,
                  r, worker.emitted, worker.writes, worker.made);
    if r.Err? {
      events := events + Shown(worker.emitted);
      ws, made := worker.writes, worker.made;
      raised := Some(r.msg);
      return;
    }
    // `handle_preprocessed`
    events := events + Shown(worker.emitted) + [Finished];
    ws, made := worker.writes, worker.made;
    output := Some(r.value);
    info := Complete;
  }

  /**
   * What `show_preview_image` leaves, apart from the two preview pictures. Without a
   * table, or with an empty one (an empty table is false), the info label says
   * "No data". Otherwise the label is kept and `image_table_variables`, which runs
   * before the `try`, raises exactly when no meta column is image-tagged; whatever
   * fails inside the `try` only changes the preview.
   */
  predicate Previewed(data: Option<Table>, info0: string, info: string, raised: Option<string>)
    reads MetasOf(data)
  {
    if data.None? || |data.value.rows| == 0 then info == NoData && raised == None
    else
      info == info0 &&
      raised == (if FirstImageIndex(data.value.domain.metas).None? then Some(NoImageVariable) else None)
  }

  /** The widget `OWImagePreprocessor`, with its settings and what it has produced. */
  class ImagePreprocessor {
    var data: Option<Table>
    var outputDir: Option<string>
    var grayscale: bool
    var resize: bool
    var width: int
    var height: int
    var normalize: bool
    /** The text of the info label. */
    var info: string
    /** The last table sent on the output. */
    var output: Option<Table>
    /** Everything shown on the progress bar, oldest first. */
    ghost var progress: seq<Event>
    /** Every file written, oldest first. */
    ghost var writes: seq<Write>
    /** Every directory created, oldest first. */
    ghost var made: seq<string>

    /** A new widget with the default settings, no input and no folder. */
    constructor ()
      ensures data == None && outputDir == None && info == Waiting && output == None
      ensures CurrentSettings() == DefaultSettings
      ensures progress == [] && writes == [] && made == []
    {
      data, outputDir := None, None;
      grayscale, resize, width, height, normalize := false, true, 224, 224, false;
      info, output := Waiting, None;
      progress, writes, made := [], [], [];
    }

    /** The current pipeline settings. */
    function CurrentSettings(): Settings
      reads this
    {
      Settings(grayscale, resize, width, height, normalize)
    }

    /**
     * `settings_changed(attr, value)`: sets one setting and no other, then refreshes
     * the preview.
     */
    method SettingsChanged(c: SettingChange) returns (raised: Option<string>)
      modifies this`grayscale, this`resize, this`width, this`height, this`normalize, this`info
      ensures CurrentSettings() == Changed(old(CurrentSettings()), c)
      ensures Previewed(data, old(info), info, raised)
    {
      match c {
        case SetGrayscale(b) => grayscale := b;
        case SetResize(b) => resize := b;
        case SetWidth(w) => width := w;
        case SetHeight(h) => height := h;
        case SetNormalize(b) => normalize := b;
      }
      raised := ShowPreviewImage();
    }

    /** `set_data`: remembers the input and refreshes the preview; it does not start a run. */
    method SetData(d: Option<Table>) returns (raised: Option<string>)
      modifies this`data, this`info
      ensures data == d
      ensures Previewed(d, old(info), info, raised)
    {
      data := d;
      raised := ShowPreviewImage();
    }

    /** `show_preview_image`, as `Previewed` states it. */
    method ShowPreviewImage() returns (raised: Option<string>)
      modifies this`info
      ensures Previewed(data, old(info), info, raised)
    {
      raised := None;
      if data.None? || |data.value.rows| == 0 {
        info := NoData;
        return;
      }
      var found := ImageTableVariables(data.value);
      if found.Err? {
        raised := Some(found.msg);
      }
    }

    /**
     * `try_preprocess`. `onDisk` answers `os.path.exists` as the run starts and
     * `decodes` which paths `cv2.imread` decodes; `raised` is the exception that
     * escapes, if any.
     */
    method TryPreprocess(onDisk: string -> bool, decodes: string -> bool) returns (raised: Option<string>)
      requires data.Some? ==> WellFormed(data.value)
      modifies this`info, this`output, this`progress, this`writes, this`made, ImageColumn(data)
      ensures |progress| >= |old(progress)| && progress[..|old(progress)|] == old(progress)
      ensures |writes| >= |old(writes)| && writes[..|old(writes)|] == old(writes)
      ensures |made| >= |old(made)| && made[..|old(made)|] == old(made)
      ensures Outcome(old(data), old(outputDir), old(CurrentSettings()), onDisk, decodes,
                      old(FirstImageIndex(MetasOf(data))), old(FirstOrigin(data)),
                      old(info), old(output), info, output,
                      progress[|old(progress)|..], writes[|old(writes)|..], made[|old(made)|..], raised)
    {
      var i, out, events, ws, mk, r := Preprocess(data, outputDir, CurrentSettings(), onDisk, decodes, info, output);
      ghost var p0, w0, m0 := progress, writes, made;
      info, output := i, out;
      progress, writes, made := progress + events, writes + ws, made + mk;
      assert progress[|p0|..] == events && writes[|w0|..] == ws && made[|m0|..] == mk;
      raised := r;
    }

    /** `select_folder`: a non-empty choice becomes the output folder and starts a run. */
    method SelectFolder(folder: string, onDisk: string -> bool, decodes: string -> bool) returns (raised: Option<string>)
      requires data.Some? ==> WellFormed(data.value)
      modifies this`outputDir, this`info, this`output, this`progress, this`writes, this`made, ImageColumn(data)
      ensures folder == "" ==>
        outputDir == old(outputDir) && info == old(info) && output == old(output) &&
        progress == old(progress) && writes == old(writes) && made == old(made) && raised == None
      ensures folder != "" ==>
        outputDir == Some(folder) &&
        |progress| >= |old(progress)| && progress[..|old(progress)|] == old(progress) &&
        |writes| >= |old(writes)| && writes[..|old(writes)|] == old(writes) &&
        |made| >= |old(made)| && made[..|old(made)|] == old(made) &&
        Outcome(old(data), Some(folder), old(CurrentSettings()), onDisk, decodes,
                old(FirstImageIndex(MetasOf(data))), old(FirstOrigin(data)),
                old(info), old(output), info, output,
                progress[|old(progress)|..], writes[|old(writes)|..], made[|old(made)|..], raised)
    {
      raised := None;
      if folder != "" {
        outputDir := Some(folder);
        raised := TryPreprocess(onDisk, decodes);
      }
    }
  }
}
