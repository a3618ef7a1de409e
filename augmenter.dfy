/**
 * The "Augment Images" widget: it fans every loadable row of an image table out into
 * `augmentCount` augmented copies, writes each copy to a fresh file in the save folder
 * and emits a table of the copies whose image column points at that folder.
 */
module ImageAugmenter {
  import opened Wrappers
  import opened Tables
  import opened Images
  import opened Paths
  import opened Progress
  import opened Selection

  /** The check boxes of the widget. */
  datatype Flag = Zoom | Flip | Rotate | Shear | Brightness | Blur | Noise

  const NoDataOrFolder: string := "No image data or folder selected."
  const NoImageColumn: string := "No image column detected."
  /** The text of `Table.from_numpy`'s error for too few attribute columns (without the counts). */
  const InvalidColumns: string := "Invalid number of variable columns"

  /** The ImageDataGenerator settings selected by the check boxes. */
  function DatagenParams(zoom: bool, flip: bool, rotate: bool, shear: bool, brightness: bool): GeneratorParams {
    GeneratorParams(
      if zoom then 0.2 else 0.0,
      flip,
      if rotate then 30 else 0,
      if shear then 0.2 else 0.0,
      if brightness then Some((0.7, 1.3)) else None,
      "nearest")
  }

  /** `apply_custom_transforms`: a radius-2 blur if enabled, then N(0, 15) noise if enabled. */
  function CustomTransforms(img: Image, blur: bool, noise: bool, draw: nat): Image {
    var blurred := if blur then Applied(GaussianBlur(2), img) else img;
    if noise then Applied(GaussianNoise(0, 15, draw), blurred) else blurred
  }

  /** The variant drawn as number `draw` of a run: one generator batch, then the custom transforms. */
  function Variant(path: string, params: GeneratorParams, blur: bool, noise: bool, draw: nat): Image {
    CustomTransforms(Applied(RandomAugment(params, draw), Decoded(path)), blur, noise, draw)
  }

  /** The stage list of a variant, first stage first. */
  function VariantStages(params: GeneratorParams, blur: bool, noise: bool, draw: nat): seq<Stage> {
    [RandomAugment(params, draw)] +
    (if blur then [GaussianBlur(2)] else []) + (if noise then [GaussianNoise(0, 15, draw)] else [])
  }

  /** `f"aug_{uuid.uuid4().hex}.png"` for the identifier `id`. */
  function FileName(id: string): string {
    "aug_" + id + ".png"
  }

  /**
   * Whether row `r` loads: its path joined to the origin names a file the loader
   * accepts. The row loop only runs with an origin present.
   */
  predicate Loads(r: Row, col: nat, origin: Option<string>, loads: string -> bool)
    requires col < |r.metas|
  {
    origin.Some? && loads(Join(origin.value, r.metas[col]))
  }

  /** The row written for one variant: the source row with only the image cell replaced. */
  function AugmentedRow(src: Row, col: nat, name: string): Row
    requires col < |src.metas|
  {
    Row(src.metas[col := name], src.y)
  }

  /** The pairs (row, 0), ..., (row, count - 1). */
  function Variants(row: nat, count: int): (r: seq<(nat, nat)>)
    ensures |r| == if count > 0 then count else 0
  {
    if count <= 0 then [] else seq(count, j requires 0 <= j => (row, j as nat))
  }

  /**
   * The (row, variant) pairs of a run in the order the widget produces them, given
   * which rows load and the variant count.
   */
  function Schedule(loaded: seq<bool>, count: int): seq<(nat, nat)>
    decreases |loaded|
  {
    if loaded == [] then []
    else
      var n := |loaded| - 1;
      Schedule(loaded[..n], count) + (if loaded[n] then Variants(n, count) else [])
  }

  /** The position of the last image-tagged meta variable, if any. */
  function LastImageIndex(metas: seq<Variable>): (r: Option<nat>)
    reads metas
    ensures r.Some? ==> r.value < |metas| && IsImage(metas[r.value])
    ensures r.Some? ==> forall k :: r.value < k < |metas| ==> !IsImage(metas[k])
    ensures r.None? <==> forall k :: 0 <= k < |metas| ==> !IsImage(metas[k])
    decreases |metas|
  {
    if |metas| == 0 then None
    else if IsImage(metas[|metas| - 1]) then Some(|metas| - 1)
    else LastImageIndex(metas[..|metas| - 1])
  }

  /** Lexicographic order on (row, variant). */
  predicate Before(p: (nat, nat), q: (nat, nat)) {
    p.0 < q.0 || (p.0 == q.0 && p.1 < q.1)
  }

  // ---- Properties of the schedule ----

  /** The schedule of the first `i + 1` rows extends that of the first `i`. */
  lemma ScheduleStep(loaded: seq<bool>, i: nat, count: int)
    requires i < |loaded|
    ensures Schedule(loaded[..i + 1], count) ==
      Schedule(loaded[..i], count) + (if loaded[i] then Variants(i, count) else [])
  {
    assert loaded[..i + 1][..i] == loaded[..i];
  }

  /** Each loaded row contributes exactly `count` outputs, an unloaded row none. */
  lemma {:induction false} ScheduleLength(loaded: seq<bool>, count: nat)
    ensures |Schedule(loaded, count)| == count * CountTrue(loaded)
    decreases |loaded|
  {
    if loaded != [] {
      var n := |loaded| - 1;
      var init := loaded[..n];
      ScheduleLength(init, count);
      assert Schedule(loaded, count) == Schedule(init, count) + (if loaded[n] then Variants(n, count) else []);
      assert CountTrue(loaded) == CountTrue(init) + (if loaded[n] then 1 else 0);
      if loaded[n] {
        MulSucc(count, CountTrue(init));
      }
    }
  }

  lemma MulSucc(a: nat, b: nat)
    ensures a * (b + 1) == a * b + a
  {
  }

  /** A pair is scheduled iff its row is in range and loads and its variant is below the count. */
  lemma {:induction false} ScheduleMembers(loaded: seq<bool>, count: int, p: (nat, nat))
    ensures p in Schedule(loaded, count) <==> p.0 < |loaded| && loaded[p.0] && p.1 < count
    decreases |loaded|
  {
    if loaded != [] {
      var n := |loaded| - 1;
      ScheduleMembers(loaded[..n], count, p);
      if p.0 == n && loaded[n] && p.1 < count {
        assert Variants(n, count)[p.1] == p;
      }
    }
  }

  /** The schedule lists rows in order, and the variants of a row in order. */
  lemma {:induction false} ScheduleOrdered(loaded: seq<bool>, count: int)
    ensures forall s, t :: 0 <= s < t < |Schedule(loaded, count)| ==>
      Before(Schedule(loaded, count)[s], Schedule(loaded, count)[t])
    decreases |loaded|
  {
    if loaded != [] {
      var n := |loaded| - 1;
      var init := Schedule(loaded[..n], count);
      ScheduleOrdered(loaded[..n], count);
      forall p | p in init ensures p.0 < n {
        ScheduleMembers(loaded[..n], count, p);
      }
    }
  }

  /** Every scheduled pair names a row of the table and a variant below the count. */
  predicate ScheduleInRange(sch: seq<(nat, nat)>, count: int, n: nat) {
    forall t :: 0 <= t < |sch| ==> sch[t].0 < n && sch[t].1 < count
  }

  lemma ScheduleRange(loaded: seq<bool>, count: int)
    ensures ScheduleInRange(Schedule(loaded, count), count, |loaded|)
  {
    var sch := Schedule(loaded, count);
    forall t | 0 <= t < |sch| ensures sch[t].0 < |loaded| && sch[t].1 < count {
      ScheduleMembers(loaded, count, sch[t]);
    }
  }

  /** The progress values of a run stay in [0, 100) and strictly increase. */
  lemma ScheduleProgress(loaded: seq<bool>, count: int)
    ensures ScheduleInRange(Schedule(loaded, count), count, |loaded|)
    ensures var ps := Events(Schedule(loaded, count), count, |loaded|);
      (forall t :: 0 <= t < |ps| ==> ps[t].Set? && 0.0 <= ps[t].value < 100.0) &&
      (forall s, t :: 0 <= s < t < |ps| ==> ps[s].value < ps[t].value)
  {
    var sch := Schedule(loaded, count);
    ScheduleRange(loaded, count);
    var ps := Events(sch, count, |loaded|);
    forall t | 0 <= t < |ps| ensures ps[t].Set? && 0.0 <= ps[t].value < 100.0 {
      RealPercentBounds(sch[t].0, sch[t].1, count, |loaded|);
    }
    ScheduleOrdered(loaded, count);
    forall s, t | 0 <= s < t < |ps| ensures ps[s].value < ps[t].value {
      RealPercentIncreasing(sch[s].0, sch[s].1, sch[t].0, sch[t].1, count, |loaded|);
    }
  }

  /** Different identifiers give different file names. */
  lemma FileNameInjective(a: string, b: string)
    requires FileName(a) == FileName(b)
    ensures a == b
  {
    var fa, fb := FileName(a), FileName(b);
    assert a == fa[4..|fa| - 4];
    assert b == fb[4..|fb| - 4];
  }

  /** Every variant is the generator's draw, then blur if enabled, then noise if enabled. */
  lemma VariantStageOrder(path: string, params: GeneratorParams, blur: bool, noise: bool, draw: nat)
    ensures Variant(path, params, blur, noise, draw) == Apply(Decoded(path), VariantStages(params, blur, noise, draw))
    ensures var img := Variant(path, params, blur, noise, draw);
      Source(img) == path &&
      History(img)[0] == RandomAugment(params, draw) &&
      (blur ==> History(img)[1] == GaussianBlur(2)) &&
      (noise ==> History(img)[|History(img)| - 1] == GaussianNoise(0, 15, draw)) &&
      |History(img)| == 1 + (if blur then 1 else 0) + (if noise then 1 else 0)
  {
    var st := VariantStages(params, blur, noise, draw);
    var d := Decoded(path);
    var a := Applied(RandomAugment(params, draw), d);
    assert Apply(d, [RandomAugment(params, draw)]) == a;
    if blur && noise {
      assert st[..2] == [RandomAugment(params, draw), GaussianBlur(2)];
      assert st[..2][..1] == [RandomAugment(params, draw)];
    } else if blur {
      assert st[..1] == [RandomAugment(params, draw)];
    } else if noise {
      assert st[..1] == [RandomAugment(params, draw)];
    }
    ApplyRecords(d, st);
  }

  /** For each row, whether it loads. */
  function LoadedFlags(rows: seq<Row>, col: nat, origin: Option<string>, loads: string -> bool): (r: seq<bool>)
    requires HasColumn(rows, col)
    ensures |r| == |rows|
  {
    seq(|rows|, i requires 0 <= i < |rows| => Loads(rows[i], col, origin, loads))
  }

  /** A pair is scheduled iff its row is in the table and loads, and its variant is below the count. */
  lemma ScheduledPairs(rows: seq<Row>, col: nat, origin: Option<string>, loads: string -> bool, count: int, p: (nat, nat))
    requires HasColumn(rows, col)
    ensures p in Schedule(LoadedFlags(rows, col, origin, loads), count) <==>
      p.0 < |rows| && origin.Some? && loads(Join(origin.value, rows[p.0].metas[col])) && p.1 < count
  {
    ScheduleMembers(LoadedFlags(rows, col, origin, loads), count, p);
  }

  /**
   * The file written as number `t`, made for the pair `p` = (row, variant): its save raised
   * nothing (`saveError(t)` is what saving the `t`-th file raises, if anything), and it holds
   * the variant drawn as number `t` of the row's image, under `folder`.
   */
  ghost predicate VariantWrite(rows: seq<Row>, col: nat, origin: Option<string>,
                               folder: string, params: GeneratorParams, blur: bool, noise: bool,
                               uuid: nat -> string, saveError: nat -> Option<string>, p: (nat, nat), t: nat, w: Write)
  {
    p.0 < |rows| && col < |rows[p.0].metas| && origin.Some? &&
    saveError(t).None? &&
    w == Write(folder, FileName(uuid(t)),
               Variant(Join(origin.value, rows[p.0].metas[col]), params, blur, noise, t))
  }

  /**
   * Output number `t`, made for the pair `p`: its file, and the row that copies the
   * source row with the image cell replaced by the `t`-th fresh name.
   */
  ghost predicate VariantOutput(rows: seq<Row>, col: nat, origin: Option<string>,
                                folder: string, params: GeneratorParams, blur: bool, noise: bool,
                                uuid: nat -> string, saveError: nat -> Option<string>, p: (nat, nat), t: nat, out: Row, w: Write)
  {
    VariantWrite(rows, col, origin, folder, params, blur, noise, uuid, saveError, p, t, w) &&
    out == AugmentedRow(rows[p.0], col, FileName(uuid(t)))
  }

  /** `ws` are the file writes made for the scheduled pairs `sch`, in order. */
  ghost predicate Written(rows: seq<Row>, col: nat, origin: Option<string>,
                          folder: string, params: GeneratorParams, blur: bool, noise: bool,
                          uuid: nat -> string, saveError: nat -> Option<string>, sch: seq<(nat, nat)>, ws: seq<Write>)
  {
    |ws| == |sch| &&
    forall t :: 0 <= t < |sch| ==> VariantWrite(rows, col, origin, folder, params, blur, noise, uuid, saveError, sch[t], t, ws[t])
  }

  /** `out` and `ws` are the rows and file writes made for the scheduled pairs `sch`, in order. */
  ghost predicate Augmented(rows: seq<Row>, col: nat, origin: Option<string>,
                            folder: string, params: GeneratorParams, blur: bool, noise: bool,
                            uuid: nat -> string, saveError: nat -> Option<string>, sch: seq<(nat, nat)>, out: seq<Row>, ws: seq<Write>)
  {
    |out| == |sch| && |ws| == |sch| &&
    forall t :: 0 <= t < |sch| ==>
      VariantOutput(rows, col, origin, folder, params, blur, noise, uuid, saveError, sch[t], t, out[t], ws[t])
  }

  /** The writes of complete outputs are the writes of the schedule. */
  lemma AugmentedWritten(rows: seq<Row>, col: nat, origin: Option<string>,
                         folder: string, params: GeneratorParams, blur: bool, noise: bool,
                         uuid: nat -> string, saveError: nat -> Option<string>, sch: seq<(nat, nat)>, out: seq<Row>, ws: seq<Write>)
    requires Augmented(rows, col, origin, folder, params, blur, noise, uuid, saveError, sch, out, ws)
    ensures Written(rows, col, origin, folder, params, blur, noise, uuid, saveError, sch, ws)
  {
    forall t | 0 <= t < |sch| ensures VariantWrite(rows, col, origin, folder, params, blur, noise, uuid, saveError, sch[t], t, ws[t]) {
      assert VariantOutput(rows, col, origin, folder, params, blur, noise, uuid, saveError, sch[t], t, out[t], ws[t]);
    }
  }

  /** The progress bar values `(i * K + j) / (N * K) * 100` of the scheduled pairs, in order. */
  function Events(sch: seq<(nat, nat)>, count: int, n: nat): (r: seq<Event>)
    requires forall t :: 0 <= t < |sch| ==> sch[t].0 < n && sch[t].1 < count
    ensures |r| == |sch|
  {
    seq(|sch|, t requires 0 <= t < |sch| => Set(RealPercent(sch[t].0, sch[t].1, count, n)))
  }

  /** The schedule of the first `m` rows is a prefix of the whole schedule. */
  lemma {:induction false} SchedulePrefix(loaded: seq<bool>, m: nat, count: int)
    requires m <= |loaded|
    ensures |Schedule(loaded[..m], count)| <= |Schedule(loaded, count)|
    ensures Schedule(loaded, count)[..|Schedule(loaded[..m], count)|] == Schedule(loaded[..m], count)
    decreases |loaded| - m
  {
    if m == |loaded| {
      assert loaded[..m] == loaded;
    } else {
      SchedulePrefix(loaded, m + 1, count);
      ScheduleStep(loaded, m, count);
    }
  }

  /** A prefix of `full` that extends `a` by part of `vs`, where `a + vs` is a prefix of `full`. */
  lemma PrefixOfExtended<T>(full: seq<T>, a: seq<T>, vs: seq<T>, k: nat)
    requires |a| + |vs| <= |full| && full[..|a| + |vs|] == a + vs && k <= |vs|
    ensures full[..|a| + k] == a + vs[..k]
  {
    assert full[..|a| + k] == (a + vs)[..|a| + k];
  }

  /**
   * Outputs that satisfy `ok` at their own positions still do after more outputs are
   * appended that satisfy it at theirs.
   */
  lemma ZipExtend<P, O, W>(ok: (P, nat, O, W) -> bool, sch: seq<P>, out: seq<O>, ws: seq<W>,
                           vs: seq<P>, more: seq<O>, moreWs: seq<W>)
    requires |out| == |sch| && |ws| == |sch| && |more| == |vs| && |moreWs| == |vs|
    requires forall t :: 0 <= t < |sch| ==> ok(sch[t], t, out[t], ws[t])
    requires forall j :: 0 <= j < |vs| ==> ok(vs[j], |sch| + j, more[j], moreWs[j])
    ensures forall t :: 0 <= t < |sch| + |vs| ==> ok((sch + vs)[t], t, (out + more)[t], (ws + moreWs)[t])
  {
    forall t | 0 <= t < |sch| + |vs| ensures ok((sch + vs)[t], t, (out + more)[t], (ws + moreWs)[t]) {
      if t >= |sch| {
        var j := t - |sch|;
        assert ok(vs[j], |sch| + j, more[j], moreWs[j]);
      }
    }
  }

  /** Appending the outputs of (a prefix of) one more row keeps the outputs in step with the schedule. */
  lemma AugmentedExtend(rows: seq<Row>, col: nat, origin: Option<string>,
                        folder: string, params: GeneratorParams, blur: bool, noise: bool,
                        uuid: nat -> string, saveError: nat -> Option<string>, sch: seq<(nat, nat)>, out: seq<Row>, ws: seq<Write>,
                        i: nat, count: int, start: nat, rowOut: seq<Row>, rowWs: seq<Write>)
    requires Augmented(rows, col, origin, folder, params, blur, noise, uuid, saveError, sch, out, ws)
    requires start == |sch|
    requires |rowOut| == |rowWs| <= |Variants(i, count)|
    requires forall j :: 0 <= j < |rowOut| ==>
      VariantOutput(rows, col, origin, folder, params, blur, noise, uuid, saveError, (i, j), start + j, rowOut[j], rowWs[j])
    ensures Augmented(rows, col, origin, folder, params, blur, noise, uuid, saveError,
                      sch + Variants(i, count)[..|rowOut|], out + rowOut, ws + rowWs)
  {
    var vs := Variants(i, count)[..|rowOut|];
    var ok := (p: (nat, nat), t: nat, o: Row, w: Write) =>
      VariantOutput(rows, col, origin, folder, params, blur, noise, uuid, saveError, p, t, o, w);
    forall j | 0 <= j < |vs| ensures ok(vs[j], |sch| + j, rowOut[j], rowWs[j]) {
      assert vs[j] == (i, j);
    }
    ZipExtend(ok, sch, out, ws, vs, rowOut, rowWs);
  }

  /** One more variant of row `i`, appended to its outputs so far, keeps them in step. */
  lemma OutputsExtend(rows: seq<Row>, col: nat, origin: Option<string>,
                      folder: string, params: GeneratorParams, blur: bool, noise: bool,
                      uuid: nat -> string, saveError: nat -> Option<string>, i: nat, start: nat, out: seq<Row>, ws: seq<Write>, r: Row, w: Write)
    requires |out| == |ws|
    requires forall q :: 0 <= q < |out| ==>
      VariantOutput(rows, col, origin, folder, params, blur, noise, uuid, saveError, (i, q), start + q, out[q], ws[q])
    requires VariantOutput(rows, col, origin, folder, params, blur, noise, uuid, saveError, (i, |out|), start + |out|, r, w)
    ensures forall q :: 0 <= q < |out| + 1 ==>
      VariantOutput(rows, col, origin, folder, params, blur, noise, uuid, saveError, (i, q), start + q, (out + [r])[q], (ws + [w])[q])
  {
    var ok := (p: (nat, nat), q: nat, o: Row, w': Write) =>
      VariantOutput(rows, col, origin, folder, params, blur, noise, uuid, saveError, p, start + q, o, w');
    var pairs: seq<(nat, nat)> := seq(|out|, q requires 0 <= q => (i, q));
    var pairs' := pairs + [(i, |out|)];
    assert forall q :: 0 <= q < |out| ==> ok(pairs[q], q, out[q], ws[q]);
    ZipExtend<(nat, nat), Row, Write>(ok, pairs, out, ws, [(i, |out|)], [r], [w]);
    assert forall q :: 0 <= q < |out| + 1 ==> pairs'[q] == (i, q);
  }

  /**
   * One pass of the inner loop: variant `j` of row `i`, drawn as number `t`, saved under a
   * fresh name. `failure` is what `aug_img.save` raises; when it raises nothing is written.
   */
  method SaveVariant(rows: seq<Row>, i: nat, col: nat, origin: Option<string>, j: nat, t: nat,
                     folder: string, params: GeneratorParams, blur: bool, noise: bool,
                     uuid: nat -> string, saveError: nat -> Option<string>)
    returns (r: Row, ghost w: Write, failure: Option<string>)
    requires i < |rows| && col < |rows[i].metas| && origin.Some?
    ensures failure == saveError(t)
    ensures failure.None? ==> VariantOutput(rows, col, origin, folder, params, blur, noise, uuid, saveError, (i, j), t, r, w)
  {
    var filename := FileName(uuid(t));
    failure := saveError(t);
    // one generator batch, then the custom transforms
    w := Write(folder, filename, Variant(Join(origin.value, rows[i].metas[col]), params, blur, noise, t));
    r := AugmentedRow(rows[i], col, filename);
  }

  /**
   * The inner loop for one loaded row `i`: up to `count` variants, numbered from `start`,
   * each written to its own file under `folder`. A save that raises ends the loop, and
   * `raised` is its exception.
   */
  method AugmentRow(rows: seq<Row>, i: nat, col: nat, origin: Option<string>, count: int, start: nat,
                    folder: string, params: GeneratorParams, blur: bool, noise: bool,
                    uuid: nat -> string, saveError: nat -> Option<string>)
    returns (out: seq<Row>, ghost ws: seq<Write>, raised: Option<string>)
    requires i < |rows| && col < |rows[i].metas| && origin.Some?
    ensures |out| == |ws| <= |Variants(i, count)|
    ensures forall j :: 0 <= j < |out| ==>
      VariantOutput(rows, col, origin, folder, params, blur, noise, uuid, saveError, (i, j), start + j, out[j], ws[j])
    ensures raised.None? <==> |out| == |Variants(i, count)|
    ensures raised.Some? ==> raised == saveError(start + |out|)
  {
    out, ws, raised := [], [], None;
    var j := 0;
    while j < count
      invariant 0 <= j <= |Variants(i, count)|
      invariant |out| == |ws| == j
      invariant forall q :: 0 <= q < j ==>
        VariantOutput(rows, col, origin, folder, params, blur, noise, uuid, saveError, (i, q), start + q, out[q], ws[q])
    {
      var r, w, failure := SaveVariant(rows, i, col, origin, j, start + j, folder, params, blur, noise, uuid, saveError);
      if failure.Some? {
        raised := failure;
        return;
      }
      OutputsExtend(rows, col, origin, folder, params, blur, noise, uuid, saveError, i, start, out, ws, r, w);
      ws := ws + [w];
      out := out + [r];
      j := j + 1;
    }
  }

  /**
   * Where a save raises in loaded row `i`, the outputs made so far are the ones before it
   * in the run's order, and the exception is that of the next save.
   */
  lemma RowStopped(rows: seq<Row>, col: nat, origin: Option<string>, count: int,
                   folder: string, params: GeneratorParams, blur: bool, noise: bool,
                   uuid: nat -> string, saveError: nat -> Option<string>, loaded: seq<bool>, i: nat,
                   sch: seq<(nat, nat)>, out: seq<Row>, ws: seq<Write>, start: nat,
                   rowOut: seq<Row>, rowWs: seq<Write>, failure: Option<string>)
    requires i < |loaded| && loaded[i] && sch == Schedule(loaded[..i], count)
    requires Augmented(rows, col, origin, folder, params, blur, noise, uuid, saveError, sch, out, ws)
    requires start == |out| && |rowOut| == |rowWs| < |Variants(i, count)|
    requires forall j :: 0 <= j < |rowOut| ==>
      VariantOutput(rows, col, origin, folder, params, blur, noise, uuid, saveError, (i, j), start + j, rowOut[j], rowWs[j])
    requires failure == saveError(start + |rowOut|)
    ensures |out + rowOut| < |Schedule(loaded, count)|
    ensures sch + Variants(i, count)[..|rowOut|] == Schedule(loaded, count)[..|out + rowOut|]
    ensures Augmented(rows, col, origin, folder, params, blur, noise, uuid, saveError,
                      sch + Variants(i, count)[..|rowOut|], out + rowOut, ws + rowWs)
    ensures failure == saveError(|out + rowOut|)
  {
    ScheduleStep(loaded, i, count);
    SchedulePrefix(loaded, i + 1, count);
    PrefixOfExtended(Schedule(loaded, count), sch, Variants(i, count), |rowOut|);
    AugmentedExtend(rows, col, origin, folder, params, blur, noise, uuid, saveError, sch, out, ws,
                    i, count, start, rowOut, rowWs);
  }

  /**
   * The outer loop of `generate_augmentations`: rows that fail to load are skipped,
   * every other row yields its variants, until a save raises. `sch` lists the
   * (row, variant) pair of each output, a prefix of the schedule.
   */
  method AugmentRows(rows: seq<Row>, col: nat, origin: Option<string>, count: int,
                     folder: string, params: GeneratorParams, blur: bool, noise: bool,
                     loads: string -> bool, uuid: nat -> string, saveError: nat -> Option<string>)
    returns (out: seq<Row>, ghost ws: seq<Write>, ghost sch: seq<(nat, nat)>, raised: Option<string>)
    requires HasColumn(rows, col)
    ensures var full := Schedule(LoadedFlags(rows, col, origin, loads), count);
      |out| <= |full| && sch == full[..|out|]
    ensures Augmented(rows, col, origin, folder, params, blur, noise, uuid, saveError, sch, out, ws)
    ensures raised.None? <==> |out| == |Schedule(LoadedFlags(rows, col, origin, loads), count)|
    ensures raised.Some? ==> raised == saveError(|out|)
  {
    ghost var loaded := LoadedFlags(rows, col, origin, loads);
    sch := [];
    out, ws, raised := [], [], None;
    var i := 0;
    while i < |rows|
      invariant 0 <= i <= |rows|
      invariant sch == Schedule(loaded[..i], count)
      invariant Augmented(rows, col, origin, folder, params, blur, noise, uuid, saveError, sch, out, ws)
    {
      ScheduleStep(loaded, i, count);
      var path := rows[i].metas[col];
      if origin.None? || !loads(Join(origin.value, path)) {
        // `load_img` raised: the row is skipped
        i := i + 1;
        continue;
      }
      var start := |out|;
      var rowOut, rowWs, failure := AugmentRow(rows, i, col, origin, count, start,
                                               folder, params, blur, noise, uuid, saveError);
      ghost var vs := Variants(i, count);
      if failure.Some? {
        RowStopped(rows, col, origin, count, folder, params, blur, noise, uuid, saveError, loaded, i,
                   sch, out, ws, start, rowOut, rowWs, failure);
        sch, out, ws, raised := sch + vs[..|rowOut|], out + rowOut, ws + rowWs, failure;
        return;
      }
      AugmentedExtend(rows, col, origin, folder, params, blur, noise, uuid, saveError, sch, out, ws,
                      i, count, start, rowOut, rowWs);
      assert vs[..|rowOut|] == vs;
      sch, out, ws := sch + vs, out + rowOut, ws + rowWs;
      i := i + 1;
    }
    assert loaded[..|rows|] == loaded;
  }

  /** The meta variables' attributes after the scan: image-tagged ones point at `folder`. */
  twostate predicate Retargeted(metas: seq<Variable>, folder: string, upTo: int)
    reads metas
  {
    forall k :: 0 <= k < |metas| ==>
      metas[k].attributes ==
        if k < upTo && old(IsImage(metas[k])) then old(metas[k].attributes)["origin" := folder]
        else old(metas[k].attributes)
  }

  /**
   * The schema scan of `generate_augmentations`: every image-tagged meta variable gets
   * `folder` as its origin; the last one is returned with the origin it had before.
   */
  method ScanImageVariables(metas: seq<Variable>, folder: string)
    returns (imageCol: Option<Variable>, origin: Option<string>, ghost last: Option<nat>)
    requires DistinctVariables(metas)
    modifies metas
    ensures last == old(LastImageIndex(metas))
    ensures imageCol == if last.Some? then Some(metas[last.value]) else None
    ensures last.Some? ==> origin == old(Attribute(metas[last.value], "origin"))
    ensures Retargeted(metas, folder, |metas|)
  {
    imageCol, origin, last := None, None, None;
    var m := 0;
    while m < |metas|
      invariant 0 <= m <= |metas|
      invariant Retargeted(metas, folder, m)
      invariant last == old(LastImageIndex(metas[..m]))
      invariant imageCol == if last.Some? then Some(metas[last.value]) else None
      invariant last.Some? ==> origin == old(Attribute(metas[last.value], "origin"))
    {
      assert metas[..m + 1][..m] == metas[..m];
      if IsImage(metas[m]) {
        imageCol := Some(metas[m]);
        origin := Attribute(metas[m], "origin");
        metas[m].attributes := metas[m].attributes["origin" := folder];
        last := Some(m);
      }
      m := m + 1;
    }
    assert metas[..m] == metas;
  }

  /** Whether the first guard lets a run start: a non-empty table and a folder. */
  predicate HasWork(table: Option<Table>, folder: string) {
    table.Some? && |table.value.rows| > 0 && folder != ""
  }

  /** The origin attribute of the last image-tagged meta variable, if there is one. */
  function ImageOrigin(metas: seq<Variable>): Option<string>
    reads metas
  {
    match LastImageIndex(metas)
    case Some(k) => Attribute(metas[k], "origin")
    case None => None
  }

  /**
   * What one run does, given the input `table`, the position `last` of its last image
   * column and that column's `origin` before the run: the error and output it leaves
   * (starting from `error0` and `output0`), the progress events and files it adds,
   * and the exception that escapes, if any.
   */
  ghost predicate Outcome(table: Option<Table>, last: Option<nat>, origin: Option<string>,
                          folder: string, count: int, params: GeneratorParams, blur: bool, noise: bool,
                          loads: string -> bool, uuid: nat -> string, saveError: nat -> Option<string>,
                          error0: Option<string>, output0: Option<Table>,
                          error: Option<string>, output: Option<Table>,
                          events: seq<Event>, ws: seq<Write>, raised: Option<string>)
  {
    if !HasWork(table, folder) then
      // no table or an empty one, or no folder: an error and nothing else
      raised == None && error == Some(NoDataOrFolder) && output == output0 && events == [] && ws == []
    else if last.None? then
      // no image column: an error, an opened and closed progress bar, nothing else
      raised == None && error == Some(NoImageColumn) && output == output0 && events == [Init, Finished] && ws == []
    else if origin.None? then
      // the first row's `os.path.join(None, path)` raises, and so does the one in the
      // `except` handler's message: the exception escapes and the bar stays open
      raised == Some(NoOrigin) && error == error0 && output == output0 && events == [Init] && ws == []
    else
      error == error0 &&
      Produced(table.value, last.value, origin, folder, count, params, blur, noise, loads, uuid, saveError,
               output0, output, events, ws, raised)
  }

  /**
   * What the row loop of a run over `t` with image column `col` produces. The files of
   * the schedule are written in order up to the first save that raises; that exception
   * escapes with the bar open and no table sent. Otherwise `Table.from_numpy` raises for
   * a domain with attribute columns (the rows it is given have none), and else a table
   * on the same domain holding the augmented rows is sent and the bar closed.
   */
  ghost predicate Produced(t: Table, col: nat, origin: Option<string>,
                           folder: string, count: int, params: GeneratorParams, blur: bool, noise: bool,
                           loads: string -> bool, uuid: nat -> string, saveError: nat -> Option<string>,
                           output0: Option<Table>, output: Option<Table>, events: seq<Event>, ws: seq<Write>,
                           raised: Option<string>)
  {
    var rows := t.rows;
    HasColumn(rows, col) &&
    var full := Schedule(LoadedFlags(rows, col, origin, loads), count);
    ScheduleInRange(full, count, |rows|) &&
    |ws| <= |full| &&
    Written(rows, col, origin, folder, params, blur, noise, uuid, saveError, full[..|ws|], ws) &&
    if |ws| < |full| then
      raised == saveError(|ws|) && raised.Some? &&
      output == output0 && events == [Init] + Events(full[..|ws|], count, |rows|)
    else if t.domain.attributeCount > 0 then
      raised == Some(InvalidColumns) && output == output0 && events == [Init] + Events(full, count, |rows|)
    else
      raised == None && output.Some? && output.value.domain == t.domain &&
      Augmented(rows, col, origin, folder, params, blur, noise, uuid, saveError, full, output.value.rows, ws) &&
      events == [Init] + Events(full, count, |rows|) + [Finished]
  }

  /** The row loop of a run and the table it builds, once the image column `col` is known. */
  method AugmentTable(t: Table, col: nat, origin: Option<string>,
                      folder: string, count: int, params: GeneratorParams, blur: bool, noise: bool,
                      loads: string -> bool, uuid: nat -> string, saveError: nat -> Option<string>,
                      output0: Option<Table>)
    returns (output: Option<Table>, ghost events: seq<Event>, ghost ws: seq<Write>, raised: Option<string>)
    requires WellFormed(t) && col < |t.domain.metas|
    ensures Produced(t, col, origin, folder, count, params, blur, noise, loads, uuid, saveError,
                     output0, output, events, ws, raised)
  {
    WellFormedHasColumn(t, col);
    var newRows, rowWs, sch, failure := AugmentRows(t.rows, col, origin, count, folder,
                                                    params, blur, noise, loads, uuid, saveError);
    ScheduleRange(LoadedFlags(t.rows, col, origin, loads), count);
    AugmentedWritten(t.rows, col, origin, folder, params, blur, noise, uuid, saveError, sch, newRows, rowWs);
    ws, raised, output := rowWs, failure, output0;
    if failure.Some? {
      events := [Init] + Events(sch, count, |t.rows|);
    } else if t.domain.attributeCount > 0 {
      // `X=np.empty((len(new_rows), 0))` has no columns for the domain's attributes
      raised := Some(InvalidColumns);
      events := [Init] + Events(sch, count, |t.rows|);
    } else {
      events := [Init] + Events(sch, count, |t.rows|) + [Finished];
      output := Some(Table(t.domain, newRows));
    }
  }

  /**
   * `generate_augmentations` on the given settings. Every image-tagged meta variable of
   * the input gets `folder` as its origin once the first guard passes; the shared
   * domain makes the change visible to the input table too.
   */
  method Run(table: Option<Table>, folder: string, count: int, params: GeneratorParams,
             blur: bool, noise: bool, loads: string -> bool, uuid: nat -> string,
             saveError: nat -> Option<string>, error0: Option<string>, output0: Option<Table>)
    returns (error: Option<string>, output: Option<Table>, ghost events: seq<Event>, ghost ws: seq<Write>,
             raised: Option<string>)
    requires table.Some? ==> WellFormed(table.value)
    requires DistinctVariables(MetasOf(table))
    modifies MetasOf(table)
    ensures Outcome(table, old(LastImageIndex(MetasOf(table))), old(ImageOrigin(MetasOf(table))),
                    folder, count, params, blur, noise, loads, uuid, saveError,
                    error0, output0, error, output, events, ws, raised)
    ensures Retargeted(MetasOf(table), folder, if HasWork(table, folder) then |MetasOf(table)| else 0)
  {
    error, output, events, ws, raised := error0, output0, [], [], None;
    if table.None? || |table.value.rows| == 0 || folder == "" {
      error := Some(NoDataOrFolder);
      return;
    }
    var t := table.value;
    var metas := t.domain.metas;
    var imageCol, origin, last := ScanImageVariables(metas, folder);
    if imageCol.None? {
      error := Some(NoImageColumn);
      events := [Init, Finished];
      return;
    }
    if origin.None? {
      // `os.path.join(None, path)` raises in the `try` and again in the `except` handler
      raised := Some(NoOrigin);
      events := [Init];
      return;
    }
    var col := IndexOf(metas, imageCol.value).value;
    assert col == last.value;
    output, events, ws, raised := AugmentTable(t, col, origin, folder, count, params, blur, noise,
                                               loads, uuid, saveError, output0);
  }

  /** The name of every augmented file is relative: it cannot start with '/'. */
  lemma FileNameRelative(id: string)
    ensures !StartsWith(FileName(id), "/")
  {
    assert FileName(id)[0] == 'a';
  }

  /** Every file of a run was written by a save that raised nothing. */
  lemma WrittenSaved(rows: seq<Row>, col: nat, origin: Option<string>,
                     folder: string, params: GeneratorParams, blur: bool, noise: bool,
                     uuid: nat -> string, saveError: nat -> Option<string>,
                     sch: seq<(nat, nat)>, ws: seq<Write>)
    requires Written(rows, col, origin, folder, params, blur, noise, uuid, saveError, sch, ws)
    ensures forall t :: 0 <= t < |ws| ==> saveError(t).None?
  {
    forall t | 0 <= t < |ws| ensures saveError(t).None? {
      assert VariantWrite(rows, col, origin, folder, params, blur, noise, uuid, saveError, sch[t], t, ws[t]);
    }
  }

  /** With fresh identifiers, no two files of a run share a path. */
  lemma WrittenPathsDistinct(rows: seq<Row>, col: nat, origin: Option<string>,
                             folder: string, params: GeneratorParams, blur: bool, noise: bool,
                             uuid: nat -> string, saveError: nat -> Option<string>,
                             sch: seq<(nat, nat)>, ws: seq<Write>)
    requires Written(rows, col, origin, folder, params, blur, noise, uuid, saveError, sch, ws)
    requires forall a: nat, b: nat :: a != b ==> uuid(a) != uuid(b)
    ensures forall s, t :: 0 <= s < t < |ws| ==> ws[s].Path() != ws[t].Path()
  {
    forall s, t | 0 <= s < t < |ws| ensures ws[s].Path() != ws[t].Path() {
      assert VariantWrite(rows, col, origin, folder, params, blur, noise, uuid, saveError, sch[s], s, ws[s]);
      assert VariantWrite(rows, col, origin, folder, params, blur, noise, uuid, saveError, sch[t], t, ws[t]);
      if ws[s].Path() == ws[t].Path() {
        FileNameRelative(uuid(s));
        FileNameRelative(uuid(t));
        JoinInjective(folder, FileName(uuid(s)), FileName(uuid(t)));
        FileNameInjective(uuid(s), uuid(t));
        assert false;
      }
    }
  }

  /**
   * A run that raises nothing emits `count` rows for each row that loads, and writes as
   * many files; for this every save succeeds and the domain has no attribute columns.
   */
  lemma OutcomeSize(table: Option<Table>, last: Option<nat>, origin: Option<string>,
                    folder: string, count: nat, params: GeneratorParams, blur: bool, noise: bool,
                    loads: string -> bool, uuid: nat -> string, saveError: nat -> Option<string>,
                    error0: Option<string>, output0: Option<Table>,
                    error: Option<string>, output: Option<Table>,
                    events: seq<Event>, ws: seq<Write>, raised: Option<string>)
    requires Outcome(table, last, origin, folder, count, params, blur, noise, loads, uuid, saveError,
                     error0, output0, error, output, events, ws, raised)
    requires HasWork(table, folder) && last.Some? && origin.Some? && raised.None?
    ensures HasColumn(table.value.rows, last.value) && table.value.domain.attributeCount == 0
    ensures var loaded := LoadedFlags(table.value.rows, last.value, origin, loads);
      output.Some? && |output.value.rows| == |ws| == count * CountTrue(loaded) &&
      |events| == count * CountTrue(loaded) + 2
  {
    ScheduleLength(LoadedFlags(table.value.rows, last.value, origin, loads), count);
  }

  /**
   * A run whose save raises stops at the first failing save: the files before it are
   * exactly those of the schedule's first outputs, and every save before it succeeded.
   */
  lemma OutcomeStopsAtFailedSave(table: Option<Table>, last: Option<nat>, origin: Option<string>,
                                 folder: string, count: int, params: GeneratorParams, blur: bool, noise: bool,
                                 loads: string -> bool, uuid: nat -> string, saveError: nat -> Option<string>,
                                 error0: Option<string>, output0: Option<Table>,
                                 error: Option<string>, output: Option<Table>,
                                 events: seq<Event>, ws: seq<Write>, raised: Option<string>,
                                 k: nat)
    requires Outcome(table, last, origin, folder, count, params, blur, noise, loads, uuid, saveError,
                     error0, output0, error, output, events, ws, raised)
    requires HasWork(table, folder) && last.Some? && origin.Some?
    requires HasColumn(table.value.rows, last.value)
    requires k < |Schedule(LoadedFlags(table.value.rows, last.value, origin, loads), count)|
    requires saveError(k).Some?
    requires forall q :: 0 <= q < k ==> saveError(q).None?
    ensures raised == saveError(k) && |ws| == k && output == output0
    ensures error == error0 && Finished !in events
  {
    var rows := table.value.rows;
    var full := Schedule(LoadedFlags(rows, last.value, origin, loads), count);
    WrittenSaved(rows, last.value, origin, folder, params, blur, noise, uuid, saveError, full[..|ws|], ws);
    var pre := Events(full[..|ws|], count, |rows|);
    assert forall e :: e in pre ==> e.Set?;
  }

  /** The widget `OWImageAugmenter`, with its settings and what it has produced. */
  class ImageAugmenter {
    var imageTable: Option<Table>
    var saveFolder: string
    var augmentCount: int
    var zoom: bool
    var flip: bool
    var rotate: bool
    var shear: bool
    var brightness: bool
    var blur: bool
    var gaussianNoise: bool
    /** The error message shown on the widget, if any. */
    var error: Option<string>
    /** The last table sent on the output. */
    var output: Option<Table>
    /** Everything shown on the progress bar, oldest first. */
    ghost var progress: seq<Event>
    /** Every file written, oldest first. */
    ghost var writes: seq<Write>

    /** A new widget with the default settings and no input. */
    constructor ()
      ensures imageTable == None && saveFolder == "/home/chris/Downloads/test" && augmentCount == 2
      ensures zoom && flip && rotate && !shear && !brightness && !blur && !gaussianNoise
      ensures error == None && output == None && progress == [] && writes == []
    {
      imageTable := None;
      saveFolder := "/home/chris/Downloads/test";
      augmentCount := 2;
      zoom, flip, rotate := true, true, true;
      shear, brightness, blur, gaussianNoise := false, false, false, false;
      error, output := None, None;
      progress, writes := [], [];
    }

    /** `set_data`: remembers the input table. */
    method SetData(table: Option<Table>)
      modifies this`imageTable
      ensures imageTable == table
    {
      imageTable := table;
    }

    /** `select_folder`: a cancelled dialog (empty answer) keeps the old folder. */
    method SelectFolder(folder: string)
      modifies this`saveFolder
      ensures saveFolder == if folder != "" then folder else old(saveFolder)
    {
      if folder != "" {
        saveFolder := folder;
      }
    }

    /** `set_augment_count`. */
    method SetAugmentCount(val: int)
      modifies this`augmentCount
      ensures augmentCount == val
    {
      augmentCount := val;
    }

    /** The seven check boxes, in the order of `Flag`. */
    function Flags(): seq<bool>
      reads this
    {
      [zoom, flip, rotate, shear, brightness, blur, gaussianNoise]
    }

    /** `set_flag(attr, val)`: sets one check box and no other. */
    method SetFlag(flag: Flag, val: bool)
      modifies this`zoom, this`flip, this`rotate, this`shear, this`brightness, this`blur, this`gaussianNoise
      ensures Flags() == old(Flags())[FlagIndex(flag) := val]
    {
      match flag
      case Zoom => zoom := val;
      case Flip => flip := val;
      case Rotate => rotate := val;
      case Shear => shear := val;
      case Brightness => brightness := val;
      case Blur => blur := val;
      case Noise => gaussianNoise := val;
    }

    /**
     * `generate_augmentations`. `loads` says which paths `load_img` decodes; `uuid(t)`
     * is the hex identifier drawn for the `t`-th file of this run; `saveError(t)` is what
     * `aug_img.save` raises when it saves the `t`-th file, if anything; `raised` is the exception that
     * escapes, if any.
     */
    method GenerateAugmentations(loads: string -> bool, uuid: nat -> string, saveError: nat -> Option<string>)
      returns (raised: Option<string>)
      requires imageTable.Some? ==> WellFormed(imageTable.value)
      requires DistinctVariables(MetasOf(imageTable))
      modifies this`error, this`output, this`progress, this`writes, MetasOf(imageTable)
      ensures |progress| >= |old(progress)| && progress[..|old(progress)|] == old(progress)
      ensures |writes| >= |old(writes)| && writes[..|old(writes)|] == old(writes)
      // the settings are read as the run starts
      ensures Outcome(old(imageTable), old(LastImageIndex(MetasOf(imageTable))), old(ImageOrigin(MetasOf(imageTable))),
                      old(saveFolder), old(augmentCount), old(DatagenParams(zoom, flip, rotate, shear, brightness)),
                      old(blur), old(gaussianNoise), loads, uuid, saveError, old(error), old(output),
                      error, output, progress[|old(progress)|..], writes[|old(writes)|..], raised)
      ensures Retargeted(MetasOf(imageTable), saveFolder,
                         if HasWork(imageTable, saveFolder) then |MetasOf(imageTable)| else 0)
    {
      var params := DatagenParams(zoom, flip, rotate, shear, brightness);
      var err, out, events, ws, r := Run(imageTable, saveFolder, augmentCount, params, blur, gaussianNoise,
                                      loads, uuid, saveError, error, output);
      ghost var p0, w0 := progress, writes;
      error, output, progress, writes := err, out, progress + events, writes + ws;
      assert progress[|p0|..] == events && writes[|w0|..] == ws;
      raised := r;
    }
  }

  /** The position of a check box in `Flags()`. */
  function FlagIndex(flag: Flag): nat {
    match flag
    case Zoom => 0
    case Flip => 1
    case Rotate => 2
    case Shear => 3
    case Brightness => 4
    case Blur => 5
    case Noise => 6
  }
}
