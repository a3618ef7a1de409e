/**
 * The "Load ImageNet" widget: loads a Keras model from an .h5 file, or from a JSON
 * architecture file plus the weights file beside it, and sends it. The file, its
 * directory and its kind are remembered as settings before loading is tried, and a
 * remembered file is loaded again when the widget is created.
 */
module LoadImageNet {
  import opened Wrappers
  import opened Paths
  import opened Keras

  const H5Type: string := "h5"
  const JsonType: string := "json"

  /**
   * The foreign calls of the widget: `load_model(path)`, reading a text file,
   * `model_from_json(text)`, and `model.load_weights(path)`, which answers the error
   * text where it raises and None where it succeeds.
   */
  datatype Loaders = Loaders(
    loadModel: string -> Result<KerasModel>,
    readText: string -> Result<string>,
    fromJson: string -> Result<KerasModel>,
    loadWeights: (KerasModel, string) -> Option<string>)

  /**
   * What one load attempt does to the widget: the value it assigns to `self.model`
   * (None where it assigns nothing) and the error it reports (None where it sends
   * the model instead).
   */
  datatype Attempt = Attempt(stored: Option<KerasModel>, error: Option<string>)

  /** The try block of `load_h5(filename)`. */
  function H5Attempt(l: Loaders, filename: string): (r: Attempt)
    ensures r.error.None? <==> r.stored.Some?
    ensures r.stored.Some? <==> l.loadModel(filename).Ok?
    ensures r.error.Some? ==> l.loadModel(filename) == Err(r.error.value)
    ensures r.stored.Some? ==> l.loadModel(filename) == Ok(r.stored.value)
  {
    match l.loadModel(filename)
    case Ok(m) => Attempt(Some(m), None)
    case Err(e) => Attempt(None, Some(e))
  }

  /**
   * The try block of `load_json(json_path)`: read the file, build the architecture,
   * assign it, then load the weights from the path derived from `jsonPath`.
   */
  function JsonAttempt(l: Loaders, jsonPath: string): (r: Attempt)
  {
    match l.readText(jsonPath)
    case Err(e) => Attempt(None, Some(e))
    case Ok(text) =>
      match l.fromJson(text)
      case Err(e) => Attempt(None, Some(e))
      case Ok(m) =>
        match l.loadWeights(m, WeightsPath(jsonPath))
        case Some(e) => Attempt(Some(m), Some(e))
        case None => Attempt(Some(Weighted(m, WeightsPath(jsonPath))), None)
  }

  /**
   * A JSON load sends a model exactly when the file was read, the architecture was
   * built and the weights loaded from `WeightsPath(jsonPath)`; when only the weights
   * fail, `self.model` is already the unweighted architecture although nothing is sent.
   */
  lemma JsonAttemptFacts(l: Loaders, jsonPath: string)
    ensures var r := JsonAttempt(l, jsonPath);
      (r.error.None? <==>
        l.readText(jsonPath).Ok? && l.fromJson(l.readText(jsonPath).value).Ok? &&
        l.loadWeights(l.fromJson(l.readText(jsonPath).value).value, WeightsPath(jsonPath)).None?) &&
      (r.error.None? ==>
        r.stored == Some(Weighted(l.fromJson(l.readText(jsonPath).value).value, WeightsPath(jsonPath)))) &&
      ((r.stored.Some? && r.error.Some?) <==>
        l.readText(jsonPath).Ok? && l.fromJson(l.readText(jsonPath).value).Ok? &&
        l.loadWeights(l.fromJson(l.readText(jsonPath).value).value, WeightsPath(jsonPath)).Some?) &&
      ((r.stored.Some? && r.error.Some?) ==> r.stored == Some(l.fromJson(l.readText(jsonPath).value).value)) &&
      (r.stored.None? ==> r.error.Some?)
  {
  }

  /** A sent model has weights, and they come from a file whose name ends in "_weights.h5". */
  lemma JsonWeightsFile(l: Loaders, jsonPath: string)
    requires JsonAttempt(l, jsonPath).error.None?
    ensures var m := JsonAttempt(l, jsonPath).stored.value;
      m.Weighted? && m.weights == WeightsPath(jsonPath) && EndsWith(m.weights, "_weights.h5")
  {
    WeightsPathShape(jsonPath);
  }

  /** Which load `__init__` dispatches to for the remembered file and kind, if any. */
  function StartupLoad(loadFile: string, loadType: string): (r: Option<string>)
    ensures r.Some? <==> |loadFile| > 0 && (loadType == H5Type || loadType == JsonType)
    ensures r.Some? ==> r.value == loadType
  {
    if |loadFile| > 0 && (loadType == H5Type || loadType == JsonType) then Some(loadType) else None
  }

  /** The widget `OWLoadKerasModel`: its settings, its model and what it has sent and reported. */
  class LoadImageNet {
    /** The `last_dir`, `load_file` and `load_type` settings. */
    var lastDir: string
    var loadFile: string
    var loadType: string
    var model: Option<KerasModel>
    /** The error shown on the widget, if any. */
    var error: Option<string>
    /** Every model sent on the output, oldest first. */
    ghost var sent: seq<KerasModel>
    /** The start directory of every file dialog opened, oldest first. */
    ghost var dialogs: seq<string>

    /**
     * `__init__` with the stored settings (on first use `lastDir` is the home
     * directory and the other two are empty): reloads a remembered .h5 or JSON file.
     */
    constructor (lastDir: string, loadFile: string, loadType: string, l: Loaders)
      ensures dialogs == []
      ensures StartupLoad(loadFile, loadType).None? ==>
        this.lastDir == lastDir && this.loadFile == loadFile && this.loadType == loadType &&
        model == None && error == None && sent == []
      ensures StartupLoad(loadFile, loadType) == Some(H5Type) ==>
        this.lastDir == Dirname(loadFile) && this.loadFile == loadFile && this.loadType == H5Type &&
        model == H5Attempt(l, loadFile).stored && error == H5Attempt(l, loadFile).error &&
        sent == (if error.None? then [model.value] else [])
      ensures StartupLoad(loadFile, loadType) == Some(JsonType) ==>
        this.lastDir == Dirname(loadFile) && this.loadFile == loadFile && this.loadType == JsonType &&
        model == JsonAttempt(l, loadFile).stored && error == JsonAttempt(l, loadFile).error &&
        sent == (if error.None? then [model.value] else [])
    {
      this.lastDir, this.loadFile, this.loadType := lastDir, loadFile, loadType;
      model, error, sent, dialogs := None, None, [], [];
      new;
      if |loadFile| > 0 {
        if loadType == H5Type {
          LoadH5(loadFile, l);
        } else if loadType == JsonType {
          LoadJson(loadFile, l);
        }
      }
    }

    /**
     * `load_h5(filename)`: remembers the file, its directory and its kind first, so they
     * are kept even when loading fails; then loads and sends the model, or reports the
     * error and keeps the old model.
     */
    method LoadH5(filename: string, l: Loaders)
      modifies this`lastDir, this`loadFile, this`loadType, this`model, this`error, this`sent
      ensures lastDir == Dirname(filename) && loadFile == filename && loadType == H5Type
      ensures var a := H5Attempt(l, filename);
        model == (if a.stored.Some? then a.stored else old(model)) &&
        error == (if a.error.Some? then a.error else old(error)) &&
        sent == old(sent) + (if a.error.None? then [a.stored.value] else [])
    {
      lastDir := Dirname(filename);
      loadFile := filename;
      loadType := H5Type;
      var loaded := l.loadModel(filename);
      if loaded.Err? {
        error := Some(loaded.msg);
        return;
      }
      model := Some(loaded.value);
      sent := sent + [loaded.value];
    }

    /**
     * `load_json(json_path)`: remembers the file, its directory and its kind first; then
     * reads the architecture, assigns it, loads the weights from `WeightsPath(jsonPath)`
     * and sends the model, reporting the first error instead.
     */
    method LoadJson(jsonPath: string, l: Loaders)
      modifies this`lastDir, this`loadFile, this`loadType, this`model, this`error, this`sent
      ensures lastDir == Dirname(jsonPath) && loadFile == jsonPath && loadType == JsonType
      ensures var a := JsonAttempt(l, jsonPath);
        model == (if a.stored.Some? then a.stored else old(model)) &&
        error == (if a.error.Some? then a.error else old(error)) &&
        sent == old(sent) + (if a.error.None? then [a.stored.value] else [])
    {
      lastDir := Dirname(jsonPath);
      var weightsPath := WeightsPath(jsonPath);
      loadFile := jsonPath;
      loadType := JsonType;
      var text := l.readText(jsonPath);
      if text.Err? {
        error := Some(text.msg);
        return;
      }
      var arch := l.fromJson(text.value);
      if arch.Err? {
        error := Some(arch.msg);
        return;
      }
      model := Some(arch.value);
      var failed := l.loadWeights(arch.value, weightsPath);
      if failed.Some? {
        error := failed;
        return;
      }
      model := Some(Weighted(arch.value, weightsPath));
      sent := sent + [model.value];
    }

    /** `load_h5_dialog`: the dialog opens at `lastDir`; a chosen file (not "") is loaded. */
    method LoadH5Dialog(chosen: string, l: Loaders)
      modifies this`lastDir, this`loadFile, this`loadType, this`model, this`error, this`sent, this`dialogs
      ensures dialogs == old(dialogs) + [old(lastDir)]
      ensures chosen == "" ==>
        lastDir == old(lastDir) && loadFile == old(loadFile) && loadType == old(loadType) &&
        model == old(model) && error == old(error) && sent == old(sent)
      ensures chosen != "" ==>
        lastDir == Dirname(chosen) && loadFile == chosen && loadType == H5Type &&
        var a := H5Attempt(l, chosen);
        model == (if a.stored.Some? then a.stored else old(model)) &&
        error == (if a.error.Some? then a.error else old(error)) &&
        sent == old(sent) + (if a.error.None? then [a.stored.value] else [])
    {
      dialogs := dialogs + [lastDir];
      if chosen != "" {
        LoadH5(chosen, l);
      }
    }

    /** `load_json_dialog`: the dialog opens at `lastDir`; a chosen file (not "") is loaded. */
    method LoadJsonDialog(chosen: string, l: Loaders)
      modifies this`lastDir, this`loadFile, this`loadType, this`model, this`error, this`sent, this`dialogs
      ensures dialogs == old(dialogs) + [old(lastDir)]
      ensures chosen == "" ==>
        lastDir == old(lastDir) && loadFile == old(loadFile) && loadType == old(loadType) &&
        model == old(model) && error == old(error) && sent == old(sent)
      ensures chosen != "" ==>
        lastDir == Dirname(chosen) && loadFile == chosen && loadType == JsonType &&
        var a := JsonAttempt(l, chosen);
        model == (if a.stored.Some? then a.stored else old(model)) &&
        error == (if a.error.Some? then a.error else old(error)) &&
        sent == old(sent) + (if a.error.None? then [a.stored.value] else [])
    {
      dialogs := dialogs + [lastDir];
      if chosen != "" {
        LoadJson(chosen, l);
      }
    }
  }
}
