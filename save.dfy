/**
 * The "Save ImageNet" widget: saves its input model as an .h5 file, or writes its
 * architecture as a JSON file. The chosen name gets the extension appended when it
 * lacks it, and the directory of the final name is remembered for the next dialog.
 */
module SaveImageNet {
  import opened Wrappers
  import opened Paths
  import opened Keras

  /** The error shown when there is no model to save. */
  const NoModel: string := "No model to save."

  const H5Ext: string := ".h5"
  const JsonExt: string := ".json"

  /** One file the widget wrote: a full model, or the architecture as JSON text. */
  datatype SavedFile = H5File(path: string, model: KerasModel) | JsonFile(path: string, model: KerasModel)

  /**
   * The file a save writes for the name chosen in the dialog: None when the dialog
   * was cancelled (an empty name), else the name with `ext` appended unless present.
   */
  function SaveTarget(chosen: string, ext: string): (r: Option<string>)
    ensures r.None? <==> chosen == ""
    ensures r.Some? ==> EndsWith(r.value, ext) && StartsWith(r.value, chosen)
    ensures r.Some? ==> (r.value == chosen <==> EndsWith(chosen, ext) || ext == [])
  {
    if chosen == "" then None
    else
      WithSuffixEnds(chosen, ext);
      WithSuffixAppendsIffMissing(chosen, ext);
      var target := WithSuffix(chosen, ext);
      assert target[..|chosen|] == chosen;
      Some(target)
  }

  /** Choosing the file a save wrote saves to that same file again. */
  lemma SaveTargetIdempotent(chosen: string, ext: string)
    requires chosen != ""
    ensures SaveTarget(SaveTarget(chosen, ext).value, ext) == SaveTarget(chosen, ext)
  {
    WithSuffixIdempotent(chosen, ext);
  }

  /** The directory remembered after a save is a prefix of the file written. */
  lemma RememberedDirectory(chosen: string, ext: string)
    requires chosen != ""
    ensures StartsWith(SaveTarget(chosen, ext).value, Dirname(SaveTarget(chosen, ext).value))
    ensures var d := Dirname(SaveTarget(chosen, ext).value); |d| <= |chosen| + |ext|
  {
    DirnamePrefix(SaveTarget(chosen, ext).value);
    WithSuffixAppendsIffMissing(chosen, ext);
  }

  /** The widget `OWSaveImageNet`: its input model, its setting and what it has written. */
  class SaveImageNet {
    /** The `last_dir` setting. */
    var lastDir: string
    var model: Option<KerasModel>
    /** The error shown on the widget, if any. */
    var error: Option<string>
    /** Every file written, oldest first. */
    ghost var files: seq<SavedFile>
    /** The start directory of every file dialog opened, oldest first. */
    ghost var dialogs: seq<string>

    /** `__init__` with the stored `last_dir` (on first use, the home directory). */
    constructor (lastDir: string)
      ensures this.lastDir == lastDir && model == None && error == None && files == [] && dialogs == []
    {
      this.lastDir := lastDir;
      model, error, files, dialogs := None, None, [], [];
    }

    /** `set_model`. */
    method SetModel(m: Option<KerasModel>)
      modifies this`model
      ensures model == m
    {
      model := m;
    }

    /**
     * `save_as_h5`, where `chosen` is the name picked in the dialog and `canWrite` says
     * whether `model.save` succeeds for a path; `raised` is true when it raises.
     * Without a model it reports an error and opens no dialog.
     */
    method SaveAsH5(chosen: string, canWrite: string -> bool) returns (raised: bool)
      modifies this`lastDir, this`error, this`files, this`dialogs
      ensures model.None? ==>
        error == Some(NoModel) && lastDir == old(lastDir) && files == old(files) &&
        dialogs == old(dialogs) && !raised
      ensures model.Some? ==> error == old(error) && dialogs == old(dialogs) + [old(lastDir)]
      ensures model.Some? ==> match SaveTarget(chosen, H5Ext)
        case None => lastDir == old(lastDir) && files == old(files) && !raised
        case Some(target) =>
          raised == !canWrite(target) &&
          (canWrite(target) ==> files == old(files) + [H5File(target, model.value)] && lastDir == Dirname(target)) &&
          (!canWrite(target) ==> files == old(files) && lastDir == old(lastDir))
    {
      raised := false;
      if model.None? {
        error := Some(NoModel);
        return;
      }
      dialogs := dialogs + [lastDir];
      var filename := chosen;
      if filename != "" {
        if !EndsWith(filename, H5Ext) {
          filename := filename + H5Ext;
        }
        if !canWrite(filename) {
          raised := true;
          return;
        }
        files := files + [H5File(filename, model.value)];
        lastDir := Dirname(filename);
      }
    }

    /**
     * `save_as_json`, where `chosen` is the name picked in the dialog and `canWrite`
     * says whether the file can be opened and written; `raised` is true when it raises.
     * Without a model it reports an error and opens no dialog.
     */
    method SaveAsJson(chosen: string, canWrite: string -> bool) returns (raised: bool)
      modifies this`lastDir, this`error, this`files, this`dialogs
      ensures model.None? ==>
        error == Some(NoModel) && lastDir == old(lastDir) && files == old(files) &&
        dialogs == old(dialogs) && !raised
      ensures model.Some? ==> error == old(error) && dialogs == old(dialogs) + [old(lastDir)]
      ensures model.Some? ==> match SaveTarget(chosen, JsonExt)
        case None => lastDir == old(lastDir) && files == old(files) && !raised
        case Some(target) =>
          raised == !canWrite(target) &&
          (canWrite(target) ==> files == old(files) + [JsonFile(target, model.value)] && lastDir == Dirname(target)) &&
          (!canWrite(target) ==> files == old(files) && lastDir == old(lastDir))
    {
      raised := false;
      if model.None? {
        error := Some(NoModel);
        return;
      }
      dialogs := dialogs + [lastDir];
      var filename := chosen;
      if filename != "" {
        if !EndsWith(filename, JsonExt) {
          filename := filename + JsonExt;
        }
        if !canWrite(filename) {
          raised := true;
          return;
        }
        files := files + [JsonFile(filename, model.value)];
        lastDir := Dirname(filename);
      }
    }
  }
}
