/**
 * The "ImageNet Builder" widget: an editable list of layer dictionaries. Layers can be
 * added (before the current last layer, or at the top), moved one place, deleted (but
 * never below two layers), cleared to a minimal network, replaced by a prebuilt
 * template or edited one parameter at a time. After each edit the list is saved as
 * the widget's setting and a Keras model is built from it and sent.
 */
module ImageNetBuilder {
  import opened Wrappers
  import opened Keras

  /** The text of the warning shown when a delete would leave fewer than two layers. */
  const CannotDelete: string := "Network must have at least a Rescaling and Dense layer."

  /** The layer types `default_config` knows. */
  const KnownTypes: set<string> := {"ZeroPadding2D", "Conv2D", "BatchNormalization", "Activation",
    "MaxPooling2D", "Add", "GlobalAveragePooling2D", "Dropout", "Dense", "Rescaling"}

  /** The layer types offered by the "Add Layers" buttons, in order. */
  const ButtonTypes: seq<string> := ["ZeroPadding2D", "Conv2D", "BatchNormalization", "Activation",
    "MaxPooling2D", "Add", "GlobalAveragePooling2D", "Dropout", "Dense"]

  /** The scale of the Rescaling layer: one over the largest byte value. */
  const ByteScale: real := 1.0 / 255.0

  /** `default_config(t)`: the parameters a new layer of type `t` starts with. */
  function DefaultConfig(t: string): (r: LayerConfig)
    ensures "type" in r && r["type"] == PStr(t)
    ensures t !in KnownTypes ==> r == map["type" := PStr(t)]
  {
    if t == "ZeroPadding2D" then map["type" := PStr(t), "padding" := PInt(1)]
    else if t == "Conv2D" then
      map["type" := PStr(t), "filters" := PInt(32), "kernel_size" := PInt(3), "activation" := PStr("relu")]
    else if t == "BatchNormalization" then map["type" := PStr(t)]
    else if t == "Activation" then map["type" := PStr(t), "activation" := PStr("relu")]
    else if t == "MaxPooling2D" then map["type" := PStr(t), "pool_size" := PInt(2)]
    else if t == "Add" then map["type" := PStr(t)]
    else if t == "GlobalAveragePooling2D" then map["type" := PStr(t)]
    else if t == "Dropout" then map["type" := PStr(t), "rate" := PReal(0.5)]
    else if t == "Dense" then map["type" := PStr(t), "units" := PInt(64), "activation" := PStr("relu")]
    else if t == "Rescaling" then map["type" := PStr(t), "scale" := PReal(ByteScale)]
    else map["type" := PStr(t)]
  }

  /** The output layer `add_layer("Dense", default=True)` uses. */
  const DenseOutput: LayerConfig := map["type" := PStr("Dense"), "units" := PInt(10), "activation" := PStr("softmax")]

  /** The dictionary `add_layer(t, default=d)` inserts. */
  function LayerFor(t: string, useDefault: bool): (r: LayerConfig)
    ensures "type" in r && r["type"] == PStr(t)
    ensures useDefault && t == "Dense" ==> r == DenseOutput
    ensures !(useDefault && t == "Dense") ==> r == DefaultConfig(t)
  {
    if useDefault && t == "Dense" then DenseOutput else DefaultConfig(t)
  }

  /** Where `add_layer` inserts into a list of `n` layers: the top, or before the last layer. */
  function InsertIndex(n: nat, atTop: bool): (r: nat)
    ensures r <= n
    ensures r == 0 <==> atTop || n <= 1
  {
    if atTop || n == 0 then 0 else n - 1
  }

  /** `s.insert(k, x)`. */
  function Inserted<T>(s: seq<T>, k: nat, x: T): seq<T>
    requires k <= |s|
  {
    s[..k] + [x] + s[k..]
  }

  /** `add_layer` on the list `s`. */
  function Added<T>(s: seq<T>, x: T, atTop: bool): seq<T> {
    Inserted(s, InsertIndex(|s|, atTop), x)
  }

  /**
   * `add_layer` grows the list by exactly `x`, at the top when asked or when the list
   * is empty, and otherwise just before the last layer, which stays last; the layers
   * before and after the new one keep their order.
   */
  lemma AddedFacts<T>(s: seq<T>, x: T, atTop: bool)
    ensures var r := Added(s, x, atTop); var k := InsertIndex(|s|, atTop);
      |r| == |s| + 1 && r[k] == x && r[..k] == s[..k] && r[k + 1..] == s[k..] &&
      multiset(r) == multiset(s) + multiset{x} &&
      ((atTop || s == []) ==> r[0] == x) &&
      ((!atTop && s != []) ==> r[|r| - 1] == s[|s| - 1] && r[|r| - 2] == x)
  {
    var r := Added(s, x, atTop);
    var k := InsertIndex(|s|, atTop);
    assert r[..k] == s[..k];
    assert r[k + 1..] == s[k..];
    calc {
      multiset(r);
      multiset(s[..k] + [x]) + multiset(s[k..]);
      multiset(s[..k]) + multiset{x} + multiset(s[k..]);
      { assert s == s[..k] + s[k..]; }
      multiset(s) + multiset{x};
    }
  }

  /** `_move_layer(i, d)` on the list `s`: swaps entries `i` and `i + d` when both exist. */
  function Moved<T>(s: seq<T>, i: nat, d: int): seq<T>
    requires i < |s|
  {
    var j := i + d;
    if 0 <= j < |s| then s[i := s[j]][j := s[i]] else s
  }

  /**
   * A move keeps the same layers: an in-range move exchanges entries `i` and `i + d`
   * and leaves every other entry where it was; an out-of-range move changes nothing.
   */
  lemma MovedFacts<T>(s: seq<T>, i: nat, d: int)
    requires i < |s|
    ensures var r := Moved(s, i, d);
      |r| == |s| && multiset(r) == multiset(s) &&
      (0 <= i + d < |s| ==>
        r[i] == s[i + d] && r[i + d] == s[i] &&
        forall k :: 0 <= k < |s| && k != i && k != i + d ==> r[k] == s[k]) &&
      (!(0 <= i + d < |s|) ==> r == s)
  {
    var j := i + d;
    if 0 <= j < |s| {
      SwapMultiset(s, i, j);
    }
  }

  /** Exchanging two entries of a sequence keeps its multiset. */
  lemma SwapMultiset<T>(s: seq<T>, i: nat, j: nat)
    requires i < |s| && j < |s|
    ensures multiset(s[i := s[j]][j := s[i]]) == multiset(s)
  {
    var t := s[i := s[j]];
    if i == j {
      assert t[j := s[i]] == s;
    } else {
      assert t[j] == s[j];
      assert multiset(t) == multiset(s) - multiset{s[i]} + multiset{s[j]};
      assert multiset(t[j := s[i]]) == multiset(t) - multiset{s[j]} + multiset{s[i]};
    }
  }

  /** Moving a layer back where it came from restores the list. */
  lemma MovedBack<T>(s: seq<T>, i: nat, d: int)
    requires i < |s| && 0 <= i + d < |s|
    ensures Moved(Moved(s, i, d), i + d, -d) == s
  {
    var t := Moved(s, i, d);
    var r := Moved(t, i + d, -d);
    MovedFacts(s, i, d);
    MovedFacts(t, i + d, -d);
    assert |r| == |s|;
    forall k | 0 <= k < |s| ensures r[k] == s[k] {
      if k != i && k != i + d {
        assert r[k] == t[k];
      }
    }
  }

  /** `del s[i]`. */
  function Deleted<T>(s: seq<T>, i: nat): seq<T>
    requires i < |s|
  {
    s[..i] + s[i + 1..]
  }

  /** Deleting entry `i` removes that layer and no other, keeping the rest in order. */
  lemma DeletedFacts<T>(s: seq<T>, i: nat)
    requires i < |s|
    ensures var r := Deleted(s, i);
      |r| == |s| - 1 &&
      (forall k :: 0 <= k < i ==> r[k] == s[k]) &&
      (forall k :: i <= k < |r| ==> r[k] == s[k + 1]) &&
      multiset(r) + multiset{s[i]} == multiset(s)
  {
    assert s == s[..i] + [s[i]] + s[i + 1..];
  }

  /** `clear_layers` as written: Rescaling at the top, then the Dense output before the last layer. */
  function ClearedAsWritten(): seq<LayerConfig> {
    Added(Added([], LayerFor("Rescaling", false), true), LayerFor("Dense", true), false)
  }

  /**
   * `clear_layers` with the two additions in the order that yields the intended
   * network: the Dense output first, then Rescaling at the top.
   */
  function Cleared(): seq<LayerConfig> {
    Added(Added([], LayerFor("Dense", true), false), LayerFor("Rescaling", false), true)
  }

  /**
   * As written, the second `add_layer` inserts before the only layer, so the Dense
   * output ends up first and Rescaling last.
   */
  lemma ClearedAsWrittenOrder()
    ensures ClearedAsWritten() == [DenseOutput, DefaultConfig("Rescaling")]
    ensures ClearedAsWritten()[|ClearedAsWritten()| - 1]["type"] == PStr("Rescaling")
  {
    var rescaling := DefaultConfig("Rescaling");
    var top := Added([], LayerFor("Rescaling", false), true);
    assert top == [rescaling];
    assert InsertIndex(1, false) == 0;
    assert ClearedAsWritten() == top[..0] + [DenseOutput] + top[0..];
  }

  /**
   * The corrected clear leaves Rescaling first and the Dense output last, and any
   * later `add_layer` below the top keeps the Dense output last.
   */
  lemma ClearedOrder(x: LayerConfig)
    ensures Cleared() == [DefaultConfig("Rescaling"), DenseOutput]
    ensures Added(Cleared(), x, false)[0] == DefaultConfig("Rescaling")
    ensures Added(Cleared(), x, false)[2] == DenseOutput
  {
    assert Added([], LayerFor("Dense", true), false) == [DenseOutput];
    AddedFacts(Cleared(), x, false);
  }

  /** `PREBUILT_MODELS`: the templates offered by the prebuilt-model box. */
  const PrebuiltModels: map<string, seq<LayerConfig>> := map[
    "None" := [],
    "SimpleCNN" := [
      map["type" := PStr("Conv2D"), "filters" := PInt(32), "kernel_size" := PInt(3), "activation" := PStr("relu")],
      map["type" := PStr("MaxPooling2D"), "pool_size" := PInt(2)],
      map["type" := PStr("Flatten")],
      DenseOutput],
    "LeNet" := [
      map["type" := PStr("Conv2D"), "filters" := PInt(6), "kernel_size" := PInt(5), "activation" := PStr("tanh")],
      map["type" := PStr("AveragePooling2D"), "pool_size" := PInt(2)],
      map["type" := PStr("Conv2D"), "filters" := PInt(16), "kernel_size" := PInt(5), "activation" := PStr("tanh")],
      map["type" := PStr("AveragePooling2D"), "pool_size" := PInt(2)],
      map["type" := PStr("Flatten")],
      map["type" := PStr("Dense"), "units" := PInt(120), "activation" := PStr("tanh")],
      map["type" := PStr("Dense"), "units" := PInt(84), "activation" := PStr("tanh")],
      DenseOutput],
    "MiniResNet" := [
      map["type" := PStr("Conv2D"), "filters" := PInt(64), "kernel_size" := PInt(3), "padding" := PStr("same"), "activation" := PStr("relu")],
      map["type" := PStr("BatchNormalization")],
      map["type" := PStr("Conv2D"), "filters" := PInt(64), "kernel_size" := PInt(3), "padding" := PStr("same"), "activation" := PStr("relu")],
      map["type" := PStr("BatchNormalization")],
      map["type" := PStr("MaxPooling2D"), "pool_size" := PInt(2)],
      map["type" := PStr("Conv2D"), "filters" := PInt(128), "kernel_size" := PInt(3), "padding" := PStr("same"), "activation" := PStr("relu")],
      map["type" := PStr("GlobalAveragePooling2D")],
      DenseOutput]
  ]

  /** Every layer dictionary names its type, so the layer list can be drawn. */
  predicate AllTyped(s: seq<LayerConfig>) {
    forall k :: 0 <= k < |s| ==> "type" in s[k]
  }

  /**
   * Every template layer names its type as a string, and every template but "None"
   * ends in the 10-way softmax Dense output.
   */
  lemma PrebuiltFacts(name: string)
    requires name in PrebuiltModels
    ensures AllTyped(PrebuiltModels[name])
    ensures forall k :: 0 <= k < |PrebuiltModels[name]| ==> PrebuiltModels[name][k]["type"].PStr?
    ensures name != "None" ==>
      (|PrebuiltModels[name]| > 0 && PrebuiltModels[name][|PrebuiltModels[name]| - 1] == DenseOutput)
  {
  }

  /** The layer class a dictionary names: its "type" entry, when that is a string. */
  function TypeName(cfg: LayerConfig): Option<string> {
    if "type" in cfg && cfg["type"].PStr? then Some(cfg["type"].s) else None
  }

  /**
   * Whether `getattr(klayers, t)(**kwargs)` succeeds for the dictionary: it must name
   * its type, and `accepts` says whether Keras has that layer class and takes those
   * keyword arguments.
   */
  predicate Buildable(cfg: LayerConfig, accepts: (string, map<string, Param>) -> bool) {
    TypeName(cfg).Some? && accepts(TypeName(cfg).value, cfg - {"type"})
  }

  /** The layer built from a dictionary: its type and the other entries as keyword arguments. */
  function ToLayer(cfg: LayerConfig): Layer
    requires TypeName(cfg).Some?
  {
    Layer(TypeName(cfg).value, cfg - {"type"})
  }

  /** The model `_build_keras_model` makes of `layers`, or None where it raises. */
  function Built(layers: seq<LayerConfig>, accepts: (string, map<string, Param>) -> bool): Option<KerasModel> {
    if forall k :: 0 <= k < |layers| ==> Buildable(layers[k], accepts) then
      Some(Sequential(seq(|layers|, k requires 0 <= k < |layers| && Buildable(layers[k], accepts) => ToLayer(layers[k]))))
    else None
  }

  /**
   * A model is built exactly when every dictionary is buildable; it then has one layer
   * per dictionary, in order, of the named class, with every other entry as a keyword
   * argument and "type" not among them.
   */
  lemma BuiltFacts(layers: seq<LayerConfig>, accepts: (string, map<string, Param>) -> bool)
    ensures Built(layers, accepts).Some? <==> forall k :: 0 <= k < |layers| ==> Buildable(layers[k], accepts)
    ensures Built(layers, accepts).Some? ==>
      var m := Built(layers, accepts).value;
      m.Sequential? && |m.layers| == |layers| &&
      forall k :: 0 <= k < |layers| ==>
        Some(m.layers[k].kind) == TypeName(layers[k]) && "type" !in m.layers[k].kwargs &&
        forall key :: key in layers[k] && key != "type" ==>
          key in m.layers[k].kwargs && m.layers[k].kwargs[key] == layers[k][key]
  {
  }

  /**
   * `_build_keras_model`: adds one layer per dictionary, building each from a copy
   * of the dictionary without its "type" entry, so `layers` itself is not changed.
   */
  method BuildKerasModel(layers: seq<LayerConfig>, accepts: (string, map<string, Param>) -> bool)
    returns (r: Option<KerasModel>)
    ensures r == Built(layers, accepts)
  {
    var added: seq<Layer> := [];
    for k := 0 to |layers|
      invariant |added| == k
      invariant forall i :: 0 <= i < k ==> Buildable(layers[i], accepts) && added[i] == ToLayer(layers[i])
    {
      var config := layers[k];
      if !("type" in config && config["type"].PStr?) {
        assert !Buildable(layers[k], accepts);
        return None;
      }
      var layerType := config["type"].s;
      config := config - {"type"};
      if !accepts(layerType, config) {
        assert !Buildable(layers[k], accepts);
        return None;
      }
      added := added + [Layer(layerType, config)];
    }
    assert added == Built(layers, accepts).value.layers;
    r := Some(Sequential(added));
  }

  /** The widget `OWImageNetBuilder`: the layer list, its saved form and what it has sent. */
  class ImageNetBuilder {
    /** `model_layers`. */
    var modelLayers: seq<LayerConfig>
    /** The `model_config` setting: the JSON text of the list, held as the list it encodes. */
    var modelConfig: seq<LayerConfig>
    /** Every model sent on the output, oldest first; None where the build failed. */
    ghost var sent: seq<Option<KerasModel>>
    /** Every warning box shown, oldest first. */
    ghost var warnings: seq<string>

    /** Every layer dictionary names its type. */
    predicate Valid()
      reads this
    {
      AllTyped(modelLayers)
    }

    /**
     * `__init__`, which ends in `_load_saved_config`. `saved` is what `json.loads`
     * makes of the stored setting, None where it raises.
     */
    constructor (saved: Option<seq<LayerConfig>>, accepts: (string, map<string, Param>) -> bool)
      ensures Valid()
      ensures saved.Some? && AllTyped(saved.value) ==>
        modelLayers == saved.value && modelConfig == saved.value && sent == [Built(saved.value, accepts)]
      ensures !(saved.Some? && AllTyped(saved.value)) ==>
        modelLayers == Cleared() && modelConfig == Cleared() &&
        sent == [Built(Added([], LayerFor("Dense", true), false), accepts), Built(Cleared(), accepts)]
      ensures warnings == []
    {
      modelLayers, modelConfig, sent, warnings := [], [], [], [];
      new;
      LoadSavedConfig(saved, accepts);
    }

    /**
     * `_load_saved_config`: takes the decoded list when drawing it succeeds, which needs
     * every dictionary to name its type; otherwise clears the list.
     */
    method LoadSavedConfig(saved: Option<seq<LayerConfig>>, accepts: (string, map<string, Param>) -> bool)
      modifies this
      ensures Valid()
      ensures saved.Some? && AllTyped(saved.value) ==>
        modelLayers == saved.value && modelConfig == saved.value && sent == old(sent) + [Built(saved.value, accepts)]
      ensures !(saved.Some? && AllTyped(saved.value)) ==>
        modelLayers == Cleared() && modelConfig == Cleared() &&
        sent == old(sent) + [Built(Added([], LayerFor("Dense", true), false), accepts), Built(Cleared(), accepts)]
      ensures warnings == old(warnings)
    {
      if saved.Some? && AllTyped(saved.value) {
        modelLayers := saved.value;
        UpdateModelConfig(accepts);
      } else {
        ClearLayers(accepts);
      }
    }

    /** `_update_model_config`: saves the list and sends the model built from it. */
    method UpdateModelConfig(accepts: (string, map<string, Param>) -> bool)
      modifies this`modelConfig, this`sent
      ensures modelConfig == modelLayers
      ensures sent == old(sent) + [Built(modelLayers, accepts)]
    {
      modelConfig := modelLayers;
      var model := BuildKerasModel(modelLayers, accepts);
      sent := sent + [model];
    }

    /** `add_layer(t, insert_at_top, default)`. */
    method AddLayer(t: string, atTop: bool, useDefault: bool, accepts: (string, map<string, Param>) -> bool)
      requires Valid()
      modifies this`modelLayers, this`modelConfig, this`sent
      ensures Valid()
      ensures modelLayers == Added(old(modelLayers), LayerFor(t, useDefault), atTop)
      ensures modelConfig == modelLayers && sent == old(sent) + [Built(modelLayers, accepts)]
    {
      var config := LayerFor(t, useDefault);
      var index := if atTop then 0 else (if |modelLayers| > 0 then |modelLayers| - 1 else 0);
      modelLayers := modelLayers[..index] + [config] + modelLayers[index..];
      assert forall k :: 0 <= k < |modelLayers| ==> modelLayers[k] == config || modelLayers[k] in old(modelLayers);
      UpdateModelConfig(accepts);
    }

    /**
     * `clear_layers`, with the additions in the order that leaves Rescaling first and
     * the Dense output last.
     */
    method ClearLayers(accepts: (string, map<string, Param>) -> bool)
      modifies this`modelLayers, this`modelConfig, this`sent
      ensures Valid()
      ensures modelLayers == Cleared() && modelConfig == Cleared()
      ensures sent == old(sent) + [Built(Added([], LayerFor("Dense", true), false), accepts), Built(Cleared(), accepts)]
    {
      modelLayers := [];
      AddLayer("Dense", false, true, accepts);
      AddLayer("Rescaling", true, false, accepts);
    }

    /** `clear_layers` as written, which leaves the Dense output before Rescaling. */
    method ClearLayersAsWritten(accepts: (string, map<string, Param>) -> bool)
      modifies this`modelLayers, this`modelConfig, this`sent
      ensures Valid()
      ensures modelLayers == ClearedAsWritten() && modelConfig == ClearedAsWritten()
      ensures sent == old(sent) + [Built(Added([], LayerFor("Rescaling", false), true), accepts), Built(ClearedAsWritten(), accepts)]
    {
      modelLayers := [];
      AddLayer("Rescaling", true, false, accepts);
      AddLayer("Dense", false, true, accepts);
    }

    /** `_move_layer(index, direction)`; the index is a position of the drawn list. */
    method MoveLayer(index: nat, direction: int, accepts: (string, map<string, Param>) -> bool)
      requires Valid() && index < |modelLayers|
      modifies this`modelLayers, this`modelConfig, this`sent
      ensures Valid()
      ensures modelLayers == Moved(old(modelLayers), index, direction)
      ensures 0 <= index + direction < |old(modelLayers)| ==>
        modelConfig == modelLayers && sent == old(sent) + [Built(modelLayers, accepts)]
      ensures !(0 <= index + direction < |old(modelLayers)|) ==>
        modelConfig == old(modelConfig) && sent == old(sent)
    {
      var newIndex := index + direction;
      if 0 <= newIndex < |modelLayers| {
        modelLayers := modelLayers[index := modelLayers[newIndex]][newIndex := modelLayers[index]];
        UpdateModelConfig(accepts);
      }
    }

    /** `_delete_layer(index)`: refused, with a warning, while there are at most two layers. */
    method DeleteLayer(index: nat, accepts: (string, map<string, Param>) -> bool)
      requires Valid() && index < |modelLayers|
      modifies this`modelLayers, this`modelConfig, this`sent, this`warnings
      ensures Valid()
      ensures |old(modelLayers)| <= 2 ==>
        modelLayers == old(modelLayers) && modelConfig == old(modelConfig) && sent == old(sent) &&
        warnings == old(warnings) + [CannotDelete]
      ensures |old(modelLayers)| > 2 ==>
        modelLayers == Deleted(old(modelLayers), index) && warnings == old(warnings) &&
        modelConfig == modelLayers && sent == old(sent) + [Built(modelLayers, accepts)]
    {
      if |modelLayers| <= 2 {
        warnings := warnings + [CannotDelete];
        return;
      }
      modelLayers := modelLayers[..index] + modelLayers[index + 1..];
      assert forall k :: 0 <= k < |modelLayers| ==> modelLayers[k] in old(modelLayers);
      UpdateModelConfig(accepts);
    }

    /** `_update_param(config, key, value)` for the dictionary drawn at position `index`. */
    method UpdateParam(index: nat, key: string, value: Param, accepts: (string, map<string, Param>) -> bool)
      requires Valid() && index < |modelLayers|
      modifies this`modelLayers, this`modelConfig, this`sent
      ensures Valid()
      ensures modelLayers == old(modelLayers)[index := old(modelLayers)[index][key := value]]
      ensures modelConfig == modelLayers && sent == old(sent) + [Built(modelLayers, accepts)]
    {
      modelLayers := modelLayers[index := modelLayers[index][key := value]];
      UpdateModelConfig(accepts);
    }

    /** `load_prebuilt_model(name)`: a known name replaces the list by a copy of its template. */
    method LoadPrebuiltModel(name: string, accepts: (string, map<string, Param>) -> bool)
      requires Valid()
      modifies this`modelLayers, this`modelConfig, this`sent
      ensures Valid()
      ensures name in PrebuiltModels ==>
        modelLayers == PrebuiltModels[name] && modelConfig == modelLayers &&
        sent == old(sent) + [Built(modelLayers, accepts)]
      ensures name !in PrebuiltModels ==>
        modelLayers == old(modelLayers) && modelConfig == old(modelConfig) && sent == old(sent)
    {
      if name in PrebuiltModels {
        PrebuiltFacts(name);
        modelLayers := PrebuiltModels[name];
        UpdateModelConfig(accepts);
      }
    }
  }

  /** Editing one parameter changes that one entry of that one layer and nothing else. */
  lemma UpdateParamFacts(s: seq<LayerConfig>, index: nat, key: string, value: Param)
    requires index < |s|
    ensures var r := s[index := s[index][key := value]];
      |r| == |s| && (forall k :: 0 <= k < |s| && k != index ==> r[k] == s[k]) &&
      r[index][key] == value && r[index].Keys == s[index].Keys + {key} &&
      forall other :: other in s[index] && other != key ==> r[index][other] == s[index][other]
  {
  }
}
