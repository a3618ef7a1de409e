/**
 * The Keras values the widgets pass around. A layer configuration is a dictionary
 * from parameter names to values, its "type" entry naming the layer class. A model is
 * opaque except for how it came about: the widgets build models from layers, load
 * them from files and give them weights, but never look inside.
 */
module Keras {

  /** A parameter value in a layer dictionary: an int, a float or a string. */
  datatype Param = PInt(i: int) | PReal(r: real) | PStr(s: string)

  /** A layer dictionary such as `{"type": "Dense", "units": 10}`. */
  type LayerConfig = map<string, Param>

  /** One Keras layer: its class name and the keyword arguments it was built with. */
  datatype Layer = Layer(kind: string, kwargs: map<string, Param>)

  datatype KerasModel =
    | Sequential(layers: seq<Layer>)                   // `Sequential()` with these layers added in order
    | Restored(source: string)                         // what a loader made of a file or a JSON text
    | Weighted(arch: KerasModel, weights: string)      // `arch` after `load_weights(weights)`
}
