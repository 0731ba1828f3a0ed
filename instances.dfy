/**
 * A viewer instance as the React and Preact user interface reads and
 * writes it: its volumes and mesh layers with the display fields the
 * menus change, its graph options, and the viewer calls the interface
 * makes whose effect lives inside the viewer library.
 */
module Instances {
  import opened Common

  /**
   * A volume, or a layer of a mesh. `nFrame4D` is 0 where the viewer
   * leaves it undefined; `frame4D` is the frame shown.
   */
  datatype Layer = Layer(
    id: string,
    name: string,
    colormap: string,
    colormapNegative: string,
    useNegativeCmap: bool,
    colormapInvert: bool,
    calMin: real,
    calMax: real,
    globalMin: real,
    globalMax: real,
    opacity: real,
    frame4D: nat,
    nFrame4D: nat)

  datatype Mesh = Mesh(id: string, name: string, layers: seq<Layer>)

  /** `nv.graph.autoSizeMultiplanar`, `nv.opts.multiplanarForceRender`, `nv.graph.normalizeValues`, `nv.graph.opacity`. */
  datatype GraphOptions = GraphOptions(
    autoSizeMultiplanar: bool,
    multiplanarForceRender: bool,
    normalizeValues: bool,
    opacity: real)

  /** A value handed to `setMeshLayerProperty`. */
  datatype PropValue = Number(n: real) | Flag(b: bool) | Text(s: string)

  /** Calls into the viewer library, recorded in the order they are made. */
  datatype ViewerCall =
    | SetMeshLayerProperty(meshId: string, layer: int, key: string, value: PropValue)
    | SetOpacity(layer: int, opacity: real)
    | SetFrame4D(volumeId: string, frame: int)

  datatype Instance = Instance(
    isLoaded: bool,
    volumes: seq<Layer>,
    meshes: seq<Mesh>,
    graph: GraphOptions,
    calls: seq<ViewerCall>)

  /** `array[n]` on a layer list: undefined outside the list. */
  function LayerAt(layers: seq<Layer>, n: int): (r: Option<Layer>)
    ensures r.Some? <==> 0 <= n < |layers|
    ensures r.Some? ==> r.value == layers[n]
  {
    if 0 <= n < |layers| then Some(layers[n]) else None
  }
}
