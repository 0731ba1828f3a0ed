/**
 * Mesh overlays as the three event listeners add them: the per-type layer
 * defaults (`getLayerDefaults`, and the inline table of the oldest
 * listener), the pop that `replaceMeshOverlay` does first, and the effect
 * of one mesh-overlay message on a slot.
 */
module MeshLayers {
  import opened Common
  import opened Messages
  import opened ViewerSlots

  /** The message types routed to `addMeshOverlay`. */
  const MeshTypes: set<string> := {"addMeshOverlay", "addMeshCurvature", "replaceMeshOverlay"}

  /** Options of a curvature layer: semi-opaque grey over [0.3, 0.5]. */
  const CurvatureOptions := LayerOptions(Some(0.7), Some("gray"), None, Some(false), Some(0.3), Some(0.5))

  /** Options of an overlay layer: semi-opaque 'hsv' with an empty negative colormap. */
  const OverlayOptions := LayerOptions(Some(0.7), Some("hsv"), Some(""), Some(false), None, None)

  /** `getLayerDefaults(type)`, keyed by message type. */
  function LayerDefaults(t: string): (r: LayerOptions)
    ensures t !in MeshTypes ==> r == NoOptions
  {
    if t == "addMeshCurvature" then CurvatureOptions
    else if t == "addMeshOverlay" || t == "replaceMeshOverlay" then OverlayOptions
    else NoOptions
  }

  /** The oldest listener's message-type to kind mapping. */
  function LegacyKind(t: string): (r: Option<string>)
    ensures r.Some? <==> t in MeshTypes
  {
    if t == "addMeshOverlay" then Some("overlay")
    else if t == "addMeshCurvature" then Some("curvature")
    else if t == "replaceMeshOverlay" then Some("replaceOverlay")
    else None
  }

  /** The oldest listener's inline defaults table, keyed by kind. */
  function LegacyDefaults(kind: string): (r: LayerOptions)
    ensures kind !in {"curvature", "overlay", "replaceOverlay"} ==> r == NoOptions
  {
    if kind == "curvature" then CurvatureOptions
    else if kind == "overlay" || kind == "replaceOverlay" then OverlayOptions
    else NoOptions
  }

  /**
   * The defaults table is the same in all listeners: renaming the message
   * type to its kind and looking the kind up gives the newer table's entry,
   * and every defined entry is one of the two fixed option sets.
   */
  lemma LegacyTableAgrees(t: string)
    ensures t in MeshTypes ==> LegacyDefaults(LegacyKind(t).value) == LayerDefaults(t)
    ensures t in MeshTypes ==> LayerDefaults(t) in {CurvatureOptions, OverlayOptions}
    ensures LayerDefaults(t) == CurvatureOptions <==> t == "addMeshCurvature"
  {
  }

  /** `layers.pop()`: drop the last layer; nothing happens to an empty list. */
  function Pop(layers: seq<Layer>): (r: seq<Layer>)
    ensures |layers| > 0 ==> r + [layers[|layers| - 1]] == layers
    ensures |layers| == 0 ==> r == []
  {
    if |layers| == 0 then [] else layers[..|layers| - 1]
  }

  /** `!item.data`: a missing body field or an empty string. */
  predicate Falsy(d: Data)
  {
    d.NoData? || (d.Text? && d.text == "")
  }

  /** Set `colorbarVisible` false on the last layer, if there is one (`setMeshLayerProperty`). */
  function HideLastColorbar(layers: seq<Layer>): (r: seq<Layer>)
    ensures |r| == |layers|
    ensures forall i :: 0 <= i < |layers| - 1 ==> r[i] == layers[i]
    ensures |layers| > 0 ==> r[|r| - 1] == layers[|layers| - 1].(colorbarVisible := Some(false))
  {
    if |layers| == 0 then [] else layers[..|layers| - 1] + [layers[|layers| - 1].(colorbarVisible := Some(false))]
  }

  /** The thrown text when the fetch of a data-less overlay fails (the status code is not modelled). */
  const FetchError := "Load mesh overlay error!"

  const ReadError := "Layer could not be loaded"

  /**
   * `addMeshOverlay` of the React listener on one slot. `fetchOk` and
   * `readOk` stand for the outcomes of the fetch and of the layer reader.
   * Returns the new slot and the error the promise rejects with, if any.
   */
  function ReactMeshOverlay(s: Slot, body: OverlayBody, t: string, fetchOk: bool, readOk: bool): (Slot, Option<string>)
  {
    if |s.meshes| == 0 then (s, None)
    else
      var mesh := s.meshes[0];
      var layers := if t == "replaceMeshOverlay" then Pop(mesh.layers) else mesh.layers;
      var popped := s.(meshes := s.meshes[0 := mesh.(layers := layers)]);
      if Falsy(body.data) && !fetchOk then (popped, Some(FetchError))
      else if !readOk then (popped, Some(ReadError))
      else
        var added := layers + [Layer(body.uri, LayerDefaults(t), None)];
        var shown := if t == "addMeshCurvature" then HideLastColorbar(added) else added;
        (s.(meshes := s.meshes[0 := mesh.(layers := shown)], isColorbar := true), None)
  }

  /**
   * Without a mesh nothing changes. With one, only the first mesh and the
   * colorbar flag can change, and the overlay fails exactly when the reader
   * fails or a data-less overlay cannot be fetched.
   */
  lemma ReactMeshOverlayFrame(s: Slot, body: OverlayBody, t: string, fetchOk: bool, readOk: bool)
    ensures var (r, err) := ReactMeshOverlay(s, body, t, fetchOk, readOk);
      && (|s.meshes| == 0 ==> r == s && err.None?)
      && (|s.meshes| > 0 ==>
            |r.meshes| == |s.meshes|
            && (forall i :: 1 <= i < |s.meshes| ==> r.meshes[i] == s.meshes[i])
            && r.volumes == s.volumes && r.body == s.body && r.isNew == s.isNew
            && (err.None? <==> readOk && (fetchOk || !Falsy(body.data))))
  {
  }

  /**
   * After a successful overlay the first mesh's layers are the old ones
   * (without the last for a replace) plus one new layer carrying the type's
   * defaults; a curvature layer hides its colorbar, no other does.
   */
  lemma ReactMeshOverlayAdds(s: Slot, body: OverlayBody, t: string)
    requires |s.meshes| > 0
    ensures var (r, err) := ReactMeshOverlay(s, body, t, true, true);
      var kept := if t == "replaceMeshOverlay" then Pop(s.meshes[0].layers) else s.meshes[0].layers;
      && err.None? && r.isColorbar
      && r.meshes[0].layers[..|kept|] == kept
      && |r.meshes[0].layers| == |kept| + 1
      && r.meshes[0].layers[|kept|] == Layer(body.uri, LayerDefaults(t), if t == "addMeshCurvature" then Some(false) else None)
  {
    var kept := if t == "replaceMeshOverlay" then Pop(s.meshes[0].layers) else s.meshes[0].layers;
    var added := kept + [Layer(body.uri, LayerDefaults(t), None)];
    assert added[..|kept|] == kept;
    if t == "addMeshCurvature" {
      assert HideLastColorbar(added)[..|kept|] == kept;
    }
  }

  /** A replace on a mesh whose layers are not empty keeps the layer count. */
  lemma ReplaceKeepsLayerCount(s: Slot, body: OverlayBody, fetchOk: bool)
    requires |s.meshes| > 0 && |s.meshes[0].layers| > 0
    ensures var (r, err) := ReactMeshOverlay(s, body, "replaceMeshOverlay", fetchOk, true);
      err.None? ==> |r.meshes[0].layers| == |s.meshes[0].layers|
  {
  }

  /**
   * `addMeshOverlay` of the listeners that drop the reader's result: the
   * layer is handed to the reader (recorded in `readRequests`) but not
   * pushed, and a curvature hides the colorbar of whatever layer is last.
   * `fetchFirst` is whether a data-less overlay is fetched first (the newer
   * of the two does this); `fetchOk` is the fetch's outcome.
   */
  function RecordedMeshOverlay(s: Slot, body: OverlayBody, opts: LayerOptions, replace: bool, curvature: bool,
                               fetchFirst: bool, fetchOk: bool): (Slot, Option<string>)
  {
    if |s.meshes| == 0 then (s, None)
    else
      var mesh := s.meshes[0];
      var layers := if replace then Pop(mesh.layers) else mesh.layers;
      if fetchFirst && Falsy(body.data) && !fetchOk then
        (s.(meshes := s.meshes[0 := mesh.(layers := layers)]), Some(FetchError))
      else
        var shown := if curvature then HideLastColorbar(layers) else layers;
        var read := mesh.readRequests + [Layer(body.uri, opts, None)];
        (s.(meshes := s.meshes[0 := mesh.(layers := shown, readRequests := read)], isColorbar := true), None)
  }

  /**
   * Dropping the reader's result means the overlay never becomes a layer:
   * the first mesh has no more layers than before, and exactly one more
   * read request, whose layer carries the given options.
   */
  lemma RecordedMeshOverlayNeverPushes(s: Slot, body: OverlayBody, opts: LayerOptions, replace: bool, curvature: bool,
                                       fetchFirst: bool, fetchOk: bool)
    requires |s.meshes| > 0
    ensures var (r, err) := RecordedMeshOverlay(s, body, opts, replace, curvature, fetchFirst, fetchOk);
      && |r.meshes| == |s.meshes|
      && |r.meshes[0].layers| <= |s.meshes[0].layers|
      && (replace && |s.meshes[0].layers| > 0 ==> |r.meshes[0].layers| == |s.meshes[0].layers| - 1)
      && (err.None? ==> r.meshes[0].readRequests == s.meshes[0].readRequests + [Layer(body.uri, opts, None)])
      && (err.Some? ==> fetchFirst && Falsy(body.data) && !fetchOk)
  {
  }
}
