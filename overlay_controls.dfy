/**
 * The colour-scale dialog and the overlay options: how a chosen layer's
 * colormap, calibration range, opacity and inversion are written. Volume
 * layers are fields the interface assigns; mesh layers change only
 * through `setMeshLayerProperty`, which is recorded as a call.
 *
 * Four variants share the rules here: the React `ScalingBox`, the Preact
 * `ScalingBox` and `OverlayOptions` helpers, and the oldest
 * `OverlayOptions` component, which always works on the last layer.
 */
module OverlayControls {
  import opened Common
  import opened Instances

  /** `isVolumeOverlay`: the instance shows volumes, so volume layers are addressed. */
  predicate IsVolumeOverlay(nv: Instance) { |nv.volumes| > 0 }

  /**
   * The colormap rule. "symmetric" shows warm above zero and winter below;
   * any other name is shown alone. The Preact versions also switch the
   * negative colormap flag, the React one leaves it as it was.
   */
  function Recolored(l: Layer, colormap: string, setsFlag: bool): (r: Layer)
    ensures colormap == "symmetric" ==> r.colormap == "warm" && r.colormapNegative == "winter"
    ensures colormap != "symmetric" ==> r.colormap == colormap && r.colormapNegative == ""
    ensures r.useNegativeCmap == if setsFlag then colormap == "symmetric" else l.useNegativeCmap
    ensures r.(colormap := l.colormap, colormapNegative := l.colormapNegative, useNegativeCmap := l.useNegativeCmap) == l
  {
    var flag := if setsFlag then colormap == "symmetric" else l.useNegativeCmap;
    if colormap == "symmetric" then l.(colormap := "warm", colormapNegative := "winter", useNegativeCmap := flag)
    else l.(colormap := colormap, colormapNegative := "", useNegativeCmap := flag)
  }

  /** `setVolumeColormap`: a missing layer is left alone; otherwise only that layer is recoloured. */
  function VolumeColormap(nv: Instance, n: int, colormap: string, setsFlag: bool): (r: Instance)
    ensures !(0 <= n < |nv.volumes|) ==> r == nv
    ensures |r.volumes| == |nv.volumes| && r.(volumes := nv.volumes) == nv
    ensures 0 <= n < |nv.volumes| ==> r.volumes[n] == Recolored(nv.volumes[n], colormap, setsFlag)
    ensures forall j :: 0 <= j < |nv.volumes| && j != n ==> r.volumes[j] == nv.volumes[j]
  {
    if 0 <= n < |nv.volumes| then nv.(volumes := nv.volumes[n := Recolored(nv.volumes[n], colormap, setsFlag)]) else nv
  }

  /** The three mesh-layer property calls of `setMeshColormap`, in order: flag, colormap, negative colormap. */
  function MeshColormapCalls(id: string, n: int, colormap: string): (r: seq<ViewerCall>)
    ensures |r| == 3 && forall k :: 0 <= k < 3 ==> r[k].SetMeshLayerProperty? && r[k].meshId == id && r[k].layer == n
    ensures r[0].value == Flag(colormap == "symmetric")
  {
    if colormap == "symmetric" then
      [SetMeshLayerProperty(id, n, "useNegativeCmap", Flag(true)),
       SetMeshLayerProperty(id, n, "colormap", Text("warm")),
       SetMeshLayerProperty(id, n, "colormapNegative", Text("winter"))]
    else
      [SetMeshLayerProperty(id, n, "useNegativeCmap", Flag(false)),
       SetMeshLayerProperty(id, n, "colormap", Text(colormap)),
       SetMeshLayerProperty(id, n, "colormapNegative", Text(""))]
  }

  /** `setMeshColormap` on the first mesh; reading `meshes[0].id` throws when there is no mesh. */
  function MeshColormap(nv: Instance, n: int, colormap: string): (r: Result<Instance>)
    ensures r.Err? <==> |nv.meshes| == 0
    ensures r.Ok? ==> r.value == nv.(calls := nv.calls + MeshColormapCalls(nv.meshes[0].id, n, colormap))
  {
    if |nv.meshes| == 0 then Err("meshes[0] is undefined")
    else Ok(nv.(calls := nv.calls + MeshColormapCalls(nv.meshes[0].id, n, colormap)))
  }

  /** `handleOverlayColormap`: the volume rule when the instance shows volumes, else the mesh calls. */
  function Colormap(nv: Instance, n: int, colormap: string, setsFlag: bool): (r: Result<Instance>)
    ensures IsVolumeOverlay(nv) ==> r == Ok(VolumeColormap(nv, n, colormap, setsFlag))
    ensures !IsVolumeOverlay(nv) ==> r == MeshColormap(nv, n, colormap)
  {
    if IsVolumeOverlay(nv) then Ok(VolumeColormap(nv, n, colormap, setsFlag)) else MeshColormap(nv, n, colormap)
  }

  /** `handleOverlayScaling`: the addressed volume's range if that volume exists, else two mesh-layer calls. */
  function Scaling(nv: Instance, n: int, min: real, max: real): (r: Result<Instance>)
    ensures r.Err? <==> !IsVolumeOverlay(nv) && |nv.meshes| == 0
    ensures IsVolumeOverlay(nv) && 0 <= n < |nv.volumes| ==>
      r.Ok? && |r.value.volumes| == |nv.volumes| && r.value.(volumes := nv.volumes) == nv
      && r.value.volumes[n] == nv.volumes[n].(calMin := min, calMax := max)
      && forall j :: 0 <= j < |nv.volumes| && j != n ==> r.value.volumes[j] == nv.volumes[j]
    ensures IsVolumeOverlay(nv) && !(0 <= n < |nv.volumes|) ==> r == Ok(nv)
    ensures !IsVolumeOverlay(nv) && r.Ok? ==> r.value == nv.(calls := nv.calls +
      [SetMeshLayerProperty(nv.meshes[0].id, n, "cal_min", Number(min)),
       SetMeshLayerProperty(nv.meshes[0].id, n, "cal_max", Number(max))])
  {
    if IsVolumeOverlay(nv) then
      if 0 <= n < |nv.volumes| then Ok(nv.(volumes := nv.volumes[n := nv.volumes[n].(calMin := min, calMax := max)]))
      else Ok(nv)
    else if |nv.meshes| == 0 then Err("meshes[0] is undefined")
    else Ok(nv.(calls := nv.calls +
      [SetMeshLayerProperty(nv.meshes[0].id, n, "cal_min", Number(min)),
       SetMeshLayerProperty(nv.meshes[0].id, n, "cal_max", Number(max))]))
  }

  /**
   * `handleOpacity`: the volume path asks the viewer for `setOpacity`,
   * only for an existing layer when `checksLayer` (both ScalingBox
   * versions) and for any number otherwise (the Preact OverlayOptions).
   */
  function Opacity(nv: Instance, n: int, opacity: real, checksLayer: bool): (r: Result<Instance>)
    ensures r.Err? <==> !IsVolumeOverlay(nv) && |nv.meshes| == 0
    ensures r.Ok? ==> r.value.(calls := nv.calls) == nv
    ensures IsVolumeOverlay(nv) ==>
      r.value.calls == nv.calls + (if !checksLayer || 0 <= n < |nv.volumes| then [SetOpacity(n, opacity)] else [])
    ensures !IsVolumeOverlay(nv) && r.Ok? ==>
      r.value.calls == nv.calls + [SetMeshLayerProperty(nv.meshes[0].id, n, "opacity", Number(opacity))]
  {
    if IsVolumeOverlay(nv) then
      if !checksLayer || 0 <= n < |nv.volumes| then Ok(nv.(calls := nv.calls + [SetOpacity(n, opacity)])) else Ok(nv)
    else if |nv.meshes| == 0 then Err("meshes[0] is undefined")
    else Ok(nv.(calls := nv.calls + [SetMeshLayerProperty(nv.meshes[0].id, n, "opacity", Number(opacity))]))
  }

  /** `handleOverlayInvert` (React only): the volume layer's flag, or 1/0 on the mesh layer. */
  function Invert(nv: Instance, n: int, invert: bool): (r: Result<Instance>)
    ensures r.Err? <==> !IsVolumeOverlay(nv) && |nv.meshes| == 0
    ensures IsVolumeOverlay(nv) ==> (r.Ok? && r.value.(volumes := nv.volumes) == nv && |r.value.volumes| == |nv.volumes|
      && forall j :: 0 <= j < |nv.volumes| ==>
           r.value.volumes[j] == if j == n then nv.volumes[j].(colormapInvert := invert) else nv.volumes[j])
    ensures !IsVolumeOverlay(nv) && r.Ok? ==> r.value == nv.(calls := nv.calls +
      [SetMeshLayerProperty(nv.meshes[0].id, n, "colormapInvert", Number(if invert then 1.0 else 0.0))])
  {
    if IsVolumeOverlay(nv) then
      if 0 <= n < |nv.volumes| then Ok(nv.(volumes := nv.volumes[n := nv.volumes[n].(colormapInvert := invert)]))
      else Ok(nv)
    else if |nv.meshes| == 0 then Err("meshes[0] is undefined")
    else Ok(nv.(calls := nv.calls +
      [SetMeshLayerProperty(nv.meshes[0].id, n, "colormapInvert", Number(if invert then 1.0 else 0.0))]))
  }

  /** React `getOverlay`: the addressed volume, or the addressed layer of the first mesh. */
  function SelectedOverlay(nv: Instance, n: int): (r: Result<Option<Layer>>)
    ensures IsVolumeOverlay(nv) ==> r == Ok(LayerAt(nv.volumes, n))
    ensures !IsVolumeOverlay(nv) ==> (r.Err? <==> |nv.meshes| == 0)
    ensures !IsVolumeOverlay(nv) && r.Ok? ==> r.value == LayerAt(nv.meshes[0].layers, n)
  {
    if IsVolumeOverlay(nv) then Ok(LayerAt(nv.volumes, n))
    else if |nv.meshes| == 0 then Err("meshes[0] is undefined")
    else Ok(LayerAt(nv.meshes[0].layers, n))
  }

  /** Preact `getOverlay`: always the last layer, whatever number is selected. */
  function LastOverlay(nv: Instance): (r: Result<Option<Layer>>)
    ensures IsVolumeOverlay(nv) ==> r == Ok(Some(nv.volumes[|nv.volumes| - 1]))
    ensures !IsVolumeOverlay(nv) ==> (r.Err? <==> |nv.meshes| == 0)
    ensures !IsVolumeOverlay(nv) && r.Ok? ==> r.value == LayerAt(nv.meshes[0].layers, |nv.meshes[0].layers| - 1)
  {
    if IsVolumeOverlay(nv) then Ok(Some(nv.volumes[|nv.volumes| - 1]))
    else if |nv.meshes| == 0 then Err("meshes[0] is undefined")
    else Ok(LayerAt(nv.meshes[0].layers, |nv.meshes[0].layers| - 1))
  }

  /** The five mesh colormaps the React dialog offers. */
  const ReactMeshColormaps: seq<string> := ["ge_color", "gray", "hsv", "symmetric", "warm"]

  /** The four mesh colormaps the Preact dialog and `getColormaps` offer. */
  const PreactMeshColormaps: seq<string> := ["ge_color", "hsv", "symmetric", "warm"]

  /** The colormap choices: "symmetric" before the viewer's own list for volumes, the fixed mesh list otherwise. */
  function Colormaps(nv: Instance, viewerColormaps: seq<string>, meshColormaps: seq<string>): (r: seq<string>)
    ensures IsVolumeOverlay(nv) ==> |r| == |viewerColormaps| + 1 && r[0] == "symmetric" && r[1..] == viewerColormaps
    ensures !IsVolumeOverlay(nv) ==> r == meshColormaps
  {
    if IsVolumeOverlay(nv) then ["symmetric"] + viewerColormaps else meshColormaps
  }

  /** The two mesh lists differ only by "gray", and both offer "symmetric". */
  lemma MeshColormapLists()
    ensures ReactMeshColormaps == PreactMeshColormaps[..1] + ["gray"] + PreactMeshColormaps[1..]
    ensures "symmetric" in ReactMeshColormaps && "symmetric" in PreactMeshColormaps
    ensures |ReactMeshColormaps| == 5 && |PreactMeshColormaps| == 4
  {
  }

  // ---- what the recorded mesh calls do ----

  /**
   * The effect of one `setMeshLayerProperty` call on the addressed layer:
   * the named property takes the value. A key or value kind not listed
   * leaves the layer alone.
   */
  function ApplyProperty(l: Layer, key: string, value: PropValue): (r: Layer)
    ensures r.id == l.id && r.name == l.name && r.frame4D == l.frame4D && r.nFrame4D == l.nFrame4D
    ensures r.globalMin == l.globalMin && r.globalMax == l.globalMax
    ensures key !in {"useNegativeCmap", "colormap", "colormapNegative", "cal_min", "cal_max", "opacity", "colormapInvert"} ==> r == l
  {
    match value
      case Flag(b) => if key == "useNegativeCmap" then l.(useNegativeCmap := b) else l
      case Text(s) =>
        if key == "colormap" then l.(colormap := s)
        else if key == "colormapNegative" then l.(colormapNegative := s)
        else l
      case Number(x) =>
        if key == "cal_min" then l.(calMin := x)
        else if key == "cal_max" then l.(calMax := x)
        else if key == "opacity" then l.(opacity := x)
        else if key == "colormapInvert" then l.(colormapInvert := x != 0.0)
        else l
  }

  /** A layer after a sequence of property calls addressed to it, applied in order. */
  function Replay(l: Layer, calls: seq<ViewerCall>): Layer
    decreases |calls|
  {
    if |calls| == 0 then l
    else if calls[0].SetMeshLayerProperty? then Replay(ApplyProperty(l, calls[0].key, calls[0].value), calls[1..])
    else Replay(l, calls[1..])
  }

  /**
   * The mesh path and the Preact volume path agree: replaying the three
   * colormap calls on a layer recolours it exactly as the volume rule with
   * the flag does.
   */
  lemma {:induction false} MeshCallsRecolor(l: Layer, id: string, n: int, colormap: string)
    ensures Replay(l, MeshColormapCalls(id, n, colormap)) == Recolored(l, colormap, true)
  {
    var calls := MeshColormapCalls(id, n, colormap);
    var l1 := ApplyProperty(l, calls[0].key, calls[0].value);
    var l2 := ApplyProperty(l1, calls[1].key, calls[1].value);
    var l3 := ApplyProperty(l2, calls[2].key, calls[2].value);
    assert l1 == l.(useNegativeCmap := colormap == "symmetric");
    assert Replay(l, calls) == Replay(l1, calls[1..]);
    assert calls[1..][1..] == calls[2..];
    assert Replay(l1, calls[1..]) == Replay(l2, calls[2..]);
    assert calls[2..][1..] == [];
    assert Replay(l2, calls[2..]) == l3;
  }

  /** Replaying the two scaling calls sets exactly the mesh layer's range, as the volume path does. */
  lemma {:induction false} MeshCallsScale(l: Layer, id: string, n: int, min: real, max: real)
    ensures Replay(l, [SetMeshLayerProperty(id, n, "cal_min", Number(min)),
                       SetMeshLayerProperty(id, n, "cal_max", Number(max))]) == l.(calMin := min, calMax := max)
  {
    var calls := [SetMeshLayerProperty(id, n, "cal_min", Number(min)), SetMeshLayerProperty(id, n, "cal_max", Number(max))];
    var l1 := ApplyProperty(l, calls[0].key, calls[0].value);
    var l2 := ApplyProperty(l1, calls[1].key, calls[1].value);
    assert l1 == l.(calMin := min);
    assert Replay(l, calls) == Replay(l1, calls[1..]);
    assert calls[1..][1..] == [];
    assert Replay(l1, calls[1..]) == l2;
  }

  /**
   * The React and Preact colormap rules differ only in the negative
   * colormap flag, and applying a rule twice is the same as once.
   */
  lemma FlagIsTheOnlyDifference(nv: Instance, n: int, colormap: string)
    requires 0 <= n < |nv.volumes|
    ensures VolumeColormap(nv, n, colormap, true).volumes[n]
         == VolumeColormap(nv, n, colormap, false).volumes[n].(useNegativeCmap := colormap == "symmetric")
    ensures Recolored(Recolored(nv.volumes[n], colormap, true), colormap, true) == Recolored(nv.volumes[n], colormap, true)
  {
  }

  // ---- the oldest OverlayOptions component ----

  /** The component renders controls only with an overlay volume or a layer on the first mesh. */
  predicate OptionsShown(nv: Instance)
    ensures |nv.volumes| > 1 ==> OptionsShown(nv)
    ensures |nv.volumes| <= 1 && (nv.meshes == [] || nv.meshes[0].layers == []) ==> !OptionsShown(nv)
  {
    |nv.volumes| > 1 || (|nv.meshes| > 0 && |nv.meshes[0].layers| > 0)
  }

  /**
   * `setOverlayScaling` on the last layer; None where the component renders
   * nothing and so offers no control. Volumes win when both apply.
   */
  function LastLayerScaling(nv: Instance, min: real, max: real): (r: Option<Instance>)
    ensures r.None? <==> !OptionsShown(nv)
    ensures |nv.volumes| > 1 ==> var last := |nv.volumes| - 1;
      r.Some? && r.value.(volumes := nv.volumes) == nv && |r.value.volumes| == |nv.volumes|
      && r.value.volumes[last] == nv.volumes[last].(calMin := min, calMax := max)
      && r.value.volumes[..last] == nv.volumes[..last]
    ensures |nv.volumes| <= 1 && r.Some? ==> var last := |nv.meshes[0].layers| - 1;
      r.value == nv.(calls := nv.calls + [SetMeshLayerProperty(nv.meshes[0].id, last, "cal_min", Number(min)),
                                          SetMeshLayerProperty(nv.meshes[0].id, last, "cal_max", Number(max))])
  {
    if !OptionsShown(nv) then None
    else if |nv.volumes| > 1 then
      var last := |nv.volumes| - 1;
      Some(nv.(volumes := nv.volumes[last := nv.volumes[last].(calMin := min, calMax := max)]))
    else
      var last := |nv.meshes[0].layers| - 1;
      Some(nv.(calls := nv.calls + [SetMeshLayerProperty(nv.meshes[0].id, last, "cal_min", Number(min)),
                                    SetMeshLayerProperty(nv.meshes[0].id, last, "cal_max", Number(max))]))
  }

  /** `setOverlayColormap` on the last layer, with the flag-setting rule. */
  function LastLayerColormap(nv: Instance, colormap: string): (r: Option<Instance>)
    ensures r.None? <==> !OptionsShown(nv)
    ensures |nv.volumes| > 1 ==> r == Some(VolumeColormap(nv, |nv.volumes| - 1, colormap, true))
    ensures |nv.volumes| <= 1 && r.Some? ==>
      r.value == nv.(calls := nv.calls + MeshColormapCalls(nv.meshes[0].id, |nv.meshes[0].layers| - 1, colormap))
  {
    if !OptionsShown(nv) then None
    else if |nv.volumes| > 1 then Some(VolumeColormap(nv, |nv.volumes| - 1, colormap, true))
    else Some(nv.(calls := nv.calls + MeshColormapCalls(nv.meshes[0].id, |nv.meshes[0].layers| - 1, colormap)))
  }

  /**
   * With a single volume the oldest component shows nothing, although the
   * newer dialogs address that volume: the oldest rule needs an overlay on
   * top of a base image.
   */
  lemma SingleVolumeHasNoOptions(nv: Instance, min: real, max: real)
    requires |nv.volumes| == 1 && |nv.meshes| == 0
    ensures LastLayerScaling(nv, min, max).None?
    ensures Scaling(nv, 0, min, max) == Ok(nv.(volumes := [nv.volumes[0].(calMin := min, calMax := max)]))
  {
    assert nv.volumes[0 := nv.volumes[0].(calMin := min, calMax := max)] == [nv.volumes[0].(calMin := min, calMax := max)];
  }

  // ---- the dialog: each change applied to every selected instance ----

  function ScalingOf(n: int, min: real, max: real): Instance -> Result<Instance>
  {
    nv => Scaling(nv, n, min, max)
  }

  function ColormapOf(n: int, colormap: string, setsFlag: bool): Instance -> Result<Instance>
  {
    nv => Colormap(nv, n, colormap, setsFlag)
  }

  function OpacityOf(n: int, opacity: real, checksLayer: bool): Instance -> Result<Instance>
  {
    nv => Opacity(nv, n, opacity, checksLayer)
  }

  function InvertOf(n: int, invert: bool): Instance -> Result<Instance>
  {
    nv => Invert(nv, n, invert)
  }

  /** How far `forEach` gets: the first instance whose handler throws, or all of them. */
  function Reached(s: seq<Instance>, f: Instance -> Result<Instance>): (r: nat)
    ensures r <= |s|
    ensures forall i :: 0 <= i < r ==> f(s[i]).Ok?
    ensures r < |s| ==> f(s[r]).Err?
  {
    if |s| == 0 then 0 else if f(s[0]).Err? then 0 else 1 + Reached(s[1..], f)
  }

  /**
   * The dialog's state: the selected instances it was given, the overlay
   * number chosen and whether the dialog is open (`overlayMenu`).
   */
  class ScalingDialog {
    var selected: seq<Instance>
    var overlayNumber: int
    var open: bool

    constructor (selected: seq<Instance>, overlayNumber: int)
      ensures this.selected == selected && this.overlayNumber == overlayNumber && open
    {
      this.selected := selected;
      this.overlayNumber := overlayNumber;
      open := true;
    }

    /**
     * `forEach` over the selected instances: each handled in order until
     * one throws; the ones before it keep their change, the rest are untouched.
     */
    method ForEachSelected(f: Instance -> Result<Instance>) returns (threw: bool)
      modifies this
      ensures overlayNumber == old(overlayNumber) && open == old(open)
      ensures |selected| == |old(selected)|
      ensures threw <==> Reached(old(selected), f) < |old(selected)|
      ensures forall i :: 0 <= i < Reached(old(selected), f) ==> selected[i] == f(old(selected)[i]).value
      ensures forall i :: Reached(old(selected), f) <= i < |selected| ==> selected[i] == old(selected)[i]
    {
      ghost var before := selected;
      var i := 0;
      threw := false;
      while i < |selected|
        invariant |selected| == |before| && i <= Reached(before, f)
        invariant overlayNumber == old(overlayNumber) && open == old(open)
        invariant forall j :: 0 <= j < i ==> selected[j] == f(before[j]).value
        invariant forall j :: i <= j < |selected| ==> selected[j] == before[j]
        invariant !threw
      {
        var r := f(selected[i]);
        if r.Err? {
          threw := true;
          return;
        }
        selected := selected[i := r.value];
        i := i + 1;
      }
    }

    /** `setScaling`: the new range on the chosen layer of every selected instance. */
    method SetScaling(min: real, max: real) returns (threw: bool)
      modifies this
      ensures overlayNumber == old(overlayNumber) && open == old(open) && |selected| == |old(selected)|
      ensures var f := ScalingOf(overlayNumber, min, max);
        && (threw <==> Reached(old(selected), f) < |old(selected)|)
        && (forall i :: 0 <= i < Reached(old(selected), f) ==> selected[i] == f(old(selected)[i]).value)
        && (forall i :: Reached(old(selected), f) <= i < |selected| ==> selected[i] == old(selected)[i])
    {
      threw := ForEachSelected(ScalingOf(overlayNumber, min, max));
    }

    /** `changeColormap`. */
    method ChangeColormap(colormap: string, setsFlag: bool) returns (threw: bool)
      modifies this
      ensures overlayNumber == old(overlayNumber) && open == old(open) && |selected| == |old(selected)|
      ensures var f := ColormapOf(overlayNumber, colormap, setsFlag);
        && (threw <==> Reached(old(selected), f) < |old(selected)|)
        && (forall i :: 0 <= i < Reached(old(selected), f) ==> selected[i] == f(old(selected)[i]).value)
        && (forall i :: Reached(old(selected), f) <= i < |selected| ==> selected[i] == old(selected)[i])
    {
      threw := ForEachSelected(ColormapOf(overlayNumber, colormap, setsFlag));
    }

    /** `changeOpacity`; both dialogs check that the volume layer exists. */
    method ChangeOpacity(opacity: real) returns (threw: bool)
      modifies this
      ensures overlayNumber == old(overlayNumber) && open == old(open) && |selected| == |old(selected)|
      ensures var f := OpacityOf(overlayNumber, opacity, true);
        && (threw <==> Reached(old(selected), f) < |old(selected)|)
        && (forall i :: 0 <= i < Reached(old(selected), f) ==> selected[i] == f(old(selected)[i]).value)
        && (forall i :: Reached(old(selected), f) <= i < |selected| ==> selected[i] == old(selected)[i])
    {
      threw := ForEachSelected(OpacityOf(overlayNumber, opacity, true));
    }

    /**
     * React `changeInverted`: the new flag is the negation of the first
     * selected instance's chosen layer, then applied to every selected
     * instance. Reading the flag of a missing layer throws before any change.
     */
    method ChangeInverted() returns (threw: bool)
      modifies this
      ensures overlayNumber == old(overlayNumber) && open == old(open) && |selected| == |old(selected)|
      ensures |old(selected)| == 0 ==> threw && selected == old(selected)
      ensures |old(selected)| > 0 ==>
        var shown := SelectedOverlay(old(selected)[0], overlayNumber);
        if shown.Err? || shown.value.None? then threw && selected == old(selected)
        else
          var f := InvertOf(overlayNumber, !shown.value.value.colormapInvert);
          && (threw <==> Reached(old(selected), f) < |old(selected)|)
          && (forall i :: 0 <= i < Reached(old(selected), f) ==> selected[i] == f(old(selected)[i]).value)
          && (forall i :: Reached(old(selected), f) <= i < |selected| ==> selected[i] == old(selected)[i])
    {
      if |selected| == 0 {
        return true;
      }
      var shown := SelectedOverlay(selected[0], overlayNumber);
      if shown.Err? || shown.value.None? {
        return true;
      }
      threw := ForEachSelected(InvertOf(overlayNumber, !shown.value.value.colormapInvert));
    }

    /** The Escape key closes the dialog only when it is open; other keys change nothing. */
    method KeyDown(key: string)
      modifies this
      ensures open == (old(open) && key != "Escape")
      ensures selected == old(selected) && overlayNumber == old(overlayNumber)
    {
      if key == "Escape" && open {
        open := false;
      }
    }
  }

  /** Inverting a volume layer twice restores its flag, and the mesh path records 1 or 0. */
  lemma InvertTwice(nv: Instance, n: int, b: bool)
    requires 0 <= n < |nv.volumes|
    ensures Invert(Invert(nv, n, b).value, n, !b).value.volumes[n] == nv.volumes[n].(colormapInvert := !b)
    ensures Invert(Invert(nv, n, b).value, n, nv.volumes[n].colormapInvert).value == nv
  {
    var once := Invert(nv, n, b).value;
    assert once.volumes == nv.volumes[n := nv.volumes[n].(colormapInvert := b)];
    assert Invert(once, n, nv.volumes[n].colormapInvert).value.volumes == nv.volumes;
  }
}
