/**
 * The React menu bar's state logic (`Menu`): the selection mode and its
 * repair, which instances the menu acts on, the target of "add overlay",
 * the overlay count, and applying, saving and deleting view presets.
 */
module Menu {
  import opened Common
  import opened Instances
  import opened AppState
  import opened Presets

  /** `applySelectionModeChange`: inactive is NONE, else MULTIPLE or SINGLE. */
  function ModeFor(active: bool, multiple: bool): (r: SelectionMode)
    ensures r == NoSelection <==> !active
    ensures r == MultipleSelection <==> active && multiple
    ensures r == SingleSelection <==> active && !multiple
  {
    if !active then NoSelection else if multiple then MultipleSelection else SingleSelection
  }

  /** `nvArray.map((_, i) => i)`. */
  function AllIndices(n: nat): (r: seq<int>)
    ensures |r| == n && forall i :: 0 <= i < n ==> r[i] == i
  {
    Range(0, n)
  }

  /**
   * `ensureValidSelection`: with no instances nothing changes; SINGLE
   * without exactly one selected selects the first; MULTIPLE or NONE with
   * nothing selected selects all.
   */
  function ValidSelection(selection: seq<int>, n: nat, mode: SelectionMode): (r: seq<int>)
    ensures n == 0 ==> r == selection
    ensures n > 0 && mode == SingleSelection ==> |r| == 1 && (|selection| == 1 ==> r == selection) && (|selection| != 1 ==> r == [0])
    ensures n > 0 && mode != SingleSelection ==> |r| > 0 && (|selection| > 0 ==> r == selection)
    ensures n > 0 && mode != SingleSelection && |selection| == 0 ==> r == AllIndices(n)
  {
    if n == 0 then selection
    else if mode == SingleSelection && |selection| != 1 then [0]
    else if mode != SingleSelection && |selection| == 0 then AllIndices(n)
    else selection
  }

  /** Repair is idempotent: a repaired selection needs no further repair. */
  lemma ValidSelectionStable(selection: seq<int>, n: nat, mode: SelectionMode)
    ensures ValidSelection(ValidSelection(selection, n, mode), n, mode) == ValidSelection(selection, n, mode)
  {
  }

  /**
   * The indices of `nvArraySelected`: those in the selection, in array
   * order, when a mode is set and something is selected; else all.
   */
  function SelectedIndices(n: nat, selection: seq<int>, mode: SelectionMode): (r: seq<nat>)
    ensures forall k :: 0 <= k < |r| ==> r[k] < n
    ensures forall i :: 0 <= i < n ==> (i in r <==> (mode == NoSelection || |selection| == 0 || i in selection))
    ensures forall j, k :: 0 <= j < k < |r| ==> r[j] < r[k]
  {
    Chosen(0, n, if mode != NoSelection && |selection| > 0 then Some(selection) else None)
  }

  /** The indices from `start` to `n - 1` that are in `filter`, or all of them without a filter. */
  function Chosen(start: nat, n: nat, filter: Option<seq<int>>): (r: seq<nat>)
    ensures forall k :: 0 <= k < |r| ==> start <= r[k] < n
    ensures forall i :: start <= i < n ==> (i in r <==> (filter.None? || i in filter.value))
    ensures forall j, k :: 0 <= j < k < |r| ==> r[j] < r[k]
    decreases n - start
  {
    if start >= n then []
    else (if filter.None? || start in filter.value then [start] else []) + Chosen(start + 1, n, filter)
  }

  /** The selected instances themselves. */
  function Selected(nvArray: seq<Instance>, selection: seq<int>, mode: SelectionMode): (r: seq<Instance>)
    ensures var idx := SelectedIndices(|nvArray|, selection, mode);
      |r| == |idx| && forall k :: 0 <= k < |r| ==> r[k] == nvArray[idx[k]]
  {
    var idx := SelectedIndices(|nvArray|, selection, mode);
    seq(|idx|, k requires 0 <= k < |idx| => nvArray[idx[k]])
  }

  /**
   * A selection that names no existing instance selects nothing, so the
   * menu then acts on no instance at all rather than on every one.
   */
  lemma StaleSelectionSelectsNothing(n: nat, selection: seq<int>, mode: SelectionMode)
    requires mode != NoSelection && |selection| > 0
    requires forall i :: i in selection ==> i < 0 || i >= n
    ensures forall i :: i !in SelectedIndices(n, selection, mode)
  {
  }

  /**
   * `getTargetIndex`: the last instance when no mode is set or nothing is
   * selected, else the last selected index (-1 with no instances).
   */
  function TargetIndex(n: nat, selection: seq<int>, mode: SelectionMode): (r: int)
    ensures (mode == NoSelection || |selection| == 0) ==> r == n - 1
    ensures mode != NoSelection && |selection| > 0 ==> r == selection[|selection| - 1] && r in selection
  {
    if mode == NoSelection || |selection| == 0 then n - 1 else selection[|selection| - 1]
  }

  /**
   * `nOverlays` for the first selected instance: its volumes beyond the
   * first, else the first mesh's layers, else 0.
   */
  function NOverlays(first: Option<Instance>): (r: int)
    ensures first.None? ==> r == 0
    ensures first.Some? && |first.value.volumes| > 0 ==> r == |first.value.volumes| - 1 && r >= 0
    ensures first.Some? && |first.value.volumes| == 0 && |first.value.meshes| > 0 ==> r == |first.value.meshes[0].layers|
    ensures first.Some? && |first.value.volumes| == 0 && |first.value.meshes| == 0 ==> r == 0
  {
    if first.None? then 0
    else if |first.value.volumes| > 0 then |first.value.volumes| - 1
    else if |first.value.meshes| > 0 then |first.value.meshes[0].layers|
    else 0
  }

  /** `isVolume`: the first selected instance has a volume. */
  predicate HasVolumes(first: Option<Instance>)
  {
    first.Some? && |first.value.volumes| > 0
  }

  /** `isMesh`: the first selected instance has a mesh. */
  predicate HasMeshes(first: Option<Instance>)
  {
    first.Some? && |first.value.meshes| > 0
  }

  /**
   * `openColorScale(k)`: the overlay the colour-scale dialog opens on for
   * the menu entry numbered `k` ("Volume" is 0, "Overlay i" is i). Mesh
   * layers are numbered from 0, so a mesh's entry k opens layer k - 1.
   */
  function ColorScaleOverlay(k: int, first: Option<Instance>): (r: int)
    ensures HasVolumes(first) ==> r == k
    ensures !HasVolumes(first) && HasMeshes(first) ==> r == k - 1
    ensures !HasVolumes(first) && !HasMeshes(first) ==> r == 0
  {
    if HasVolumes(first) then k else if HasMeshes(first) then k - 1 else 0
  }

  /** `openColorScaleLastOverlay`: the overlay the "ColorScale" item itself opens on. */
  function LastColorScaleOverlay(first: Option<Instance>): (r: int)
    ensures r == NOverlays(first) - (if HasMeshes(first) then 1 else 0)
  {
    NOverlays(first) - (if HasMeshes(first) then 1 else 0)
  }

  /**
   * The entries reach every layer: with volumes, entry k opens volume k
   * for k from 0 to the overlay count; with a mesh alone, "Overlay k"
   * opens layer k - 1 of the first mesh. The "ColorScale" item opens the
   * same overlay as the last entry when the instance has volumes or meshes
   * but not both; with both it opens the one before it.
   */
  lemma ColorScaleEntries(first: Option<Instance>)
    ensures HasVolumes(first) ==> forall k :: 0 <= k <= NOverlays(first) ==>
      ColorScaleOverlay(k, first) == k && k < |first.value.volumes|
    ensures !HasVolumes(first) && HasMeshes(first) ==> forall k :: 1 <= k <= NOverlays(first) ==>
      0 <= ColorScaleOverlay(k, first) < |first.value.meshes[0].layers|
    ensures HasVolumes(first) != HasMeshes(first) ==>
      LastColorScaleOverlay(first) == ColorScaleOverlay(NOverlays(first), first)
    ensures HasVolumes(first) && HasMeshes(first) ==>
      LastColorScaleOverlay(first) == ColorScaleOverlay(NOverlays(first), first) - 1
  {
  }

  // ---- applying a preset to one instance ----

  /** A JavaScript string option is truthy when present and non-empty. */
  predicate Truthy(s: Option<string>)
  {
    s.Some? && |s.value| > 0
  }

  /** The colormap defaults: the first volume takes the volume colormap, the second the overlay colormap. */
  function ColormapDefaults(vols: seq<Layer>, s: SettingsPatch): (r: seq<Layer>)
    ensures |r| == |vols|
    ensures forall i :: 0 <= i < |vols| ==> r[i] == vols[i].(colormap := r[i].colormap)
    ensures |vols| > 0 ==> r[0].colormap == (if Truthy(s.defaultVolumeColormap) then s.defaultVolumeColormap.value else vols[0].colormap)
    ensures |vols| > 1 ==> r[1].colormap == (if Truthy(s.defaultOverlayColormap) then s.defaultOverlayColormap.value else vols[1].colormap)
    ensures forall i :: 2 <= i < |vols| ==> r[i] == vols[i]
  {
    var a := if |vols| > 0 && Truthy(s.defaultVolumeColormap) then vols[0 := vols[0].(colormap := s.defaultVolumeColormap.value)] else vols;
    if |a| > 1 && Truthy(s.defaultOverlayColormap) then a[1 := a[1].(colormap := s.defaultOverlayColormap.value)] else a
  }

  /** The graph options: set only when the preset names automatic sizing or forced rendering. */
  function GraphDefaults(g: GraphOptions, v: Option<ViewOptions>): (r: GraphOptions)
    ensures v.None? || (v.value.autoSizeMultiplanar.None? && v.value.multiplanarForceRender.None?) ==> r == g
    ensures v.Some? && v.value.autoSizeMultiplanar.Some? ==> r.autoSizeMultiplanar == v.value.autoSizeMultiplanar.value
  {
    if v.None? || (v.value.autoSizeMultiplanar.None? && v.value.multiplanarForceRender.None?) then g
    else
      var o := v.value;
      GraphOptions(
        if o.autoSizeMultiplanar.Some? then o.autoSizeMultiplanar.value else g.autoSizeMultiplanar,
        if o.multiplanarForceRender.Some? then o.multiplanarForceRender.value else g.multiplanarForceRender,
        if o.normalizeValues.Some? then o.normalizeValues.value else g.normalizeValues,
        if o.graphOpacity.Some? then o.graphOpacity.value else g.opacity)
  }

  /**
   * A preset that gives graph values but neither automatic sizing nor
   * forced rendering leaves the graph alone: normalisation and opacity
   * are applied only together with one of those two.
   */
  lemma GraphValuesNeedSizing(g: GraphOptions, normalize: bool, opacity: real)
    ensures GraphDefaults(g, Some(ViewOptions(None, None, None, None, Some(normalize), Some(opacity)))) == g
    ensures GraphDefaults(g, Some(ViewOptions(None, None, Some(g.autoSizeMultiplanar), None, Some(normalize), Some(opacity))))
      == g.(normalizeValues := normalize, opacity := opacity)
  {
  }

  /**
   * The overlay defaults on one volume: a display range end is replaced
   * only where it still equals the data's extreme or 0, so a range the
   * user set survives; the colormap (when non-empty) and opacity are replaced.
   */
  function OverlayDefaultsOn(v: Layer, d: OverlayDefaults): (r: Layer)
    ensures r == v.(calMin := r.calMin, calMax := r.calMax, colormap := r.colormap, opacity := r.opacity)
    ensures r.calMin == (if d.calMin.Some? && (v.calMin == v.globalMin || v.calMin == 0.0) then d.calMin.value else v.calMin)
    ensures r.calMax == (if d.calMax.Some? && (v.calMax == v.globalMax || v.calMax == 0.0) then d.calMax.value else v.calMax)
    ensures r.colormap == (if Truthy(d.colormap) then d.colormap.value else v.colormap)
    ensures r.opacity == (if d.opacity.Some? then d.opacity.value else v.opacity)
  {
    var minSet := d.calMin.Some? && (v.calMin == v.globalMin || v.calMin == 0.0);
    var maxSet := d.calMax.Some? && (v.calMax == v.globalMax || v.calMax == 0.0);
    v.(calMin := if minSet then d.calMin.value else v.calMin,
       calMax := if maxSet then d.calMax.value else v.calMax,
       colormap := if Truthy(d.colormap) then d.colormap.value else v.colormap,
       opacity := if d.opacity.Some? then d.opacity.value else v.opacity)
  }

  /** What `applyPreset` does to one selected instance, in the source's order. */
  function PresetOn(nv: Instance, p: ViewPreset): (r: Instance)
    ensures r.isLoaded == nv.isLoaded && r.meshes == nv.meshes && r.calls == nv.calls
    ensures |r.volumes| == |nv.volumes|
    ensures forall i :: 0 <= i < |nv.volumes| ==>
      r.volumes[i].(colormap := nv.volumes[i].colormap, calMin := nv.volumes[i].calMin,
                    calMax := nv.volumes[i].calMax, opacity := nv.volumes[i].opacity) == nv.volumes[i]
  {
    var vols := ColormapDefaults(nv.volumes, p.settings);
    var vols' := if p.overlayDefaults.Some? then seq(|vols|, i requires 0 <= i < |vols| => OverlayDefaultsOn(vols[i], p.overlayDefaults.value)) else vols;
    nv.(volumes := vols', graph := GraphDefaults(nv.graph, p.viewOptions))
  }

  /** Applying a preset a second time changes nothing more. */
  lemma PresetOnTwice(nv: Instance, p: ViewPreset)
    ensures PresetOn(PresetOn(nv, p), p) == PresetOn(nv, p)
  {
    var once := PresetOn(nv, p);
    var twice := PresetOn(once, p);
    var first := ColormapDefaults(nv.volumes, p.settings);
    var again := ColormapDefaults(once.volumes, p.settings);
    if p.overlayDefaults.Some? {
      var d := p.overlayDefaults.value;
      forall i | 0 <= i < |once.volumes|
        ensures twice.volumes[i] == once.volumes[i]
      {
        assert once.volumes[i] == OverlayDefaultsOn(first[i], d);
        OverlayAgain(first[i], again[i].colormap, d);
      }
    } else {
      ColormapDefaultsTwice(nv.volumes, p.settings);
    }
    assert twice.volumes == once.volumes;
  }

  /** The colormap defaults are idempotent. */
  lemma ColormapDefaultsTwice(vols: seq<Layer>, s: SettingsPatch)
    ensures ColormapDefaults(ColormapDefaults(vols, s), s) == ColormapDefaults(vols, s)
  {
    var once := ColormapDefaults(vols, s);
    var twice := ColormapDefaults(once, s);
    assert forall i :: 0 <= i < |once| ==> twice[i] == once[i];
  }

  /**
   * The overlay defaults applied again to their own result, whose colormap
   * may since have been set to `c`, give that result back when the
   * defaults name a colormap or `c` is the one they left.
   */
  lemma OverlayAgain(v: Layer, c: string, d: OverlayDefaults)
    requires Truthy(d.colormap) || c == OverlayDefaultsOn(v, d).colormap
    ensures OverlayDefaultsOn(OverlayDefaultsOn(v, d).(colormap := c), d) == OverlayDefaultsOn(v, d)
  {
  }

  /**
   * The phase preset scales a volume still showing its full data range to
   * -pi..pi, leaves a user-set range alone, and colours the first volume hsv.
   */
  lemma PhasePresetRange(nv: Instance)
    requires |nv.volumes| > 0
    ensures var v := nv.volumes[0];
      var r := PresetOn(nv, Phase).volumes[0];
      && r.colormap == "hsv"
      && (v.calMin == v.globalMin ==> r.calMin == -MathPi)
      && (v.calMin != v.globalMin && v.calMin != 0.0 ==> r.calMin == v.calMin)
      && (v.calMax == v.globalMax ==> r.calMax == MathPi)
  {
  }

  /** The `forEach` over the selected instances: each index in `idx` is changed by the preset. */
  method PresetOnEach(a: seq<Instance>, idx: seq<nat>, p: ViewPreset) returns (b: seq<Instance>)
    requires forall k :: 0 <= k < |idx| ==> idx[k] < |a|
    requires forall j, k :: 0 <= j < k < |idx| ==> idx[j] < idx[k]
    ensures |b| == |a|
    ensures forall i :: 0 <= i < |a| ==> b[i] == if i in idx then PresetOn(a[i], p) else a[i]
  {
    b := a;
    var k := 0;
    while k < |idx|
      invariant 0 <= k <= |idx|
      invariant |b| == |a|
      invariant forall i :: 0 <= i < |a| ==> b[i] == if i in idx[..k] then PresetOn(a[i], p) else a[i]
    {
      assert idx[k] !in idx[..k];
      assert idx[..k + 1] == idx[..k] + [idx[k]];
      b := b[idx[k] := PresetOn(b[idx[k]], p)];
      k := k + 1;
    }
    assert idx[..k] == idx;
  }

  // ---- the menu's state ----

  /**
   * The signals the menu reads and writes; `alerts` records the messages
   * shown with `alert`, `storage` the browser's local storage.
   */
  class MenuState {
    var nvArray: seq<Instance>
    var selection: seq<int>
    var selectionMode: SelectionMode
    var selectionActive: bool
    var selectMultiple: bool
    var interpolation: bool
    var crosshair: bool
    var radiologicalConvention: bool
    var colorbar: bool
    var zoomDragMode: bool
    var sliceType: SliceType
    var hideUI: int
    var userPresets: seq<UserPreset>
    var storage: Storage
    var inVscode: bool
    var presetNameInput: string
    var presetDescInput: string
    var showSavePresetDialog: bool
    var alerts: seq<string>

    /** The menu's signals start from the settings; user presets come from storage. */
    constructor (settings: NiiVueSettings, storage0: Storage, vscode: bool)
      ensures nvArray == [] && selection == [] && selectionMode == NoSelection
      ensures !selectionActive && !selectMultiple
      ensures interpolation == settings.interpolation && crosshair == settings.showCrosshairs
      ensures radiologicalConvention == settings.radiologicalConvention && colorbar == settings.colorbar
      ensures zoomDragMode == settings.zoomDragMode
      ensures sliceType == Multiplanar && hideUI == 3
      ensures storage == storage0 && inVscode == vscode && userPresets == Load(storage0, vscode)
      ensures presetNameInput == "" && presetDescInput == "" && !showSavePresetDialog && alerts == []
    {
      nvArray := [];
      selection := [];
      selectionMode := NoSelection;
      selectionActive := false;
      selectMultiple := false;
      interpolation := settings.interpolation;
      crosshair := settings.showCrosshairs;
      radiologicalConvention := settings.radiologicalConvention;
      colorbar := settings.colorbar;
      zoomDragMode := settings.zoomDragMode;
      sliceType := Multiplanar;
      hideUI := 3;
      storage := storage0;
      inVscode := vscode;
      userPresets := Load(storage0, vscode);
      presetNameInput := "";
      presetDescInput := "";
      showSavePresetDialog := false;
      alerts := [];
    }

    /** The effect that derives the mode from the two check boxes. */
    method ApplySelectionModeChange()
      modifies this
      ensures selectionMode == ModeFor(selectionActive, selectMultiple)
      ensures selection == old(selection) && nvArray == old(nvArray)
    {
      if !selectionActive {
        selectionMode := NoSelection;
      } else if selectMultiple {
        selectionMode := MultipleSelection;
      } else {
        selectionMode := SingleSelection;
      }
    }

    /** The effect that repairs the selection. */
    method EnsureValidSelection()
      modifies this
      ensures selection == ValidSelection(old(selection), |nvArray|, selectionMode)
      ensures nvArray == old(nvArray) && selectionMode == old(selectionMode)
    {
      if |nvArray| == 0 {
        return;
      } else if selectionMode == SingleSelection && |selection| != 1 {
        selection := [0];
      } else if (selectionMode == MultipleSelection || selectionMode == NoSelection) && |selection| == 0 {
        selection := AllIndices(|nvArray|);
      }
    }

    /** `selectAll`: multiple selection, every index selected. */
    method SelectAll()
      modifies this
      ensures selectMultiple && selection == AllIndices(|nvArray|)
      ensures nvArray == old(nvArray) && selectionMode == old(selectionMode)
    {
      selectMultiple := true;
      selection := seq(|nvArray|, i => i);
    }

    /** The preset's settings part: each flag it defines replaces the menu's signal. */
    method ApplySettings(s: SettingsPatch)
      modifies this`interpolation, this`crosshair, this`radiologicalConvention, this`colorbar, this`zoomDragMode
      ensures interpolation == (if s.interpolation.Some? then s.interpolation.value else old(interpolation))
      ensures crosshair == (if s.showCrosshairs.Some? then s.showCrosshairs.value else old(crosshair))
      ensures radiologicalConvention == (if s.radiologicalConvention.Some? then s.radiologicalConvention.value else old(radiologicalConvention))
      ensures colorbar == (if s.colorbar.Some? then s.colorbar.value else old(colorbar))
      ensures zoomDragMode == (if s.zoomDragMode.Some? then s.zoomDragMode.value else old(zoomDragMode))
    {
      if s.interpolation.Some? { interpolation := s.interpolation.value; }
      if s.showCrosshairs.Some? { crosshair := s.showCrosshairs.value; }
      if s.radiologicalConvention.Some? { radiologicalConvention := s.radiologicalConvention.value; }
      if s.colorbar.Some? { colorbar := s.colorbar.value; }
      if s.zoomDragMode.Some? { zoomDragMode := s.zoomDragMode.value; }
    }

    /** The preset's view options: the slice type and the UI level it defines replace the view's. */
    method ApplyView(v: ViewOptions)
      modifies this`sliceType, this`hideUI
      ensures sliceType == (if v.sliceType.Some? then v.sliceType.value else old(sliceType))
      ensures hideUI == (if v.hideUI.Some? then v.hideUI.value else old(hideUI))
    {
      if v.sliceType.Some? { sliceType := v.sliceType.value; }
      if v.hideUI.Some? { hideUI := v.hideUI.value; }
    }

    /**
     * `applyPreset`: each setting the preset defines replaces the menu's
     * signal, the view options replace the view's, and every selected
     * instance is changed as `PresetOn` says; the others are untouched.
     */
    method ApplyPreset(p: ViewPreset)
      modifies this
      ensures interpolation == (if p.settings.interpolation.Some? then p.settings.interpolation.value else old(interpolation))
      ensures crosshair == (if p.settings.showCrosshairs.Some? then p.settings.showCrosshairs.value else old(crosshair))
      ensures radiologicalConvention == (if p.settings.radiologicalConvention.Some? then p.settings.radiologicalConvention.value else old(radiologicalConvention))
      ensures colorbar == (if p.settings.colorbar.Some? then p.settings.colorbar.value else old(colorbar))
      ensures zoomDragMode == (if p.settings.zoomDragMode.Some? then p.settings.zoomDragMode.value else old(zoomDragMode))
      ensures sliceType == (if p.viewOptions.Some? && p.viewOptions.value.sliceType.Some? then p.viewOptions.value.sliceType.value else old(sliceType))
      ensures hideUI == (if p.viewOptions.Some? && p.viewOptions.value.hideUI.Some? then p.viewOptions.value.hideUI.value else old(hideUI))
      ensures |nvArray| == |old(nvArray)|
      ensures forall i :: 0 <= i < |nvArray| ==>
        nvArray[i] == if i in SelectedIndices(|nvArray|, selection, selectionMode) then PresetOn(old(nvArray)[i], p) else old(nvArray)[i]
      ensures selection == old(selection) && selectionMode == old(selectionMode)
      ensures userPresets == old(userPresets) && storage == old(storage) && alerts == old(alerts)
    {
      ApplySettings(p.settings);
      if p.viewOptions.Some? {
        ApplyView(p.viewOptions.value);
      }
      nvArray := PresetOnEach(nvArray, SelectedIndices(|nvArray|, selection, selectionMode), p);
    }

    /** The preset `saveCurrentAsPreset` creates: the typed name and description, the current settings and view. */
    function CurrentPreset(nowMillis: nat, nowIso: string): UserPreset
      reads this
    {
      CreateUserPreset(presetNameInput,
                       if presetDescInput == "" then "Custom user preset" else presetDescInput,
                       NoSettings.(interpolation := Some(interpolation), showCrosshairs := Some(crosshair),
                                   radiologicalConvention := Some(radiologicalConvention),
                                   colorbar := Some(colorbar), zoomDragMode := Some(zoomDragMode)),
                       Some(ViewOptions(Some(sliceType), Some(hideUI), None, None, None, None)),
                       None, nowMillis, nowIso)
    }

    /**
     * `saveCurrentAsPreset`: a blank name only raises an alert; otherwise
     * exactly one preset, holding the current settings and view, is
     * appended to the list and saved, the inputs are cleared, the dialog
     * closes and a confirmation is shown. Nothing else changes.
     */
    method SaveCurrentAsPreset(nowMillis: nat, nowIso: string, writable: bool)
      modifies this`userPresets, this`storage, this`presetNameInput, this`presetDescInput,
        this`showSavePresetDialog, this`alerts
      ensures IsBlank(old(presetNameInput)) ==>
        && alerts == old(alerts) + ["Please enter a name for the preset"]
        && userPresets == old(userPresets) && storage == old(storage)
        && presetNameInput == old(presetNameInput) && presetDescInput == old(presetDescInput)
        && showSavePresetDialog == old(showSavePresetDialog)
      ensures !IsBlank(old(presetNameInput)) ==>
        var np := old(CurrentPreset(nowMillis, nowIso));
        && userPresets == old(userPresets) + [np]
        && storage == Save(old(storage), inVscode, old(userPresets) + [np], writable)
        && presetNameInput == "" && presetDescInput == "" && !showSavePresetDialog
        && alerts == old(alerts) + ["Preset \"" + np.preset.name + "\" saved!"]
    {
      if IsBlank(presetNameInput) {
        alerts := alerts + ["Please enter a name for the preset"];
        return;
      }
      var np := CurrentPreset(nowMillis, nowIso);
      var presets := userPresets + [np];
      storage := Save(storage, inVscode, presets, writable);
      userPresets := presets;
      presetNameInput := "";
      presetDescInput := "";
      showSavePresetDialog := false;
      alerts := alerts + ["Preset \"" + np.preset.name + "\" saved!"];
    }

    /** `deletePreset`: delete in storage, then reload the list from it. */
    method DeletePreset(id: string, writable: bool)
      modifies this
      ensures storage == DeleteUserPreset(old(storage), inVscode, id, writable)
      ensures userPresets == Load(storage, inVscode)
      ensures writable ==> userPresets == RemoveId(Load(old(storage), inVscode), id)
      ensures nvArray == old(nvArray) && alerts == old(alerts) && inVscode == old(inVscode)
    {
      storage := DeleteUserPreset(storage, inVscode, id, writable);
      userPresets := Load(storage, inVscode);
    }
  }

  /**
   * Saving a named preset and then reading storage gives back the old
   * list with the new preset last, when the list shown was the stored one.
   */
  lemma SavedPresetIsStoredLast(stored: Storage, inVscode: bool, np: UserPreset)
    ensures Load(Save(stored, inVscode, Load(stored, inVscode) + [np], true), inVscode) == Load(stored, inVscode) + [np]
  {
    SaveLoad(stored, inVscode, Load(stored, inVscode) + [np]);
  }
}
