/**
 * The Streamlit component's frontend: the view-mode table, the shared
 * hook both viewers use (`useStreamlitNiivue`) and the direct loader
 * `loadImageData`. The hook drives the React viewer through its message
 * handler; what that handler does is `ReactEvents`.
 */
module StreamlitFrontend {
  import opened Common
  import opened Messages
  import opened Base64
  import opened ViewerSlots
  import opened AppState
  import RU = ReactUtility
  import RE = ReactEvents

  /** `VIEW_MODE_TO_SLICE_TYPE`. */
  const ViewModeTable: map<string, SliceType> :=
    map["axial" := Axial, "coronal" := Coronal, "sagittal" := Sagittal, "3d" := Render, "multiplanar" := Multiplanar]

  /** The `view_mode` literals the argument type allows. */
  const ViewModes: seq<string> := ["axial", "coronal", "sagittal", "3d", "multiplanar"]

  /**
   * Every allowed literal has an entry and nothing else does, and the
   * table is one-to-one onto the five slice types.
   */
  lemma ViewModeTableExact()
    ensures ViewModeTable.Keys == set i | 0 <= i < |ViewModes| :: ViewModes[i]
    ensures forall a, b :: a in ViewModeTable && b in ViewModeTable && ViewModeTable[a] == ViewModeTable[b] ==> a == b
    ensures ViewModeTable.Values == {Axial, Coronal, Sagittal, Render, Multiplanar}
  {
    var keys := set i | 0 <= i < |ViewModes| :: ViewModes[i];
    assert keys == {"axial", "coronal", "sagittal", "3d", "multiplanar"} by {
      assert ViewModes[0] == "axial" && ViewModes[1] == "coronal" && ViewModes[2] == "sagittal";
      assert ViewModes[3] == "3d" && ViewModes[4] == "multiplanar";
    }
    assert ViewModeTable.Keys == {"axial", "coronal", "sagittal", "3d", "multiplanar"};
    assert ViewModeTable["axial"] == Axial && ViewModeTable["coronal"] == Coronal;
    assert ViewModeTable["sagittal"] == Sagittal && ViewModeTable["3d"] == Render;
    assert ViewModeTable["multiplanar"] == Multiplanar;
  }

  /** The view-mode effect: an empty or missing mode keeps the slice type; an unknown one is AXIAL. */
  function ViewModeSliceType(current: SliceType, viewMode: Option<string>): SliceType
  {
    if viewMode.None? || viewMode.value == "" then current
    else if viewMode.value in ViewModeTable then ViewModeTable[viewMode.value]
    else Axial
  }

  lemma ViewModeSliceTypeCases(current: SliceType, m: string)
    ensures ViewModeSliceType(current, None) == current && ViewModeSliceType(current, Some("")) == current
    ensures m !in ViewModeTable && m != "" ==> ViewModeSliceType(current, Some(m)) == Axial
    ensures m in ViewModeTable ==> ViewModeSliceType(current, Some(m)) == ViewModeTable[m]
  {
  }

  /** The `settings` argument: four optional flags. */
  datatype ArgSettings = ArgSettings(crosshair: Option<bool>, radiological: Option<bool>,
                                     colorbar: Option<bool>, interpolation: Option<bool>)

  /** `a ?? b`. */
  function OrBool(a: Option<bool>, b: bool): bool
  {
    if a.Some? then a.value else b
  }

  /** The settings the hook hands `useAppState`: the four flags as given or their defaults, and fixed values for the rest. */
  function HookSettings(s: Option<ArgSettings>): (r: NiiVueSettings)
    ensures s.None? ==> r.showCrosshairs && r.interpolation && !r.colorbar && !r.radiologicalConvention
    ensures s.Some? && s.value.crosshair.Some? ==> r.showCrosshairs == s.value.crosshair.value
    ensures SyncSettings(r, s) == r
  {
    var a := if s.Some? then s.value else ArgSettings(None, None, None, None);
    NiiVueSettings(OrBool(a.crosshair, true), OrBool(a.interpolation, true), OrBool(a.colorbar, false),
                   OrBool(a.radiological, false), false, "gray", "red", "redyell",
                   Some(MenuItems(Some(false), Some(false), Some(true), Some(true), Some(true), Some(false), Some(true))))
  }

  /** The settings effect: each of the four fields takes the argument when it is defined. */
  function SyncSettings(cur: NiiVueSettings, s: Option<ArgSettings>): (r: NiiVueSettings)
    ensures s.None? ==> r == cur
    ensures r.(showCrosshairs := cur.showCrosshairs, radiologicalConvention := cur.radiologicalConvention,
               colorbar := cur.colorbar, interpolation := cur.interpolation) == cur
  {
    if s.None? then cur
    else cur.(showCrosshairs := OrBool(s.value.crosshair, cur.showCrosshairs),
              radiologicalConvention := OrBool(s.value.radiological, cur.radiologicalConvention),
              colorbar := OrBool(s.value.colorbar, cur.colorbar),
              interpolation := OrBool(s.value.interpolation, cur.interpolation))
  }

  /**
   * Syncing leaves every other field alone, takes a given flag and keeps
   * a missing one, and is idempotent.
   */
  lemma SyncSettingsProperties(cur: NiiVueSettings, s: Option<ArgSettings>)
    ensures var r := SyncSettings(cur, s);
      && r.zoomDragMode == cur.zoomDragMode && r.defaultVolumeColormap == cur.defaultVolumeColormap
      && r.defaultOverlayColormap == cur.defaultOverlayColormap && r.defaultMeshOverlayColormap == cur.defaultMeshOverlayColormap
      && r.menuItems == cur.menuItems
      && (s.Some? && s.value.crosshair.None? ==> r.showCrosshairs == cur.showCrosshairs)
      && (s.Some? && s.value.crosshair.Some? ==> r.showCrosshairs == s.value.crosshair.value)
    ensures SyncSettings(SyncSettings(cur, s), s) == SyncSettings(cur, s)
  {
  }

  /** Syncing the arguments the state was created from changes nothing, and the overlay colormap stays "red". */
  lemma SyncInitialSettings(s: Option<ArgSettings>)
    ensures SyncSettings(MergeSettings(HookSettings(s)), s) == MergeSettings(HookSettings(s))
    ensures MergeSettings(HookSettings(s)).defaultOverlayColormap == "red"
  {
  }

  /** One overlay argument as the frontend receives it. */
  datatype FrontOverlay = FrontOverlay(data: string, name: string, colormap: Option<string>, opacity: Option<real>)

  /** The component arguments the hook and the loader read. */
  datatype StreamlitArgs = StreamlitArgs(
    niftiData: Option<string>,
    filename: Option<string>,
    overlays: Option<seq<FrontOverlay>>,
    height: Option<int>,
    viewMode: Option<string>,
    settings: Option<ArgSettings>)

  function OrEmpty(s: Option<string>): string
  {
    if s.Some? then s.value else ""
  }

  /** `s || fallback` for a string. */
  function OrText(s: string, fallback: string): string
  {
    if s == "" then fallback else s
  }

  /** The digits after the point, at most `k` of them. */
  function FractionDigits(f: real, k: nat): string
    requires 0.0 <= f < 1.0
    decreases k
  {
    if k == 0 || f == 0.0 then ""
    else
      var t := f * 10.0;
      var d := t.Floor;
      [('0' as int + d) as char] + FractionDigits(t - d as real, k - 1)
  }

  /** A number as a template string shows it (exact for decimals of up to 17 digits after the point). */
  function NumberText(r: real): string
  {
    var a := if r < 0.0 then -r else r;
    var n := a.Floor;
    var f := a - n as real;
    (if r < 0.0 then "-" else "") + DecimalString(n) + (if f == 0.0 then "" else "." + FractionDigits(f, 17))
  }

  /** `s || fallback` for an optional string. */
  function OrDefault(s: Option<string>, fallback: string): string
  {
    if s.Some? && s.value != "" then s.value else fallback
  }

  /** `${x}` for an optional value: "undefined" when absent. */
  function OptText(s: Option<string>): string
  {
    if s.Some? then s.value else "undefined"
  }

  function OptNumberText(r: Option<real>): string
  {
    if r.Some? then NumberText(r.value) else "undefined"
  }

  /** An overlay's change-detection ID: name, colormap, opacity and data length, joined by '-'. */
  function OverlayId(o: FrontOverlay): string
  {
    o.name + "-" + OptText(o.colormap) + "-" + OptNumberText(o.opacity) + "-" + DecimalString(|o.data|)
  }

  function OverlayIds(os: seq<FrontOverlay>): (r: seq<string>)
    ensures |r| == |os| && forall i :: 0 <= i < |os| ==> r[i] == OverlayId(os[i])
  {
    seq(|os|, i requires 0 <= i < |os| => OverlayId(os[i]))
  }

  /** An example ID, and the limit of detection: new data of the same length keeps the ID. */
  lemma OverlayIdProperties(o: FrontOverlay, data: string)
    requires |data| == |o.data|
    ensures OverlayId(o.(data := data)) == OverlayId(o)
    ensures OverlayId(FrontOverlay("abcd", "lesion", Some("hot"), Some(0.5))) == "lesion-hot-0.5-4"
    ensures OverlayId(FrontOverlay("", "x", None, None)) == "x-undefined-undefined-0"
  {
    LesionId();
    UnnamedId();
  }

  lemma LesionId()
    ensures OverlayId(FrontOverlay("abcd", "lesion", Some("hot"), Some(0.5))) == "lesion-hot-0.5-4"
  {
    HalfText();
    SmallDecimals();
    assert OverlayId(FrontOverlay("abcd", "lesion", Some("hot"), Some(0.5))) == "lesion" + "-" + "hot" + "-" + "0.5" + "-" + "4";
  }

  lemma UnnamedId()
    ensures OverlayId(FrontOverlay("", "x", None, None)) == "x-undefined-undefined-0"
  {
    SmallDecimals();
    assert OverlayId(FrontOverlay("", "x", None, None)) == "x" + "-" + "undefined" + "-" + "undefined" + "-" + "0";
  }

  /** 0.5 is written "0.5". */
  lemma HalfText()
    ensures NumberText(0.5) == "0.5"
  {
    assert (0.5 as real).Floor == 0;
    assert (5.0 as real).Floor == 5;
    assert FractionDigits(0.5, 17) == "5" by {
      assert FractionDigits(0.0, 16) == "";
    }
  }

  /** The lengths 0 and 4 are written "0" and "4". */
  lemma SmallDecimals()
    ensures DecimalString(0) == "0" && DecimalString(4) == "4"
  {
  }

  /** The overlay URI the hook sends: the name when it is an image type, otherwise `(name || 'overlay') + '.nii.gz'`. */
  function OverlayUri(name: string): string
  {
    if name != "" && RU.IsImageType(name).Some? then name else OrText(name, "overlay") + ".nii.gz"
  }

  /** Any name with ".nii.gz" appended is an image type. */
  lemma NiiGzIsImage(base: string)
    ensures RU.IsImageType(base + ".nii.gz").Some?
  {
    EndsWithAppend(base, ".nii.gz");
    assert RU.ImageTypes[1] == ".nii.gz";
  }

  /** Every URI the hook sends is an image type, so each of its overlays is loaded as a volume. */
  lemma OverlayUriIsImage(name: string)
    ensures RU.IsImageType(OverlayUri(name)).Some?
    ensures RU.IsImageType(name).None? ==> OverlayUri(name) == OrText(name, "overlay") + ".nii.gz"
  {
    if !(name != "" && RU.IsImageType(name).Some?) {
      NiiGzIsImage(OrText(name, "overlay"));
    }
  }

  /** An overlay without a name is sent as "overlay.nii.gz". */
  lemma UnnamedOverlayUri()
    ensures OverlayUri("") == "overlay.nii.gz"
  {
  }

  /**
   * What the hook hands the viewer: `initCanvas(appProps, 1)`, a message, or
   * one volume removal. An overlay is recorded by the argument's name; the
   * URI it carries is `OverlayUri(name)`.
   */
  datatype Sent =
    | CanvasInit(n: int)
    | SentImage(body: ImageBody)
    | SentOverlay(name: string, bytes: seq<byte>, colormap: string, opacity: real, index: int)
    | RemovedLastVolume

  /** The overlay the hook builds from an argument whose data decoded to `bytes`. */
  function OverlaySent(o: FrontOverlay, bytes: seq<byte>): Sent
  {
    SentOverlay(o.name, bytes, OrDefault(o.colormap, "red"), if o.opacity.Some? then o.opacity.value else 0.5, 0)
  }

  lemma OverlaySentDefaults(o: FrontOverlay, bytes: seq<byte>)
    ensures o.colormap.None? || o.colormap == Some("") ==> OverlaySent(o, bytes).colormap == "red"
    ensures o.colormap.Some? && o.colormap.value != "" ==> OverlaySent(o, bytes).colormap == o.colormap.value
    ensures o.opacity.None? ==> OverlaySent(o, bytes).opacity == 0.5
  {
  }

  /** The message `handleMessage` gets for an overlay: the handler's body type has no colormap or opacity. */
  function OverlayMessage(s: Sent): Message
    requires s.SentOverlay?
  {
    Overlay("overlay", OverlayBody(OverlayUri(s.name), Bytes(s.bytes), s.index))
  }

  /**
   * The overlays in order, each decoded; the first one that fails to decode
   * throws, and the overlays before it have been sent. Returns what was
   * sent and whether the loop finished.
   */
  function SendOverlays(os: seq<FrontOverlay>, decode: string -> Option<seq<byte>>): (r: (seq<Sent>, bool))
    ensures |r.0| <= |os| && (r.1 ==> |r.0| == |os|)
  {
    if |os| == 0 then ([], true)
    else
      var (done, ok) := SendOverlays(os[..|os| - 1], decode);
      var o := os[|os| - 1];
      if !ok then (done, false)
      else if decode(o.data).None? then (done, false)
      else (done + [OverlaySent(o, decode(o.data).value)], true)
  }

  /**
   * The loop finishes exactly when every overlay decodes, and then overlay
   * i is sent i-th with its decoded bytes; the sends stop at the first
   * overlay that does not decode.
   */
  lemma {:induction false} SendOverlaysOrder(os: seq<FrontOverlay>, decode: string -> Option<seq<byte>>)
    ensures SendOverlays(os, decode).1 <==> forall i :: 0 <= i < |os| ==> decode(os[i].data).Some?
    ensures forall i :: 0 <= i < |SendOverlays(os, decode).0| ==>
      decode(os[i].data).Some? && SendOverlays(os, decode).0[i] == OverlaySent(os[i], decode(os[i].data).value)
    ensures !SendOverlays(os, decode).1 ==> |SendOverlays(os, decode).0| < |os| && decode(os[|SendOverlays(os, decode).0|].data).None?
  {
    if |os| > 0 {
      var init := os[..|os| - 1];
      var o := os[|os| - 1];
      SendOverlaysOrder(init, decode);
      assert forall i :: 0 <= i < |init| ==> init[i] == os[i];
      var (done, ok) := SendOverlays(init, decode);
      if ok && decode(o.data).Some? {
        var x := OverlaySent(o, decode(o.data).value);
        assert SendOverlays(os, decode) == (done + [x], true);
        assert (done + [x])[|init|] == x;
      } else {
        assert SendOverlays(os, decode) == (done, false);
        if !ok {
          assert decode(os[|done|].data).None?;
        }
      }
    }
  }

  /** Whether the overlay effect reloads: the first viewer is loaded, overlays are given, and their IDs changed. */
  predicate ReloadNeeded(firstLoaded: bool, overlays: Option<seq<FrontOverlay>>, loaded: seq<string>)
  {
    firstLoaded && overlays.Some? && |overlays.value| > 0 && OverlayIds(overlays.value) != loaded
  }

  /** `Math.round`: halves round up. */
  function JsRound(x: real): (r: int)
  {
    (x + 0.5).Floor
  }

  lemma JsRoundNearest(x: real)
    ensures x - 0.5 < JsRound(x) as real <= x + 0.5
  {
  }

  /** The location data the viewer reports: voxel and millimetre triples and the values under them. */
  datatype Location = Location(vox: (real, real, real), mm: (real, real, real), values: seq<Option<real>>)

  /** The event set as the component value: type 'voxel_click' is implied by the constructor. */
  datatype ClickEvent = VoxelClick(voxel: (int, int, int), mm: (real, real, real), value: real, filename: string)

  function ClickFor(data: Location, filename: Option<string>): (r: ClickEvent)
    ensures r.mm == data.mm
    ensures filename.Some? ==> r.filename == filename.value
    ensures |data.values| > 0 && data.values[0].Some? ==> r.value == data.values[0].value
  {
    VoxelClick((JsRound(data.vox.0), JsRound(data.vox.1), JsRound(data.vox.2)), data.mm,
               if |data.values| > 0 && data.values[0].Some? then data.values[0].value else 0.0,
               OrEmpty(filename))
  }

  /** The reported voxel is within half a voxel on each axis; the value defaults to 0 and the file name to "". */
  lemma ClickForProperties(data: Location, filename: Option<string>)
    ensures var c := ClickFor(data, filename);
      && data.vox.0 - 0.5 < c.voxel.0 as real <= data.vox.0 + 0.5
      && data.vox.1 - 0.5 < c.voxel.1 as real <= data.vox.1 + 0.5
      && data.vox.2 - 0.5 < c.voxel.2 as real <= data.vox.2 + 0.5
      && c.mm == data.mm
      && (|data.values| == 0 ==> c.value == 0.0)
      && (filename.None? ==> c.filename == "")
  {
    JsRoundNearest(data.vox.0);
    JsRoundNearest(data.vox.1);
    JsRoundNearest(data.vox.2);
  }

  /**
   * `useStreamlitNiivue` across effect runs. `firstVolumes` is how many
   * volumes the first viewer holds, which the overlay reload trims;
   * `sent` is everything handed to the viewer, `thrown` the errors the
   * effects throw, `clicks` the component values set on Streamlit.
   */
  class StreamlitHook {
    var sliceType: SliceType
    var settings: NiiVueSettings
    var prevData: Option<string>
    var loadedOverlays: seq<string>
    var firstVolumes: nat
    var sent: seq<Sent>
    var thrown: seq<string>
    var clicks: seq<ClickEvent>

    /** The state `useAppState` creates from the hook's settings. */
    constructor (args: StreamlitArgs)
      ensures sliceType == Multiplanar && settings == MergeSettings(HookSettings(args.settings))
      ensures prevData == None && loadedOverlays == [] && firstVolumes == 0
      ensures sent == [] && thrown == [] && clicks == []
    {
      var init := UseAppState(HookSettings(args.settings));
      sliceType := init.sliceType;
      settings := init.settings;
      prevData := None;
      loadedOverlays := [];
      firstVolumes := 0;
      sent := [];
      thrown := [];
      clicks := [];
    }

    /** The view-mode effect. */
    method SyncViewMode(viewMode: Option<string>)
      modifies this`sliceType
      ensures sliceType == ViewModeSliceType(old(sliceType), viewMode)
    {
      if viewMode.Some? && viewMode.value != "" {
        if viewMode.value in ViewModeTable {
          sliceType := ViewModeTable[viewMode.value];
        } else {
          sliceType := Axial;
        }
      }
    }

    /** The settings effect. */
    method SyncSettingsEffect(s: Option<ArgSettings>)
      modifies this`settings
      ensures settings == SyncSettings(old(settings), s)
    {
      if s.Some? {
        settings := settings.(showCrosshairs := OrBool(s.value.crosshair, settings.showCrosshairs),
                              radiologicalConvention := OrBool(s.value.radiological, settings.radiologicalConvention),
                              colorbar := OrBool(s.value.colorbar, settings.colorbar),
                              interpolation := OrBool(s.value.interpolation, settings.interpolation));
      }
    }

    /**
     * The base-image effect: nothing for empty or unchanged data; otherwise
     * the data is recorded, the overlay IDs are cleared, one canvas is
     * initialised and the image is sent as its decoded bytes under the file
     * name (or 'image.nii'). Data that does not decode throws after the
     * canvas was initialised.
     */
    method LoadBase(niftiData: Option<string>, filename: Option<string>)
      modifies this`prevData, this`loadedOverlays, this`sent, this`thrown
      ensures var d := OrEmpty(niftiData);
        if d == "" || Some(d) == old(prevData) then
          prevData == old(prevData) && loadedOverlays == old(loadedOverlays) && sent == old(sent) && thrown == old(thrown)
        else
          && prevData == Some(d) && loadedOverlays == []
          && (ForgivingDecode(d).Some? ==>
                sent == old(sent) + [CanvasInit(1), SentImage(ImageBody(Plain(OrText(OrEmpty(filename), "image.nii")), Bytes(ForgivingDecode(d).value)))]
                && thrown == old(thrown))
          && (ForgivingDecode(d).None? ==> sent == old(sent) + [CanvasInit(1)] && thrown == old(thrown) + [InvalidCharacter])
    {
      var d := OrEmpty(niftiData);
      if d == "" || Some(d) == prevData {
        return;
      }
      prevData := Some(d);
      loadedOverlays := [];
      ghost var before := sent;
      sent := sent + [CanvasInit(1)];
      var bytes := Base64ToArrayBuffer(d);
      if bytes.Err? {
        thrown := thrown + [bytes.error];
        return;
      }
      var image := SentImage(ImageBody(Plain(OrText(OrEmpty(filename), "image.nii")), Bytes(bytes.value)));
      sent := sent + [image];
      assert sent == before + [CanvasInit(1), image];
    }

    /**
     * The overlay effect: when a reload is needed, the first viewer's
     * volumes after the first are removed one by one from the end, then
     * the overlays are sent in order; the new IDs are recorded only when
     * every overlay was sent, so an overlay that does not decode leaves
     * them for the next run to retry.
     */
    method ReloadOverlays(firstLoaded: bool, overlays: Option<seq<FrontOverlay>>)
      modifies this`firstVolumes, this`sent, this`thrown, this`loadedOverlays
      ensures !ReloadNeeded(firstLoaded, overlays, old(loadedOverlays)) ==>
        firstVolumes == old(firstVolumes) && sent == old(sent) && thrown == old(thrown) && loadedOverlays == old(loadedOverlays)
      ensures ReloadNeeded(firstLoaded, overlays, old(loadedOverlays)) ==>
        var removed := if old(firstVolumes) > 1 then old(firstVolumes) - 1 else 0;
        var (overlaySends, ok) := SendOverlays(overlays.value, ForgivingDecode);
        && firstVolumes == old(firstVolumes) - removed
        && sent == old(sent) + Removals(removed) + overlaySends
        && (ok ==> loadedOverlays == OverlayIds(overlays.value) && thrown == old(thrown))
        && (!ok ==> loadedOverlays == old(loadedOverlays) && thrown == old(thrown) + [InvalidCharacter])
    {
      if !firstLoaded || overlays.None? || |overlays.value| == 0 {
        return;
      }
      var ids := OverlayIds(overlays.value);
      if ids == loadedOverlays {
        return;
      }
      RemoveTrailingVolumes();
      var overlaySends, ok := SendAll(overlays.value);
      sent := sent + overlaySends;
      if !ok {
        thrown := thrown + [InvalidCharacter];
        return;
      }
      loadedOverlays := ids;
    }

    /** `while (nv.volumes.length > 1) nv.removeVolume(last)`. */
    method RemoveTrailingVolumes()
      modifies this`firstVolumes, this`sent
      ensures var removed := if old(firstVolumes) > 1 then old(firstVolumes) - 1 else 0;
        firstVolumes == old(firstVolumes) - removed && sent == old(sent) + Removals(removed)
    {
      var n := 0;
      while firstVolumes > 1
        invariant firstVolumes + n == old(firstVolumes)
        invariant old(firstVolumes) > 1 ==> firstVolumes >= 1
        invariant old(firstVolumes) <= 1 ==> n == 0
        invariant sent == old(sent) + Removals(n)
        decreases firstVolumes
      {
        sent := sent + [RemovedLastVolume];
        firstVolumes := firstVolumes - 1;
        n := n + 1;
      }
    }

    /** The location listener: a click is reported only while there is a first viewer and it is loaded. */
    method OnLocationChange(viewers: nat, firstLoaded: bool, data: Location, filename: Option<string>)
      modifies this`clicks
      ensures clicks == old(clicks) + (if viewers > 0 && firstLoaded then [ClickFor(data, filename)] else [])
    {
      if viewers > 0 && firstLoaded {
        clicks := clicks + [ClickFor(data, filename)];
      }
    }
  }

  /** `n` removals of the last volume. */
  function Removals(n: nat): (r: seq<Sent>)
    ensures |r| == n && forall i :: 0 <= i < n ==> r[i] == RemovedLastVolume
  {
    seq(n, i => RemovedLastVolume)
  }

  /**
   * The hook's overlay loop: each overlay is decoded and sent in order;
   * the first one that does not decode ends the loop (the throw).
   */
  method SendAll(os: seq<FrontOverlay>) returns (sends: seq<Sent>, ok: bool)
    ensures (sends, ok) == SendOverlays(os, ForgivingDecode)
  {
    sends := [];
    var i := 0;
    while i < |os|
      invariant 0 <= i <= |os|
      invariant SendOverlays(os[..i], ForgivingDecode) == (sends, true)
    {
      assert os[..i + 1][..i] == os[..i];
      var bytes := Base64ToArrayBuffer(os[i].data);
      if bytes.Err? {
        PrefixFailure(os, i);
        return sends, false;
      }
      sends := sends + [OverlaySent(os[i], bytes.value)];
      i := i + 1;
    }
    assert os[..i] == os;
    ok := true;
  }

  /** A prefix that was all sent, followed by an overlay that does not decode: the whole list stops there. */
  lemma PrefixFailure(os: seq<FrontOverlay>, i: nat)
    requires i < |os| && SendOverlays(os[..i], ForgivingDecode).1 && ForgivingDecode(os[i].data).None?
    ensures SendOverlays(os, ForgivingDecode) == (SendOverlays(os[..i], ForgivingDecode).0, false)
  {
    assert os[..i + 1][..i] == os[..i];
    SendOverlaysPrefix(os, i + 1, ForgivingDecode);
  }

  /** Once the sends stop at a prefix, longer lists stop there as well. */
  lemma {:induction false} SendOverlaysPrefix(os: seq<FrontOverlay>, k: nat, decode: string -> Option<seq<byte>>)
    requires k <= |os| && !SendOverlays(os[..k], decode).1
    ensures SendOverlays(os, decode) == SendOverlays(os[..k], decode)
    decreases |os| - k
  {
    if k < |os| {
      var next := os[..k + 1];
      assert next[..k] == os[..k];
      assert SendOverlays(next, decode) == SendOverlays(os[..k], decode);
      SendOverlaysPrefix(os, k + 1, decode);
    } else {
      assert os[..k] == os;
    }
  }

  /**
   * The overlay handler ignores the colormap and opacity the hook sends:
   * every overlay becomes a volume with the settings' overlay colormap
   * ("red", which the hook sets) and opacity 0.5, so an overlay asked for
   * in "hot" at 0.8 is shown red at 0.5.
   */
  lemma OverlayStyleDropped(s: Slot, o: FrontOverlay, bytes: seq<byte>)
    ensures var sent := OverlaySent(o, bytes);
      var cm := MergeSettings(HookSettings(None)).defaultOverlayColormap;
      RE.OverlayOnSlot(s, OverlayMessage(sent).overlay, cm)
        == s.(volumes := s.volumes + [Volume(OverlayUri(sent.name), Some("red"), Some(0.5))])
    ensures var sent := OverlaySent(FrontOverlay("", "lesion.nii", Some("hot"), Some(0.8)), bytes);
      && sent.colormap == "hot" && sent.opacity == 0.8
      && RE.OverlayOnSlot(s, OverlayMessage(sent).overlay, "red").volumes[|s.volumes|] == Volume("lesion.nii", Some("red"), Some(0.5))
  {
    OverlayIgnoresStyle(s, o, bytes);
    OverlayIgnoresStyle(s, FrontOverlay("", "lesion.nii", Some("hot"), Some(0.8)), bytes);
    LesionUri();
  }

  /** Whatever the overlay asks for, the handler adds it in the hook's colormap at 0.5. */
  lemma OverlayIgnoresStyle(s: Slot, o: FrontOverlay, bytes: seq<byte>)
    ensures MergeSettings(HookSettings(None)).defaultOverlayColormap == "red"
    ensures var sent := OverlaySent(o, bytes);
      RE.OverlayOnSlot(s, OverlayMessage(sent).overlay, "red")
        == s.(volumes := s.volumes + [Volume(OverlayUri(sent.name), Some("red"), Some(0.5))])
  {
    OverlayUriIsImage(o.name);
  }

  /** A name that is already an image type is sent as it is. */
  lemma LesionUri()
    ensures OverlayUri("lesion.nii") == "lesion.nii"
  {
    assert RU.IsImageType("lesion.nii").Some? by {
      EndsWithAppend("lesion", ".nii");
      assert RU.ImageTypes[0] == ".nii";
    }
  }

  /**
   * The overlay volume the hook evidently intends: the colormap and opacity
   * it sends, as `loadImageData` loads them.
   */
  function CorrectedOverlayVolume(sent: Sent): Volume
    requires sent.SentOverlay?
  {
    Volume(OverlayUri(sent.name), Some(sent.colormap), Some(sent.opacity))
  }

  /**
   * The corrected volume keeps the requested style, defaults included, and
   * agrees with the overlay `loadImageData` loads from the same argument
   * in colormap and opacity.
   */
  lemma CorrectedOverlayKeepsStyle(o: FrontOverlay, bytes: seq<byte>)
    ensures var v := CorrectedOverlayVolume(OverlaySent(o, bytes));
      var l := LoadedOverlay(o, bytes);
      && v.colormap == Some(l.colormap) && v.opacity == l.opacity
      && (o.colormap.Some? && o.colormap.value != "" ==> v.colormap == o.colormap)
      && (o.opacity.Some? ==> v.opacity == o.opacity)
      && (o.colormap.None? ==> v.colormap == Some("red"))
      && (o.opacity.None? ==> v.opacity == Some(0.5))
  {
  }

  /** A volume `loadImageData` adds to the first viewer. */
  datatype LoadedVolume = LoadedVolume(name: string, bytes: seq<byte>, colormap: string, opacity: Option<real>)

  function LoadedOverlay(o: FrontOverlay, bytes: seq<byte>): LoadedVolume
  {
    LoadedVolume(o.name, bytes, OrDefault(o.colormap, "red"), Some(if o.opacity.Some? then o.opacity.value else 0.5))
  }

  /**
   * An overlay is loaded under its own name with its decoded bytes; a
   * missing or empty colormap gives 'red', a missing opacity 0.5, and
   * given ones are kept.
   */
  lemma LoadedOverlayDefaults(o: FrontOverlay, bytes: seq<byte>)
    ensures var v := LoadedOverlay(o, bytes);
      && v.name == o.name && v.bytes == bytes && v.opacity.Some?
      && (o.colormap.None? || o.colormap == Some("") ==> v.colormap == "red")
      && (o.colormap.Some? && o.colormap.value != "" ==> v.colormap == o.colormap.value)
      && (o.opacity.None? ==> v.opacity == Some(0.5))
      && (o.opacity.Some? ==> v.opacity == o.opacity)
  {
  }

  /** The overlays `loadImageData` reads: `args.overlays`, or none. */
  function OverlaysOf(args: StreamlitArgs): seq<FrontOverlay>
  {
    if args.overlays.Some? then args.overlays.value else []
  }

  /** The overlay loop of `loadImageData`: stops at the first overlay that does not decode. */
  function LoadOverlays(os: seq<FrontOverlay>, decode: string -> Option<seq<byte>>): (r: (seq<LoadedVolume>, bool))
    ensures |r.0| <= |os|
    ensures r.1 ==> |r.0| == |os|
  {
    if |os| == 0 then ([], true)
    else
      var (done, ok) := LoadOverlays(os[..|os| - 1], decode);
      var o := os[|os| - 1];
      if !ok || decode(o.data).None? then (done, false)
      else (done + [LoadedOverlay(o, decode(o.data).value)], true)
  }

  /**
   * The loop finishes exactly when every overlay decodes, and then every
   * overlay is loaded, overlay i i-th with its decoded bytes; the loads
   * stop at the first overlay that does not decode.
   */
  lemma {:induction false} LoadOverlaysOrder(os: seq<FrontOverlay>, decode: string -> Option<seq<byte>>)
    ensures LoadOverlays(os, decode).1 <==> forall i :: 0 <= i < |os| ==> decode(os[i].data).Some?
    ensures LoadOverlays(os, decode).1 ==> |LoadOverlays(os, decode).0| == |os|
    ensures forall i :: 0 <= i < |LoadOverlays(os, decode).0| ==>
      decode(os[i].data).Some? && LoadOverlays(os, decode).0[i] == LoadedOverlay(os[i], decode(os[i].data).value)
    ensures !LoadOverlays(os, decode).1 ==> |LoadOverlays(os, decode).0| < |os| && decode(os[|LoadOverlays(os, decode).0|].data).None?
  {
    if |os| > 0 {
      var init := os[..|os| - 1];
      var o := os[|os| - 1];
      LoadOverlaysOrder(init, decode);
      assert forall i :: 0 <= i < |init| ==> init[i] == os[i];
      var (done, ok) := LoadOverlays(init, decode);
      if ok && decode(o.data).Some? {
        var x := LoadedOverlay(o, decode(o.data).value);
        assert LoadOverlays(os, decode) == (done + [x], true);
        assert (done + [x])[|init|] == x;
      } else {
        assert LoadOverlays(os, decode) == (done, false);
        if !ok {
          assert decode(os[|done|].data).None?;
        }
      }
    }
  }

  /** The outcome of one `loadImageData` call: the first viewer's volumes, whether a retry is scheduled, whether the array is reassigned. */
  datatype LoadOutcome = LoadOutcome(volumes: seq<LoadedVolume>, retry: bool, rerender: bool)

  /**
   * `loadImageData(args, appProps)` on a first viewer holding `volumes`
   * (`ready`: it exists and has a GL context). No data: nothing. Data that
   * does not decode: the error is caught. Not ready: a retry is scheduled.
   * Otherwise every volume is removed, the base volume comes first, then
   * the overlays in order; an overlay that does not decode ends the load
   * before the array is reassigned.
   */
  function LoadImageData(volumes: seq<LoadedVolume>, ready: bool, args: StreamlitArgs, volumeColormap: string): (r: LoadOutcome)
    ensures !(r.retry && r.rerender)
    ensures !ready ==> r.volumes == volumes && !r.rerender
    ensures r.volumes != volumes ==> ready && |r.volumes| >= 1 && ForgivingDecode(OrEmpty(args.niftiData)) == Some(r.volumes[0].bytes)
    ensures ready && OrEmpty(args.niftiData) != "" && ForgivingDecode(OrEmpty(args.niftiData)).Some? ==>
      && !r.retry && |r.volumes| >= 1
      && r.volumes[0] == LoadedVolume(OrText(OrEmpty(args.filename), "image.nii"), ForgivingDecode(OrEmpty(args.niftiData)).value,
                                      OrText(volumeColormap, "gray"), None)
      && (r.volumes[1..], r.rerender) == LoadOverlays(OverlaysOf(args), ForgivingDecode)
    ensures r.rerender <==> ready && OrEmpty(args.niftiData) != "" && ForgivingDecode(OrEmpty(args.niftiData)).Some?
                            && forall i :: 0 <= i < |OverlaysOf(args)| ==> ForgivingDecode(OverlaysOf(args)[i].data).Some?
    ensures r.rerender ==>
      && |r.volumes| == |OverlaysOf(args)| + 1
      && forall i :: 0 <= i < |OverlaysOf(args)| ==>
           r.volumes[i + 1] == LoadedOverlay(OverlaysOf(args)[i], ForgivingDecode(OverlaysOf(args)[i].data).value)
  {
    LoadOverlaysOrder(OverlaysOf(args), ForgivingDecode);
    var d := OrEmpty(args.niftiData);
    if d == "" || ForgivingDecode(d).None? then LoadOutcome(volumes, false, false)
    else if !ready then LoadOutcome(volumes, true, false)
    else
      var base := LoadedVolume(OrText(OrEmpty(args.filename), "image.nii"), ForgivingDecode(d).value,
                               OrText(volumeColormap, "gray"), None);
      var os := OverlaysOf(args);
      var (loaded, ok) := LoadOverlays(os, ForgivingDecode);
      LoadOutcome([base] + loaded, false, ok)
  }

  /**
   * The Python encoder and this loader are partners: an image encoded by
   * the component is loaded as its own bytes, first, replacing whatever
   * the viewer held; an empty image loads nothing at all.
   */
  lemma LoadImageDataOfEncoded(volumes: seq<LoadedVolume>, b: seq<byte>, args: StreamlitArgs, cm: string)
    requires args.niftiData == Some(Encode(b))
    ensures b == [] ==> LoadImageData(volumes, true, args, cm) == LoadOutcome(volumes, false, false)
    ensures b != [] ==>
      var r := LoadImageData(volumes, true, args, cm);
      && |r.volumes| >= 1 && r.volumes[0].bytes == b && !r.retry
      && r.volumes[0].name == OrText(OrEmpty(args.filename), "image.nii")
      && r.volumes[0].colormap == OrText(cm, "gray")
  {
    RoundTrip(b);
    EncodeLength(b);
  }

  /** The first viewer `loadImageData` works on: its volumes, and the scheduled retries and rerenders. */
  class FirstViewer {
    var ready: bool
    var volumes: seq<LoadedVolume>
    var retries: nat
    var rerenders: nat

    constructor (ready: bool, volumes: seq<LoadedVolume>)
      ensures this.ready == ready && this.volumes == volumes && retries == 0 && rerenders == 0
    {
      this.ready := ready;
      this.volumes := volumes;
      retries := 0;
      rerenders := 0;
    }

    /** `loadImageData`, with its removal loop and its two decode loops. */
    method Load(args: StreamlitArgs, volumeColormap: string)
      modifies this`volumes, this`retries, this`rerenders
      ensures var r := LoadImageData(old(volumes), ready, args, volumeColormap);
        && volumes == r.volumes
        && retries == old(retries) + (if r.retry then 1 else 0)
        && rerenders == old(rerenders) + (if r.rerender then 1 else 0)
    {
      ghost var expected := LoadImageData(volumes, ready, args, volumeColormap);
      var d := OrEmpty(args.niftiData);
      if d == "" {
        assert expected == LoadOutcome(volumes, false, false);
        return;
      }
      var decoded := Base64ToArrayBuffer(d);
      if decoded.Err? {
        assert ForgivingDecode(d).None?;
        assert expected == LoadOutcome(volumes, false, false);
        return;
      }
      assert ForgivingDecode(d) == Some(decoded.value);
      if !ready {
        assert expected == LoadOutcome(volumes, true, false);
        retries := retries + 1;
        return;
      }
      while |volumes| > 0
        invariant rerenders == old(rerenders) && retries == old(retries)
        decreases |volumes|
      {
        volumes := volumes[1..];
      }
      var base := LoadedVolume(OrText(OrEmpty(args.filename), "image.nii"), decoded.value, OrText(volumeColormap, "gray"), None);
      volumes := [base];
      var os := OverlaysOf(args);
      var loaded, ok := LoadAll(os);
      assert LoadImageData(old(volumes), ready, args, volumeColormap) == LoadOutcome([base] + loaded, false, ok);
      volumes := volumes + loaded;
      if !ok {
        return;
      }
      rerenders := rerenders + 1;
    }
  }

  /** Once the load loop stops, the whole list stops there. */
  lemma {:induction false} LoadOverlaysPrefix(os: seq<FrontOverlay>, k: nat, decode: string -> Option<seq<byte>>)
    requires k <= |os| && !LoadOverlays(os[..k], decode).1
    ensures LoadOverlays(os, decode) == LoadOverlays(os[..k], decode)
    decreases |os| - k
  {
    if k < |os| {
      var next := os[..k + 1];
      assert next[..k] == os[..k];
      assert LoadOverlays(next, decode) == LoadOverlays(os[..k], decode);
      LoadOverlaysPrefix(os, k + 1, decode);
    } else {
      assert os[..k] == os;
    }
  }

  /** The loader's overlay loop: each overlay decoded into a volume, stopping at the first that does not decode. */
  method LoadAll(os: seq<FrontOverlay>) returns (loaded: seq<LoadedVolume>, ok: bool)
    ensures (loaded, ok) == LoadOverlays(os, ForgivingDecode)
  {
    loaded := [];
    var i := 0;
    while i < |os|
      invariant 0 <= i <= |os|
      invariant LoadOverlays(os[..i], ForgivingDecode) == (loaded, true)
    {
      assert os[..i + 1][..i] == os[..i];
      var bytes := Base64ToArrayBuffer(os[i].data);
      if bytes.Err? {
        LoadPrefixFailure(os, i);
        return loaded, false;
      }
      loaded := loaded + [LoadedOverlay(os[i], bytes.value)];
      i := i + 1;
    }
    assert os[..i] == os;
    ok := true;
  }

  lemma LoadPrefixFailure(os: seq<FrontOverlay>, i: nat)
    requires i < |os| && LoadOverlays(os[..i], ForgivingDecode).1 && ForgivingDecode(os[i].data).None?
    ensures LoadOverlays(os, ForgivingDecode) == (LoadOverlays(os[..i], ForgivingDecode).0, false)
  {
    assert os[..i + 1][..i] == os[..i];
    LoadOverlaysPrefix(os, i + 1, ForgivingDecode);
  }
}
