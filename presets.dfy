/**
 * View presets: the four built-in ones, user presets, and their storage
 * in the browser's local storage under a key that depends on whether the
 * page runs inside VS Code.
 */
module Presets {
  import opened Common
  import opened AppState

  /** `Partial<NiiVueSettings>`: a field is `None` where the preset leaves it out. */
  datatype SettingsPatch = SettingsPatch(
    showCrosshairs: Option<bool>,
    interpolation: Option<bool>,
    colorbar: Option<bool>,
    radiologicalConvention: Option<bool>,
    zoomDragMode: Option<bool>,
    defaultVolumeColormap: Option<string>,
    defaultOverlayColormap: Option<string>,
    defaultMeshOverlayColormap: Option<string>,
    menuItems: Option<MenuItems>)

  const NoSettings := SettingsPatch(None, None, None, None, None, None, None, None, None)

  datatype ViewOptions = ViewOptions(
    sliceType: Option<SliceType>,
    hideUI: Option<int>,
    autoSizeMultiplanar: Option<bool>,
    multiplanarForceRender: Option<bool>,
    normalizeValues: Option<bool>,
    graphOpacity: Option<real>)

  datatype OverlayDefaults = OverlayDefaults(
    colormap: Option<string>,
    opacity: Option<real>,
    calMin: Option<real>,
    calMax: Option<real>)

  datatype ViewPreset = ViewPreset(
    name: string,
    description: string,
    settings: SettingsPatch,
    viewOptions: Option<ViewOptions>,
    overlayDefaults: Option<OverlayDefaults>)

  datatype UserPreset = UserPreset(id: string, preset: ViewPreset, createdAt: string)

  /** `Math.PI`, as the shortest decimal that denotes the double. */
  const MathPi: real := 3.141592653589793

  const Fmri := ViewPreset(
    "fMRI", "Optimized for functional MRI with 4D timeseries visualization",
    NoSettings.(showCrosshairs := Some(true), interpolation := Some(true), colorbar := Some(true),
                defaultOverlayColormap := Some("redyell")),
    Some(ViewOptions(Some(Multiplanar), None, Some(true), Some(true), Some(false), Some(1.0))),
    None)

  const Phase := ViewPreset(
    "Phase Data", "Optimized for phase images with no interpolation and full range scaling",
    NoSettings.(interpolation := Some(false), colorbar := Some(true), defaultVolumeColormap := Some("hsv")),
    None,
    Some(OverlayDefaults(None, None, Some(-MathPi), Some(MathPi))))

  const Anatomical := ViewPreset(
    "Anatomical", "Standard settings for anatomical T1/T2 images",
    NoSettings.(showCrosshairs := Some(true), interpolation := Some(true), colorbar := Some(false),
                defaultVolumeColormap := Some("gray")),
    Some(ViewOptions(Some(Multiplanar), None, None, None, None, None)),
    None)

  const Dti := ViewPreset(
    "DTI/Diffusion", "Optimized for diffusion tensor imaging overlays",
    NoSettings.(showCrosshairs := Some(true), interpolation := Some(true), colorbar := Some(true),
                defaultOverlayColormap := Some("jet")),
    None,
    None)

  /** `BUILTIN_PRESETS`. */
  const BuiltinPresets: map<string, ViewPreset> := map["fmri" := Fmri, "phase" := Phase, "anatomical" := Anatomical, "dti" := Dti]

  /**
   * The fMRI preset turns on interpolation, crosshairs, the colour bar and
   * the graph's automatic sizing and forced rendering; the phase preset
   * turns interpolation off, uses hsv and scales overlays to -pi..pi.
   */
  lemma BuiltinPresetValues()
    ensures BuiltinPresets.Keys == {"fmri", "phase", "anatomical", "dti"}
    ensures var f := BuiltinPresets["fmri"];
      && f.name == "fMRI" && f.settings.interpolation == Some(true) && f.settings.showCrosshairs == Some(true)
      && f.settings.colorbar == Some(true) && f.viewOptions.Some?
      && f.viewOptions.value.autoSizeMultiplanar == Some(true) && f.viewOptions.value.multiplanarForceRender == Some(true)
    ensures var p := BuiltinPresets["phase"];
      && p.name == "Phase Data" && p.settings.interpolation == Some(false) && p.settings.colorbar == Some(true)
      && p.settings.defaultVolumeColormap == Some("hsv") && p.overlayDefaults.Some?
      && p.overlayDefaults.value.calMin == Some(-MathPi) && p.overlayDefaults.value.calMax == Some(MathPi)
  {
  }

  // ---- storage ----

  /**
   * A stored value: the JSON text of a preset list, an empty string, or
   * text that does not parse. JSON keeps every field of a preset, so the
   * list text is represented by the list itself.
   */
  datatype Stored = PresetJson(presets: seq<UserPreset>) | EmptyText | Malformed

  type Storage = map<string, Stored>

  const VscodeKey := "niivue_vscode_user_presets"
  const StandaloneKey := "niivue_user_presets"

  /** The key for the environment: `globalThis.vscode` is defined inside VS Code. */
  function PresetsKey(inVscode: bool): (r: string)
    ensures r == VscodeKey || r == StandaloneKey
  {
    if inVscode then VscodeKey else StandaloneKey
  }

  /** The two environments never share a key. */
  lemma KeysDiffer()
    ensures PresetsKey(true) != PresetsKey(false)
  {
    assert VscodeKey[7] != StandaloneKey[7];
  }

  /**
   * `loadUserPresets`: the stored list, or [] when nothing (or an empty
   * string) is stored and when the text does not parse.
   */
  function Load(storage: Storage, inVscode: bool): (r: seq<UserPreset>)
    ensures PresetsKey(inVscode) !in storage ==> r == []
    ensures PresetsKey(inVscode) in storage && !storage[PresetsKey(inVscode)].PresetJson? ==> r == []
  {
    var key := PresetsKey(inVscode);
    if key in storage && storage[key].PresetJson? then storage[key].presets else []
  }

  /**
   * `saveUserPresets`: the list's text under the environment's key; when
   * the write fails (storage full) the error is caught and nothing changes.
   */
  function Save(storage: Storage, inVscode: bool, presets: seq<UserPreset>, writable: bool): (r: Storage)
    ensures writable ==> r.Keys == storage.Keys + {PresetsKey(inVscode)}
    ensures forall k :: k in storage && k != PresetsKey(inVscode) ==> k in r && r[k] == storage[k]
    ensures !writable ==> r == storage
  {
    if writable then storage[PresetsKey(inVscode) := PresetJson(presets)] else storage
  }

  /** `setVSCodeUserPresets`: always the VS Code key. */
  function SetVscodePresets(storage: Storage, presets: seq<UserPreset>, writable: bool): (r: Storage)
    ensures writable ==> Load(r, true) == presets
    ensures Load(r, false) == Load(storage, false)
  {
    KeysDiffer();
    Save(storage, true, presets, writable)
  }

  /**
   * Saving then loading in the same environment gives back the list in
   * the same order, and leaves the other environment's presets alone.
   */
  lemma SaveLoad(storage: Storage, inVscode: bool, presets: seq<UserPreset>)
    ensures Load(Save(storage, inVscode, presets, true), inVscode) == presets
    ensures Load(Save(storage, inVscode, presets, true), !inVscode) == Load(storage, !inVscode)
  {
    KeysDiffer();
  }

  /**
   * `createUserPreset`: the given fields verbatim, an id "user_" followed
   * by the clock's milliseconds, and the clock's ISO text as the creation time.
   */
  function CreateUserPreset(name: string, description: string, settings: SettingsPatch,
                            viewOptions: Option<ViewOptions>, overlayDefaults: Option<OverlayDefaults>,
                            nowMillis: nat, nowIso: string): (r: UserPreset)
    ensures r.preset == ViewPreset(name, description, settings, viewOptions, overlayDefaults)
    ensures r.createdAt == nowIso
  {
    UserPreset("user_" + DecimalString(nowMillis), ViewPreset(name, description, settings, viewOptions, overlayDefaults), nowIso)
  }

  /** An id of the form `user_<digits>`. */
  predicate IsUserId(id: string)
  {
    |id| > 5 && id[..5] == "user_" && forall i :: 5 <= i < |id| ==> IsDigit(id[i])
  }

  /** Every created id is "user_" followed by one or more digits. */
  lemma CreatedIdShape(name: string, description: string, settings: SettingsPatch,
                       viewOptions: Option<ViewOptions>, overlayDefaults: Option<OverlayDefaults>,
                       nowMillis: nat, nowIso: string)
    ensures IsUserId(CreateUserPreset(name, description, settings, viewOptions, overlayDefaults, nowMillis, nowIso).id)
  {
    var id := CreateUserPreset(name, description, settings, viewOptions, overlayDefaults, nowMillis, nowIso).id;
    var digits := DecimalString(nowMillis);
    assert id == "user_" + digits;
    assert forall i :: 5 <= i < |id| ==> id[i] == digits[i - 5];
  }

  /** `presets.filter(p => p.id !== id)`. */
  function RemoveId(presets: seq<UserPreset>, id: string): (r: seq<UserPreset>)
    ensures |r| <= |presets|
    ensures forall p :: p in r <==> p in presets && p.id != id
  {
    if |presets| == 0 then []
    else (if presets[0].id == id then [] else [presets[0]]) + RemoveId(presets[1..], id)
  }

  /** The filter splits over a concatenation, so the kept presets stay in their order. */
  lemma {:induction false} RemoveIdAppend(a: seq<UserPreset>, b: seq<UserPreset>, id: string)
    ensures RemoveId(a + b, id) == RemoveId(a, id) + RemoveId(b, id)
    decreases |a|
  {
    if |a| == 0 {
      assert a + b == b;
    } else {
      assert (a + b)[0] == a[0] && (a + b)[1..] == a[1..] + b;
      RemoveIdAppend(a[1..], b, id);
    }
  }

  /** A list without the id is left as it is. */
  lemma {:induction false} RemoveIdAbsent(a: seq<UserPreset>, id: string)
    requires forall p :: p in a ==> p.id != id
    ensures RemoveId(a, id) == a
    decreases |a|
  {
    if |a| > 0 {
      assert a[0] in a;
      assert forall p :: p in a[1..] ==> p in a;
      RemoveIdAbsent(a[1..], id);
    }
  }

  /** Filtering twice is filtering once. */
  lemma RemoveIdTwice(a: seq<UserPreset>, id: string)
    ensures RemoveId(RemoveId(a, id), id) == RemoveId(a, id)
  {
    RemoveIdAbsent(RemoveId(a, id), id);
  }

  /**
   * `deleteUserPreset`: load, drop every preset with the id, save. The
   * environment's list afterwards holds exactly the presets with other ids.
   */
  function DeleteUserPreset(storage: Storage, inVscode: bool, id: string, writable: bool): (r: Storage)
    ensures writable ==> Load(r, inVscode) == RemoveId(Load(storage, inVscode), id)
    ensures writable ==> forall p :: p in Load(r, inVscode) <==> p in Load(storage, inVscode) && p.id != id
  {
    SaveLoad(storage, inVscode, RemoveId(Load(storage, inVscode), id));
    Save(storage, inVscode, RemoveId(Load(storage, inVscode), id), writable)
  }

  /**
   * The id is only as fine as the clock: two presets created in the same
   * millisecond share an id, and deleting one deletes both.
   */
  lemma SameMillisecondDelete(storage: Storage, inVscode: bool, a: ViewPreset, b: ViewPreset, now: nat, iso: string)
    ensures var p := CreateUserPreset(a.name, a.description, a.settings, a.viewOptions, a.overlayDefaults, now, iso);
      var q := CreateUserPreset(b.name, b.description, b.settings, b.viewOptions, b.overlayDefaults, now, iso);
      var s := Save(storage, inVscode, [p, q], true);
      p.id == q.id && Load(DeleteUserPreset(s, inVscode, p.id, true), inVscode) == []
  {
    var p := CreateUserPreset(a.name, a.description, a.settings, a.viewOptions, a.overlayDefaults, now, iso);
    var q := CreateUserPreset(b.name, b.description, b.settings, b.viewOptions, b.overlayDefaults, now, iso);
    var s := Save(storage, inVscode, [p, q], true);
    SaveLoad(storage, inVscode, [p, q]);
    assert RemoveId([p, q], p.id) == [];
  }
}
