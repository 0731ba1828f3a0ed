/**
 * The React viewer's application state (`useAppState`): the settings
 * record with its defaults and the initial values of every signal.
 */
module AppState {
  import opened Common
  import opened ViewerSlots

  /**
   * Which top-level menus are shown. The declared type has every key, but
   * a caller's record may omit some, so a key is `None` where absent.
   */
  datatype MenuItems = MenuItems(home: Option<bool>, addImage: Option<bool>, view: Option<bool>, zoom: Option<bool>,
                                 colorScale: Option<bool>, overlay: Option<bool>, header: Option<bool>)

  datatype NiiVueSettings = NiiVueSettings(
    showCrosshairs: bool,
    interpolation: bool,
    colorbar: bool,
    radiologicalConvention: bool,
    zoomDragMode: bool,
    defaultVolumeColormap: string,
    defaultOverlayColormap: string,
    defaultMeshOverlayColormap: string,
    menuItems: Option<MenuItems>)

  const AllMenuItems := MenuItems(Some(true), Some(true), Some(true), Some(true), Some(true), Some(true), Some(true))

  /** `defaultSettings`. */
  const DefaultSettings := NiiVueSettings(true, true, false, false, false, "gray", "redyell", "hsv", Some(AllMenuItems))

  /** `{...a, ...b}` on one key: `b`'s value when it has one. */
  function Over<T>(a: Option<T>, b: Option<T>): (r: Option<T>)
    ensures b.Some? ==> r == b
    ensures b.None? ==> r == a
  {
    if b.Some? then b else a
  }

  /** `{...base, ...given}` on menu items: key by key, a given key wins. */
  function MergeMenuItems(base: MenuItems, given: MenuItems): MenuItems
  {
    MenuItems(Over(base.home, given.home), Over(base.addImage, given.addImage), Over(base.view, given.view),
              Over(base.zoom, given.zoom), Over(base.colorScale, given.colorScale), Over(base.overlay, given.overlay),
              Over(base.header, given.header))
  }

  /** A menu item record in which every key is present. */
  predicate Complete(m: MenuItems)
  {
    m.home.Some? && m.addImage.Some? && m.view.Some? && m.zoom.Some?
    && m.colorScale.Some? && m.overlay.Some? && m.header.Some?
  }

  /**
   * `{...defaultSettings, ...initialSettings, menuItems: {...}}`: every field
   * the caller gives wins, and the menu items are merged key by key over
   * the defaults' rather than replaced.
   */
  function MergeSettings(initial: NiiVueSettings): (r: NiiVueSettings)
    ensures r.(menuItems := initial.menuItems) == initial
    ensures r.menuItems.Some? && Complete(r.menuItems.value)
  {
    var given := if initial.menuItems.Some? then initial.menuItems.value else MenuItems(None, None, None, None, None, None, None);
    initial.(menuItems := Some(MergeMenuItems(AllMenuItems, given)))
  }

  /**
   * The merge keeps every given field and every given menu key, shows a
   * menu whose key is missing, always yields a complete menu record, and
   * merging again changes nothing.
   */
  lemma MergeSettingsKeeps(initial: NiiVueSettings)
    ensures MergeSettings(initial).(menuItems := initial.menuItems) == initial
    ensures MergeSettings(initial).menuItems.Some? && Complete(MergeSettings(initial).menuItems.value)
    ensures initial.menuItems.Some? && Complete(initial.menuItems.value) ==> MergeSettings(initial) == initial
    ensures initial.menuItems.Some? && initial.menuItems.value.home.Some? ==>
      MergeSettings(initial).menuItems.value.home == initial.menuItems.value.home
    ensures initial.menuItems.Some? && initial.menuItems.value.home.None? ==>
      MergeSettings(initial).menuItems.value.home == Some(true)
    ensures initial.menuItems.None? ==> MergeSettings(initial).menuItems == DefaultSettings.menuItems
    ensures MergeSettings(MergeSettings(initial)) == MergeSettings(initial)
  {
  }

  datatype SelectionMode = NoSelection | SingleSelection | MultipleSelection

  /** The signals of `AppProps` as `useAppState` creates them. */
  datatype AppInit = AppInit(
    slots: seq<Slot>,
    selection: seq<nat>,
    selectionMode: SelectionMode,
    hideUI: int,
    sliceType: SliceType,
    location: string,
    settings: NiiVueSettings,
    syncedIndices: set<nat>)

  /**
   * `useAppState(initialSettings)`: no viewers, nothing selected, the whole
   * UI shown (3), all views, no location, the merged settings, nothing
   * synchronised.
   */
  function UseAppState(initial: NiiVueSettings): (r: AppInit)
    ensures r.slots == [] && r.selection == [] && r.selectionMode == NoSelection && r.syncedIndices == {}
    ensures r.hideUI == 3 && r.sliceType == Multiplanar && r.location == ""
    ensures r.settings.(menuItems := initial.menuItems) == initial
    ensures r.settings.menuItems.Some? && Complete(r.settings.menuItems.value)
  {
    MergeSettingsKeeps(initial);
    AppInit([], [], NoSelection, 3, Multiplanar, "", MergeSettings(initial), {})
  }
}
