/**
 * The keyboard shortcut tables: the keys the viewer library handles
 * itself, the keys the interface handles, how a shortcut is written for
 * display, and when a key event matches one.
 */
module KeyboardShortcuts {
  import opened Common

  /** The names the two tables use as keys. */
  datatype ShortcutName =
    | CycleViewMode | CycleClipPlane | VolumeNext | VolumePrev
    | CrosshairRight | CrosshairLeft | CrosshairAnterior | CrosshairPosterior
    | CrosshairSuperior | CrosshairInferior
    | ViewAxial | ViewSagittal | ViewCoronal | ViewRender | ViewMultiplanar | ViewMultiplanarTimeseries
    | ResetView | ToggleInterpolation | ToggleColorbar | ToggleRadiological | ToggleCrosshair | ToggleZoomMode
    | AddImage | AddOverlay | Colorscale | HideUI | ShowHeader

  /** A shortcut; a modifier left out of the source's record is false here. */
  datatype Shortcut = Shortcut(key: string, ctrl: bool, shift: bool, alt: bool, isNiivueCore: bool)

  function Core(key: string, ctrl: bool): Shortcut { Shortcut(key, ctrl, false, false, true) }

  function Ui(key: string, ctrl: bool, shift: bool): Shortcut { Shortcut(key, ctrl, shift, false, false) }

  /** `NIIVUE_CORE_SHORTCUTS`: the keys the viewer library handles. */
  const CoreShortcuts: map<ShortcutName, Shortcut> := map[
    CycleViewMode := Core("v", false),
    CycleClipPlane := Core("c", false),
    VolumeNext := Core("ArrowRight", false),
    VolumePrev := Core("ArrowLeft", false),
    CrosshairRight := Core("l", false),
    CrosshairLeft := Core("h", false),
    CrosshairAnterior := Core("k", false),
    CrosshairPosterior := Core("j", false),
    CrosshairSuperior := Core("u", true),
    CrosshairInferior := Core("d", true)]

  /** `UI_SHORTCUTS`: the keys the interface handles. */
  const UiShortcuts: map<ShortcutName, Shortcut> := map[
    ViewAxial := Ui("1", false, false),
    ViewSagittal := Ui("2", false, false),
    ViewCoronal := Ui("3", false, false),
    ViewRender := Ui("4", false, false),
    ViewMultiplanar := Ui("5", false, false),
    ViewMultiplanarTimeseries := Ui("6", false, false),
    ResetView := Ui("r", false, false),
    ToggleInterpolation := Ui("i", false, false),
    ToggleColorbar := Ui("b", false, false),
    ToggleRadiological := Ui("x", false, false),
    ToggleCrosshair := Ui("m", false, false),
    ToggleZoomMode := Ui("z", false, false),
    AddImage := Ui("o", true, false),
    AddOverlay := Ui("l", true, false),
    Colorscale := Ui("s", false, false),
    HideUI := Ui("u", false, false),
    ShowHeader := Ui("h", true, false),
    CrosshairSuperior := Ui("u", false, true),
    CrosshairInferior := Ui("d", false, true)]

  /** `ALL_SHORTCUTS = {...core, ...ui}`: a name in both tables takes the interface's entry. */
  const AllShortcuts: map<ShortcutName, Shortcut> := CoreShortcuts + UiShortcuts

  /** Every core entry is flagged as the library's. */
  lemma CoreShortcutsFlagged()
    ensures forall n :: n in CoreShortcuts ==> CoreShortcuts[n].isNiivueCore
  {
  }

  /** No interface entry is flagged as the library's. */
  lemma UiShortcutsNotFlagged()
    ensures forall n :: n in UiShortcuts ==> !UiShortcuts[n].isNiivueCore
  {
  }

  /** Only the two crosshair names are in both tables. */
  lemma SharedShortcutNames()
    ensures forall n :: n in CoreShortcuts && n in UiShortcuts ==> n == CrosshairSuperior || n == CrosshairInferior
  {
    CoreNames();
    UiNames();
  }

  /** The names of the interface's table. */
  lemma UiNames()
    ensures forall n :: n in UiShortcuts ==>
      n.ViewAxial? || n.ViewSagittal? || n.ViewCoronal? || n.ViewRender? || n.ViewMultiplanar?
      || n.ViewMultiplanarTimeseries? || n.ResetView? || n.ToggleInterpolation? || n.ToggleColorbar?
      || n.ToggleRadiological? || n.ToggleCrosshair? || n.ToggleZoomMode? || n.AddImage? || n.AddOverlay?
      || n.Colorscale? || n.HideUI? || n.ShowHeader? || n.CrosshairSuperior? || n.CrosshairInferior?
  {
  }

  /** The names of the library's table. */
  lemma CoreNames()
    ensures forall n :: n in CoreShortcuts ==>
      n.CycleViewMode? || n.CycleClipPlane? || n.VolumeNext? || n.VolumePrev? || n.CrosshairRight? || n.CrosshairLeft?
      || n.CrosshairAnterior? || n.CrosshairPosterior? || n.CrosshairSuperior? || n.CrosshairInferior?
  {
  }

  /**
   * In the combined table the two shared names take the interface's
   * entries, Shift+U and Shift+D, in place of the library's Ctrl+U and Ctrl+D.
   */
  lemma AllShortcutsOverride()
    ensures AllShortcuts[CrosshairSuperior] == Shortcut("u", false, true, false, false)
    ensures CoreShortcuts[CrosshairSuperior] == Shortcut("u", true, false, false, true)
    ensures AllShortcuts[CrosshairInferior] == Shortcut("d", false, true, false, false)
    ensures CoreShortcuts[CrosshairInferior] == Shortcut("d", true, false, false, true)
  {
  }

  // ---- display ----

  /** The modifier words, in the order Ctrl, Shift, Alt. */
  function Modifiers(s: Shortcut): (r: seq<string>)
    ensures |r| <= 3
  {
    (if s.ctrl then ["Ctrl"] else []) + (if s.shift then ["Shift"] else []) + (if s.alt then ["Alt"] else [])
  }

  /** The key as displayed: a leading "Arrow" dropped, then a single character upper-cased. */
  function DisplayKey(key: string): (r: string)
    ensures StartsWith(key, "Arrow") && |key| != 6 ==> r == key[5..]
    ensures !StartsWith(key, "Arrow") && |key| != 1 ==> r == key
    ensures |r| == 1 ==> r[0] == UpperChar(if StartsWith(key, "Arrow") then key[5] else key[0])
  {
    var k := if StartsWith(key, "Arrow") then key[5..] else key;
    if |k| == 1 then Upper(k) else k
  }

  /** `formatShortcut`: the modifiers and the key joined by '+'. */
  function FormatShortcut(s: Shortcut): (r: string)
    ensures EndsWith(r, DisplayKey(s.key))
    ensures s.ctrl ==> StartsWith(r, "Ctrl+")
    ensures !s.ctrl && !s.shift && !s.alt ==> r == DisplayKey(s.key)
  {
    var parts := Modifiers(s) + [DisplayKey(s.key)];
    JoinEndsWithLast(parts, "+");
    Join(parts, "+")
  }

  /**
   * The display text splits back on '+' into the modifiers, in order, and
   * the displayed key, for any key that has no '+' itself.
   */
  lemma {:induction false} FormatShortcutParts(s: Shortcut)
    requires '+' !in s.key
    ensures Split(FormatShortcut(s), '+') == Modifiers(s) + [DisplayKey(s.key)]
  {
    var parts := Modifiers(s) + [DisplayKey(s.key)];
    var d := DisplayKey(s.key);
    assert '+' !in d;
    assert "Ctrl"[0] != '+' && "Ctrl"[1] != '+' && "Ctrl"[2] != '+' && "Ctrl"[3] != '+';
    assert forall i :: 0 <= i < |parts| ==> '+' !in parts[i];
    SplitJoin(parts, '+');
  }

  /** A lower-case letter with Ctrl displays as "Ctrl+" and the capital, as in Ctrl+O. */
  lemma FormatCtrlLetter(c: char, core: bool)
    requires IsLowerAscii(c)
    ensures FormatShortcut(Shortcut([c], true, false, false, core)) == "Ctrl+" + [UpperChar(c)]
  {
    var s := Shortcut([c], true, false, false, core);
    assert !StartsWith([c], "Arrow");
    assert Upper([c]) == [UpperChar(c)];
    var parts := Modifiers(s) + [DisplayKey(s.key)];
    assert parts == ["Ctrl", [UpperChar(c)]];
    assert parts[1..] == [[UpperChar(c)]];
    assert Join(parts, "+") == "Ctrl" + "+" + [UpperChar(c)];
  }

  /** An arrow key displays without "Arrow": ArrowRight shows as "Right". */
  lemma FormatArrow(rest: string, core: bool)
    requires |rest| > 1
    ensures FormatShortcut(Shortcut("Arrow" + rest, false, false, false, core)) == rest
  {
    var key := "Arrow" + rest;
    assert key[..5] == "Arrow" && key[5..] == rest;
  }

  // ---- matching ----

  /** The fields of a `KeyboardEvent` the matcher reads. */
  datatype KeyEvent = KeyEvent(key: string, ctrlKey: bool, metaKey: bool, shiftKey: bool, altKey: bool)

  /**
   * `matchesShortcut`: the keys agree ignoring case, Ctrl or Meta is held
   * exactly when the shortcut asks for Ctrl, and Shift and Alt are held
   * exactly when it asks for them.
   */
  predicate Matches(e: KeyEvent, s: Shortcut)
    ensures Matches(e, s) ==> |e.key| == |s.key|
    ensures Matches(e, s) ==> forall i :: 0 <= i < |s.key| ==> LowerChar(e.key[i]) == LowerChar(s.key[i])
  {
    && Lower(e.key) == Lower(s.key)
    && s.ctrl == (e.ctrlKey || e.metaKey)
    && s.shift == e.shiftKey
    && s.alt == e.altKey
  }

  lemma LowerUpper(k: string)
    ensures Lower(Upper(k)) == Lower(k)
  {
    assert forall i :: 0 <= i < |k| ==> LowerChar(UpperChar(k[i])) == LowerChar(k[i]);
  }

  /**
   * Matching ignores the case of the event's key, treats Meta as Ctrl,
   * and fails whenever a modifier differs from the shortcut's.
   */
  lemma MatchesProperties(e: KeyEvent, s: Shortcut)
    ensures Matches(e.(key := Upper(e.key)), s) == Matches(e, s)
    ensures Matches(e.(ctrlKey := false, metaKey := true), s) == Matches(e.(ctrlKey := true, metaKey := false), s)
    ensures e.shiftKey != s.shift || e.altKey != s.alt || (e.ctrlKey || e.metaKey) != s.ctrl ==> !Matches(e, s)
  {
    LowerUpper(e.key);
  }
}
