/**
 * The interface's key handler (`useKeyboardShortcuts`): a window
 * listener, installed while shortcuts are enabled, that runs at most one
 * handler per key press — the first in a fixed order whose shortcut
 * matches and whose handler is given — and prevents the browser's
 * default exactly when it runs one.
 */
module KeyboardDispatch {
  import opened Common
  import opened KeyboardShortcuts

  /** The order in which the handler tests the shortcuts; each name is also its handler's name. */
  const Order: seq<ShortcutName> := [
    ViewAxial, ViewSagittal, ViewCoronal, ViewRender, ViewMultiplanar, ViewMultiplanarTimeseries,
    CycleViewMode, CycleClipPlane, VolumeNext, VolumePrev,
    ResetView, ToggleInterpolation, ToggleColorbar, ToggleRadiological, ToggleCrosshair, ToggleZoomMode,
    AddImage, AddOverlay, Colorscale, HideUI, ShowHeader, CrosshairSuperior, CrosshairInferior]

  /**
   * The table entry a branch tests: the interface's entry when it has
   * one, else the library's (the four view and volume keys). It is the
   * entry the combined table `ALL_SHORTCUTS` holds.
   */
  function Bound(a: ShortcutName): (r: Shortcut)
    ensures a in UiShortcuts || a in CoreShortcuts ==> a in AllShortcuts && r == AllShortcuts[a]
  {
    if a in UiShortcuts then UiShortcuts[a]
    else if a in CoreShortcuts then CoreShortcuts[a]
    else Shortcut("", false, false, false, false)
  }

  /** Every branch tests a real table entry, the one the combined table holds. */
  lemma OrderInTables()
    ensures forall a :: a in Order ==> a in AllShortcuts && Bound(a) == AllShortcuts[a]
  {
    forall a | a in Order
      ensures a in UiShortcuts || a in CoreShortcuts
    {
    }
  }

  /** The branches that fire on `e`: their shortcut matches and their handler is given. */
  function Firing(handlers: set<ShortcutName>, e: KeyEvent): (r: set<ShortcutName>)
    ensures forall a :: a in r <==> a in handlers && Matches(e, Bound(a))
  {
    set a | a in handlers && Matches(e, Bound(a))
  }

  /** The first name in `order` that is in `firing`. */
  function FirstIn(order: seq<ShortcutName>, firing: set<ShortcutName>): (r: Option<ShortcutName>)
    ensures r.None? <==> forall a :: a in order ==> a !in firing
    ensures r.Some? ==> r.value in order && r.value in firing
  {
    if |order| == 0 then None
    else if order[0] in firing then Some(order[0])
    else
      assert forall a :: a in order ==> a == order[0] || a in order[1..];
      FirstIn(order[1..], firing)
  }

  /** The name at `k` is chosen when it is in `firing` and none before it is. */
  lemma {:induction false} FirstInIsFirst(order: seq<ShortcutName>, firing: set<ShortcutName>, k: nat)
    requires k < |order| && order[k] in firing
    requires forall i :: 0 <= i < k ==> order[i] !in firing
    ensures FirstIn(order, firing) == Some(order[k])
    decreases k
  {
    if k > 0 {
      assert order[0] !in firing;
      FirstInIsFirst(order[1..], firing, k - 1);
    }
  }

  /** A prefix none of whose names fire is passed over. */
  lemma {:induction false} FirstInAfter(p: seq<ShortcutName>, q: seq<ShortcutName>, firing: set<ShortcutName>)
    requires forall a :: a in p ==> a !in firing
    ensures FirstIn(p + q, firing) == FirstIn(q, firing)
    decreases |p|
  {
    if |p| == 0 {
      assert p + q == q;
    } else {
      assert p[0] in p && (p + q)[0] == p[0];
      assert forall a :: a in p[1..] ==> a in p;
      assert (p + q)[1..] == p[1..] + q;
      assert FirstIn(p + q, firing) == FirstIn((p + q)[1..], firing);
      FirstInAfter(p[1..], q, firing);
    }
  }

  /** A one-character key matches only a one-character key of the same letter, ignoring case. */
  lemma SingleKeyMatch(e: KeyEvent, s: Shortcut)
    requires |e.key| == 1 && Matches(e, s)
    ensures |s.key| == 1 && LowerChar(s.key[0]) == LowerChar(e.key[0])
  {
    assert Lower(e.key)[0] == Lower(s.key)[0];
  }

  /** The element that identifies a typing target. */
  datatype Target = Target(tagName: string, isContentEditable: bool)

  /** Key presses in text inputs, text areas and editable elements are left to the element. */
  predicate IsTyping(t: Target)
    ensures t.isContentEditable ==> IsTyping(t)
    ensures !t.isContentEditable && t.tagName in {"SELECT", "BUTTON", "CANVAS", "DIV", "input"} ==> !IsTyping(t)
  {
    t.tagName == "INPUT" || t.tagName == "TEXTAREA" || t.isContentEditable
  }

  /** The handler one key press runs, if any. */
  function Dispatch(e: KeyEvent, t: Target, handlers: set<ShortcutName>): (r: Option<ShortcutName>)
    ensures IsTyping(t) ==> r.None?
    ensures r.Some? ==> r.value in handlers && Matches(e, Bound(r.value)) && r.value in Order
  {
    if IsTyping(t) then None else FirstIn(Order, Firing(handlers, e))
  }

  /**
   * The listener and what it has done: `invoked` lists the handlers run,
   * in order, and `prevented` counts the `preventDefault` calls.
   */
  class ShortcutListener {
    var installed: bool
    var invoked: seq<ShortcutName>
    var prevented: nat

    constructor ()
      ensures !installed && invoked == [] && prevented == 0
    {
      installed := false;
      invoked := [];
      prevented := 0;
    }

    /** The effect: any earlier listener is removed, and a new one is added only when enabled. */
    method Mount(enabled: bool)
      modifies this
      ensures installed == enabled && invoked == old(invoked) && prevented == old(prevented)
    {
      installed := enabled;
    }

    /** The effect's cleanup removes the listener. */
    method Cleanup()
      modifies this
      ensures !installed && invoked == old(invoked) && prevented == old(prevented)
    {
      installed := false;
    }

    /**
     * A key press: with no listener nothing happens; otherwise at most one
     * handler runs, and the default is prevented exactly when one does.
     */
    method KeyDown(e: KeyEvent, t: Target, handlers: set<ShortcutName>) returns (defaultPrevented: bool)
      modifies this
      ensures installed == old(installed)
      ensures var a := if installed then Dispatch(e, t, handlers) else None;
        && (defaultPrevented <==> a.Some?)
        && invoked == old(invoked) + (if a.Some? then [a.value] else [])
        && prevented == old(prevented) + (if a.Some? then 1 else 0)
    {
      defaultPrevented := false;
      if !installed {
        return;
      }
      var a := Dispatch(e, t, handlers);
      if a.Some? {
        prevented := prevented + 1;
        invoked := invoked + [a.value];
        defaultPrevented := true;
      }
    }
  }

  /** The branches before the hide-interface one. */
  const BeforeHideUI: seq<ShortcutName> := [
    ViewAxial, ViewSagittal, ViewCoronal, ViewRender, ViewMultiplanar, ViewMultiplanarTimeseries,
    CycleViewMode, CycleClipPlane, VolumeNext, VolumePrev,
    ResetView, ToggleInterpolation, ToggleColorbar, ToggleRadiological, ToggleCrosshair, ToggleZoomMode,
    AddImage, AddOverlay, Colorscale]

  lemma OrderSplit()
    ensures Order == BeforeHideUI + [HideUI, ShowHeader] + [CrosshairSuperior, CrosshairInferior]
    ensures HideUI !in BeforeHideUI && CrosshairSuperior !in BeforeHideUI + [HideUI, ShowHeader]
  {
  }

  /** A key that reads as the letter U in either case. */
  predicate IsUKey(k: string)
  {
    |k| == 1 && LowerChar(k[0]) == 'u'
  }

  /** The keys that read as U are exactly "u" and "U". */
  lemma UKeyIsU(k: string)
    ensures IsUKey(k) <==> k == "u" || k == "U"
  {
    if IsUKey(k) {
      assert k == [k[0]];
    }
  }

  /** Only the hide-interface and superior-crosshair entries of the interface's table are bound to U. */
  lemma UiUKeys()
    ensures forall n :: n in UiShortcuts && IsUKey(UiShortcuts[n].key) ==> n == HideUI || n == CrosshairSuperior
  {
    UiNames();
    UiViewKeys();
    UiToggleKeys();
    UiToolKeys();
    forall n | n in UiShortcuts && IsUKey(UiShortcuts[n].key)
      ensures n == HideUI || n == CrosshairSuperior
    {
      UKeyIsU(UiShortcuts[n].key);
    }
  }

  /** The six view entries of the interface's table are bound to digits. */
  lemma UiViewKeys()
    ensures forall n ::
      n in UiShortcuts &&
        (n.ViewAxial? || n.ViewSagittal? || n.ViewCoronal? || n.ViewRender? || n.ViewMultiplanar?
           || n.ViewMultiplanarTimeseries?)
      ==> UiShortcuts[n].key != "u" && UiShortcuts[n].key != "U"
  {
  }

  /** The reset and toggle entries are bound to letters other than U. */
  lemma UiToggleKeys()
    ensures forall n ::
      n in UiShortcuts &&
        (n.ResetView? || n.ToggleInterpolation? || n.ToggleColorbar? || n.ToggleRadiological?
           || n.ToggleCrosshair? || n.ToggleZoomMode?)
      ==> UiShortcuts[n].key != "u" && UiShortcuts[n].key != "U"
  {
  }

  /** So are the remaining entries, except hiding the interface and the superior crosshair. */
  lemma UiToolKeys()
    ensures forall n ::
      n in UiShortcuts &&
        (n.AddImage? || n.AddOverlay? || n.Colorscale? || n.ShowHeader? || n.CrosshairInferior?)
      ==> UiShortcuts[n].key != "u" && UiShortcuts[n].key != "U"
  {
  }

  /** Only the superior-crosshair entry of the library's table is bound to U. */
  lemma CoreUKeys()
    ensures forall n :: n in CoreShortcuts && IsUKey(CoreShortcuts[n].key) ==> n == CrosshairSuperior
  {
    CoreNames();
  }

  /** Only the hide-interface and superior-crosshair branches test for U. */
  lemma BoundUKeys(a: ShortcutName)
    requires IsUKey(Bound(a).key)
    ensures a == HideUI || a == CrosshairSuperior
  {
    UiUKeys();
    CoreUKeys();
  }

  /**
   * A plain U (no modifier, either case) outside a text field reaches the
   * hide-interface handler whenever it is given; Shift+U does not, because
   * the Shift flag must match exactly, and reaches the crosshair handler instead.
   */
  lemma {:induction false} UKeyDispatch(key: string, t: Target, handlers: set<ShortcutName>)
    requires key == "u" || key == "U"
    requires !IsTyping(t) && HideUI in handlers && CrosshairSuperior in handlers
    ensures Dispatch(KeyEvent(key, false, false, false, false), t, handlers) == Some(HideUI)
    ensures Dispatch(KeyEvent(key, false, false, true, false), t, handlers) == Some(CrosshairSuperior)
  {
    PlainUDispatch(key, t, handlers);
    ShiftUDispatch(key, t, handlers);
  }

  /** The two entries bound to U: plain for hiding the interface, with Shift for the superior crosshair. */
  lemma BoundU()
    ensures Bound(HideUI) == Ui("u", false, false) && Bound(CrosshairSuperior) == Ui("u", false, true)
  {
  }

  /** A plain U fires the hide-interface entry and nothing else. */
  lemma PlainUFiring(key: string, handlers: set<ShortcutName>)
    requires key == "u" || key == "U"
    requires HideUI in handlers
    ensures var p := Firing(handlers, KeyEvent(key, false, false, false, false));
      HideUI in p && forall a :: a in p ==> a == HideUI
  {
    var plain := KeyEvent(key, false, false, false, false);
    var p := Firing(handlers, plain);
    assert IsUKey(key);
    BoundU();
    forall a | a in p
      ensures a == HideUI
    {
      SingleKeyMatch(plain, Bound(a));
      BoundUKeys(a);
    }
    assert Lower(key) == "u";
  }

  /** Shift+U fires the superior-crosshair entry and nothing else. */
  lemma ShiftUFiring(key: string, handlers: set<ShortcutName>)
    requires key == "u" || key == "U"
    requires CrosshairSuperior in handlers
    ensures var s := Firing(handlers, KeyEvent(key, false, false, true, false));
      CrosshairSuperior in s && forall a :: a in s ==> a == CrosshairSuperior
  {
    var shifted := KeyEvent(key, false, false, true, false);
    var s := Firing(handlers, shifted);
    assert IsUKey(key);
    BoundU();
    forall a | a in s
      ensures a == CrosshairSuperior
    {
      SingleKeyMatch(shifted, Bound(a));
      BoundUKeys(a);
    }
    assert Lower(key) == "u";
  }

  /** A plain U fires the hide-interface entry, and the superior-crosshair one does not. */
  lemma {:induction false} PlainUDispatch(key: string, t: Target, handlers: set<ShortcutName>)
    requires key == "u" || key == "U"
    requires !IsTyping(t) && HideUI in handlers && CrosshairSuperior in handlers
    ensures Dispatch(KeyEvent(key, false, false, false, false), t, handlers) == Some(HideUI)
  {
    var p := Firing(handlers, KeyEvent(key, false, false, false, false));
    PlainUFiring(key, handlers);
    OrderSplit();
    var rest := [HideUI, ShowHeader] + [CrosshairSuperior, CrosshairInferior];
    forall a | a in BeforeHideUI
      ensures a !in p
    {
      assert a != HideUI;
    }
    FirstInAfter(BeforeHideUI, rest, p);
    assert rest[0] == HideUI && FirstIn(rest, p) == Some(HideUI);
  }

  /** Shift+U fires only the superior-crosshair entry, which comes after every entry before it in the order. */
  lemma {:induction false} ShiftUDispatch(key: string, t: Target, handlers: set<ShortcutName>)
    requires key == "u" || key == "U"
    requires !IsTyping(t) && HideUI in handlers && CrosshairSuperior in handlers
    ensures Dispatch(KeyEvent(key, false, false, true, false), t, handlers) == Some(CrosshairSuperior)
  {
    var s := Firing(handlers, KeyEvent(key, false, false, true, false));
    ShiftUFiring(key, handlers);
    OrderSplit();
    var prefix := BeforeHideUI + [HideUI, ShowHeader];
    var tail := [CrosshairSuperior, CrosshairInferior];
    forall a | a in prefix
      ensures a !in s
    {
      assert a != CrosshairSuperior;
    }
    FirstInAfter(prefix, tail, s);
    assert FirstIn(tail, s) == Some(CrosshairSuperior);
  }
}
