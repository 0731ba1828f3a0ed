/**
 * The menu bar's building blocks (`MenuElements`): one global "active
 * menu" that names the open dropdown, the click rules of entries, menu
 * buttons, dropdown arrows and the image selector, and `toggle`.
 */
module MenuElements {
  import opened Common

  /**
   * The dropdown arrow: it opens its own menu, or closes it when it is the
   * one open. Opening one menu closes any other.
   */
  function Toggled(active: Option<string>, menu: string): (r: Option<string>)
    ensures r == Some(menu) <==> active != Some(menu)
    ensures forall other :: other != menu ==> r != Some(other)
  {
    if active == Some(menu) then None else Some(menu)
  }

  /**
   * Two clicks on the same arrow restore the menu state when that menu or
   * none was open, and close everything when another menu was open.
   */
  lemma ToggledTwice(active: Option<string>, menu: string)
    ensures active.None? || active == Some(menu) ==> Toggled(Toggled(active, menu), menu) == active
    ensures active.Some? && active != Some(menu) ==> Toggled(Toggled(active, menu), menu).None?
  {
  }

  /** Where a window click landed: inside a menu group, a dialog, or a dropdown arrow. */
  datatype ClickTarget = ClickTarget(inGroup: bool, inDialog: bool, onDropdownArrow: bool)

  /** The window listener closes the menus only for a click outside all three. */
  predicate ClosesMenus(t: ClickTarget)
  {
    !t.inGroup && !t.inDialog && !t.onDropdownArrow
  }

  /**
   * The menu state: `activeMenu`, and `ran`, the labels whose click
   * handlers have run, in order.
   */
  class MenuBar {
    var activeMenu: Option<string>
    var ran: seq<string>

    constructor ()
      ensures activeMenu.None? && ran == []
    {
      activeMenu := None;
      ran := [];
    }

    /** A menu is open exactly when the active menu is its label; so at most one is. */
    predicate IsOpen(menu: string)
      reads this
    {
      activeMenu == Some(menu)
    }

    /** The window's click listener. */
    method WindowClick(t: ClickTarget)
      modifies this
      ensures activeMenu == (if ClosesMenus(t) then None else old(activeMenu))
      ensures ran == old(ran)
    {
      if ClosesMenus(t) {
        activeMenu := None;
      }
    }

    /** `MenuEntry`: its handler runs, then the menu closes unless the entry keeps it open. */
    method EntryClick(menu: string, keepOpen: bool)
      modifies this
      ensures ran == old(ran) + [menu]
      ensures activeMenu == (if keepOpen then old(activeMenu) else None)
    {
      ran := ran + [menu];
      if !keepOpen {
        activeMenu := None;
      }
    }

    /** `MenuItem`'s main button: the menus close first, then its handler runs if it has one. */
    method MainClick(menu: string, hasOnClick: bool)
      modifies this
      ensures activeMenu.None?
      ensures ran == old(ran) + (if hasOnClick then [menu] else [])
    {
      activeMenu := None;
      if hasOnClick {
        ran := ran + [menu];
      }
    }

    /** `MenuItem`'s dropdown arrow; the click does not reach the window listener. */
    method DropdownClick(menu: string)
      modifies this
      ensures activeMenu == Toggled(old(activeMenu), menu)
      ensures ran == old(ran)
    {
      activeMenu := if activeMenu == Some(menu) then None else Some(menu);
    }
  }

  /** A boolean signal. */
  class BoolSignal {
    var value: bool

    constructor (v: bool)
      ensures value == v
    {
      value := v;
    }

    /** `toggle(state)()`: negates the value. */
    method Toggle()
      modifies this
      ensures value == !old(value)
    {
      value := !value;
    }
  }

  /** `ImageSelect`'s main button: the menus close and the state flips. */
  method ImageSelectMain(bar: MenuBar, state: BoolSignal)
    modifies bar, state
    ensures bar.activeMenu.None? && bar.ran == old(bar.ran)
    ensures state.value == !old(state.value)
  {
    bar.activeMenu := None;
    state.Toggle();
  }

  /** `ImageSelect`'s dropdown arrow: its menu toggles and the state becomes true. */
  method ImageSelectDropdown(bar: MenuBar, menu: string, state: BoolSignal)
    modifies bar, state
    ensures bar.activeMenu == Toggled(old(bar.activeMenu), menu) && bar.ran == old(bar.ran)
    ensures state.value
  {
    bar.DropdownClick(menu);
    state.value := true;
  }
}
