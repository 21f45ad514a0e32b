/** The mobile navigation menu (`toggleMobileMenu`, `closeMobileMenu` and the
    handlers that call the latter). Being open is one fact the page shows in
    four places: the `active` class on the menu button and on the links
    list, the body's `overflow` style and the button's `aria-expanded`. */
module MobileMenu {
  import opened Wrappers

  /** Above this window width a resize closes the menu. */
  const DesktopWidth := 768

  datatype MenuView = MenuView(
    buttonActive: bool,
    linksActive: bool,
    bodyOverflow: string,
    ariaExpanded: Option<string>)

  /** The four presentation attributes all say the same thing. */
  predicate InSync(m: MenuView) {
    && m.buttonActive == m.linksActive
    && m.bodyOverflow == (if m.linksActive then "hidden" else "")
    && m.ariaExpanded == Some(if m.linksActive then "true" else "false")
  }

  /** `toggleMobileMenu`: both classes flip independently; overflow and
      aria-expanded then follow the links list. */
  function Toggled(m: MenuView): (r: MenuView)
    ensures r.buttonActive == !m.buttonActive && r.linksActive == !m.linksActive
    ensures r.bodyOverflow == (if r.linksActive then "hidden" else "")
    ensures r.ariaExpanded == Some(if r.linksActive then "true" else "false")
    ensures InSync(m) ==> InSync(r)
  {
    var links := !m.linksActive;
    MenuView(!m.buttonActive, links, if links then "hidden" else "",
             Some(if links then "true" else "false"))
  }

  /** Toggling twice restores any view whose derived attributes follow the links list. */
  lemma ToggleTwice(m: MenuView)
    requires InSync(m)
    ensures Toggled(Toggled(m)) == m
  {
  }

  /** `closeMobileMenu`: every attribute is set to its closed value, so the
      result is closed and in sync whatever came before. */
  function Closed(m: MenuView): (r: MenuView)
    ensures InSync(r) && !r.linksActive && !r.buttonActive
  {
    MenuView(false, false, "", Some("false"))
  }

  /** Closing an already closed menu changes nothing. */
  lemma CloseIdempotent(m: MenuView)
    ensures Closed(Closed(m)) == Closed(m)
  {
  }

  /** A key press: Escape closes the menu; no key opens it. */
  function OnKey(m: MenuView, key: string): (r: MenuView)
    ensures key == "Escape" ==> !r.linksActive && !r.buttonActive && InSync(r)
    ensures key != "Escape" ==> r == m
    ensures r.linksActive ==> m.linksActive
    ensures r.buttonActive ==> m.buttonActive
    ensures InSync(m) ==> InSync(r)
  {
    if key == "Escape" then Closed(m) else m
  }

  /** A debounced resize: wider than the desktop width closes the menu. */
  function OnResize(m: MenuView, innerWidth: int): (r: MenuView)
    ensures innerWidth > DesktopWidth ==> !r.linksActive && !r.buttonActive && InSync(r)
    ensures innerWidth <= DesktopWidth ==> r == m
    ensures r.linksActive ==> m.linksActive
    ensures r.buttonActive ==> m.buttonActive
    ensures InSync(m) ==> InSync(r)
  {
    if innerWidth > DesktopWidth then Closed(m) else m
  }

  /** A click anywhere: outside the nav bar (or with no nav bar) it closes the menu. */
  function OnDocumentClick(m: MenuView, insideNav: bool): (r: MenuView)
    ensures !insideNav ==> !r.linksActive && !r.buttonActive && InSync(r)
    ensures insideNav ==> r == m
    ensures r.linksActive ==> m.linksActive
    ensures r.buttonActive ==> m.buttonActive
    ensures InSync(m) ==> InSync(r)
  {
    if insideNav then m else Closed(m)
  }

  /** A click on an in-page anchor whose target exists closes the menu. */
  function OnAnchorClick(m: MenuView, targetExists: bool): (r: MenuView)
    ensures targetExists ==> !r.linksActive && !r.buttonActive && InSync(r)
    ensures !targetExists ==> r == m
    ensures r.linksActive ==> m.linksActive
    ensures InSync(m) ==> InSync(r)
  {
    if targetExists then Closed(m) else m
  }

  class Menu {
    var buttonActive: bool
    var linksActive: bool
    var bodyOverflow: string
    var ariaExpanded: Option<string>
    /** The body's `keyboard-navigation` class. */
    var keyboardNavigation: bool

    function View(): MenuView
      reads this
    {
      MenuView(buttonActive, linksActive, bodyOverflow, ariaExpanded)
    }

    constructor (initial: MenuView, keyboard: bool)
      ensures View() == initial && keyboardNavigation == keyboard
    {
      buttonActive, linksActive := initial.buttonActive, initial.linksActive;
      bodyOverflow, ariaExpanded := initial.bodyOverflow, initial.ariaExpanded;
      keyboardNavigation := keyboard;
    }

    method ToggleMobileMenu()
      modifies this
      ensures View() == Toggled(old(View()))
      ensures keyboardNavigation == old(keyboardNavigation)
    {
      buttonActive := !buttonActive;
      linksActive := !linksActive;
      var isActive := linksActive;
      bodyOverflow := if isActive then "hidden" else "";
      ariaExpanded := Some(if isActive then "true" else "false");
    }

    method CloseMobileMenu()
      modifies this
      ensures View() == Closed(old(View()))
      ensures keyboardNavigation == old(keyboardNavigation)
    {
      buttonActive := false;
      linksActive := false;
      bodyOverflow := "";
      ariaExpanded := Some("false");
    }

    method HandleDocumentClick(insideNav: bool)
      modifies this
      ensures View() == OnDocumentClick(old(View()), insideNav)
      ensures keyboardNavigation == old(keyboardNavigation)
    {
      if !insideNav {
        CloseMobileMenu();
      }
    }

    /** `handleKeyboardNavigation`: Escape closes the menu; Tab marks the body
        as keyboard-navigated. */
    method HandleKeyboardNavigation(key: string)
      modifies this
      ensures View() == OnKey(old(View()), key)
      ensures keyboardNavigation == (old(keyboardNavigation) || key == "Tab")
    {
      if key == "Escape" {
        CloseMobileMenu();
      }
      if key == "Tab" {
        keyboardNavigation := true;
      }
    }

    method HandleResize(innerWidth: int)
      modifies this
      ensures View() == OnResize(old(View()), innerWidth)
      ensures keyboardNavigation == old(keyboardNavigation)
    {
      if innerWidth > DesktopWidth {
        CloseMobileMenu();
      }
    }

    /** The menu part of `handleAnchorClick`; scrolling and history are not modelled. */
    method HandleAnchorClick(targetExists: bool)
      modifies this
      ensures View() == OnAnchorClick(old(View()), targetExists)
      ensures keyboardNavigation == old(keyboardNavigation)
    {
      if targetExists {
        CloseMobileMenu();
      }
    }
  }
}
