/**
 * The mobile hamburger menu (js/main.js:428-464): the toggle button and the
 * menu each carry an "active" class, and the body's `overflow` is set to
 * 'hidden' while the menu is open so that the page behind it cannot scroll.
 */
module MobileMenu {

  /** `document.body.style.overflow`: '' or 'hidden'. */
  datatype Overflow = Unset | Hidden

  /** Where a click lands, as the handlers see it through `contains(e.target)`. */
  datatype ClickTarget =
    | OnToggle      // the toggle button or something inside it
    | OnMenuLink    // one of the `.mobile-nav-links a` links, inside the menu
    | InMenu        // anywhere else inside the menu
    | Elsewhere     // outside both the toggle and the menu

  class Menu {
    /** "active" on the toggle button. */
    var toggleActive: bool
    /** "active" on the menu. */
    var menuActive: bool
    /** The body's inline overflow. */
    var bodyOverflow: Overflow

    ghost predicate Consistent()
      reads this
    {
      ConsistentState(State())
    }

    function State(): MenuState
      reads this
    {
      MenuState(toggleActive, menuActive, bodyOverflow)
    }

    /** The page as loaded: both closed, overflow not set. */
    constructor ()
      ensures !toggleActive && !menuActive && bodyOverflow == Unset
      ensures Consistent()
    {
      toggleActive, menuActive, bodyOverflow := false, false, Unset;
    }

    /**
     * The toggle's click handler (js/main.js:435-445): flips both "active"
     * classes, then locks the body exactly when the menu is now open.
     */
    method ToggleClick()
      modifies this
      ensures toggleActive == !old(toggleActive) && menuActive == !old(menuActive)
      ensures bodyOverflow == Hidden <==> menuActive
      ensures old(Consistent()) ==> Consistent()
    {
      toggleActive := !toggleActive;
      menuActive := !menuActive;
      if menuActive {
        bodyOverflow := Hidden;
      } else {
        bodyOverflow := Unset;
      }
    }

    /** A menu link's click handler (js/main.js:448-454): closes the menu and unlocks the body. */
    method LinkClick()
      modifies this
      ensures !toggleActive && !menuActive && bodyOverflow == Unset
      ensures Consistent()
    {
      toggleActive := false;
      menuActive := false;
      bodyOverflow := Unset;
    }

    /**
     * The document's click handler (js/main.js:457-463): a click outside
     * both the toggle and the menu closes the menu; any other click leaves
     * everything as it is.
     */
    method DocumentClick(inToggle: bool, inMenu: bool)
      modifies this
      ensures !inToggle && !inMenu ==> !toggleActive && !menuActive && bodyOverflow == Unset
      ensures inToggle || inMenu ==>
        toggleActive == old(toggleActive) && menuActive == old(menuActive) && bodyOverflow == old(bodyOverflow)
    {
      if !inToggle && !inMenu {
        toggleActive := false;
        menuActive := false;
        bodyOverflow := Unset;
      }
    }

    /**
     * One click, delivered as the browser does: first to the handler of the
     * element clicked, then, bubbling up, to the document's handler. A click
     * on the toggle flips the menu; a link click or a click outside closes
     * it; a click elsewhere in the menu changes nothing. A consistent menu
     * stays consistent.
     */
    method Click(target: ClickTarget)
      modifies this
      ensures old(Consistent()) ==> Consistent()
      ensures State() == AfterClick(old(State()), target)
    {
      match target
      case OnToggle =>
        ToggleClick();
        DocumentClick(true, false);
      case OnMenuLink =>
        LinkClick();
        DocumentClick(false, true);
      case InMenu =>
        DocumentClick(false, true);
      case Elsewhere =>
        DocumentClick(false, false);
    }
  }

  /** The menu's state as a value: toggle, menu and body lock. */
  datatype MenuState = MenuState(toggleActive: bool, menuActive: bool, bodyOverflow: Overflow)

  /**
   * The effect of one click: a toggle click flips the menu and locks the
   * page exactly when it opens; a link click or an outside click closes it;
   * a click elsewhere inside the menu changes nothing.
   */
  function AfterClick(s: MenuState, target: ClickTarget): (r: MenuState)
    ensures target != InMenu ==> (r.bodyOverflow == Hidden <==> r.menuActive)
    ensures target == OnMenuLink || target == Elsewhere ==> !r.menuActive && !r.toggleActive
    ensures target == OnToggle ==> r.menuActive == !s.menuActive && r.toggleActive == !s.toggleActive
    ensures target == InMenu ==> r == s
  {
    match target
    case OnToggle => MenuState(!s.toggleActive, !s.menuActive, if !s.menuActive then Hidden else Unset)
    case OnMenuLink => MenuState(false, false, Unset)
    case InMenu => s
    case Elsewhere => MenuState(false, false, Unset)
  }

  /** The effect of several clicks, in order. */
  function AfterClicks(s: MenuState, targets: seq<ClickTarget>): MenuState
    decreases |targets|
  {
    if targets == [] then s else AfterClicks(AfterClick(s, targets[0]), targets[1..])
  }

  /** Toggle and menu agree, and the page is locked exactly while the menu is open. */
  predicate ConsistentState(s: MenuState)
  {
    s.toggleActive == s.menuActive && (s.bodyOverflow == Hidden <==> s.menuActive)
  }

  /**
   * From a consistent state (the page as loaded is one), after any sequence
   * of clicks the toggle and the menu agree and the body is locked exactly
   * while the menu is open.
   */
  lemma {:induction false} ClicksKeepConsistent(s: MenuState, targets: seq<ClickTarget>)
    requires ConsistentState(s)
    ensures ConsistentState(AfterClicks(s, targets))
    decreases |targets|
  {
    if targets != [] {
      ClicksKeepConsistent(AfterClick(s, targets[0]), targets[1..]);
    }
  }

  /** Whatever came before, a sequence ending in a link click or an outside click leaves the menu closed and the page unlocked. */
  lemma {:induction false} ClosingClickLast(s: MenuState, targets: seq<ClickTarget>)
    requires |targets| > 0 && (targets[|targets| - 1] == OnMenuLink || targets[|targets| - 1] == Elsewhere)
    ensures AfterClicks(s, targets) == MenuState(false, false, Unset)
    decreases |targets|
  {
    if |targets| > 1 {
      assert targets[1..][|targets[1..]| - 1] == targets[|targets| - 1];
      ClosingClickLast(AfterClick(s, targets[0]), targets[1..]);
    }
  }

  /** Two toggle clicks in a row bring a consistent menu back to where it was. */
  lemma ToggleTwiceRestores(s: MenuState)
    requires ConsistentState(s)
    ensures AfterClicks(s, [OnToggle, OnToggle]) == s
  {
    var once := AfterClick(s, OnToggle);
    assert AfterClicks(s, [OnToggle, OnToggle]) == AfterClicks(once, [OnToggle]);
    assert AfterClicks(once, [OnToggle]) == AfterClick(once, OnToggle);
  }
}
