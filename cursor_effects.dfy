/**
 * The custom cursor's state (js/main.js:107-342): five flags that the mouse
 * handlers and their delayed callbacks set and clear, the scale the
 * animation frame picks from them, and the one-time binding of the extra
 * hover listeners in `addCursorEffects` (js/main.js:399-423).
 *
 * The delayed callbacks (`setTimeout` of 20, 25, 75, 80, 100 and 150 ms)
 * appear as events of their own, fired when the timer runs out.
 */
module CursorEffects {
  import opened Wrappers

  /** The look the animation frame picks, by priority (js/main.js:157-185). */
  datatype CursorMode = TextMode | ClickingMode | NavMode | HoverMode | NormalMode

  /**
   * The priority choice: text first, then clicking, then navigation, then
   * hovering, then the normal look. Each mode is chosen exactly when its own
   * flag holds and no flag of a higher priority does.
   */
  function ModeOf(isOnText: bool, isClicking: bool, isOnNav: bool, isHovering: bool): (m: CursorMode)
    ensures m == TextMode <==> isOnText
    ensures m == ClickingMode <==> !isOnText && isClicking
    ensures m == NavMode <==> !isOnText && !isClicking && isOnNav
    ensures m == HoverMode <==> !isOnText && !isClicking && !isOnNav && isHovering
    ensures m == NormalMode <==> !isOnText && !isClicking && !isOnNav && !isHovering
  {
    if isOnText then TextMode
    else if isClicking then ClickingMode
    else if isOnNav then NavMode
    else if isHovering then HoverMode
    else NormalMode
  }

  /** The scale of the dot and of the outline for each mode. */
  datatype Scales = Scales(dot: real, outline: real)

  function ScalesOf(m: CursorMode): (s: Scales)
    ensures m == NormalMode <==> s == Scales(1.0, 1.0)
    ensures s.dot < 1.0 <==> m == TextMode || m == ClickingMode
    ensures s.dot < s.outline || m == NormalMode
  {
    match m
    case TextMode => Scales(0.6, 0.8)
    case ClickingMode => Scales(0.85, 0.9)
    case NavMode => Scales(1.05, 1.1)
    case HoverMode => Scales(1.1, 1.15)
    case NormalMode => Scales(1.0, 1.0)
  }

  /** No two looks share their scales, so the priority of `ModeOf` is visible in the frame. */
  lemma LooksDistinct(m: CursorMode, m': CursorMode)
    requires m != m'
    ensures ScalesOf(m) != ScalesOf(m')
  {
  }

  /** The flags of js/main.js:111-115 as a value. */
  datatype Flags = Flags(isVisible: bool, isHovering: bool, isClicking: bool, isOnText: bool, isOnNav: bool)

  /**
   * One animation frame (js/main.js:142-193): the cursor is only transformed
   * while it is visible. It keeps its natural size exactly when no flag is
   * up; it shrinks exactly over text or while clicking, the text look
   * overriding the click; it grows exactly on a navigation link or while
   * hovering, with neither of those.
   */
  function FrameScales(f: Flags): (r: Option<Scales>)
    ensures r.None? <==> !f.isVisible
    ensures r == Some(Scales(1.0, 1.0)) <==>
      f.isVisible && !f.isOnText && !f.isClicking && !f.isOnNav && !f.isHovering
    ensures (r.Some? && r.value.dot < 1.0) <==> f.isVisible && (f.isOnText || f.isClicking)
    ensures (r.Some? && r.value.dot > 1.0) <==>
      f.isVisible && !f.isOnText && !f.isClicking && (f.isOnNav || f.isHovering)
    ensures f.isVisible && f.isOnText ==> r == Some(Scales(0.6, 0.8))
    ensures f.isVisible && f.isOnNav && !f.isOnText && !f.isClicking ==> r == Some(Scales(1.05, 1.1))
  {
    if f.isVisible then Some(ScalesOf(ModeOf(f.isOnText, f.isClicking, f.isOnNav, f.isHovering))) else None
  }

  /** The text look and the hover look never apply at once: hovering an interactive element cancels the text look, and the text look is refused while hovering. */
  predicate NotTextWhileHovering(f: Flags)
  {
    !(f.isOnText && f.isHovering)
  }

  /** The events that change the flags. */
  datatype Event =
    | MouseMove              // document mousemove (js/main.js:122-139)
    | WindowEnter            // document mouseenter (js/main.js:199-203)
    | WindowLeave            // document mouseleave (js/main.js:206-214)
    | MouseUp                // document mouseup (js/main.js:217-219)
    | HoverEnterFired        // 20 ms after entering an interactive element (js/main.js:228-233)
    | HoverLeaveFired        // 80 ms after leaving it (js/main.js:238-241)
    | HoverMouseDown         // mousedown on it (js/main.js:244-247)
    | HoverMouseUpFired      // 150 ms after mouseup on it (js/main.js:250-253)
    | NavEnterFired          // 25 ms after entering a navigation link (js/main.js:273-276)
    | NavLeaveFired          // 75 ms after leaving it (js/main.js:281-283)
    | NavMouseDown           // mousedown on it (js/main.js:286-288)
    | NavMouseUpFired        // 100 ms after mouseup on it (js/main.js:291-293)
    | TextEnter              // entering a text element (js/main.js:303-313)
    | TextLeave              // leaving it (js/main.js:315-330)

  /** The flags after one event. */
  function Step(f: Flags, e: Event): (r: Flags)
    ensures NotTextWhileHovering(f) ==> NotTextWhileHovering(r)
    ensures e == WindowLeave ==> !r.isVisible && !r.isHovering && !r.isClicking && !r.isOnText && r.isOnNav == f.isOnNav
    ensures r.isOnNav != f.isOnNav ==> e == NavEnterFired || e == NavLeaveFired
    ensures r.isVisible != f.isVisible ==> e in {MouseMove, WindowEnter, WindowLeave}
  {
    match e
    case MouseMove => f.(isVisible := true)
    case WindowEnter => f.(isVisible := true)
    case WindowLeave => f.(isVisible := false, isHovering := false, isClicking := false, isOnText := false)
    case MouseUp => f.(isClicking := false)
    case HoverEnterFired => f.(isHovering := true, isOnText := false)
    case HoverLeaveFired => f.(isHovering := false)
    case HoverMouseDown => f.(isClicking := true)
    case HoverMouseUpFired => f.(isClicking := false)
    case NavEnterFired => f.(isOnNav := true, isOnText := false)
    case NavLeaveFired => f.(isOnNav := false)
    case NavMouseDown => f.(isClicking := true)
    case NavMouseUpFired => f.(isClicking := false)
    case TextEnter => if !f.isHovering then f.(isOnText := true) else f
    case TextLeave => f.(isOnText := false)
  }

  function Steps(f: Flags, events: seq<Event>): Flags
    decreases |events|
  {
    if events == [] then f else Steps(Step(f, events[0]), events[1..])
  }

  /** From the initial flags (all false), no sequence of events ever shows the text look and the hover look together. */
  lemma {:induction false} StepsKeepTextHoverExclusive(f: Flags, events: seq<Event>)
    requires NotTextWhileHovering(f)
    ensures NotTextWhileHovering(Steps(f, events))
    decreases |events|
  {
    if events != [] {
      StepsKeepTextHoverExclusive(Step(f, events[0]), events[1..]);
    }
  }

  /** Since text and hovering never hold together, the hover look shows exactly when hovering off navigation links without a click. */
  lemma HoverLookWhenHovering(f: Flags)
    requires NotTextWhileHovering(f)
    ensures ModeOf(f.isOnText, f.isClicking, f.isOnNav, f.isHovering) == HoverMode <==>
      f.isHovering && !f.isClicking && !f.isOnNav
  {
  }

  /** The cursor's closure variables, updated in place by the handlers. */
  class Cursor {
    var isVisible: bool
    var isHovering: bool
    var isClicking: bool
    var isOnText: bool
    var isOnNav: bool

    function State(): Flags
      reads this
    {
      Flags(isVisible, isHovering, isClicking, isOnText, isOnNav)
    }

    /** All flags start false (js/main.js:111-115). */
    constructor ()
      ensures State() == Flags(false, false, false, false, false)
    {
      isVisible, isHovering, isClicking, isOnText, isOnNav := false, false, false, false, false;
    }

    /** Runs the handler (or the fired timer callback) for one event. */
    method Handle(e: Event)
      modifies this
      ensures State() == Step(old(State()), e)
    {
      match e
      case MouseMove =>
        if !isVisible { isVisible := true; }
      case WindowEnter =>
        isVisible := true;
      case WindowLeave =>
        isVisible := false;
        isHovering := false;
        isClicking := false;
        isOnText := false;
      case MouseUp =>
        isClicking := false;
      case HoverEnterFired =>
        isHovering := true;
        isOnText := false;
      case HoverLeaveFired =>
        isHovering := false;
      case HoverMouseDown =>
        isClicking := true;
      case HoverMouseUpFired =>
        isClicking := false;
      case NavEnterFired =>
        isOnNav := true;
        isOnText := false;
      case NavLeaveFired =>
        isOnNav := false;
      case NavMouseDown =>
        isClicking := true;
      case NavMouseUpFired =>
        isClicking := false;
      case TextEnter =>
        if !isHovering { isOnText := true; }
      case TextLeave =>
        isOnText := false;
    }

    /** The scales the next animation frame applies, if any. */
    method Frame() returns (r: Option<Scales>)
      ensures r == FrameScales(State())
    {
      if !isVisible {
        return None;
      }
      var dotScale, outlineScale := 1.0, 1.0;
      if isOnText {
        dotScale, outlineScale := 0.6, 0.8;
      } else if isClicking {
        dotScale, outlineScale := 0.85, 0.9;
      } else if isOnNav {
        dotScale, outlineScale := 1.05, 1.1;
      } else if isHovering {
        dotScale, outlineScale := 1.1, 1.15;
      }
      r := Some(Scales(dotScale, outlineScale));
    }
  }

  /** A page element, by identity. */
  type Element = nat

  /** How many times the listeners were attached to `e` (none when absent). */
  function BindCount(bindings: map<Element, nat>, e: Element): nat
  {
    if e in bindings then bindings[e] else 0
  }

  /**
   * The `data-cursor-init` marking of `addCursorEffects`
   * (js/main.js:399-423): an element gets its four extra listeners only if it
   * is not marked yet, and is marked when it gets them.
   */
  class HoverBinder {
    /** The elements carrying `data-cursor-init`. */
    var marked: set<Element>
    /** How many times the four listeners were attached to each element. */
    var bindings: map<Element, nat>

    /** Every marked element has its listeners exactly once; no unmarked element has any. */
    ghost predicate Valid()
      reads this
    {
      forall e :: (e in bindings <==> e in marked) && (e in bindings ==> bindings[e] == 1)
    }

    constructor ()
      ensures Valid() && marked == {} && bindings == map[]
    {
      marked := {};
      bindings := map[];
    }

    /**
     * One run of `addCursorEffects` over the elements the query found:
     * afterwards every one of them is marked and bound exactly once,
     * however many runs came before; elements bound earlier are not bound
     * again.
     */
    method AddCursorEffects(elements: seq<Element>)
      requires Valid()
      modifies this
      ensures Valid()
      ensures marked == old(marked) + set e | e in elements
      ensures forall e :: e in old(bindings) ==> e in bindings && bindings[e] == old(bindings)[e]
    {
      var i := 0;
      while i < |elements|
        invariant 0 <= i <= |elements|
        invariant Valid()
        invariant marked == old(marked) + set e | e in elements[..i]
        invariant forall e :: e in old(bindings) ==> e in bindings && bindings[e] == old(bindings)[e]
      {
        var element := elements[i];
        if element !in marked {
          marked := marked + {element};
          bindings := bindings[element := BindCount(bindings, element) + 1];
        }
        assert elements[..i + 1] == elements[..i] + [element];
        i := i + 1;
      }
      assert elements[..i] == elements;
    }
  }
}
