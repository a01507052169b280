/**
 * The in-page link handler (js/main.js:480-510): a click on a link whose
 * `href` starts with '#' scrolls to the element with that id, keeping a
 * header's height clear above it, and highlights the target when its id
 * names a card.
 */
module AnchorScroll {
  import opened Wrappers

  /** The header clearance in pixels; the service cards section gets more room. */
  const HEADER_OFFSET: int := 80
  const SERVICES_CARDS_OFFSET: int := 100
  const SERVICES_CARDS_ID: string := "services-cards"

  /** `sub` occurs in `s` at position `i`. */
  predicate OccursAt(s: string, sub: string, i: int)
  {
    0 <= i && i + |sub| <= |s| && s[i..i + |sub|] == sub
  }

  /** `s.includes(sub)`: true exactly when `sub` occurs somewhere in `s`. */
  function Includes(s: string, sub: string): (r: bool)
    ensures r <==> exists i :: OccursAt(s, sub, i)
    decreases |s|
  {
    if |sub| > |s| then false
    else if s[..|sub|] == sub then
      assert OccursAt(s, sub, 0);
      true
    else
      var rest := Includes(s[1..], sub);
      assert forall i :: OccursAt(s[1..], sub, i) ==> OccursAt(s, sub, i + 1) by {
        forall i | OccursAt(s[1..], sub, i) ensures OccursAt(s, sub, i + 1) {
          assert s[1..][i..i + |sub|] == s[i + 1..i + 1 + |sub|];
        }
      }
      assert forall i :: OccursAt(s, sub, i) && i > 0 ==> OccursAt(s[1..], sub, i - 1) by {
        forall i | OccursAt(s, sub, i) && i > 0 ensures OccursAt(s[1..], sub, i - 1) {
          assert s[1..][i - 1..i - 1 + |sub|] == s[i..i + |sub|];
        }
      }
      rest
  }

  /** Where the click scrolls to, and whether it highlights the target as a service card. */
  datatype ScrollAction = ScrollAction(top: int, highlight: bool)

  /** `this.getAttribute('href').substring(1)`: the href without its leading '#'. */
  function TargetId(href: string): (id: string)
    ensures |href| >= 1 ==> href == [href[0]] + id
    ensures |href| == 0 ==> id == ""
  {
    if |href| >= 1 then href[1..] else ""
  }

  /**
   * The click handler for one link. `offsetTop` stands for
   * `document.getElementById(id)?.offsetTop`: `None` when no element has
   * that id, and then nothing happens. Otherwise the page scrolls to the
   * target's top less 100 pixels for the services cards section and less
   * 80 for any other target, and the target is highlighted exactly when its
   * id contains "-card".
   */
  function AnchorClick(href: string, offsetTop: string -> Option<int>): (r: Option<ScrollAction>)
    ensures r.None? <==> offsetTop(TargetId(href)).None?
    ensures r.Some? ==>
      r.value.top == offsetTop(TargetId(href)).value - (if TargetId(href) == SERVICES_CARDS_ID then SERVICES_CARDS_OFFSET else HEADER_OFFSET)
    ensures r.Some? ==> (r.value.highlight <==> exists i :: OccursAt(TargetId(href), "-card", i))
  {
    var targetId := TargetId(href);
    match offsetTop(targetId)
    case None => None
    case Some(position) =>
      var headerOffset := if targetId == SERVICES_CARDS_ID then SERVICES_CARDS_OFFSET else HEADER_OFFSET;
      Some(ScrollAction(position - headerOffset, Includes(targetId, "-card")))
  }

  /**
   * The services cards section's own id contains "-card", so a link to the
   * section highlights the whole section as if it were a card, after the
   * wider 100 pixel offset.
   */
  lemma ServicesSectionIsHighlighted(offsetTop: string -> Option<int>)
    requires offsetTop(SERVICES_CARDS_ID).Some?
    ensures AnchorClick("#services-cards", offsetTop) ==
      Some(ScrollAction(offsetTop(SERVICES_CARDS_ID).value - 100, true))
  {
    assert TargetId("#services-cards") == SERVICES_CARDS_ID;
    assert OccursAt(SERVICES_CARDS_ID, "-card", 8);
  }

  /** An id without "-card" in it is never highlighted, and is scrolled to with the 80 pixel offset unless it is the services section. */
  lemma PlainTargetNotHighlighted(href: string, offsetTop: string -> Option<int>)
    requires offsetTop(TargetId(href)).Some?
    requires forall i :: !OccursAt(TargetId(href), "-card", i)
    ensures AnchorClick(href, offsetTop) == Some(ScrollAction(offsetTop(TargetId(href)).value - HEADER_OFFSET, false))
  {
    assert OccursAt(SERVICES_CARDS_ID, "-card", 8);
    assert TargetId(href) != SERVICES_CARDS_ID;
  }
}
