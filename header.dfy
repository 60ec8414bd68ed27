/**
 * The page header: a "scrolled" flag driven by the window's scroll position,
 * and the mobile menu flag, which `toggleMobileMenu` keeps in step with
 * `document.body.style.overflow` (hidden while the menu is open) but which the
 * menu's link and button handlers close without touching the body.
 */
module Header {

  /** `document.body.style.overflow`: unset until the menu is first toggled. */
  datatype Overflow = Unset | Hidden | Auto

  /** A snapshot of the header's two flags and the body's overflow style. */
  datatype Shell = Shell(isScrolled: bool, isMobileMenuOpen: bool, bodyOverflow: Overflow)

  const Initial := Shell(false, false, Unset)

  const ScrollThreshold: real := 10.0

  /** `handleScroll`. */
  function Scrolled(s: Shell, scrollY: real): (t: Shell)
    ensures t.isScrolled <==> scrollY > 10.0
    ensures t.isMobileMenuOpen == s.isMobileMenuOpen && t.bodyOverflow == s.bodyOverflow
  {
    s.(isScrolled := scrollY > ScrollThreshold)
  }

  /** `toggleMobileMenu`: the overflow is chosen from the flag as it was before the flip. */
  function Toggled(s: Shell): (t: Shell)
    ensures t.isMobileMenuOpen == !s.isMobileMenuOpen && t.isScrolled == s.isScrolled
    ensures OverflowMatchesMenu(t)
  {
    s.(isMobileMenuOpen := !s.isMobileMenuOpen,
       bodyOverflow := if !s.isMobileMenuOpen then Hidden else Auto)
  }

  /** `onClick={() => setIsMobileMenuOpen(false)}` on the mobile links and button. */
  function LinkClicked(s: Shell): (t: Shell)
    ensures !t.isMobileMenuOpen
    ensures t.isScrolled == s.isScrolled && t.bodyOverflow == s.bodyOverflow
  {
    s.(isMobileMenuOpen := false)
  }

  /** The page cannot scroll exactly while the menu is open. */
  predicate OverflowMatchesMenu(s: Shell) {
    s.bodyOverflow == Hidden <==> s.isMobileMenuOpen
  }

  datatype Event = Scroll(scrollY: real) | ToggleMenu | MenuLinkClick

  function Step(s: Shell, e: Event): Shell {
    match e
    case Scroll(y) => Scrolled(s, y)
    case ToggleMenu => Toggled(s)
    case MenuLinkClick => LinkClicked(s)
  }

  function Run(s: Shell, events: seq<Event>): Shell
    decreases |events|
  {
    if events == [] then s else Run(Step(s, events[0]), events[1..])
  }

  /** Scrolled iff strictly past 10 pixels; the menu and the body are untouched. */
  lemma ScrollThresholdStrict(s: Shell, scrollY: real)
    ensures Scrolled(s, scrollY).isScrolled <==> scrollY > 10.0
    ensures !Scrolled(s, 10.0).isScrolled
    ensures Scrolled(s, scrollY).isMobileMenuOpen == s.isMobileMenuOpen
    ensures Scrolled(s, scrollY).bodyOverflow == s.bodyOverflow
  {
  }

  /** Toggling flips the menu, and toggling twice restores it. */
  lemma ToggleFlips(s: Shell)
    ensures Toggled(s).isMobileMenuOpen == !s.isMobileMenuOpen
    ensures Toggled(Toggled(s)).isMobileMenuOpen == s.isMobileMenuOpen
    ensures Toggled(s).isScrolled == s.isScrolled
  {
  }

  /** From closed the body is locked, from open it is released; after any toggle the relation holds. */
  lemma ToggleSetsOverflow(s: Shell)
    ensures !s.isMobileMenuOpen ==> Toggled(s).bodyOverflow == Hidden
    ensures s.isMobileMenuOpen ==> Toggled(s).bodyOverflow == Auto
    ensures OverflowMatchesMenu(Toggled(s))
  {
  }

  /** A link click closes the menu and leaves the body's overflow as it was. */
  lemma LinkClickKeepsOverflow(s: Shell)
    ensures !LinkClicked(s).isMobileMenuOpen
    ensures LinkClicked(s).bodyOverflow == s.bodyOverflow
    ensures LinkClicked(s).isScrolled == s.isScrolled
  {
  }

  /** Closing an open menu through a link breaks the relation: the body stays locked. */
  lemma LinkClickBreaksOverflow(s: Shell)
    requires s.isMobileMenuOpen && OverflowMatchesMenu(s)
    ensures !OverflowMatchesMenu(LinkClicked(s))
    ensures LinkClicked(s).bodyOverflow == Hidden
  {
  }

  /** From the initial header: open the menu, tap a link, and the page stays unscrollable. */
  lemma LinkClickLeavesPageLocked()
    ensures Run(Initial, [ToggleMenu, MenuLinkClick]) == Shell(false, false, Hidden)
    ensures !OverflowMatchesMenu(Run(Initial, [ToggleMenu, MenuLinkClick]))
  {
    assert Run(Initial, [ToggleMenu, MenuLinkClick])
        == Run(Toggled(Initial), [MenuLinkClick]);
  }

  /** Scrolling and toggling alone keep the body's overflow in step with the menu. */
  lemma {:induction false} NoLinkClicksKeepOverflow(s: Shell, events: seq<Event>)
    requires OverflowMatchesMenu(s)
    requires forall i :: 0 <= i < |events| ==> !events[i].MenuLinkClick?
    ensures OverflowMatchesMenu(Run(s, events))
    decreases |events|
  {
    if events != [] {
      NoLinkClicksKeepOverflow(Step(s, events[0]), events[1..]);
    }
  }

  /** A link click on a closed menu changes nothing but is harmless to the relation. */
  lemma LinkClickOnClosedMenu(s: Shell)
    requires !s.isMobileMenuOpen
    ensures LinkClicked(s) == s
  {
  }

  /** The document's body, whose inline overflow style the header writes. */
  class DocumentBody {
    var overflow: Overflow

    constructor ()
      ensures overflow == Unset
    {
      overflow := Unset;
    }
  }

  /** The header component's state and handlers. */
  class HeaderComponent {
    var isScrolled: bool
    var isMobileMenuOpen: bool
    const body: DocumentBody

    function View(): Shell
      reads this, body
    {
      Shell(isScrolled, isMobileMenuOpen, body.overflow)
    }

    constructor (body: DocumentBody)
      ensures this.body == body
      ensures isScrolled == false && isMobileMenuOpen == false
    {
      this.body := body;
      isScrolled := false;
      isMobileMenuOpen := false;
    }

    method HandleScroll(scrollY: real)
      modifies this
      ensures isScrolled == (scrollY > ScrollThreshold)
      ensures isMobileMenuOpen == old(isMobileMenuOpen)
      ensures View() == Scrolled(old(View()), scrollY)
    {
      isScrolled := scrollY > ScrollThreshold;
    }

    method ToggleMobileMenu()
      modifies this, body
      ensures isMobileMenuOpen == !old(isMobileMenuOpen)
      ensures body.overflow == if old(isMobileMenuOpen) then Auto else Hidden
      ensures isScrolled == old(isScrolled)
      ensures View() == Toggled(old(View()))
    {
      var wasOpen := isMobileMenuOpen;
      isMobileMenuOpen := !wasOpen;
      if !wasOpen {
        body.overflow := Hidden;
      } else {
        body.overflow := Auto;
      }
    }

    /** The shared handler of the Home, How It Works and About links and the Get Started button. */
    method CloseMobileMenu()
      modifies this
      ensures !isMobileMenuOpen
      ensures isScrolled == old(isScrolled)
      ensures View() == LinkClicked(old(View()))
    {
      isMobileMenuOpen := false;
    }
  }
}
