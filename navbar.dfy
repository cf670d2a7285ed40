/**
 * The navigation bar (components/Navbar.tsx): the scrolled flag set by the
 * scroll listener, the mobile menu flag, and the contrast derived from
 * both. Callbacks to the owner are returned as events.
 */
module Navbar {
  import opened Strings

  /** Pixels scrolled past which the bar turns solid. */
  const ScrollThreshold: real := 50.0

  const DarkTextClass := "text-[#0C4A6E]"
  const LightTextClass := "text-white"

  /** A call the bar makes to its owner: `onNavClick(e, targetId)` or
      `onOpenCart()`. */
  datatype NavEvent = NavClick(targetId: string) | OpenCart

  /** `Cart ({cartCount})`, the caption of both cart buttons. */
  function CartLabel(cartCount: nat): string {
    "Cart (" + NatToString(cartCount) + ")"
  }

  /** The caption carries the count and nothing else between its parentheses. */
  lemma CartLabelShowsCount(cartCount: nat)
    ensures var caption := CartLabel(cartCount);
      && |caption| > 7
      && caption[..6] == "Cart ("
      && caption[|caption| - 1] == ')'
      && (forall i :: 6 <= i < |caption| - 1 ==> IsDigit(caption[i]))
      && ParseNat(caption[6..|caption| - 1]) == cartCount
  {
    var caption := CartLabel(cartCount);
    assert caption[6..|caption| - 1] == NatToString(cartCount);
    ParseNatToString(cartCount);
  }

  class NavbarState {
    var scrolled: bool
    var mobileMenuOpen: bool

    constructor ()
      ensures !scrolled && !mobileMenuOpen
    {
      scrolled := false;
      mobileMenuOpen := false;
    }

    /** `handleScroll`: scrolled strictly past the threshold. */
    method HandleScroll(scrollY: real)
      modifies this`scrolled
      ensures scrolled <==> scrollY > ScrollThreshold
      ensures mobileMenuOpen == old(mobileMenuOpen)
    {
      scrolled := scrollY > ScrollThreshold;
    }

    /** `handleLinkClick`: close the menu and forward the target unchanged. */
    method HandleLinkClick(targetId: string) returns (events: seq<NavEvent>)
      modifies this`mobileMenuOpen
      ensures !mobileMenuOpen && scrolled == old(scrolled)
      ensures events == [NavClick(targetId)]
    {
      mobileMenuOpen := false;
      events := [NavClick(targetId)];
    }

    /** `handleCartClick`: close the menu and ask the owner, once, to open
        the cart. */
    method HandleCartClick() returns (events: seq<NavEvent>)
      modifies this`mobileMenuOpen
      ensures !mobileMenuOpen && scrolled == old(scrolled)
      ensures events == [OpenCart]
    {
      mobileMenuOpen := false;
      events := [OpenCart];
    }

    /** The brand link: forwards the empty target. Unlike the other links it
        leaves the menu as it is. */
    method HandleBrandClick() returns (events: seq<NavEvent>)
      ensures |events| == 1 && events[0].NavClick? && events[0].targetId == ""
    {
      events := [NavClick("")];
    }

    /** The hamburger button: `setMobileMenuOpen(!mobileMenuOpen)`. */
    method ToggleMenu()
      modifies this`mobileMenuOpen
      ensures mobileMenuOpen == !old(mobileMenuOpen) && scrolled == old(scrolled)
    {
      mobileMenuOpen := !mobileMenuOpen;
    }

    /** `textColorClass`: dark text exactly when scrolled or the menu is open. */
    function TextColorClass(): (cls: string)
      reads this
      ensures cls == DarkTextClass <==> scrolled || mobileMenuOpen
      ensures cls == DarkTextClass || cls == LightTextClass
    {
      if scrolled || mobileMenuOpen then DarkTextClass else LightTextClass
    }

    /** The bar's solid background, selected by the same condition. */
    predicate SolidBackground()
      reads this
    {
      scrolled || mobileMenuOpen
    }
  }

  /** Dark text always comes with the solid background, and white text with
      the transparent one. */
  lemma ContrastMatchesBackground(nav: NavbarState)
    ensures nav.TextColorClass() == DarkTextClass <==> nav.SolidBackground()
    ensures nav.TextColorClass() == LightTextClass <==> !nav.SolidBackground()
  {
  }
}
