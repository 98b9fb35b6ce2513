/**
 * The navbar: the scrolled flag, the active section chosen from the
 * intersection observer's entries, the navigation decisions of the link and
 * logo clicks, and the mobile menu's open flag.
 */
module Navbar {
  import opened Common

  /** The ids of the navigation links, in order. */
  const SECTION_IDS: seq<string> := ["intro", "personaliza", "colores", "especificaciones", "cta"]
  const HERO_ID: string := "hero"
  /** The sections the observer watches: the hero, then every link's section. */
  const OBSERVED_IDS: seq<string> := [HERO_ID] + SECTION_IDS
  const SCROLL_THRESHOLD: int := 24
  const RESERVE_ID: string := "reservar"
  const RESERVE_PATH: string := "/reservar"
  const HOME_PATH: string := "/"
  /** The header height the section scroll leaves above its target. */
  const SECTION_OFFSET: int := -88

  /** The `isScrolled` flag for a window scrolled to `scrollY`. */
  predicate IsScrolledAt(scrollY: int) {
    scrollY > SCROLL_THRESHOLD
  }

  /** No navigation link leads to the reservation route. */
  lemma NoLinkIsReserve()
    ensures RESERVE_ID !in SECTION_IDS && HERO_ID !in SECTION_IDS
    ensures forall i :: 0 <= i < |SECTION_IDS| ==> SECTION_IDS[i] != RESERVE_ID
  {
  }

  // ----- the intersection callback -----

  /** One observer entry: the target's id, whether it intersects, and its bounding top. */
  datatype Entry = Entry(id: string, isIntersecting: bool, top: int)

  /**
   * The entry the callback reads as `visible[0]`: the intersecting entries
   * stably sorted by top, first one. It is the earliest entry with the
   * smallest top.
   */
  function TopmostIndex(entries: seq<Entry>): (r: Option<int>)
    ensures r.None? <==> forall j :: 0 <= j < |entries| ==> !entries[j].isIntersecting
    ensures r.Some? ==> 0 <= r.value < |entries| && entries[r.value].isIntersecting
    ensures r.Some? ==> forall j :: 0 <= j < |entries| && entries[j].isIntersecting ==>
      entries[r.value].top <= entries[j].top && (j < r.value ==> entries[r.value].top < entries[j].top)
    decreases |entries|
  {
    if entries == [] then None
    else
      var rest := TopmostIndex(entries[1..]);
      assert forall j :: 1 <= j < |entries| ==> entries[j] == entries[1..][j - 1];
      if !entries[0].isIntersecting then
        (if rest.Some? then Some(rest.value + 1) else None)
      else if rest.Some? && entries[1..][rest.value].top < entries[0].top then
        Some(rest.value + 1)
      else
        Some(0)
  }

  /**
   * The active section after one observer callback, with the window at
   * `scrollY`: the topmost intersecting entry decides when it is the hero
   * (clear) or a link's section (select it); otherwise a window near the top
   * clears the section and anything else leaves it as it was.
   */
  function NextActiveSection(current: Option<string>, entries: seq<Entry>, scrollY: int): (r: Option<string>)
    ensures TopmostIndex(entries).Some? && entries[TopmostIndex(entries).value].id == HERO_ID ==> r.None?
    ensures TopmostIndex(entries).Some? && entries[TopmostIndex(entries).value].id in SECTION_IDS ==>
      r == Some(entries[TopmostIndex(entries).value].id)
    ensures (TopmostIndex(entries).None? || entries[TopmostIndex(entries).value].id !in OBSERVED_IDS) ==>
      r == (if scrollY < SCROLL_THRESHOLD * 2 then None else current)
    ensures r.Some? ==> r == current || r.value in SECTION_IDS
  {
    var first := TopmostIndex(entries);
    if first.Some? && entries[first.value].id == HERO_ID then None
    else if first.Some? && entries[first.value].id in SECTION_IDS then Some(entries[first.value].id)
    else if scrollY < SCROLL_THRESHOLD * 2 then None
    else current
  }

  /** The sections the navbar can mark active: none, a link's section, or the reservation route. */
  predicate IsKnownSection(s: Option<string>) {
    s.None? || s.value in SECTION_IDS || s.value == RESERVE_ID
  }

  /** The observer never marks the hero or a foreign id as active. */
  lemma IntersectionKeepsKnown(current: Option<string>, entries: seq<Entry>, scrollY: int)
    requires IsKnownSection(current)
    ensures IsKnownSection(NextActiveSection(current, entries, scrollY))
    ensures NextActiveSection(current, entries, scrollY) != Some(HERO_ID)
  {
    NoLinkIsReserve();
  }

  /** When a link's section lies above every other intersecting entry, it becomes active. */
  lemma TopSectionWins(entries: seq<Entry>, i: int, current: Option<string>, scrollY: int)
    requires 0 <= i < |entries| && entries[i].isIntersecting && entries[i].id in SECTION_IDS
    requires forall j :: 0 <= j < |entries| && j != i && entries[j].isIntersecting ==> entries[i].top < entries[j].top
    ensures NextActiveSection(current, entries, scrollY) == Some(entries[i].id)
  {
    var t := TopmostIndex(entries).value;
    assert t == i;
  }

  // ----- navigation decisions -----

  datatype ScrollBehavior = AutoScroll | SmoothScroll

  /** What a click asks of the router or the scroller. */
  datatype NavAction =
    | Navigate(path: string)
    | ScrollToSelector(selector: string, offset: int, disableSmoothing: bool, behavior: ScrollBehavior)
    | WindowScrollTo(top: int, behavior: ScrollBehavior)
    | LenisScrollTo(target: int, offset: int)

  /** `scrollToSection(id)`: the reservation route, a home-page hash link, or a scroll on the home page. */
  function ScrollToSection(id: string, isHome: bool, reducedMotion: bool): (a: NavAction)
    ensures id == RESERVE_ID ==> a == Navigate(RESERVE_PATH)
    ensures id != RESERVE_ID && !isHome ==> a == Navigate("/#" + id)
    ensures id != RESERVE_ID && isHome ==>
      a.ScrollToSelector? && a.selector == "#" + id && a.offset == SECTION_OFFSET
      && a.disableSmoothing == reducedMotion && (a.behavior == AutoScroll <==> reducedMotion)
    ensures a.Navigate? <==> id == RESERVE_ID || !isHome
  {
    if id == RESERVE_ID then Navigate(RESERVE_PATH)
    else if !isHome then Navigate("/#" + id)
    else ScrollToSelector("#" + id, SECTION_OFFSET, reducedMotion,
                          if reducedMotion then AutoScroll else SmoothScroll)
  }

  /**
   * `scrollToTop`: every branch goes to the very top; reduced motion jumps
   * without Lenis, otherwise Lenis is used when present and the window
   * scrolls smoothly when it is not.
   */
  function ScrollToTop(reducedMotion: bool, lenisPresent: bool): (a: NavAction)
    ensures (a.WindowScrollTo? && a.top == 0) || (a.LenisScrollTo? && a.target == 0 && a.offset == 0)
    ensures reducedMotion ==> a == WindowScrollTo(0, AutoScroll)
    ensures !reducedMotion ==> (a.LenisScrollTo? <==> lenisPresent)
    ensures !reducedMotion && !lenisPresent ==> a == WindowScrollTo(0, SmoothScroll)
  {
    if reducedMotion then WindowScrollTo(0, AutoScroll)
    else if lenisPresent then LenisScrollTo(0, 0)
    else WindowScrollTo(0, SmoothScroll)
  }

  // ----- the component's state -----

  class NavbarView {
    const reducedMotion: bool
    var pathname: string
    var isScrolled: bool
    var activeSection: Option<string>
    var isMenuOpen: bool

    predicate IsHome()
      reads this
    {
      pathname == HOME_PATH
    }

    /** The first render at `pathname`, followed by the pathname effect. */
    constructor (pathname: string, reducedMotion: bool)
      ensures this.pathname == pathname && this.reducedMotion == reducedMotion
      ensures !isScrolled && !isMenuOpen
      ensures activeSection == (if pathname == RESERVE_PATH then Some(RESERVE_ID) else None)
    {
      this.pathname := pathname;
      this.reducedMotion := reducedMotion;
      isScrolled := false;
      isMenuOpen := false;
      activeSection := None;
      if pathname == RESERVE_PATH {
        activeSection := Some(RESERVE_ID);
      }
    }

    /**
     * The location changes to `path`. The pathname effect runs only when the
     * pathname differs from the last render's; landing on the reservation
     * route then marks it active.
     */
    method OnLocationChange(path: string)
      modifies this`pathname, this`activeSection
      ensures pathname == path
      ensures path != old(pathname) && path == RESERVE_PATH ==> activeSection == Some(RESERVE_ID)
      ensures path == old(pathname) || path != RESERVE_PATH ==> activeSection == old(activeSection)
    {
      var changed := path != pathname;
      pathname := path;
      if changed && path == RESERVE_PATH {
        activeSection := Some(RESERVE_ID);
      }
    }

    /** The animation frame the scroll listener requests, with the window at `scrollY`. */
    method OnScrollFrame(scrollY: int)
      modifies this`isScrolled
      ensures isScrolled <==> scrollY > SCROLL_THRESHOLD
    {
      isScrolled := IsScrolledAt(scrollY);
    }

    /** The intersection observer's callback. */
    method OnIntersection(entries: seq<Entry>, scrollY: int)
      modifies this`activeSection
      ensures activeSection == NextActiveSection(old(activeSection), entries, scrollY)
    {
      var visible := TopmostIndex(entries);
      if visible.Some? {
        var first := entries[visible.value];
        if first.id == HERO_ID {
          activeSection := None;
          return;
        }
        if first.id in SECTION_IDS {
          activeSection := Some(first.id);
          return;
        }
      }
      if scrollY < SCROLL_THRESHOLD * 2 {
        activeSection := None;
      }
    }

    /**
     * `handleNavClick(id)`: closes the menu, marks the section itself on
     * the reservation route and off the home page, and leaves the marking to
     * the observer on the home page. The navigation it asks for is always
     * what `scrollToSection` would do.
     */
    method HandleNavClick(id: string) returns (action: NavAction)
      modifies this`activeSection, this`isMenuOpen
      ensures !isMenuOpen
      ensures action == ScrollToSection(id, IsHome(), reducedMotion)
      ensures id == RESERVE_ID ==> activeSection == Some(RESERVE_ID) && action == Navigate(RESERVE_PATH)
      ensures id != RESERVE_ID && !IsHome() ==> activeSection == Some(id) && action == Navigate("/#" + id)
      ensures id != RESERVE_ID && IsHome() ==> activeSection == old(activeSection) && action.ScrollToSelector?
    {
      isMenuOpen := false;
      if id == RESERVE_ID {
        activeSection := Some(RESERVE_ID);
        action := Navigate(RESERVE_PATH);
        return;
      }
      if !IsHome() {
        activeSection := Some(id);
        action := Navigate("/#" + id);
        return;
      }
      action := ScrollToSection(id, IsHome(), reducedMotion);
    }

    /** `handleLogoClick`: closes the menu, scrolls to the top and clears the active section. */
    method HandleLogoClick(lenisPresent: bool) returns (action: NavAction)
      modifies this`activeSection, this`isMenuOpen
      ensures !isMenuOpen && activeSection.None?
      ensures action == ScrollToTop(reducedMotion, lenisPresent)
    {
      isMenuOpen := false;
      action := ScrollToTop(reducedMotion, lenisPresent);
      activeSection := None;
    }

    /** The menu button flips the menu. */
    method ToggleMenu()
      modifies this`isMenuOpen
      ensures isMenuOpen == !old(isMenuOpen)
    {
      isMenuOpen := !isMenuOpen;
    }

    /** The mobile menu's close button. */
    method CloseMenu()
      modifies this`isMenuOpen
      ensures !isMenuOpen
    {
      isMenuOpen := false;
    }

    /** The document key listener: Escape closes the menu, any other key does nothing. */
    method OnKeyDown(key: string)
      modifies this`isMenuOpen
      ensures key == "Escape" ==> !isMenuOpen
      ensures key != "Escape" ==> isMenuOpen == old(isMenuOpen)
    {
      if key == "Escape" {
        isMenuOpen := false;
      }
    }

    /** `aria-current` of the link to `linkId`; on the reservation route no link is current. */
    predicate IsCurrentLink(linkId: string)
      reads this
      ensures activeSection == Some(RESERVE_ID) && linkId in SECTION_IDS ==> !IsCurrentLink(linkId)
    {
      NoLinkIsReserve();
      activeSection == Some(linkId)
    }
  }
}
