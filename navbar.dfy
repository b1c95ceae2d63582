/**
 * The shared navigation bar: the "scrolled" style flag, the mobile drawer,
 * and the navigation handler that either scrolls to a section of the home
 * page, or changes route and scrolls once the route has changed, or only
 * changes route. The handler's effects are returned as a list of actions; a
 * small interpreter over a browser state gives them their meaning.
 */
module Navbar {
  import opened Wrappers

  /** Vertical offset above which the bar switches to its scrolled style. */
  const ScrollThreshold: int := 50

  /** `window.scrollY > 50`. */
  predicate ScrolledPast(scrollY: int)
    ensures ScrolledPast(scrollY) <==> 51 <= scrollY
  {
    scrollY > ScrollThreshold
  }

  /** The style flag flips exactly between 50 and 51, in both directions. */
  lemma ScrollThresholdBoundary(y1: int, y2: int)
    requires y1 <= y2
    ensures ScrolledPast(y1) ==> ScrolledPast(y2)
    ensures !ScrolledPast(50) && ScrolledPast(51)
  {
  }

  /** The home route. */
  const Home: string := "/"

  /** An action the handler asks the browser to perform. */
  datatype Effect =
    | Navigate(path: string)            // `navigate(path)`
    | ScrollTo(sectionId: string)       // `scrollToSection(sectionId)` right away
    | DeferredScrollTo(sectionId: string) // `scrollToSection(sectionId)` from the timer, after the route change

  /** JavaScript truthiness of the optional `sectionId` argument: `null` and `''` are false. */
  predicate HasSection(sectionId: Option<string>)
    ensures sectionId == None ==> !HasSection(sectionId)
    ensures sectionId == Some("") ==> !HasSection(sectionId)
    ensures HasSection(sectionId) ==> sectionId.Some? && |sectionId.value| > 0
  {
    sectionId.Some? && sectionId.value != ""
  }

  /** The effects of `handleNavigation(path, sectionId)` while the router is at `pathname`. */
  function NavigationEffects(path: string, sectionId: Option<string>, pathname: string): (r: seq<Effect>)
    ensures 1 <= |r| <= 2
    ensures forall k :: 0 <= k < |r| && r[k].Navigate? ==> k == 0 && r[k].path == path
    ensures forall k :: 0 <= k < |r| && r[k].DeferredScrollTo? ==> k == 1 && r[0].Navigate?
    ensures forall k :: 0 <= k < |r| && !r[k].Navigate? ==>
      path == Home && HasSection(sectionId) && r[k].sectionId == sectionId.value
    ensures r[0].Navigate? <==> !(path == Home && HasSection(sectionId) && pathname == Home)
    ensures !r[0].Navigate? ==> |r| == 1
    ensures r[0].Navigate? && path == Home && HasSection(sectionId) ==> |r| == 2 && r[1].DeferredScrollTo?
  {
    if path == Home && HasSection(sectionId) then
      if pathname == Home then [ScrollTo(sectionId.value)]
      else [Navigate(Home), DeferredScrollTo(sectionId.value)]
    else
      [Navigate(path)]
  }

  /** An element of the page; `scrollIntoView` brings its top to the top of the viewport. */
  datatype Element = Element(offsetTop: int)

  /** What the browser shows: the current route and the vertical scroll offset. */
  datatype Browser = Browser(pathname: string, scrollY: int)

  /** `scrollToSection(sectionId)` over the page's id-to-element map: a missing id has no effect. */
  function ScrollToSection(dom: map<string, Element>, sectionId: string, b: Browser): (r: Browser)
    ensures sectionId !in dom ==> r == b
    ensures sectionId in dom ==> r == b.(scrollY := dom[sectionId].offsetTop)
  {
    if sectionId in dom then b.(scrollY := dom[sectionId].offsetTop) else b
  }

  /** The elements rendered on `pathname`, given each route's elements. */
  function PageElements(pages: map<string, map<string, Element>>, pathname: string): map<string, Element>
  {
    if pathname in pages then pages[pathname] else map[]
  }

  /** Performs the effects in order; a deferred scroll runs once the route change has rendered. */
  function Run(effects: seq<Effect>, pages: map<string, map<string, Element>>, b: Browser): Browser
  {
    if effects == [] then b
    else
      var next := match effects[0]
        case Navigate(path) => b.(pathname := path)
        case ScrollTo(id) => ScrollToSection(PageElements(pages, b.pathname), id, b)
        case DeferredScrollTo(id) => ScrollToSection(PageElements(pages, b.pathname), id, b);
      Run(effects[1..], pages, next)
  }

  /**
   * Whatever the current route, the handler ends on `path`; it scrolls to the
   * section exactly when one was asked for on the home route and the home
   * page has an element with that id, and otherwise leaves the offset alone.
   */
  lemma NavigationOutcome(path: string, sectionId: Option<string>, pages: map<string, map<string, Element>>, b: Browser)
    ensures var after := Run(NavigationEffects(path, sectionId, b.pathname), pages, b);
      && after.pathname == path
      && (if path == Home && HasSection(sectionId) && sectionId.value in PageElements(pages, Home)
          then after.scrollY == PageElements(pages, Home)[sectionId.value].offsetTop
          else after.scrollY == b.scrollY)
  {
    var effects := NavigationEffects(path, sectionId, b.pathname);
    if path == Home && HasSection(sectionId) && b.pathname != Home {
      var routed := b.(pathname := Home);
      assert Run(effects, pages, b) == Run(effects[1..], pages, routed);
      assert Run(effects[1..], pages, routed) == ScrollToSection(PageElements(pages, Home), sectionId.value, routed);
    } else if path == Home && HasSection(sectionId) {
      assert Run(effects, pages, b) == ScrollToSection(PageElements(pages, Home), sectionId.value, b);
    } else {
      assert Run(effects, pages, b) == b.(pathname := path);
    }
  }

  /** The page component a route renders, as the route table of the application maps paths. */
  datatype Page = HomePage | DocumentationPage | CommandsPage | SupportPage | NotFoundPage

  /** The route table: four exact paths and a catch-all. */
  function PageOf(pathname: string): (r: Page)
    ensures r == HomePage <==> pathname == Home
    ensures r == DocumentationPage <==> pathname == "/documentation"
    ensures r == CommandsPage <==> pathname == "/commands"
    ensures r == SupportPage <==> pathname == "/support"
    ensures r == NotFoundPage <==> pathname !in {Home, "/documentation", "/commands", "/support"}
  {
    match pathname
    case "/" => HomePage
    case "/documentation" => DocumentationPage
    case "/commands" => CommandsPage
    case "/support" => SupportPage
    case _ => NotFoundPage
  }

  /**
   * Every page renders a bar of its own, so the effects replace the bar with a
   * freshly mounted one exactly when they navigate to a route of another page.
   */
  predicate Remounts(effects: seq<Effect>, pathname: string)
  {
    |effects| > 0 && effects[0].Navigate? && PageOf(effects[0].path) != PageOf(pathname)
  }

  /** A click remounts the bar exactly when its target is served by another page than the current one. */
  lemma RemountsIff(path: string, sectionId: Option<string>, pathname: string)
    ensures Remounts(NavigationEffects(path, sectionId, pathname), pathname) <==> PageOf(path) != PageOf(pathname)
  {
  }

  /** One link of the bar: its label, target route and optional home-page section. */
  datatype NavLink = NavLink(caption: string, path: string, sectionId: Option<string>)

  /** `navLinks`, in display order. */
  const NavLinks: seq<NavLink> :=
    [ NavLink("Features", Home, Some("features")),
      NavLink("Commands", "/commands", None),
      NavLink("Documentation", "/documentation", None),
      NavLink("Support", "/support", None) ]

  /** Four links to four different pages; only the first names a section. */
  lemma NavLinksShape()
    ensures |NavLinks| == 4
    ensures forall i, j :: 0 <= i < j < |NavLinks| ==> PageOf(NavLinks[i].path) != PageOf(NavLinks[j].path)
    ensures forall i :: 0 <= i < |NavLinks| ==> (HasSection(NavLinks[i].sectionId) <==> i == 0)
  {
  }

  /** Which links scroll and which only change route. */
  lemma NavLinkEffects(link: NavLink, pathname: string)
    requires link in NavLinks
    ensures link.caption == "Features" && pathname == Home ==>
      NavigationEffects(link.path, link.sectionId, pathname) == [ScrollTo("features")]
    ensures link.caption == "Features" && pathname != Home ==>
      NavigationEffects(link.path, link.sectionId, pathname) == [Navigate(Home), DeferredScrollTo("features")]
    ensures link.caption != "Features" ==>
      NavigationEffects(link.path, link.sectionId, pathname) == [Navigate(link.path)] && link.path != Home
  {
  }

  /** The state of the bar. */
  class NavbarState {
    var isScrolled: bool
    var mobileOpen: bool

    /** The bar starts unscrolled with the drawer closed. */
    constructor ()
      ensures !isScrolled && !mobileOpen
    {
      isScrolled := false;
      mobileOpen := false;
    }

    /** The scroll listener. */
    method HandleScroll(scrollY: int)
      modifies this
      ensures isScrolled == ScrolledPast(scrollY)
      ensures mobileOpen == old(mobileOpen)
    {
      isScrolled := scrollY > ScrollThreshold;
    }

    /** `handleDrawerToggle`: the menu button, the backdrop and the close button. */
    method HandleDrawerToggle()
      modifies this
      ensures mobileOpen == !old(mobileOpen)
      ensures isScrolled == old(isScrolled)
    {
      mobileOpen := !mobileOpen;
    }

    /** `handleNavigation(path, sectionId)` while the router is at `pathname`; it always closes the drawer. */
    method HandleNavigation(path: string, sectionId: Option<string>, pathname: string) returns (effects: seq<Effect>)
      modifies this
      ensures effects == NavigationEffects(path, sectionId, pathname)
      ensures !mobileOpen
      ensures isScrolled == old(isScrolled)
    {
      effects := NavigationEffects(path, sectionId, pathname);
      mobileOpen := false;
    }
  }

  /**
   * A click on a link or on the logo of the bar shown on `pathname`: the
   * handler runs on `bar`, and when the effects move to another page the bar
   * then on screen is that page's new one, unscrolled and closed whatever the
   * scroll offset is, until its first scroll event.
   */
  method ClickNavigation(bar: NavbarState, path: string, sectionId: Option<string>, pathname: string)
      returns (shown: NavbarState, effects: seq<Effect>)
    modifies bar
    ensures effects == NavigationEffects(path, sectionId, pathname)
    ensures !bar.mobileOpen && bar.isScrolled == old(bar.isScrolled)
    ensures Remounts(effects, pathname) ==> fresh(shown) && !shown.isScrolled && !shown.mobileOpen
    ensures !Remounts(effects, pathname) ==> shown == bar
  {
    effects := bar.HandleNavigation(path, sectionId, pathname);
    if Remounts(effects, pathname) {
      shown := new NavbarState();
    } else {
      shown := bar;
    }
  }

  /** Two clicks on the drawer toggle restore the drawer. */
  method ToggleDrawerTwice(bar: NavbarState)
    modifies bar
    ensures bar.mobileOpen == old(bar.mobileOpen) && bar.isScrolled == old(bar.isScrolled)
  {
    bar.HandleDrawerToggle();
    bar.HandleDrawerToggle();
  }
}
