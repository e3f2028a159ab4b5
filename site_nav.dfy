/**
 * The site-wide slide-in menu (site-nav.tsx): when it is hidden, which link
 * is highlighted when it opens, the keyboard handling (Escape closes,
 * arrow keys move the highlight with wrap-around) and the open/close
 * transitions. Measuring the highlight's pixel bounds, focus management and
 * the body-scroll lock are not modelled.
 */
module SiteNav {

  datatype NavLink = NavLink(labelText: string, href: string)

  const NAV_LINKS: seq<NavLink> := [
    NavLink("ME", "/me"),
    NavLink("SKILLS", "/skills"),
    NavLink("PROJECTS", "/projects"),
    NavLink("MORE", "/more"),
    NavLink("CONTACT", "/contact")
  ]

  /** A position in the menu. */
  type LinkIndex = i: nat | i < 5

  const MOBILE_BREAKPOINT: int := 768

  predicate IsMobileViewport(innerWidth: int) {
    innerWidth < MOBILE_BREAKPOINT
  }

  /** The menu is not rendered on the chat page, nor on a wide home page. */
  predicate Hidden(pathname: string, isMobileViewport: bool) {
    pathname == "/chat" || (pathname == "/" && !isMobileViewport)
  }

  /** `links.findIndex(link => link.href === href)`: the first match, or -1. */
  function FindHref(links: seq<NavLink>, href: string): (r: int)
    ensures -1 <= r < |links|
    ensures r >= 0 ==> links[r].href == href && forall j :: 0 <= j < r ==> links[j].href != href
    ensures r == -1 <==> forall j :: 0 <= j < |links| ==> links[j].href != href
  {
    if links == [] then -1
    else if links[0].href == href then 0
    else var k := FindHref(links[1..], href); if k == -1 then -1 else k + 1
  }

  /** The link highlighted when the menu opens: the current page, else PROJECTS on the home page, else the first. */
  function OpenIndex(pathname: string): int {
    var current := FindHref(NAV_LINKS, pathname);
    if current >= 0 then current
    else if pathname == "/" then FindHref(NAV_LINKS, "/projects")
    else 0
  }

  /** The open index as a menu position; `OpenIndexSpec` shows it always is one. */
  function OpenPosition(pathname: string): LinkIndex {
    OpenIndexSpec(pathname);
    OpenIndex(pathname)
  }

  /** `(hoveredIndex + direction + NAV_LINKS.length) % NAV_LINKS.length`. */
  function NextIndex(hoveredIndex: LinkIndex, down: bool): LinkIndex {
    (hoveredIndex + (if down then 1 else -1) + |NAV_LINKS|) % |NAV_LINKS|
  }

  /** The menu's state: the route, the viewport flag, `menuOpen`, `hoveredIndex` and the open-highlight ref. */
  datatype NavState = NavState(
    pathname: string,
    isMobileViewport: bool,
    menuOpen: bool,
    hoveredIndex: LinkIndex,
    openHighlightIndex: LinkIndex)

  function Initial(pathname: string): NavState {
    NavState(pathname, false, false, 0, 0)
  }

  datatype NavEvent =
    | Resize(innerWidth: int)
    | MenuButton                 // the "[ MENU ]" button, rendered only while the menu is closed
    | CloseMenu                  // the overlay or the close button
    | FollowLink(index: LinkIndex)
    | HoverLink(index: LinkIndex) // mouse enter or focus on a link
    | KeyDown(key: string)

  function Step(s: NavState, e: NavEvent): NavState {
    var hidden := Hidden(s.pathname, s.isMobileViewport);
    match e
    case Resize(w) => s.(isMobileViewport := IsMobileViewport(w))
    case MenuButton =>
      if hidden || s.menuOpen then s
      else var i := OpenPosition(s.pathname); s.(openHighlightIndex := i, hoveredIndex := i, menuOpen := true)
    case CloseMenu => if hidden || !s.menuOpen then s else s.(menuOpen := false)
    case FollowLink(i) =>
      if hidden || !s.menuOpen then s else s.(menuOpen := false, pathname := NAV_LINKS[i].href)
    case HoverLink(i) => if hidden || !s.menuOpen then s else s.(hoveredIndex := i)
    case KeyDown(key) =>
      if hidden || !s.menuOpen then s
      else if key == "Escape" then s.(menuOpen := false)
      else if key == "ArrowDown" || key == "ArrowUp" then
        s.(hoveredIndex := NextIndex(s.hoveredIndex, key == "ArrowDown"))
      else s
  }

  /**
   * The highlight on opening: the current page's link when the route is one
   * of the menu's, PROJECTS on the home page, the first link otherwise. It
   * is never -1, so the source's reset of the highlight bounds for a
   * negative index cannot run.
   */
  lemma OpenIndexSpec(pathname: string)
    ensures 0 <= OpenIndex(pathname) < |NAV_LINKS|
    ensures forall i :: 0 <= i < |NAV_LINKS| && NAV_LINKS[i].href == pathname ==> OpenIndex(pathname) == i
    ensures pathname == "/" ==> NAV_LINKS[OpenIndex(pathname)].href == "/projects"
    ensures (forall i :: 0 <= i < |NAV_LINKS| ==> NAV_LINKS[i].href != pathname) && pathname != "/" ==> OpenIndex(pathname) == 0
  {
    var p := FindHref(NAV_LINKS, "/projects");
    assert NAV_LINKS[2].href == "/projects";
    assert p == 2;
  }

  /** The arrows wrap: up from the first link is the last, down from the last is the first. */
  lemma NextIndexWraps()
    ensures NextIndex(0, false) == 4 && NextIndex(4, true) == 0
    ensures forall i: LinkIndex :: i < 4 ==> NextIndex(i, true) == i + 1
    ensures forall i: LinkIndex :: i > 0 ==> NextIndex(i, false) == i - 1
  {
  }

  /** Down then up, or up then down, returns to the same link. */
  lemma NextIndexInverse(i: LinkIndex)
    ensures NextIndex(NextIndex(i, true), false) == i
    ensures NextIndex(NextIndex(i, false), true) == i
  {
  }

  /** Pressing the same arrow five times cycles back to the start. */
  lemma NextIndexCycle(i: LinkIndex, down: bool)
    ensures NextIndex(NextIndex(NextIndex(NextIndex(NextIndex(i, down), down), down), down), down) == i
  {
  }

  /** Opening the menu highlights the open index; Escape and the close controls close it; the arrows move the highlight. */
  lemma OpenCloseSpec(s: NavState, key: string)
    requires !Hidden(s.pathname, s.isMobileViewport)
    ensures !s.menuOpen ==> Step(s, MenuButton).menuOpen && Step(s, MenuButton).hoveredIndex == OpenIndex(s.pathname)
    ensures s.menuOpen ==> Step(s, KeyDown("Escape")) == s.(menuOpen := false)
    ensures s.menuOpen ==> Step(s, CloseMenu) == s.(menuOpen := false)
    ensures s.menuOpen ==> Step(s, MenuButton) == s
    ensures s.menuOpen && (key == "ArrowDown" || key == "ArrowUp") ==>
              Step(s, KeyDown(key)) == s.(hoveredIndex := NextIndex(s.hoveredIndex, key == "ArrowDown"))
  {
  }

  /** While the menu is closed or hidden, no key, hover or close changes anything. */
  lemma ClosedMenuIgnoresInput(s: NavState, e: NavEvent)
    requires !s.menuOpen || Hidden(s.pathname, s.isMobileViewport)
    requires e.KeyDown? || e.HoverLink? || e.CloseMenu? || e.FollowLink?
    ensures Step(s, e) == s
  {
  }

  /** Following a link closes the menu on that link's page. */
  lemma FollowLinkSpec(s: NavState, i: LinkIndex)
    requires s.menuOpen && !Hidden(s.pathname, s.isMobileViewport)
    ensures !Step(s, FollowLink(i)).menuOpen && Step(s, FollowLink(i)).pathname == NAV_LINKS[i].href
  {
  }

  /**
   * The menu component: its state variables updated in place by the
   * handlers; each method performs the corresponding `Step`.
   */
  class SiteNavMenu {
    var pathname: string
    var isMobileViewport: bool
    var menuOpen: bool
    var hoveredIndex: LinkIndex
    var openHighlightIndex: LinkIndex

    function Snapshot(): NavState
      reads this
    {
      NavState(pathname, isMobileViewport, menuOpen, hoveredIndex, openHighlightIndex)
    }

    constructor (path: string)
      ensures Snapshot() == Initial(path)
    {
      pathname := path;
      isMobileViewport := false;
      menuOpen := false;
      hoveredIndex := 0;
      openHighlightIndex := 0;
    }

    method OnResize(innerWidth: int)
      modifies this
      ensures Snapshot() == Step(old(Snapshot()), Resize(innerWidth))
    {
      isMobileViewport := innerWidth < MOBILE_BREAKPOINT;
    }

    method OnMenuButton()
      modifies this
      ensures Snapshot() == Step(old(Snapshot()), MenuButton)
    {
      if Hidden(pathname, isMobileViewport) || menuOpen {
        return;
      }
      var currentPageIndex := FindHref(NAV_LINKS, pathname);
      var openIndex := 0;
      if currentPageIndex >= 0 {
        openIndex := currentPageIndex;
      } else if pathname == "/" {
        openIndex := FindHref(NAV_LINKS, "/projects");
      }
      OpenIndexSpec(pathname);
      openHighlightIndex := openIndex;
      hoveredIndex := openIndex;
      menuOpen := true;
    }

    method OnKeyDown(key: string)
      modifies this
      ensures Snapshot() == Step(old(Snapshot()), KeyDown(key))
    {
      if Hidden(pathname, isMobileViewport) || !menuOpen {
        return;
      }
      if key == "Escape" {
        menuOpen := false;
        return;
      }
      if key == "ArrowDown" || key == "ArrowUp" {
        var direction := if key == "ArrowDown" then 1 else -1;
        hoveredIndex := (hoveredIndex + direction + |NAV_LINKS|) % |NAV_LINKS|;
      }
    }

    method OnClose()
      modifies this
      ensures Snapshot() == Step(old(Snapshot()), CloseMenu)
    {
      if Hidden(pathname, isMobileViewport) || !menuOpen {
        return;
      }
      menuOpen := false;
    }

    method OnFollowLink(index: LinkIndex)
      modifies this
      ensures Snapshot() == Step(old(Snapshot()), FollowLink(index))
    {
      if Hidden(pathname, isMobileViewport) || !menuOpen {
        return;
      }
      menuOpen := false;
      pathname := NAV_LINKS[index].href;
    }

    method OnHoverLink(index: LinkIndex)
      modifies this
      ensures Snapshot() == Step(old(Snapshot()), HoverLink(index))
    {
      if Hidden(pathname, isMobileViewport) || !menuOpen {
        return;
      }
      hoveredIndex := index;
    }
  }
}
