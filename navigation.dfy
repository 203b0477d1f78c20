/**
 * Navigation behaviour shared by every page: the active link is the one whose
 * href is the current page's file name; the mobile menu is two 'active'
 * classes that a toggle flips and any link or outside click clears; the nav
 * bar carries 'scrolled' while the page is scrolled past 50 pixels.
 */
module Navigation {
  import opened Wrappers

  /** The page name used when the path ends in '/'. */
  const DEFAULT_PAGE := "index.html"
  const ACTIVE := "active"
  const SCROLLED := "scrolled"
  const SCROLL_THRESHOLD: real := 50.0

  /** pathname.split('/'). */
  function Split(s: string): (parts: seq<string>)
    ensures |parts| >= 1
  {
    if s == [] then [""]
    else
      var rest := Split(s[1..]);
      if s[0] == '/' then [""] + rest
      else [[s[0]] + rest[0]] + rest[1..]
  }

  /**
   * The last part of the split is '/'-free and ends the string; it is the
   * whole string when there is one part, and follows a '/' otherwise.
   */
  lemma {:induction false} SplitLast(s: string)
    ensures var parts := Split(s);
            var last := parts[|parts| - 1];
            '/' !in last && |last| <= |s| && s[|s| - |last|..] == last &&
            (|parts| == 1 ==> last == s) &&
            (|parts| > 1 ==> |last| < |s| && s[|s| - |last| - 1] == '/')
    decreases |s|
  {
    if s != [] {
      var t := s[1..];
      SplitLast(t);
      var rest := Split(t);
      var last := rest[|rest| - 1];
      var parts := Split(s);
      assert s[|s| - |last|..] == t[|t| - |last|..];
      if s[0] == '/' {
        assert parts == [""] + rest;
        assert parts[|parts| - 1] == last;
        if |rest| > 1 {
          assert s[|s| - |last| - 1] == t[|t| - |last| - 1];
        } else {
          assert last == t;
          assert s[|s| - |last| - 1] == s[0];
        }
      } else if |rest| > 1 {
        assert parts == [[s[0]] + rest[0]] + rest[1..];
        assert parts[|parts| - 1] == last;
        assert s[|s| - |last| - 1] == t[|t| - |last| - 1];
      } else {
        assert parts == [[s[0]] + t];
        assert [s[0]] + t == s;
      }
    }
  }

  /** .split('/').pop(): the text after the last '/', or all of it. */
  function LastSegment(s: string): (seg: string)
    ensures '/' !in seg
    ensures |seg| <= |s| && s[|s| - |seg|..] == seg
    ensures |seg| == |s| || s[|s| - |seg| - 1] == '/'
  {
    SplitLast(s);
    var parts := Split(s);
    parts[|parts| - 1]
  }

  /** The three properties of LastSegment determine it: it is the longest '/'-free suffix. */
  lemma LastSegmentUnique(s: string, seg: string)
    requires '/' !in seg
    requires |seg| <= |s| && s[|s| - |seg|..] == seg
    requires |seg| == |s| || s[|s| - |seg| - 1] == '/'
    ensures seg == LastSegment(s)
  {
    var last := LastSegment(s);
    assert |seg| == |last|;
  }

  /** `pathname.split('/').pop() || 'index.html'`. */
  function CurrentPage(pathname: string): string {
    var seg := LastSegment(pathname);
    if seg == "" then DEFAULT_PAGE else seg
  }

  /**
   * The current page is never empty: a path ending in '/' (or empty) gives
   * 'index.html'; otherwise it is the path's last '/'-free segment.
   */
  lemma CurrentPageSpec(pathname: string)
    ensures CurrentPage(pathname) != ""
    ensures pathname == "" || pathname[|pathname| - 1] == '/' ==> CurrentPage(pathname) == DEFAULT_PAGE
    ensures pathname != "" && pathname[|pathname| - 1] != '/' ==>
              var page := CurrentPage(pathname);
              '/' !in page && |page| <= |pathname| && pathname[|pathname| - |page|..] == page &&
              (|page| == |pathname| || pathname[|pathname| - |page| - 1] == '/')
  {
    var seg := LastSegment(pathname);
  }

  lemma CurrentPageExamples()
    ensures CurrentPage("/menu.html") == "menu.html"
    ensures CurrentPage("/") == DEFAULT_PAGE
    ensures CurrentPage("") == DEFAULT_PAGE
  {
    LastSegmentUnique("/menu.html", "menu.html");
    LastSegmentUnique("/", "");
  }

  /** A nav link's test: href === currentPage || (currentPage === '' && href === 'index.html'). */
  predicate LinkMatches(href: Option<string>, currentPage: string) {
    href == Some(currentPage) || (currentPage == "" && href == Some(DEFAULT_PAGE))
  }

  /** Since the current page is never empty, the second disjunct never decides. */
  lemma SecondDisjunctIsDead(pathname: string, href: Option<string>)
    ensures LinkMatches(href, CurrentPage(pathname)) <==> href == Some(CurrentPage(pathname))
  {
    CurrentPageSpec(pathname);
  }

  /** classList.toggle(name). */
  function Toggle(classes: set<string>, name: string): (r: set<string>)
    ensures name in r <==> name !in classes
    ensures r - {name} == classes - {name}
  {
    if name in classes then classes - {name} else classes + {name}
  }

  /** A DOM element, as far as the navigation needs it: its classes and its href attribute. */
  class Element {
    var classes: set<string>
    /** getAttribute('href'): None when the attribute is absent. */
    const href: Option<string>

    constructor (href: Option<string>, classes: set<string>)
      ensures this.href == href && this.classes == classes
    {
      this.href := href;
      this.classes := classes;
    }
  }

  /** initNavigation: every link whose href is the current page gains 'active'. */
  method InitNavigation(pathname: string, links: seq<Element>)
    requires forall i, j :: 0 <= i < j < |links| ==> links[i] != links[j]
    modifies set l | l in links
    ensures forall i :: 0 <= i < |links| ==>
              links[i].classes ==
                old(links[i].classes) + (if links[i].href == Some(CurrentPage(pathname)) then {ACTIVE} else {})
  {
    var currentPage := CurrentPage(pathname);
    forall i | 0 <= i < |links| ensures LinkMatches(links[i].href, currentPage) <==> links[i].href == Some(currentPage) {
      SecondDisjunctIsDead(pathname, links[i].href);
    }
    MarkActiveLinks(links, currentPage);
  }

  /** The forEach over the nav links: only adds 'active', and only to matching links. */
  method MarkActiveLinks(links: seq<Element>, currentPage: string)
    requires forall i, j :: 0 <= i < j < |links| ==> links[i] != links[j]
    modifies set l | l in links
    ensures forall i :: 0 <= i < |links| ==>
              links[i].classes ==
                old(links[i].classes) + (if LinkMatches(links[i].href, currentPage) then {ACTIVE} else {})
  {
    var n := 0;
    while n < |links|
      invariant 0 <= n <= |links|
      invariant forall i :: 0 <= i < n ==>
                  links[i].classes ==
                    old(links[i].classes) + (if LinkMatches(links[i].href, currentPage) then {ACTIVE} else {})
      invariant forall i :: n <= i < |links| ==> links[i].classes == old(links[i].classes)
    {
      var link := links[n];
      var href := link.href;
      if href == Some(currentPage) || (currentPage == "" && href == Some(DEFAULT_PAGE)) {
        link.classes := link.classes + {ACTIVE};
      }
      n := n + 1;
    }
  }

  /** The mobile menu's two flags: 'active' on .nav-links and on .menu-toggle. */
  datatype MenuFlags = MenuFlags(linksActive: bool, toggleActive: bool)

  const CLOSED := MenuFlags(false, false)

  /** Where a click lands: in the toggle, on a menu link, elsewhere in the menu, or outside both. */
  datatype ClickTarget = OnToggle | OnMenuLink | InsideMenu | Outside

  /**
   * One click, through every handler it reaches: the toggle's handler flips
   * both flags, a link's handler clears them, and the document's handler
   * clears them only for a click outside both elements.
   */
  function Click(f: MenuFlags, t: ClickTarget): MenuFlags {
    match t
    case OnToggle => MenuFlags(!f.linksActive, !f.toggleActive)
    case OnMenuLink => CLOSED
    case InsideMenu => f
    case Outside => CLOSED
  }

  predicate InSync(f: MenuFlags) {
    f.linksActive == f.toggleActive
  }

  function Clicks(f: MenuFlags, ts: seq<ClickTarget>): MenuFlags
    decreases |ts|
  {
    if ts == [] then f else Clicks(Click(f, ts[0]), ts[1..])
  }

  /** Flags that start equal stay equal over any clicks. */
  lemma {:induction false} ClicksKeepSync(f: MenuFlags, ts: seq<ClickTarget>)
    requires InSync(f)
    ensures InSync(Clicks(f, ts))
    decreases |ts|
  {
    if ts != [] {
      ClicksKeepSync(Click(f, ts[0]), ts[1..]);
    }
  }

  /** The toggle flips the menu: two toggles restore it; closing twice is closing once. */
  lemma ClickLaws(f: MenuFlags)
    ensures Click(Click(f, OnToggle), OnToggle) == f
    ensures Click(f, OnToggle).linksActive != f.linksActive
    ensures Click(Click(f, Outside), Outside) == Click(f, Outside) == CLOSED
    ensures Click(Click(f, OnMenuLink), OnMenuLink) == Click(f, OnMenuLink) == CLOSED
    ensures Click(f, InsideMenu) == f
  {
  }

  /** From a synchronised state, the menu is open after the toggle clicks iff their number is odd. */
  lemma {:induction false} TogglesParity(f: MenuFlags, n: nat)
    requires InSync(f)
    ensures Clicks(f, seq(n, _ => OnToggle)).linksActive == (f.linksActive != (n % 2 == 1))
    ensures InSync(Clicks(f, seq(n, _ => OnToggle)))
    decreases n
  {
    var ts := seq(n, _ => OnToggle);
    if n > 0 {
      assert ts[1..] == seq(n - 1, _ => OnToggle);
      TogglesParity(Click(f, OnToggle), n - 1);
    }
  }

  /** initMobileMenu's handlers, present only when both elements exist. */
  class MobileMenu {
    const toggle: Element
    const panel: Element

    function Flags(): MenuFlags
      reads toggle, panel
    {
      MenuFlags(ACTIVE in panel.classes, ACTIVE in toggle.classes)
    }

    constructor (toggle: Element, panel: Element)
      ensures this.toggle == toggle && this.panel == panel
    {
      this.toggle := toggle;
      this.panel := panel;
    }

    /** The toggle's click handler. */
    method OnToggleClick()
      requires toggle != panel
      modifies toggle, panel
      ensures panel.classes == Toggle(old(panel.classes), ACTIVE)
      ensures toggle.classes == Toggle(old(toggle.classes), ACTIVE)
      ensures Flags() == Click(old(Flags()), OnToggle)
    {
      panel.classes := Toggle(panel.classes, ACTIVE);
      toggle.classes := Toggle(toggle.classes, ACTIVE);
    }

    /** What a link's handler and the outside-click handler both do. */
    method Close()
      modifies toggle, panel
      ensures panel.classes == old(panel.classes) - {ACTIVE}
      ensures toggle.classes == old(toggle.classes) - {ACTIVE}
      ensures Flags() == CLOSED
    {
      panel.classes := panel.classes - {ACTIVE};
      toggle.classes := toggle.classes - {ACTIVE};
    }

    /** The document's click handler: close unless the target is inside either element. */
    method OnDocumentClick(inToggle: bool, inPanel: bool)
      modifies toggle, panel
      ensures !inToggle && !inPanel ==> Flags() == CLOSED
      ensures !inToggle && !inPanel ==>
                panel.classes == old(panel.classes) - {ACTIVE} && toggle.classes == old(toggle.classes) - {ACTIVE}
      ensures inToggle || inPanel ==> panel.classes == old(panel.classes) && toggle.classes == old(toggle.classes)
    {
      if !inToggle && !inPanel {
        Close();
      }
    }

    /** A click, run through the handlers it reaches in bubbling order. */
    method Dispatch(t: ClickTarget)
      requires toggle != panel
      modifies toggle, panel
      ensures Flags() == Click(old(Flags()), t)
      ensures panel.classes - {ACTIVE} == old(panel.classes) - {ACTIVE}
      ensures toggle.classes - {ACTIVE} == old(toggle.classes) - {ACTIVE}
    {
      match t
      case OnToggle =>
        OnToggleClick();
        OnDocumentClick(true, false);
      case OnMenuLink =>
        Close();
        OnDocumentClick(false, true);
      case InsideMenu =>
        OnDocumentClick(false, true);
      case Outside =>
        OnDocumentClick(false, false);
    }
  }

  /** initMobileMenu: the handlers are wired only when both elements exist. */
  method InitMobileMenu(toggle: Element?, panel: Element?) returns (menu: MobileMenu?)
    ensures menu != null <==> toggle != null && panel != null
    ensures menu != null ==> fresh(menu) && menu.toggle == toggle && menu.panel == panel
  {
    if toggle != null && panel != null {
      menu := new MobileMenu(toggle, panel);
    } else {
      menu := null;
    }
  }

  /** The nav bar's classes after a scroll to `scrollY`. */
  function AfterScroll(classes: set<string>, scrollY: real): (r: set<string>)
    ensures SCROLLED in r <==> scrollY > SCROLL_THRESHOLD
    ensures r - {SCROLLED} == classes - {SCROLLED}
  {
    if scrollY > SCROLL_THRESHOLD then classes + {SCROLLED} else classes - {SCROLLED}
  }

  function AfterScrolls(classes: set<string>, ys: seq<real>): set<string>
    decreases |ys|
  {
    if ys == [] then classes else AfterScrolls(AfterScroll(classes, ys[0]), ys[1..])
  }

  /** After any series of scroll events only the last position decides 'scrolled'. */
  lemma {:induction false} LastScrollDecides(classes: set<string>, ys: seq<real>)
    requires ys != []
    ensures SCROLLED in AfterScrolls(classes, ys) <==> ys[|ys| - 1] > SCROLL_THRESHOLD
    ensures AfterScrolls(classes, ys) - {SCROLLED} == classes - {SCROLLED}
    decreases |ys|
  {
    if |ys| > 1 {
      LastScrollDecides(AfterScroll(classes, ys[0]), ys[1..]);
    }
  }

  /** initScrollEffects' listener and its `lastScroll` variable. */
  class NavBar {
    const nav: Element
    var lastScroll: real

    constructor (nav: Element)
      ensures this.nav == nav && lastScroll == 0.0
    {
      this.nav := nav;
      lastScroll := 0.0;
    }

    method OnScroll(scrollY: real)
      modifies nav, this`lastScroll
      ensures nav.classes == AfterScroll(old(nav.classes), scrollY)
      ensures lastScroll == scrollY
    {
      var currentScroll := scrollY;
      if currentScroll > SCROLL_THRESHOLD {
        nav.classes := nav.classes + {SCROLLED};
      } else {
        nav.classes := nav.classes - {SCROLLED};
      }
      lastScroll := currentScroll;
    }
  }

  /** initScrollEffects: the listener exists only when the page has a nav element. */
  method InitScrollEffects(nav: Element?) returns (bar: NavBar?)
    ensures bar != null <==> nav != null
    ensures bar != null ==> fresh(bar) && bar.nav == nav && bar.lastScroll == 0.0
  {
    if nav != null {
      bar := new NavBar(nav);
    } else {
      bar := null;
    }
  }
}
