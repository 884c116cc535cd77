/** The top bar (src/components/Navigation.tsx): the fixed list of page
    links, the test that highlights the link of the current page, and the
    mobile menu's open flag. */
module Navigation {
  import opened Text

  datatype NavItem = NavItem(name: string, href: string)

  /** `navigationItems`, in display order. */
  const NavItems: seq<NavItem> := [
    NavItem("Dashboard", "/"),
    NavItem("Income List", "/income"),
    NavItem("Collaborations", "/collaborations"),
    NavItem("User Management", "/users"),
    NavItem("Reports", "/reports")
  ]

  /** `isActive(path)` on the page at `pathname`: the dashboard link only on
      the root itself, any other link on every path it is a prefix of. */
  function IsActive(pathname: string, path: string): (r: bool)
  {
    if path == "/" then pathname == "/" else StartsWith(pathname, path)
  }

  /** The dashboard link is active exactly on the root path. */
  lemma DashboardActiveOnlyAtRoot(pathname: string)
    ensures IsActive(pathname, NavItems[0].href) <==> pathname == "/"
  {
  }

  /** Every other link is active exactly on the paths it is a prefix of. */
  lemma OtherLinksArePrefixTests(pathname: string, i: nat)
    requires 1 <= i < |NavItems|
    ensures IsActive(pathname, NavItems[i].href) <==> StartsWith(pathname, NavItems[i].href)
  {
    assert NavItems[i].href != "/" by {
      assert |NavItems[i].href| > 1;
    }
  }

  /** On its own page, every link is highlighted. */
  lemma OwnPageIsActive(i: nat)
    requires i < |NavItems|
    ensures IsActive(NavItems[i].href, NavItems[i].href)
  {
  }

  /** The prefix test is on characters, not on path segments: the income
      link is also highlighted on `/incomeX`, and on a detail page below
      it. */
  lemma PrefixIsNotSegmentAware()
    ensures IsActive("/incomeX", "/income")
    ensures IsActive("/income/42", "/income")
    ensures !IsActive("/income", "/incomes")
  {
    assert "/incomeX"[..7] == "/income";
    assert "/income/42"[..7] == "/income";
  }

  /** Two prefixes of one path are prefixes of each other. */
  lemma PrefixesNest(p: string, a: string, b: string)
    requires StartsWith(p, a) && StartsWith(p, b) && |a| <= |b|
    ensures StartsWith(b, a)
  {
    assert b[..|a|] == p[..|b|][..|a|];
  }

  /** No link's path is a prefix of another's, except the root, which the
      dashboard test treats apart. */
  lemma HrefsDoNotNest(i: nat, j: nat)
    requires 1 <= i < |NavItems| && 1 <= j < |NavItems| && i != j
    ensures !StartsWith(NavItems[j].href, NavItems[i].href)
  {
    var a, b := NavItems[i].href, NavItems[j].href;
    if |a| <= |b| {
      assert a[1] != b[1] || a[2] != b[2];
    }
  }

  /** So whatever the path, at most one link is highlighted. */
  lemma AtMostOneActive(pathname: string, i: nat, j: nat)
    requires i < |NavItems| && j < |NavItems|
    requires IsActive(pathname, NavItems[i].href) && IsActive(pathname, NavItems[j].href)
    ensures i == j
  {
    if i != j {
      // the dashboard needs the root path, and no other link is a prefix
      // of it
      if i != 0 && j != 0 {
        var a, b := NavItems[i].href, NavItems[j].href;
        OtherLinksArePrefixTests(pathname, i);
        OtherLinksArePrefixTests(pathname, j);
        if |a| <= |b| {
          PrefixesNest(pathname, a, b);
          HrefsDoNotNest(i, j);
        } else {
          PrefixesNest(pathname, b, a);
          HrefsDoNotNest(j, i);
        }
      }
    }
  }

  // ---------------------------------------------------------------------
  // The mobile menu

  /** What the user does to the mobile menu. */
  datatype MenuEvent = ToggleButton | LinkClicked

  /** `isMobileMenuOpen` after an event: the button flips it (line 122),
      any link in the menu closes it (line 149). */
  function MenuNext(open: bool, e: MenuEvent): (r: bool)
  {
    match e
    case ToggleButton => !open
    case LinkClicked => false
  }

  /** The menu after a run of events, starting closed (line 27). */
  function MenuAfter(events: seq<MenuEvent>): (open: bool)
  {
    if events == [] then false else MenuNext(MenuAfter(events[..|events| - 1]), events[|events| - 1])
  }

  /** The number of button presses since the last link click. */
  function PressesSinceClick(events: seq<MenuEvent>): nat
  {
    if events == [] then 0
    else if events[|events| - 1] == LinkClicked then 0
    else PressesSinceClick(events[..|events| - 1]) + 1
  }

  /** The menu is open exactly when the button was pressed an odd number of
      times since the last link click (or since the start). */
  lemma {:induction false} MenuOpenIffOddPresses(events: seq<MenuEvent>)
    ensures MenuAfter(events) <==> PressesSinceClick(events) % 2 == 1
  {
    if events != [] {
      MenuOpenIffOddPresses(events[..|events| - 1]);
    }
  }

  /** Pressing the button twice restores the menu; a link click always
      leaves it closed. */
  lemma MenuEventsEffect(open: bool)
    ensures MenuNext(MenuNext(open, ToggleButton), ToggleButton) == open
    ensures MenuNext(open, LinkClicked) == false
    ensures MenuNext(open, ToggleButton) != open
  {
  }
}
