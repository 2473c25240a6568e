/**
 * The site header: the navigation items (with an Admin entry only for a
 * user who may view it), the mobile menu, the scroll styling and the
 * "Get Started" buttons.
 */
module HeaderNav {
  import opened Wrappers
  import opened Permissions
  import opened Pages

  datatype NavItem = NavItem(id: Page, caption: string)

  const BaseNavItems: seq<NavItem> := [
    NavItem(HomePage, "Home"),
    NavItem(WhyHelocsPage, "Why HELOCs"),
    NavItem(CalculatorsPage, "Calculators"),
    NavItem(PartnersPage, "Lending Partners")
  ]

  const AdminNavItem := NavItem(AdminPage, "Admin")

  const ScrollThreshold := 20.0

  /** The four base items in order, then Admin exactly when the user may view it. */
  function NavItems(user: Option<User>): (items: seq<NavItem>)
    ensures |items| >= |BaseNavItems| && items[..|BaseNavItems|] == BaseNavItems
    ensures |items| == |BaseNavItems| + 1 <==> CanViewAdmin(user)
    ensures |items| > |BaseNavItems| ==> items[|BaseNavItems|..] == [AdminNavItem]
  {
    BaseNavItems + (if CanViewAdmin(user) then [AdminNavItem] else [])
  }

  /** Every item the header offers is one the shell's navigation guard lets through. */
  lemma NavItemsAllowed(user: Option<User>, item: NavItem)
    requires item in NavItems(user)
    ensures NavigationAllowed(item.id, user)
  {
    if item.id == AdminPage {
      assert item !in BaseNavItems;
    }
  }

  /** `isScrolled` after a scroll event. */
  predicate ScrolledAt(scrollY: real)
    ensures ScrolledAt(scrollY) ==> scrollY > 0.0
    ensures scrollY > 20.0 ==> ScrolledAt(scrollY)
    ensures scrollY <= 20.0 ==> !ScrolledAt(scrollY)
  {
    scrollY > ScrollThreshold
  }

  class Header {
    var isScrolled: bool
    var isMobileMenuOpen: bool

    constructor ()
      ensures !isScrolled && !isMobileMenuOpen
    {
      isScrolled := false;
      isMobileMenuOpen := false;
    }

    method OnScroll(scrollY: real)
      modifies this
      ensures isScrolled == ScrolledAt(scrollY)
      ensures isMobileMenuOpen == old(isMobileMenuOpen)
    {
      isScrolled := scrollY > ScrollThreshold;
    }

    /** The menu button flips the mobile menu. */
    method ToggleMenu()
      modifies this
      ensures isMobileMenuOpen == !old(isMobileMenuOpen)
      ensures isScrolled == old(isScrolled)
    {
      isMobileMenuOpen := !isMobileMenuOpen;
    }

    /** `handleNavigate(p)`: forward the page to the shell and close the mobile menu. */
    method HandleNavigate(p: Page) returns (forwarded: Page)
      modifies this
      ensures forwarded == p
      ensures !isMobileMenuOpen && isScrolled == old(isScrolled)
    {
      forwarded := p;
      isMobileMenuOpen := false;
    }

    /** Both "Get Started" buttons, desktop and mobile. */
    method GetStarted() returns (forwarded: Page)
      modifies this
      ensures forwarded == SurveyPage
      ensures !isMobileMenuOpen && isScrolled == old(isScrolled)
    {
      forwarded := HandleNavigate(SurveyPage);
    }
  }
}
