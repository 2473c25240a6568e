/**
 * Page identifiers shared by the two application shells, the header and the
 * footer, the admin navigation guard, and what a shell renders.
 */
module Pages {
  import opened Wrappers
  import opened Permissions

  /** The pages of the site; any other identifier (the footer passes plain strings) is `UnknownPage`. */
  datatype Page =
    | HomePage | WhyHelocsPage | AboutPage | ContactPage | CalculatorsPage
    | PartnersPage | HowWeSelectPage | SurveyPage | ResultsPage | AdminPage
    | UnknownPage(id: string)

  const KnownIds: seq<string> :=
    ["home", "why-helocs", "about", "contact", "calculators", "partners", "how-we-select", "survey", "results", "admin"]

  /** An `UnknownPage` never carries the identifier of a known page. */
  predicate WellFormed(p: Page) {
    p.UnknownPage? ==> p.id !in KnownIds
  }

  function PageId(p: Page): string {
    match p
    case HomePage => "home"
    case WhyHelocsPage => "why-helocs"
    case AboutPage => "about"
    case ContactPage => "contact"
    case CalculatorsPage => "calculators"
    case PartnersPage => "partners"
    case HowWeSelectPage => "how-we-select"
    case SurveyPage => "survey"
    case ResultsPage => "results"
    case AdminPage => "admin"
    case UnknownPage(id) => id
  }

  function PageFromId(id: string): (p: Page)
    ensures WellFormed(p)
    ensures p.UnknownPage? <==> id !in KnownIds
  {
    if id == "home" then HomePage
    else if id == "why-helocs" then WhyHelocsPage
    else if id == "about" then AboutPage
    else if id == "contact" then ContactPage
    else if id == "calculators" then CalculatorsPage
    else if id == "partners" then PartnersPage
    else if id == "how-we-select" then HowWeSelectPage
    else if id == "survey" then SurveyPage
    else if id == "results" then ResultsPage
    else if id == "admin" then AdminPage
    else UnknownPage(id)
  }

  /** Identifiers and pages are in one-to-one correspondence. */
  lemma PageIdRoundTrip(p: Page, id: string)
    requires WellFormed(p)
    ensures PageFromId(PageId(p)) == p
    ensures PageId(PageFromId(id)) == id
  {
  }

  /** The `onNavigate` guard: the admin page needs a user who may view it; every other page is allowed. */
  predicate NavigationAllowed(p: Page, user: Option<User>) {
    p == AdminPage ==> CanViewAdmin(user)
  }

  /** The page a shell shows after `onNavigate(p)` from `current`. */
  function Navigate(current: Page, p: Page, user: Option<User>): (next: Page)
    ensures NavigationAllowed(p, user) ==> next == p
    ensures !NavigationAllowed(p, user) ==> next == current
    ensures next == AdminPage ==> current == AdminPage || CanViewAdmin(user)
  {
    if p == AdminPage && !CanViewAdmin(user) then current else p
  }

  /** What a shell renders: a loading view until the session check ends, then one page. */
  datatype View<D> =
    | Loading
    | ShowHome | ShowWhyHelocs | ShowAbout | ShowContact | ShowCalculators
    | ShowPartners | ShowHowWeSelect | ShowSurvey | ShowResults(data: D) | ShowAdmin
}
