/**
 * The simplified application under `src/`: the same page state and admin
 * guard as the main shell, but `renderPage` shows the admin dashboard
 * without asking again; a one-form survey that builds its payload with
 * numeric defaults; and a results component that derives equity from it.
 */
module LegacyApp {
  import opened Wrappers
  import opened JsValues
  import opened Permissions
  import opened HomeEquity
  import opened Pages
  import Api
  import SurveyWizard
  import AppShell

  const DefaultHomeValue := 500000
  const DefaultMortgageBalance := 250000

  /** The payload the survey form submits. */
  datatype SurveyPayload = SurveyPayload(
    homeValue: int, mortgageBalance: int,
    creditScore: string, propertyType: string, useOfFunds: string, timeframe: string,
    firstName: string, lastName: string, email: string, phone: string, zipCode: string)

  /**
   * `handleSubmit`'s payload from the two number inputs (`undefined` when an
   * input is missing): `Number(value) || default`, every other field empty.
   */
  function BuildPayload(homeInput: JsValue, mortgageInput: JsValue): (p: SurveyPayload)
    ensures p.homeValue != 0 && p.mortgageBalance != 0
    ensures p.homeValue == DefaultHomeValue || ToNumber(homeInput) == Some(p.homeValue)
    ensures p.mortgageBalance == DefaultMortgageBalance || ToNumber(mortgageInput) == Some(p.mortgageBalance)
    ensures (ToNumber(homeInput) == None || ToNumber(homeInput) == Some(0)) ==> p.homeValue == DefaultHomeValue
    ensures (ToNumber(mortgageInput) == None || ToNumber(mortgageInput) == Some(0)) ==> p.mortgageBalance == DefaultMortgageBalance
    ensures p.creditScore == p.propertyType == p.useOfFunds == p.timeframe == ""
    ensures p.firstName == p.lastName == p.email == p.phone == p.zipCode == ""
  {
    SurveyPayload(NumberOr(homeInput, DefaultHomeValue), NumberOr(mortgageInput, DefaultMortgageBalance),
                  "", "", "", "", "", "", "", "", "")
  }

  /** A mortgage balance entered as 0 is submitted as 250000. */
  lemma ZeroBalanceBecomesDefault(homeInput: JsValue)
    ensures BuildPayload(homeInput, Str("0")).mortgageBalance == DefaultMortgageBalance
  {
    assert StringToNumber("0") == Some(0) by {
      assert AllDigits("0") && "0" == NatToString(0);
      StringToNumberRoundTrip(0);
    }
  }

  /** A typed whole number is submitted as that number. */
  lemma TypedValueKept(home: nat, mortgageInput: JsValue)
    requires home != 0
    ensures BuildPayload(Str(NatToString(home)), mortgageInput).homeValue == home
  {
    StringToNumberRoundTrip(home);
  }

  datatype ResultsFigures = ResultsFigures(equity: int, availableCash: int)

  /** The results component: `(home_value || 0) - (mortgage_balance || 0)` and its 85% floor. */
  function ResultsOf(p: SurveyPayload): (f: ResultsFigures)
    ensures f.equity + p.mortgageBalance == p.homeValue
    ensures 100 * f.availableCash <= 85 * f.equity < 100 * f.availableCash + 100
    ensures f.equity >= 0 ==> 0 <= f.availableCash <= f.equity
    ensures p.mortgageBalance > p.homeValue ==> f.equity < 0 && f.availableCash < 0
  {
    var equity := Equity(p.homeValue, p.mortgageBalance);
    ResultsFigures(equity, AvailableCash(equity))
  }

  /**
   * The inputs' default values, typed as shown or missing altogether, give
   * the same payload: $250,000 of equity and $212,500 of cash.
   */
  lemma DefaultResults()
    ensures BuildPayload(Str(NatToString(DefaultHomeValue)), Str(NatToString(DefaultMortgageBalance)))
            == BuildPayload(Undefined, Undefined)
    ensures ResultsOf(BuildPayload(Undefined, Undefined)) == ResultsFigures(250000, 212500)
  {
    StringToNumberRoundTrip(DefaultHomeValue);
    StringToNumberRoundTrip(DefaultMortgageBalance);
  }

  /** `renderPage` here: no re-check on the admin page, and no how-we-select page. */
  function RenderPage(page: Page, surveyData: Option<SurveyPayload>): (v: View<SurveyPayload>)
    ensures v != Loading
    ensures v.ShowAdmin? <==> page == AdminPage
    ensures v.ShowResults? <==> page == ResultsPage && surveyData.Some?
    ensures v.ShowResults? ==> v.data == surveyData.value
    ensures v == ShowHome <==> page == HomePage || page == HowWeSelectPage || page.UnknownPage?
                               || (page == ResultsPage && surveyData.None?)
  {
    match page
    case HomePage => ShowHome
    case WhyHelocsPage => ShowWhyHelocs
    case AboutPage => ShowAbout
    case ContactPage => ShowContact
    case CalculatorsPage => ShowCalculators
    case PartnersPage => ShowPartners
    case SurveyPage => ShowSurvey
    case ResultsPage => if surveyData.Some? then ShowResults(surveyData.value) else ShowHome
    case AdminPage => ShowAdmin
    case HowWeSelectPage => ShowHome
    case UnknownPage(_) => ShowHome
  }

  /** Lifts a view over one kind of survey data to the same view over another. */
  function MapView<D, E>(v: View<D>, f: D -> E): View<E> {
    match v
    case Loading => Loading
    case ShowHome => ShowHome
    case ShowWhyHelocs => ShowWhyHelocs
    case ShowAbout => ShowAbout
    case ShowContact => ShowContact
    case ShowCalculators => ShowCalculators
    case ShowPartners => ShowPartners
    case ShowHowWeSelect => ShowHowWeSelect
    case ShowSurvey => ShowSurvey
    case ShowResults(d) => ShowResults(f(d))
    case ShowAdmin => ShowAdmin
  }

  /**
   * Whenever the admin page is only reached through the guard, this shell
   * renders what the main shell would for the same page and answers; the
   * two differ only on the admin page without permission and on
   * how-we-select.
   */
  lemma {:induction false} AgreesWithMainShell(page: Page, data: Option<SurveyWizard.FormData>, user: Option<User>, f: SurveyWizard.FormData -> SurveyPayload)
    requires page != HowWeSelectPage
    requires NavigationAllowed(page, user)
    ensures MapView(AppShell.RenderPage(page, data, user), f)
         == RenderPage(page, if data.Some? then Some(f(data.value)) else None)
  {
  }

  class App {
    var currentPage: Page
    var user: Option<User>
    var surveyData: Option<SurveyPayload>
    var authChecked: bool

    /**
     * The admin page is current only for a user who may view it; this rests
     * on the navigation guard and on the user being set once, before which
     * nobody is signed in.
     */
    predicate Valid()
      reads this
    {
      (currentPage == AdminPage ==> CanViewAdmin(user))
      && (!authChecked ==> user == None)
    }

    constructor ()
      ensures Valid()
      ensures currentPage == HomePage && user == None && surveyData == None && !authChecked
    {
      currentPage := HomePage;
      user := None;
      surveyData := None;
      authChecked := false;
    }

    /** The start-up effect: record who is signed in and end the loading state. */
    method CheckSession(api: Api.ApiClient, response: Api.Response)
      requires Valid() && !authChecked
      modifies this, api
      ensures Valid() && authChecked
      ensures !Api.HasToken(old(api.token)) ==> user == None
      ensures Api.HasToken(old(api.token)) && Api.Outcome(response).Success? ==> user == Api.Outcome(response).value.user
      ensures Api.HasToken(old(api.token)) && Api.Outcome(response).Failure? ==> user == None && api.token == None
      ensures !(Api.HasToken(old(api.token)) && Api.Outcome(response).Failure?) ==> api.token == old(api.token)
      ensures currentPage == old(currentPage) && surveyData == old(surveyData)
    {
      var u, _ := api.GetCurrentUser(response);
      user := u;
      authChecked := true;
    }

    method OnNavigate(p: Page)
      requires Valid()
      modifies this
      ensures Valid()
      ensures currentPage == Navigate(old(currentPage), p, user)
      ensures user == old(user) && surveyData == old(surveyData) && authChecked == old(authChecked)
    {
      if p == AdminPage && !CanViewAdmin(user) {
        return;
      }
      currentPage := p;
    }

    /** The survey's `onSubmit`: keep the payload and show the results. */
    method OnSubmit(data: SurveyPayload)
      requires Valid()
      modifies this
      ensures Valid()
      ensures surveyData == Some(data) && currentPage == ResultsPage
      ensures user == old(user) && authChecked == old(authChecked)
    {
      surveyData := Some(data);
      currentPage := ResultsPage;
    }

    /** The survey form's submit: build the payload, hand it over, then navigate to results. */
    method SubmitSurveyForm(homeInput: JsValue, mortgageInput: JsValue)
      requires Valid()
      modifies this
      ensures Valid()
      ensures surveyData == Some(BuildPayload(homeInput, mortgageInput)) && currentPage == ResultsPage
      ensures user == old(user) && authChecked == old(authChecked)
    {
      OnSubmit(BuildPayload(homeInput, mortgageInput));
      OnNavigate(ResultsPage);
    }

    function Render(): (v: View<SurveyPayload>)
      requires Valid()
      reads this
      ensures v == Loading <==> !authChecked
      ensures authChecked ==> v == RenderPage(currentPage, surveyData)
      ensures v.ShowAdmin? ==> CanViewAdmin(user)
    {
      if !authChecked then Loading else RenderPage(currentPage, surveyData)
    }
  }
}
