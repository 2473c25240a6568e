/**
 * The application shell: the current page, the submitted survey answers,
 * the signed-in user and whether the start-up session check has finished.
 */
module AppShell {
  import opened Wrappers
  import opened Permissions
  import opened Pages
  import opened SurveyWizard
  import Api

  /**
   * `renderPage`: results need survey answers, the admin page is checked
   * again against the user, and anything unrecognised shows the home page.
   */
  function RenderPage(page: Page, surveyData: Option<FormData>, user: Option<User>): (v: View<FormData>)
    ensures v != Loading
    ensures v.ShowAdmin? <==> page == AdminPage && CanViewAdmin(user)
    ensures v.ShowResults? <==> page == ResultsPage && surveyData.Some?
    ensures v.ShowResults? ==> v.data == surveyData.value
    ensures v == ShowHome <==> page == HomePage || page.UnknownPage?
                               || (page == ResultsPage && surveyData.None?)
                               || (page == AdminPage && !CanViewAdmin(user))
  {
    match page
    case HomePage => ShowHome
    case WhyHelocsPage => ShowWhyHelocs
    case AboutPage => ShowAbout
    case ContactPage => ShowContact
    case CalculatorsPage => ShowCalculators
    case PartnersPage => ShowPartners
    case HowWeSelectPage => ShowHowWeSelect
    case SurveyPage => ShowSurvey
    case ResultsPage => if surveyData.Some? then ShowResults(surveyData.value) else ShowHome
    case AdminPage => if CanViewAdmin(user) then ShowAdmin else ShowHome
    case UnknownPage(_) => ShowHome
  }

  class App {
    var currentPage: Page
    var surveyData: Option<FormData>
    var user: Option<User>
    var authChecked: bool

    /** No user is known until the session check has finished. */
    predicate Valid()
      reads this
    {
      !authChecked ==> user == None
    }

    constructor ()
      ensures Valid()
      ensures currentPage == HomePage && surveyData == None && user == None && !authChecked
    {
      currentPage := HomePage;
      surveyData := None;
      user := None;
      authChecked := false;
    }

    /**
     * The start-up effect: ask the API who is signed in, then record the
     * answer and mark the check finished in the same step.
     */
    method CheckSession(api: Api.ApiClient, response: Api.Response)
      requires Valid() && !authChecked
      modifies this, api
      ensures Valid() && authChecked
      ensures !Api.HasToken(old(api.token)) ==> user == None
      ensures Api.HasToken(old(api.token)) && Api.Outcome(response).Success? ==> user == Api.Outcome(response).value.user
      ensures Api.HasToken(old(api.token)) && Api.Outcome(response).Failure? ==> user == None && api.token == None
      ensures !(Api.HasToken(old(api.token)) && Api.Outcome(response).Failure?) ==> api.token == old(api.token)
      ensures currentPage == old(currentPage) && surveyData == old(surveyData)
    {
      var u, _ := api.GetCurrentUser(response);
      user := u;
      authChecked := true;
    }

    /** `onNavigate(p)`: the admin page is refused unless the user may view it. */
    method OnNavigate(p: Page)
      requires Valid()
      modifies this
      ensures Valid()
      ensures currentPage == Navigate(old(currentPage), p, user)
      ensures surveyData == old(surveyData) && user == old(user) && authChecked == old(authChecked)
    {
      if p == AdminPage && !CanViewAdmin(user) {
        return;
      }
      currentPage := p;
    }

    /** The survey's `onSubmit`: keep the answers and show the results. */
    method OnSurveySubmit(data: FormData)
      requires Valid()
      modifies this
      ensures Valid()
      ensures surveyData == Some(data) && currentPage == ResultsPage
      ensures user == old(user) && authChecked == old(authChecked)
    {
      surveyData := Some(data);
      currentPage := ResultsPage;
    }

    /** Only the loading view until the session check has finished. */
    function Render(): (v: View<FormData>)
      reads this
      ensures v == Loading <==> !authChecked
      ensures authChecked ==> v == RenderPage(currentPage, surveyData, user)
      ensures v.ShowAdmin? ==> CanViewAdmin(user)
    {
      if !authChecked then Loading else RenderPage(currentPage, surveyData, user)
    }
  }

  /**
   * A worked scenario, stated by its assertion rather than an ensures: after
   * a submitted survey the results page shows exactly those answers.
   */
  method SubmitShowsResults(app: App, data: FormData)
    requires app.Valid() && app.authChecked
    modifies app
  {
    app.OnSurveySubmit(data);
    assert app.Render() == ShowResults(data);
  }
}
