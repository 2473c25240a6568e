# HELOC Guru front end — a Dafny model

HELOC Guru is a marketing site for home-equity lines of credit. Visitors fill in a
three-step survey. The results page then recommends three lending partners, scored
against the answers, and offers a contact form for each. The site also has three
calculators (equity, payment, debt-consolidation savings), a testimonial carousel,
a header and footer, and a thin authenticated API client with an admin gate.

This project models the decision logic of that site:

- **PartnerMatching**: the partner catalog, the additive score and the stable
  "top three by score".
- **SurveyWizard**: the survey as a class with a step and a form, its Continue
  guards and the zip-code filter.
- **ContactModal**: the contact modal as a class.
- **HomeEquity** and **Calculators**: equity and available cash in whole dollars;
  payments and savings in exact rationals.
- **Api**: the API client as a class holding the token slot. The network is a
  parameter: each call receives the response it gets and returns the request it
  sends.
- **Permissions**: the admin and user-type checks.
- **AppShell** and **LegacyApp**: the two application shells (`src/app/App.tsx`
  and the simplified `src/App.tsx`). The simplified shell also covers its survey
  form and results component.
- **Carousel**, **HeaderNav** and **FooterNav**: the small UI state machines.
- **Pages**: page identifiers and the navigation guard.
- **JsValues**: the JavaScript value semantics the code relies on (truthiness,
  `Number`, `parseInt`, `x || d`).

## Model

| member | source | states |
|---|---|---|
| JsValues.NumberOr | src/app/components/pages/ResultsPage.tsx:108-109 | `Number(v) \|\| d` is the parsed number unless that is 0 or NaN, in which case it is `d`; a non-zero default gives a non-zero result |
| JsValues.Truthy | src/services/api.ts:44 | `null` and `undefined` are falsy; every array and object, even an empty one, is truthy; a number is truthy iff it is non-zero |
| JsValues.ToNumber | src/app/components/pages/ResultsPage.tsx:108-109 | every falsy value converts to 0 or NaN; `undefined`, NaN and objects convert to NaN; a number converts to itself |
| JsValues.StringToNumber | src/app/components/pages/ResultsPage.tsx:108-109 | a blank string is 0; any other result is a non-negative whole number |
| JsValues.ParseInt | src/app/components/pages/ResultsPage.tsx:144-145 | a blank string is NaN; text that starts with a digit after white space reads as a non-negative number, whatever follows; a negative result needs a leading minus |
| JsValues.NatToString | src/services/api.ts:97-99 | the decimal numeral of an id: digits only, non-empty, no leading zero |
| JsValues.DecimalValueOfNatToString | src/services/api.ts:97-99 | reading the numeral of `n` back gives `n` |
| JsValues.ParseIntRoundTrip | src/app/components/pages/ResultsPage.tsx:144-145 | `parseInt` of the numeral of any natural number returns that number |
| JsValues.StringToNumberRoundTrip | src/app/components/pages/ResultsPage.tsx:108-109 | `Number` of the numeral of any natural number returns that number |
| HomeEquity.Equity | src/app/components/pages/ResultsPage.tsx:110 | equity plus mortgage balance is the home value |
| HomeEquity.AvailableCash | src/app/components/pages/ResultsPage.tsx:111 | the result is the floor of 85% of equity; for non-negative equity it lies in [0, equity]; negative equity gives negative cash, not clamped |
| HomeEquity.Ltv | src/app/components/pages/ResultsPage.tsx:112 | LTV times home value is 100 times the balance |
| HomeEquity.DefaultEquityExample | src/app/components/pages/ResultsPage.tsx:108-112 | the defaults 500000/250000 give equity 250000, cash 212500 and LTV 50 |
| HomeEquity.AvailableCashMonotonic | src/app/components/pages/ResultsPage.tsx:111 | more equity never gives less available cash |
| Permissions.CanViewAdmin | src/utils/permissions.ts:3-5 | admin access holds iff there is a user whose `admin` flag is a boolean and truthy, i.e. exactly `true` |
| Permissions.GetUserType | src/utils/permissions.ts:7-9 | the type is admin iff there is a user whose `admin` flag is truthy, whatever its JavaScript type; no user is a regular user; a user who may view admin is an admin |
| Permissions.UserTypeMatchesCanViewAdmin | src/utils/permissions.ts:3-9 | for a boolean `admin` flag, the user type is admin iff `canViewAdmin` holds |
| Permissions.NumericAdminFlagDisagrees | src/utils/permissions.ts:4-8 | for a truthy non-boolean flag (1), the user type is admin while `canViewAdmin` is false |
| Api.EncodeBody | src/services/api.ts:40 | FormData is sent as is; a truthy value is JSON-encoded; a falsy value sends no body |
| Api.ErrorMessage | src/services/api.ts:44-45 | a truthy `errors` array is joined with ", "; a truthy non-array gives "Request failed"; otherwise `error`, else `message`, else "Request failed" |
| Api.BaseUrl | src/services/api.ts:5-7 | the configured URL whenever one is set, even an empty one (`??`), else the default |
| Api.HasToken | src/services/api.ts:33-34 | a token counts iff one is stored and it is truthy, so an empty stored token does not |
| Api.NeedsJsonContentType | src/services/api.ts:30 | never for FormData; always for a truthy value; a `null` body gets the JSON content type although no body is sent |
| Api.BodyData | src/services/api.ts:42 | a JSON body is read as is; an unparseable one becomes `{}`, with no token, user, errors, error or message |
| Api.JoinAppend | src/services/api.ts:45 | joining one more item appends the separator and that item to the joined text |
| Api.JoinLength | src/services/api.ts:45 | the joined text is as long as all the items together plus one separator between each neighbouring pair |
| Api.ApiErrorOf | src/services/api.ts:44 | a list error iff `errors` is truthy, holding it unchanged; otherwise `error`, else `message`, else "Request failed" |
| Api.MessageOf | src/services/api.ts:45 | an `errors` array gives its items joined by ", ": empty for an empty array, otherwise their total length plus two per separator; a non-array list gives "Request failed"; a text error is its own message |
| Api.Outcome | src/services/api.ts:42-47 | a request succeeds iff the response is ok, and then yields its body (or `{}` if unparseable); a failed response throws its error message |
| Api.UnparseableFailure | src/services/api.ts:42-45 | a failing response whose body is not JSON reports "Request failed" |
| Api.ApiClient.constructor | src/services/api.ts:5-11 | the client starts with the configured base URL and the stored token |
| Api.ApiClient.GetToken | src/services/api.ts:59-61 | returns the stored token |
| Api.ApiClient.SetToken | src/services/api.ts:13-15 | the stored token becomes `t`, overwriting any previous one |
| Api.ApiClient.ClearToken | src/services/api.ts:17-19 | no token is stored afterwards |
| Api.ApiClient.Request | src/services/api.ts:21-48 | the URL is base plus path; method and body encoding are as given; JSON content type iff the body is defined and not FormData; bearer header iff a non-empty token is stored; every other caller header is kept and nothing else is added; the result is the response's outcome |
| Api.ApiClient.GetCurrentUser | src/services/api.ts:63-73 | with no token, no request and no user; otherwise a request to `/api/v1/auth/me` carrying the token; on success the returned user with the token kept; on any failure no user and the token cleared |
| Api.ApiClient.StoredToken | src/services/api.ts:80 | a missing token in the response is stored as the text "undefined" |
| Api.ApiClient.Authenticate | src/services/api.ts:75-91 | POSTs the fields as JSON; on success stores the response's token; on failure leaves the token unchanged |
| Api.ApiClient.SignIn | src/services/api.ts:75-82 | POST of email and password to the sign-in path; the token is stored only on success |
| Api.ApiClient.SignUp | src/services/api.ts:84-91 | POST of email, password and confirmation to the sign-up path; the token is stored only on success |
| Api.ApiClient.Get | src/services/api.ts:93-103 | a GET with no body whose bearer header is present iff a token is stored |
| Api.ApiClient.GetUsers | src/services/api.ts:93-95 | requests the users path, with the token when one is stored |
| Api.ApiClient.GetUser | src/services/api.ts:97-99 | requests the users path followed by "/" and the decimal id |
| Api.ApiClient.GetAdminDashboard | src/services/api.ts:101-103 | requests the admin dashboard path, with the token like any other call |
| SurveyWizard.FormData.With | src/app/components/pages/SurveyPage.tsx:47-49 | the updated field holds the new text and every other field is unchanged |
| SurveyWizard.DigitsOnly | src/app/components/pages/SurveyPage.tsx:239 | the result contains only digits, is no longer than the input, and holds every digit of the input as often as it occurs there |
| SurveyWizard.DigitsOnlyAppend | src/app/components/pages/SurveyPage.tsx:239 | filtering a concatenation is concatenating the filtered parts, so the digits keep their order |
| SurveyWizard.SanitizeZip | src/app/components/pages/SurveyPage.tsx:239 | the result has only digits and at most five of them; it is a prefix of the input's digits, and all of them when there are five or fewer |
| SurveyWizard.DigitsOnlyOfDigits | src/app/components/pages/SurveyPage.tsx:239 | filtering a digit string changes nothing |
| SurveyWizard.SanitizeZipIdempotent | src/app/components/pages/SurveyPage.tsx:239 | sanitising twice is the same as sanitising once |
| SurveyWizard.Step1Complete | src/app/components/pages/SurveyPage.tsx:253 | Continue on step 1 iff home value, balance and property type are truthy and the zip code has exactly five characters |
| SurveyWizard.Step2Complete | src/app/components/pages/SurveyPage.tsx:380 | Continue on step 2 iff use of funds and timeframe are truthy |
| SurveyWizard.Step3Complete | src/app/components/pages/SurveyPage.tsx:486 | Continue on step 3 iff a credit band is chosen |
| SurveyWizard.CanContinue | src/app/components/pages/SurveyPage.tsx:253 | Continue is only ever enabled on steps 1 to 3, and a form complete for all three steps can continue from each of them |
| SurveyWizard.Step1NeedsPropertyType | src/app/components/pages/SurveyPage.tsx:253 | step 1 cannot continue without a property type |
| SurveyWizard.Step1FromInitialForm | src/app/components/pages/SurveyPage.tsx:253 | the initial form cannot continue from step 1; adding a property type and a zip input with at least five digits lets it |
| SurveyWizard.Wizard.constructor | src/app/components/pages/SurveyPage.tsx:11-24 | step 1, home value 500000, balance 250000, every other field empty |
| SurveyWizard.Wizard.Next | src/app/components/pages/SurveyPage.tsx:29-38 | with Continue enabled, steps 1 and 2 advance by one and submit nothing; step 3 stays put and submits exactly the current form; the form is unchanged and the step stays in 1..3 |
| SurveyWizard.Wizard.Back | src/app/components/pages/SurveyPage.tsx:40-45 | goes back one step above step 1 and does nothing at step 1; the form is unchanged |
| SurveyWizard.Wizard.UpdateFormData | src/app/components/pages/SurveyPage.tsx:47-49 | changes the named field to the value and no other field, and keeps the step |
| SurveyWizard.Wizard.EnterZipCode | src/app/components/pages/SurveyPage.tsx:238-241 | stores the sanitised input as the zip code, so it holds only digits and at most five |
| PartnerMatching.StripCurrency | src/app/components/pages/ResultsPage.tsx:144-145 | removing `$` and `,` never lengthens the text |
| PartnerMatching.ParseLoan | src/app/components/pages/ResultsPage.tsx:144-145 | a bound with nothing left after stripping `$` and `,` is NaN; one whose stripped text is all digits reads as their decimal value |
| PartnerMatching.CashInLoanRange | src/app/components/pages/ResultsPage.tsx:146 | a NaN bound never matches; with both bounds numbers, the cash matches iff it lies between them inclusive |
| PartnerMatching.ParseLoanOf | src/app/components/pages/ResultsPage.tsx:144-145 | a bound whose stripped text is the numeral of `n` reads as `n` |
| PartnerMatching.CatalogLoanBounds | src/app/components/pages/ResultsPage.tsx:144-145 | "$10,000", "$15,000", "$25,000", "$500,000" and "$750,000" read as the amounts they show |
| PartnerMatching.Score | src/app/components/pages/ResultsPage.tsx:126-148 | the final score is between the seed score and the seed plus 30; the maximum is reached iff all four bonuses apply, the seed iff none does |
| PartnerMatching.ScoreAll | src/app/components/pages/ResultsPage.tsx:125-151 | every partner is scored, in order and unchanged, with its own score |
| PartnerMatching.ScoredDistinct | src/app/components/pages/ResultsPage.tsx:125-151 | distinct partners give distinct scored entries |
| PartnerMatching.Insert | src/app/components/pages/ResultsPage.tsx:154 | insertion adds exactly one entry and loses none |
| PartnerMatching.InsertSorted | src/app/components/pages/ResultsPage.tsx:154 | inserting into a list sorted highest first keeps it sorted |
| PartnerMatching.SortByScore | src/app/components/pages/ResultsPage.tsx:154 | the sort is a permutation of its input |
| PartnerMatching.SortByScoreSorted | src/app/components/pages/ResultsPage.tsx:154 | the sorted list is non-increasing in score |
| PartnerMatching.WithScoreInsert | src/app/components/pages/ResultsPage.tsx:154 | an inserted entry goes ahead of the entries with its own score, which is what keeps earlier input first |
| PartnerMatching.SortByScoreStable | src/app/components/pages/ResultsPage.tsx:154 | for every score, the entries with that score keep their input order |
| PartnerMatching.WithScorePrefix | src/app/components/pages/ResultsPage.tsx:154 | the entries of one score in a prefix are a prefix of those in the whole list |
| PartnerMatching.DistinctFromMultiset | src/app/components/pages/ResultsPage.tsx:154 | a permutation of a list without repeats has none |
| PartnerMatching.CountAtMostOne | src/app/components/pages/ResultsPage.tsx:154 | in a list without repeats every entry occurs at most once |
| PartnerMatching.TopCount | src/app/components/pages/ResultsPage.tsx:154 | `slice(0, 3)` keeps three entries, or all of them if there are fewer |
| PartnerMatching.TopIsSortedMembers | src/app/components/pages/ResultsPage.tsx:154 | the top entries are sorted and each is a listed partner with its own score |
| PartnerMatching.TopIsDistinct | src/app/components/pages/ResultsPage.tsx:154 | the top entries are distinct |
| PartnerMatching.UnselectedScoreLower | src/app/components/pages/ResultsPage.tsx:154 | every partner is either selected or scores no more than the last one selected |
| PartnerMatching.TopKeepsTieOrder | src/app/components/pages/ResultsPage.tsx:154 | among the selected entries, equal scores appear in catalog order |
| PartnerMatching.RecommendTop | src/app/components/pages/ResultsPage.tsx:124-155 | the result has min(3, n) distinct entries drawn from the partners with their own scores; it is sorted highest first; no unselected partner scores above the last selected one; ties keep catalog order |
| PartnerMatching.CatalogDistinct | src/app/components/pages/ResultsPage.tsx:22-95 | the six catalog partners are pairwise different |
| PartnerMatching.HomeValueOf | src/app/components/pages/ResultsPage.tsx:108 | the survey's home value unless it is 0 or NaN, then 500000; never 0 |
| PartnerMatching.MortgageBalanceOf | src/app/components/pages/ResultsPage.tsx:109 | the survey's balance unless it is 0 or NaN, then 250000; never 0 |
| PartnerMatching.MatchInputOf | src/app/components/pages/ResultsPage.tsx:108-111 | the credit band, timeframe and use of funds are the survey's, and the cash is the floor of 85% of value minus balance |
| PartnerMatching.GetRecommendedPartners | src/app/components/pages/ResultsPage.tsx:124-157 | exactly three distinct catalog partners, sorted by score |
| ContactModal.ContactForm.With | src/app/components/pages/ResultsPage.tsx:177-179 | the named contact field holds the value and the other four are unchanged |
| ContactModal.Modal.constructor | src/app/components/pages/ResultsPage.tsx:98-106 | closed, empty form, not submitted |
| ContactModal.Modal.IsOpen | src/app/components/pages/ResultsPage.tsx:399 | the modal is shown iff a partner is selected and its name is truthy |
| ContactModal.Modal.SelectPartner | src/app/components/pages/ResultsPage.tsx:308 | selects the partner and keeps the form and the submitted flag |
| ContactModal.Modal.ClickBackdrop | src/app/components/pages/ResultsPage.tsx:405 | closes the modal iff the form has not been submitted; the form and the flag are unchanged |
| ContactModal.Modal.ClickClose | src/app/components/pages/ResultsPage.tsx:426 | closes the modal; the form and the flag are unchanged |
| ContactModal.Modal.UpdateContactForm | src/app/components/pages/ResultsPage.tsx:177-179 | changes one contact field; the selection and the flag are unchanged |
| ContactModal.Modal.Submit | src/app/components/pages/ResultsPage.tsx:159-163 | sets the submitted flag and keeps the modal open with its form |
| ContactModal.Modal.SubmissionTimerFires | src/app/components/pages/ResultsPage.tsx:164-174 | closes the modal, clears the flag and empties all five fields |
| Calculators.ShownCalculators | src/app/components/pages/CalculatorsPage.tsx:67-69 | exactly one calculator is shown: the active one |
| Calculators.EquityCalculator | src/app/components/pages/CalculatorsPage.tsx:141-144 | equity is value minus balance; cash lies in [0, equity] when the balance is within [0, value]; LTV lies in [0, 100] iff the balance is between 0 and the value |
| Calculators.LtvRange | src/app/components/pages/CalculatorsPage.tsx:144 | the LTV range condition in both directions |
| Calculators.EquityCalculatorExample | src/app/components/pages/CalculatorsPage.tsx:138-144 | 500000/250000 gives 250000, 212500 and 50 |
| Calculators.MonthlyRate | src/app/components/pages/CalculatorsPage.tsx:260 | 1200 times the monthly rate is the annual percentage, and a positive percentage gives a positive rate |
| Calculators.InterestOnlyPayment | src/app/components/pages/CalculatorsPage.tsx:259-261 | twelve payments are the loan times the annual rate in percent over 100 |
| Calculators.PowGrowthBound | src/app/components/pages/CalculatorsPage.tsx:264 | the compounding factor grows at most linearly relative to itself, so 240 full payments cover the principal |
| Calculators.FullPayment | src/app/components/pages/CalculatorsPage.tsx:262-264 | for a positive loan the payment exceeds the interest-only payment, which is positive; 240 payments cover the principal |
| Calculators.BalanceClosedForm | src/app/components/pages/CalculatorsPage.tsx:264 | the balance after k payments matches the closed form of the annuity |
| Calculators.FullPaymentAmortizes | src/app/components/pages/CalculatorsPage.tsx:262-264 | after 240 full payments the balance is exactly zero |
| Calculators.TotalInterest | src/app/components/pages/CalculatorsPage.tsx:364 | total interest is at least the interest paid in the draw period, which is non-negative |
| Calculators.PaymentExample | src/app/components/pages/CalculatorsPage.tsx:255-261 | 100000 at 7.5% gives an interest-only payment of 625 |
| Calculators.SavingsCalculator | src/app/components/pages/CalculatorsPage.tsx:379-382 | the card payment is 2% of the debt; the HELOC payment is debt times rate over 1200; the monthly saving is their difference; the annual saving is twelve times the monthly |
| Calculators.MonthlySavingsPositiveIff | src/app/components/pages/CalculatorsPage.tsx:379-381 | for a positive debt, the monthly saving is positive iff the HELOC rate is below 24% |
| Calculators.SliderRatesSave | src/app/components/pages/CalculatorsPage.tsx:441-442 | every HELOC slider rate from 5 to 12 saves money |
| Calculators.CreditCardRateIgnored | src/app/components/pages/CalculatorsPage.tsx:376-382 | changing the card APR changes no computed figure |
| Calculators.SavingsExample | src/app/components/pages/CalculatorsPage.tsx:375-382 | 30000 at 7.5% gives 600, 187.5, 412.5 and 4950 |
| Pages.PageFromId | src/app/App.tsx:19 | an identifier names a known page iff it is one of the ten known identifiers |
| Pages.PageIdRoundTrip | src/app/App.tsx:19 | identifiers and pages convert back and forth without loss |
| Pages.Navigate | src/app/App.tsx:34-37 | a permitted page is shown; the admin page without permission leaves the current page; so admin is reached only with permission |
| AppShell.RenderPage | src/app/App.tsx:54-82 | the admin dashboard shows iff the page is admin and the user may view it; results show iff answers exist, and show exactly those; everything else unknown or refused falls back to the home page |
| AppShell.App.constructor | src/app/App.tsx:22-25 | home page, no answers, no user, session not checked |
| AppShell.App.CheckSession | src/app/App.tsx:27-32 | user and checked flag are set together from `getCurrentUser`; a failed check with a stored token clears the token, which is otherwise unchanged; page and answers unchanged |
| AppShell.App.OnNavigate | src/app/App.tsx:34-37 | moves to the page unless it is admin and the user may not view it |
| AppShell.App.OnSurveySubmit | src/app/App.tsx:71-74 | stores the answers and shows the results page |
| AppShell.App.Render | src/app/App.tsx:84-96 | loading until the session check finishes, then the rendered page; admin only with permission |
| LegacyApp.BuildPayload | src/components/survey-page.tsx:12-24 | home value and balance are the typed numbers unless 0 or NaN, then 500000 and 250000, never 0; all other fields empty |
| LegacyApp.ZeroBalanceBecomesDefault | src/components/survey-page.tsx:14 | a balance typed as "0" is submitted as 250000 |
| LegacyApp.TypedValueKept | src/components/survey-page.tsx:13 | a typed non-zero whole number is submitted as that number |
| LegacyApp.ResultsOf | src/components/results-page.tsx:9-10 | equity is value minus balance; cash is the floor of 85% of it, in [0, equity] when equity is non-negative; both are negative when the balance exceeds the value |
| LegacyApp.DefaultResults | src/components/survey-page.tsx:35-39 | the inputs' default values give the same payload typed or missing, and it yields equity 250000 and cash 212500 |
| LegacyApp.RenderPage | src/App.tsx:37-72 | the admin dashboard shows iff the page is admin, with no re-check; results need answers; home, how-we-select and unknown pages show home |
| LegacyApp.AgreesWithMainShell | src/App.tsx:61-70 | whenever the guard admits the page, this shell renders what the main shell does |
| LegacyApp.App.constructor | src/App.tsx:20-23 | home page, no user, no answers, not checked, and the admin invariant holds |
| LegacyApp.App.CheckSession | src/App.tsx:25-30 | user and checked flag are set together from `getCurrentUser`; a failed check with a stored token clears the token, which is otherwise unchanged; the admin invariant is kept |
| LegacyApp.App.OnNavigate | src/App.tsx:32-35 | the admin page is refused without permission, so "admin page implies permission" is kept |
| LegacyApp.App.OnSubmit | src/App.tsx:55-58 | stores the payload and shows the results page |
| LegacyApp.App.SubmitSurveyForm | src/components/survey-page.tsx:9-27 | builds the payload, hands it over, then navigates to results; ends on results with that payload |
| LegacyApp.App.Render | src/App.tsx:74-86 | loading until checked; the admin dashboard is shown only to a permitted user, by the invariant |
| Carousel.NextIndex | src/app/components/TrustSection.tsx:66-68 | the index advances by one and wraps from 2 to 0 |
| Carousel.PrevIndex | src/app/components/TrustSection.tsx:70-72 | the index goes back by one and wraps from 0 to 2 |
| Carousel.NextPrevInverse | src/app/components/TrustSection.tsx:66-72 | next and previous undo each other |
| Carousel.ThreeNextsReturn | src/app/components/TrustSection.tsx:66-68 | three steps forward return to the start |
| Carousel.SwipeActionOf | src/app/components/TrustSection.tsx:141-148 | below -10000 shows the next testimonial, above 10000 the previous, otherwise nothing |
| Carousel.SwipeDirection | src/app/components/TrustSection.tsx:142 | a next swipe has negative velocity, a previous swipe positive; no offset or no velocity does nothing |
| Carousel.Testimonials.constructor | src/app/components/TrustSection.tsx:56 | starts at testimonial 0 |
| Carousel.Testimonials.Next | src/app/components/TrustSection.tsx:66-68 | moves to the next index and stays in range |
| Carousel.Testimonials.Prev | src/app/components/TrustSection.tsx:70-72 | moves to the previous index and stays in range |
| Carousel.Testimonials.Tick | src/app/components/TrustSection.tsx:59-63 | the auto-advance does what next does |
| Carousel.Testimonials.SelectDot | src/app/components/TrustSection.tsx:165-168 | clicking dot k shows testimonial k |
| Carousel.Testimonials.DragEnd | src/app/components/TrustSection.tsx:141-148 | applies the swipe's action to the index |
| HeaderNav.NavItems | src/app/components/Header.tsx:16-26 | the four base items in order, then the Admin item iff the user may view it |
| HeaderNav.NavItemsAllowed | src/app/components/Header.tsx:26 | every item the header offers passes the shell's navigation guard |
| HeaderNav.ScrolledAt | src/app/components/Header.tsx:30 | scrolled iff the position is above 20, so never at the top of the page |
| HeaderNav.Header.constructor | src/app/components/Header.tsx:24-25 | not scrolled, menu closed |
| HeaderNav.Header.OnScroll | src/app/components/Header.tsx:29-31 | scrolled iff the scroll position is above 20 |
| HeaderNav.Header.ToggleMenu | src/app/components/Header.tsx:100 | flips the mobile menu |
| HeaderNav.Header.HandleNavigate | src/app/components/Header.tsx:37-41 | forwards the page and leaves the mobile menu closed |
| HeaderNav.Header.GetStarted | src/app/components/Header.tsx:91 | forwards the survey page and closes the menu |
| FooterNav.Toggle | src/app/components/Footer.tsx:18-20 | a section is open afterwards iff it was not open before, and only that section can be open |
| FooterNav.ToggleProperties | src/app/components/Footer.tsx:18-20 | opening a section closes every other one; toggling a section twice restores its own state and leaves every other section closed |
| FooterNav.Footer.constructor | src/app/components/Footer.tsx:11 | no section open |
| FooterNav.Footer.ToggleSection | src/app/components/Footer.tsx:18-20 | the open section becomes the toggled value |
| FooterNav.Footer.HandleNavigate | src/app/components/Footer.tsx:13-16 | the identifier is forwarded unchanged, whatever page it names |

Some helpers have no row of their own because they are parts of a member that has one:
`Pages.NavigationAllowed` is the guard inside `Pages.Navigate`;
`PartnerMatching.CreditBonus`, `TimeframeBonus`, `UseOfFundsBonus` and `LoanRangeBonus` are the four
weights of `PartnerMatching.Score`; `Api.Join` (`Array.prototype.join`) is stated by `Api.JoinAppend`,
`Api.JoinLength` and `Api.MessageOf`; `LegacyApp.MapView` is part of `LegacyApp.RenderPage`.

## Left out

- Rendering, styling, animation, `window.scrollTo`, the favicon and title effect, and `console.log` are not modelled.
- Timers are events, not time. The two-second contact-form timer is `ContactModal.Modal.SubmissionTimerFires` and the five-second carousel interval is `Carousel.Testimonials.Tick`.
- Numbers are integers (sliders, ids, catalog bounds) or exact rationals (rates, payments). IEEE-754 rounding, `toFixed` and currency formatting are not modelled.
- JsValues.StringToNumber: `Number` of a string with a sign, a fraction, an exponent, a hex prefix or `Infinity` is treated as NaN. Such text only reaches `Number(x) || d`, where the model then gives the default.
- JsValues.ParseInt: hexadecimal prefixes and a radix argument are not modelled; the catalog bounds never use them.
- Api.Outcome: a response body that is JSON but not an object (`null`, a number) is not modelled.
- Api.Outcome: the message of a network failure is not modelled; it is a distinct `NetworkError`.
- Api.ApiClient.GetUser: ids are natural numbers; negative or fractional ids are not modelled.
- Api.ApiClient.Request: request options other than method, headers and body are not modelled.
- `localStorage` is the token field of `Api.ApiClient`. A token persisted from an earlier visit is the constructor's argument.
- Api.ApiClient.GetCurrentUser: the request is described by its URL and bearer header; the response is a parameter.
- Calculators.FullPayment: requires a positive rate. At 0% the source divides 0 by 0 (NaN); the slider's minimum of 3% rules that out.
- SurveyWizard.Wizard.Next: requires the step's Continue guard. `handleNext` itself has no guard; the button is disabled instead.
- ContactModal.Modal.ClickClose: requires that the form is not yet submitted, because the close button is only rendered before submission.
- ContactModal.Modal.Submit: requires an open, unsubmitted modal, because the form is only rendered then.
- Carousel.Testimonials.SelectDot: requires an index in range, because there is one dot per testimonial.
- AppShell.App.CheckSession and LegacyApp.App.CheckSession: require that the check has not run yet, because the start-up effect runs once.
- HeaderNav.Header.HandleNavigate and FooterNav.Footer.HandleNavigate return the forwarded page instead of calling the shell. The shell's `OnNavigate` then applies the admin guard.
- The other page components (home, about, contact, partners, admin dashboard contents) and the simplified header and footer are not part of this model.
