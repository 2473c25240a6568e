/**
 * The three-step survey wizard of the survey page: step 1 asks for the
 * property (value, balance, type, zip code), step 2 for the goals (use of
 * funds, timeframe), step 3 for the credit band. Continue is enabled only
 * when the step's required fields are filled; Continue on step 3 hands the
 * form to the caller.
 */
module SurveyWizard {
  import opened Wrappers
  import opened JsValues

  const TotalSteps := 3

  datatype Field =
    | HomeValue | MortgageBalance | CreditScore | PropertyType | UseOfFunds
    | Timeframe | FirstName | LastName | Email | Phone | ZipCode

  /**
   * The form state. Home value and balance start as numbers and become the
   * slider's strings once moved; every other field is a string.
   */
  datatype FormData = FormData(
    homeValue: JsValue,
    mortgageBalance: JsValue,
    creditScore: string,
    propertyType: string,
    useOfFunds: string,
    timeframe: string,
    firstName: string,
    lastName: string,
    email: string,
    phone: string,
    zipCode: string)
  {
    /** The value stored under `f`. */
    function Get(f: Field): JsValue {
      match f
      case HomeValue => homeValue
      case MortgageBalance => mortgageBalance
      case CreditScore => Str(creditScore)
      case PropertyType => Str(propertyType)
      case UseOfFunds => Str(useOfFunds)
      case Timeframe => Str(timeframe)
      case FirstName => Str(firstName)
      case LastName => Str(lastName)
      case Email => Str(email)
      case Phone => Str(phone)
      case ZipCode => Str(zipCode)
    }

    /** `{ ...formData, [f]: v }`: field `f` becomes `v`, nothing else changes. */
    function With(f: Field, v: string): (r: FormData)
      ensures r.Get(f) == Str(v)
      ensures forall g :: g != f ==> r.Get(g) == Get(g)
    {
      match f
      case HomeValue => this.(homeValue := Str(v))
      case MortgageBalance => this.(mortgageBalance := Str(v))
      case CreditScore => this.(creditScore := v)
      case PropertyType => this.(propertyType := v)
      case UseOfFunds => this.(useOfFunds := v)
      case Timeframe => this.(timeframe := v)
      case FirstName => this.(firstName := v)
      case LastName => this.(lastName := v)
      case Email => this.(email := v)
      case Phone => this.(phone := v)
      case ZipCode => this.(zipCode := v)
    }
  }

  /** $500,000 home value, $250,000 balance, every other field empty. */
  const InitialFormData := FormData(Num(500000), Num(250000), "", "", "", "", "", "", "", "", "")

  /** Continue on step 1: value and balance truthy, a property type, a five-character zip. */
  predicate Step1Complete(fd: FormData)
    ensures Step1Complete(fd) <==>
              Truthy(fd.homeValue) && Truthy(fd.mortgageBalance) && Truthy(Str(fd.propertyType)) && |fd.zipCode| == 5
  {
    Truthy(fd.homeValue) && Truthy(fd.mortgageBalance) && fd.propertyType != ""
    && fd.zipCode != "" && |fd.zipCode| == 5
  }

  /** Continue on step 2: a use of funds and a timeframe. */
  predicate Step2Complete(fd: FormData)
    ensures Step2Complete(fd) <==> Truthy(Str(fd.useOfFunds)) && Truthy(Str(fd.timeframe))
  {
    fd.useOfFunds != "" && fd.timeframe != ""
  }

  /** Continue on step 3: a credit band. */
  predicate Step3Complete(fd: FormData)
    ensures Step3Complete(fd) <==> Truthy(Str(fd.creditScore))
  {
    fd.creditScore != ""
  }

  /** Whether the Continue button of `step` is enabled. */
  predicate CanContinue(step: int, fd: FormData)
    ensures CanContinue(step, fd) ==> 1 <= step <= 3
    ensures 1 <= step <= 3 && Step1Complete(fd) && Step2Complete(fd) && Step3Complete(fd) ==> CanContinue(step, fd)
  {
    if step == 1 then Step1Complete(fd)
    else if step == 2 then Step2Complete(fd)
    else step == 3 && Step3Complete(fd)
  }

  /** The digits of `s`, in order (`s.replace(/\D/g, '')`). */
  function DigitsOnly(s: string): (d: string)
    ensures AllDigits(d) && |d| <= |s|
    ensures forall c :: IsDigit(c) ==> multiset(d)[c] == multiset(s)[c]
  {
    if s == [] then []
    else
      assert s == [s[0]] + s[1..];
      if IsDigit(s[0]) then [s[0]] + DigitsOnly(s[1..])
      else DigitsOnly(s[1..])
  }

  /** Filtering distributes over concatenation, so the digits keep their order. */
  lemma {:induction false} DigitsOnlyAppend(a: string, b: string)
    ensures DigitsOnly(a + b) == DigitsOnly(a) + DigitsOnly(b)
  {
    if a == [] {
      assert a + b == b;
    } else {
      assert (a + b)[0] == a[0];
      assert (a + b)[1..] == a[1..] + b;
      DigitsOnlyAppend(a[1..], b);
    }
  }

  /** The zip input's filter: keep the digits, then at most the first five. */
  function SanitizeZip(s: string): (z: string)
    ensures AllDigits(z) && |z| <= 5
    ensures |z| <= |DigitsOnly(s)| && z == DigitsOnly(s)[..|z|]
    ensures |z| == 5 || z == DigitsOnly(s)
  {
    var d := DigitsOnly(s);
    if |d| <= 5 then d else d[..5]
  }

  /** Removing non-digits from a digit string changes nothing. */
  lemma {:induction false} DigitsOnlyOfDigits(s: string)
    requires AllDigits(s)
    ensures DigitsOnly(s) == s
  {
    if s != [] {
      DigitsOnlyOfDigits(s[1..]);
    }
  }

  /** Sanitising twice is sanitising once. */
  lemma SanitizeZipIdempotent(s: string)
    ensures SanitizeZip(SanitizeZip(s)) == SanitizeZip(s)
  {
    DigitsOnlyOfDigits(SanitizeZip(s));
  }

  /** Step 1 never continues without a property type, whatever else is set. */
  lemma Step1NeedsPropertyType(fd: FormData)
    requires fd.propertyType == ""
    ensures !CanContinue(1, fd)
  {
  }

  /**
   * The initial form does not pass step 1; choosing a property type and typing
   * any text that holds at least five digits into the zip field makes it pass.
   */
  lemma Step1FromInitialForm(propertyType: string, zipInput: string)
    requires propertyType != "" && |DigitsOnly(zipInput)| >= 5
    ensures !CanContinue(1, InitialFormData)
    ensures CanContinue(1, InitialFormData.With(PropertyType, propertyType).With(ZipCode, SanitizeZip(zipInput)))
  {
  }

  /** The wizard component: the current step and the form. */
  class Wizard {
    var step: int
    var formData: FormData

    ghost predicate Valid()
      reads this
    {
      1 <= step <= TotalSteps
    }

    /** Whether Continue is enabled right now. */
    predicate ContinueEnabled()
      reads this
    {
      CanContinue(step, formData)
    }

    constructor ()
      ensures Valid()
      ensures step == 1 && formData == InitialFormData
    {
      step := 1;
      formData := InitialFormData;
    }

    /**
     * `handleNext`, reachable only through the enabled Continue button. Below
     * the last step it advances; on the last step it hands the current form
     * to `onSubmit` (returned here) and stays put.
     */
    method Next() returns (submitted: Option<FormData>)
      requires Valid() && ContinueEnabled()
      modifies this
      ensures Valid()
      ensures formData == old(formData)
      ensures old(step) < TotalSteps ==> step == old(step) + 1 && submitted == None
      ensures old(step) == TotalSteps ==> step == old(step) && submitted == Some(old(formData))
    {
      if step < TotalSteps {
        step := step + 1;
        submitted := None;
      } else {
        submitted := Some(formData);
      }
    }

    /** `handleBack`: one step back, nothing at step 1. */
    method Back()
      requires Valid()
      modifies this
      ensures Valid()
      ensures formData == old(formData)
      ensures step == if old(step) > 1 then old(step) - 1 else old(step)
    {
      if step > 1 {
        step := step - 1;
      }
    }

    /** `updateFormData(f, v)`. */
    method UpdateFormData(f: Field, v: string)
      requires Valid()
      modifies this
      ensures Valid() && step == old(step)
      ensures formData == old(formData).With(f, v)
      ensures formData.Get(f) == Str(v)
      ensures forall g :: g != f ==> formData.Get(g) == old(formData).Get(g)
    {
      formData := formData.With(f, v);
    }

    /** The zip input's change handler: sanitise, then store. */
    method EnterZipCode(input: string)
      requires Valid()
      modifies this
      ensures Valid() && step == old(step)
      ensures formData == old(formData).With(ZipCode, SanitizeZip(input))
      ensures AllDigits(formData.zipCode) && |formData.zipCode| <= 5
    {
      UpdateFormData(ZipCode, SanitizeZip(input));
    }
  }
}
