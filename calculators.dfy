/**
 * The calculators page: a tab strip choosing one of three calculators, and
 * the closed-form formulas behind them. Equity amounts are whole dollars
 * (module HomeEquity); payment and savings figures are exact rationals here.
 */
module Calculators {
  import opened HomeEquity

  // ---------------------------------------------------------------- tabs

  datatype Tab = EquityTab | PaymentTab | SavingsTab

  const InitialTab := EquityTab

  /** The calculators rendered for the active tab, in page order. */
  function ShownCalculators(active: Tab): (shown: seq<Tab>)
    ensures shown == [active]
  {
    (if active == EquityTab then [EquityTab] else [])
    + (if active == PaymentTab then [PaymentTab] else [])
    + (if active == SavingsTab then [SavingsTab] else [])
  }

  // ---------------------------------------------------------------- equity

  /** The equity calculator's three outputs. */
  datatype EquityFigures = EquityFigures(equity: int, availableCash: int, ltv: real)

  function EquityCalculator(homeValue: int, mortgageBalance: int): (r: EquityFigures)
    requires homeValue != 0
    ensures r.equity == homeValue - mortgageBalance
    ensures 0 <= mortgageBalance <= homeValue ==> 0 <= r.availableCash <= r.equity
    ensures 0.0 <= r.ltv <= 100.0 <==> 0 <= mortgageBalance <= homeValue || (homeValue < 0 && homeValue <= mortgageBalance <= 0)
  {
    var ltv := Ltv(homeValue, mortgageBalance);
    LtvRange(homeValue, mortgageBalance);
    EquityFigures(Equity(homeValue, mortgageBalance), AvailableCash(Equity(homeValue, mortgageBalance)), ltv)
  }

  lemma LtvRange(homeValue: int, mortgageBalance: int)
    requires homeValue != 0
    ensures 0.0 <= Ltv(homeValue, mortgageBalance) <= 100.0 <==>
      0 <= mortgageBalance <= homeValue || (homeValue < 0 && homeValue <= mortgageBalance <= 0)
  {
    var h, m := homeValue as real, mortgageBalance as real;
    var l := Ltv(homeValue, mortgageBalance);
    assert l * h == 100.0 * m;
    if h > 0.0 {
      assert 0.0 <= l <==> 0.0 <= l * h;
      assert l <= 100.0 <==> l * h <= 100.0 * h;
    } else {
      assert 0.0 <= l <==> l * h <= 0.0;
      assert l <= 100.0 <==> 100.0 * h <= l * h;
    }
  }

  /** $500,000 value and $250,000 balance: $250,000 equity, $212,500 available, 50% LTV. */
  lemma EquityCalculatorExample()
    ensures EquityCalculator(500000, 250000) == EquityFigures(250000, 212500, 50.0)
  {
  }

  // ---------------------------------------------------------------- payment

  const RepaymentYears := 20
  const TotalPayments := 240

  /** `rate / 100 / 12`: the monthly rate of an annual percentage. */
  function MonthlyRate(annualPercent: real): (r: real)
    ensures 1200.0 * r == annualPercent
    ensures annualPercent > 0.0 ==> r > 0.0
  {
    annualPercent / 100.0 / 12.0
  }

  /** Twelve interest-only payments are one year's simple interest. */
  function InterestOnlyPayment(loanAmount: real, annualPercent: real): (payment: real)
    ensures 12.0 * payment == loanAmount * annualPercent / 100.0
  {
    loanAmount * MonthlyRate(annualPercent)
  }

  function Pow(x: real, n: nat): real {
    if n == 0 then 1.0 else x * Pow(x, n - 1)
  }

  lemma {:induction false} PowAtLeastOne(x: real, n: nat)
    requires x >= 1.0
    ensures Pow(x, n) >= 1.0
  {
    if n > 0 {
      PowAtLeastOne(x, n - 1);
      assert x * Pow(x, n - 1) >= Pow(x, n - 1);
    }
  }

  /** A rate above zero compounds to strictly more than one after a month or more. */
  lemma {:induction false} PowAboveOne(x: real, n: nat)
    requires x > 1.0 && n > 0
    ensures Pow(x, n) > 1.0
  {
    PowAtLeastOne(x, n - 1);
    assert x * Pow(x, n - 1) > Pow(x, n - 1);
  }

  lemma MultiplyBothSides(a: real, b: real, c: real)
    requires a <= b && c >= 0.0
    ensures c * a <= c * b
  {
  }

  /** One period of `PowGrowthBound`, on plain numbers: `p` grows to `x * p`. */
  lemma GrowthStep(x: real, p: real, k: real)
    requires x >= 1.0 && k >= 0.0 && x * p >= 1.0
    requires p - 1.0 <= k * (x - 1.0) * p
    ensures x * p - 1.0 <= (k + 1.0) * (x - 1.0) * (x * p)
  {
    var e := x - 1.0;
    var q := x * p;
    MultiplyBothSides(p - 1.0, k * e * p, x);
    assert x * (k * e * p) == k * e * q;
    MultiplyBothSides(1.0, q, e);
    assert q - 1.0 == x * (p - 1.0) + e;
    assert (k + 1.0) * e * q == k * e * q + e * q;
  }

  /** Growth over `n` periods is at most `n` periods of interest on the final amount. */
  lemma {:induction false} PowGrowthBound(x: real, n: nat)
    requires x >= 1.0
    ensures Pow(x, n) - 1.0 <= (n as real) * (x - 1.0) * Pow(x, n)
  {
    if n > 0 {
      PowGrowthBound(x, n - 1);
      PowAtLeastOne(x, n);
      assert Pow(x, n) == x * Pow(x, n - 1);
      GrowthStep(x, Pow(x, n - 1), (n - 1) as real);
      assert (n as real) == ((n - 1) as real) + 1.0;
    }
  }

  /**
   * The amortising payment over the 20-year repayment period, with the
   * source's operator grouping. The slider keeps the rate at 3% or more; any
   * positive rate keeps the denominator positive.
   */
  function FullPayment(loanAmount: real, annualPercent: real): (payment: real)
    requires annualPercent > 0.0
    ensures loanAmount > 0.0 ==> payment > InterestOnlyPayment(loanAmount, annualPercent) > 0.0
    ensures loanAmount >= 0.0 ==> (TotalPayments as real) * payment >= loanAmount
  {
    var r := MonthlyRate(annualPercent);
    var growth := Pow(1.0 + r, TotalPayments);
    PowAboveOne(1.0 + r, TotalPayments);
    FullPaymentBounds(loanAmount, r, growth);
    PowGrowthBound(1.0 + r, TotalPayments);
    FullPaymentCoversPrincipal(loanAmount, r, growth);
    loanAmount * (r * growth) / (growth - 1.0)
  }

  lemma FullPaymentBounds(loan: real, r: real, growth: real)
    requires r > 0.0 && growth > 1.0
    ensures loan > 0.0 ==> loan * (r * growth) / (growth - 1.0) > loan * r > 0.0
  {
    if loan > 0.0 {
      var d := growth - 1.0;
      assert loan * r * growth > loan * r * d;
      assert loan * (r * growth) / d > loan * r * d / d;
    }
  }

  lemma FullPaymentCoversPrincipal(loan: real, r: real, growth: real)
    requires r > 0.0 && growth > 1.0
    requires growth - 1.0 <= (TotalPayments as real) * r * growth
    ensures loan >= 0.0 ==> (TotalPayments as real) * (loan * (r * growth) / (growth - 1.0)) >= loan
  {
    if loan >= 0.0 {
      var d := growth - 1.0;
      var n := TotalPayments as real;
      assert loan * d <= loan * (n * r * growth);
      assert n * (loan * (r * growth) / d) == loan * (n * r * growth) / d;
      assert loan * (n * r * growth) / d >= loan * d / d;
    }
  }

  /**
   * The loan balance after `k` monthly payments of `payment` at monthly rate
   * `r`: each month adds interest, then subtracts the payment.
   */
  function Balance(loan: real, payment: real, r: real, k: nat): real {
    if k == 0 then loan else Balance(loan, payment, r, k - 1) * (1.0 + r) - payment
  }

  /** One month of `BalanceClosedForm`, on plain numbers: `b` becomes `next`, `p` becomes `grown`. */
  lemma BalanceStep(b: real, next: real, loan: real, payment: real, r: real, p: real, grown: real)
    requires b * r == loan * r * p - payment * (p - 1.0)
    requires next == b * (1.0 + r) - payment && grown == (1.0 + r) * p
    ensures next * r == loan * r * grown - payment * (grown - 1.0)
  {
    calc {
      next * r;
      (b * (1.0 + r) - payment) * r;
      (1.0 + r) * (b * r) - payment * r;
      (1.0 + r) * (loan * r * p - payment * (p - 1.0)) - payment * r;
      loan * r * ((1.0 + r) * p) - payment * ((1.0 + r) * p - 1.0);
      loan * r * grown - payment * (grown - 1.0);
    }
  }

  lemma {:induction false} BalanceClosedForm(loan: real, payment: real, r: real, k: nat)
    ensures Balance(loan, payment, r, k) * r == loan * r * Pow(1.0 + r, k) - payment * (Pow(1.0 + r, k) - 1.0)
  {
    if k > 0 {
      var b, next := Balance(loan, payment, r, k - 1), Balance(loan, payment, r, k);
      var p, grown := Pow(1.0 + r, k - 1), Pow(1.0 + r, k);
      assert next == b * (1.0 + r) - payment;
      assert grown == (1.0 + r) * p;
      BalanceClosedForm(loan, payment, r, k - 1);
      BalanceStep(b, next, loan, payment, r, p, grown);
    }
  }

  /** The full payment pays the loan off exactly: the balance after 240 payments is zero. */
  lemma FullPaymentAmortizes(loanAmount: real, annualPercent: real)
    requires annualPercent > 0.0
    ensures Balance(loanAmount, FullPayment(loanAmount, annualPercent), MonthlyRate(annualPercent), TotalPayments) == 0.0
  {
    var r := MonthlyRate(annualPercent);
    var growth := Pow(1.0 + r, TotalPayments);
    var payment := FullPayment(loanAmount, annualPercent);
    PowAboveOne(1.0 + r, TotalPayments);
    assert payment == loanAmount * (r * growth) / (growth - 1.0);
    assert payment * (growth - 1.0) == loanAmount * r * growth;
    BalanceClosedForm(loanAmount, payment, r, TotalPayments);
    assert Balance(loanAmount, payment, r, TotalPayments) * r == 0.0;
  }

  /** Interest paid over draw and repayment: the payments made minus the principal. */
  function TotalInterest(loanAmount: real, annualPercent: real, drawYears: nat): (interest: real)
    requires annualPercent > 0.0
    ensures loanAmount >= 0.0 ==> interest >= InterestOnlyPayment(loanAmount, annualPercent) * (drawYears as real) * 12.0 >= 0.0
  {
    var interestOnly := InterestOnlyPayment(loanAmount, annualPercent);
    var full := FullPayment(loanAmount, annualPercent);
    assert loanAmount >= 0.0 ==> interestOnly >= 0.0 && interestOnly * (drawYears as real) >= 0.0;
    interestOnly * (drawYears as real) * 12.0 + full * (RepaymentYears as real) * 12.0 - loanAmount
  }

  /** $100,000 at 7.5%: $625 a month interest only. */
  lemma PaymentExample()
    ensures InterestOnlyPayment(100000.0, 7.5) == 625.0
  {
  }

  // ---------------------------------------------------------------- savings

  /** The savings calculator's sliders; the card APR is shown but feeds no output. */
  datatype SavingsInputs = SavingsInputs(creditCardDebt: real, creditCardRate: real, helocRate: real)

  datatype SavingsFigures = SavingsFigures(creditCardMonthly: real, helocMonthly: real, monthlySavings: real, annualSavings: real)

  function SavingsCalculator(inputs: SavingsInputs): (r: SavingsFigures)
    ensures r.creditCardMonthly * 50.0 == inputs.creditCardDebt
    ensures r.helocMonthly * 1200.0 == inputs.creditCardDebt * inputs.helocRate
    ensures r.monthlySavings + r.helocMonthly == r.creditCardMonthly
    ensures r.annualSavings == 12.0 * r.monthlySavings
  {
    var creditCardMonthly := inputs.creditCardDebt * 0.02;
    var helocMonthly := inputs.creditCardDebt * (inputs.helocRate / 100.0 / 12.0);
    var monthlySavings := creditCardMonthly - helocMonthly;
    SavingsFigures(creditCardMonthly, helocMonthly, monthlySavings, monthlySavings * 12.0)
  }

  /** With some debt, the HELOC saves money each month exactly when its APR is below 24%. */
  lemma MonthlySavingsPositiveIff(inputs: SavingsInputs)
    requires inputs.creditCardDebt > 0.0
    ensures SavingsCalculator(inputs).monthlySavings > 0.0 <==> inputs.helocRate < 24.0
  {
    var d := inputs.creditCardDebt;
    var s := SavingsCalculator(inputs).monthlySavings;
    assert s * 1200.0 == d * (24.0 - inputs.helocRate);
    assert d * (24.0 - inputs.helocRate) > 0.0 <==> 24.0 - inputs.helocRate > 0.0;
  }

  /** Every HELOC APR the slider offers (5% to 12%) shows a positive saving. */
  lemma SliderRatesSave(inputs: SavingsInputs)
    requires inputs.creditCardDebt > 0.0 && 5.0 <= inputs.helocRate <= 12.0
    ensures SavingsCalculator(inputs).monthlySavings > 0.0
  {
    MonthlySavingsPositiveIff(inputs);
  }

  /** Moving the card APR slider changes no figure. */
  lemma CreditCardRateIgnored(inputs: SavingsInputs, rate: real)
    ensures SavingsCalculator(inputs.(creditCardRate := rate)) == SavingsCalculator(inputs)
  {
  }

  /** $30,000 of card debt, 7.5% HELOC: $600, $187.50, $412.50 a month, $4,950 a year. */
  lemma SavingsExample()
    ensures SavingsCalculator(SavingsInputs(30000.0, 19.9, 7.5)) == SavingsFigures(600.0, 187.5, 412.5, 4950.0)
  {
  }
}
