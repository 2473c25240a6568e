/**
 * Equity arithmetic shared by the results page, the equity calculator and the
 * simplified results component: equity is home value minus mortgage balance,
 * the borrowable cash is the floor of 85% of it, and LTV is the balance as a
 * percentage of the value. Dollar amounts are whole numbers; `floor(x * 0.85)`
 * is the exact floor of `85 * x / 100`.
 */
module HomeEquity {

  function Equity(homeValue: int, mortgageBalance: int): (equity: int)
    ensures equity + mortgageBalance == homeValue
  {
    homeValue - mortgageBalance
  }

  /** `Math.floor(equity * 0.85)`; negative equity is not clamped. */
  function AvailableCash(equity: int): (cash: int)
    ensures 100 * cash <= 85 * equity < 100 * cash + 100
    ensures equity >= 0 ==> 0 <= cash <= equity
    ensures equity < 0 ==> equity <= cash < 0
  {
    (85 * equity) / 100
  }

  /** Loan-to-value ratio in percent, before display rounding. */
  function Ltv(homeValue: int, mortgageBalance: int): (ltv: real)
    requires homeValue != 0
    ensures ltv * (homeValue as real) == 100.0 * (mortgageBalance as real)
  {
    (mortgageBalance as real) / (homeValue as real) * 100.0
  }

  /** More equity never means less available cash. */
  lemma AvailableCashMonotonic(e1: int, e2: int)
    requires e1 <= e2
    ensures AvailableCash(e1) <= AvailableCash(e2)
  {
  }

  /** The default inputs: $500,000 value and $250,000 balance. */
  lemma DefaultEquityExample()
    ensures Equity(500000, 250000) == 250000
    ensures AvailableCash(Equity(500000, 250000)) == 212500
    ensures Ltv(500000, 250000) == 50.0
  {
  }
}
