/**
 * Partner matching on the results page: every catalog partner gets its seed
 * score plus four bonuses (+10 credit band, +8 timeframe, +7 use of funds,
 * +5 borrowable cash inside the loan range), the scored list is sorted by
 * score, highest first, with equal scores kept in catalog order (a stable
 * sort), and the first three are recommended.
 */
module PartnerMatching {
  import opened Wrappers
  import opened JsValues
  import opened HomeEquity
  import SurveyWizard

  datatype Partner = Partner(
    name: string,
    rating: real,
    minLoan: string,
    maxLoan: string,
    aprFrom: string,
    matchScore: int,
    bestFor: string,
    whyMatched: string,
    creditTier: seq<string>,
    specialties: seq<string>)

  /** `{ ...partner, finalScore }`: the partner, unchanged, plus its score. */
  datatype ScoredPartner = ScoredPartner(partner: Partner, finalScore: int)

  const RecommendedCount := 3
  const DefaultHomeValue := 500000
  const DefaultMortgageBalance := 250000

  const Catalog: seq<Partner> := [
    Partner("Chase", 4.9, "$25,000", "$500,000", "7.15%", 95,
      "Quick funding needs", "Fast approval process matches your immediate timeframe",
      ["740+", "670-739"], ["Immediately", "Within 30 days", "Debt Consolidation"]),
    Partner("Wells Fargo", 4.8, "$25,000", "$500,000", "6.99%", 92,
      "Large loan amounts", "Best rates for your equity amount",
      ["740+"], ["Home Renovation", "Investment Property"]),
    Partner("Bank of America", 4.7, "$25,000", "$500,000", "7.25%", 88,
      "Flexible terms", "No annual fee and mobile-first experience",
      ["740+", "670-739"], ["Home Renovation", "Education Expenses"]),
    Partner("US Bank", 4.6, "$15,000", "$750,000", "7.40%", 85,
      "Lower credit scores", "Works with a wider range of credit profiles",
      ["670-739", "580-669"], ["Debt Consolidation", "Emergency Fund"]),
    Partner("PNC Bank", 4.7, "$25,000", "$500,000", "7.30%", 87,
      "Digital experience", "Virtual wallet integration and 24/7 support",
      ["740+", "670-739"], ["Just exploring", "Within 60 days"]),
    Partner("Regions Bank", 4.5, "$10,000", "$500,000", "7.50%", 82,
      "First-time borrowers", "Lowest minimum loan amount and personalized service",
      ["670-739", "580-669", "below-580"], ["Other", "Emergency Fund"])
  ]

  /** No partner appears twice in the catalog. */
  predicate Distinct<T(==)>(s: seq<T>) {
    forall i, j :: 0 <= i < j < |s| ==> s[i] != s[j]
  }

  // ---------------------------------------------------------------- loan bounds

  /** `s.replace(/[$,]/g, '')`. */
  function StripCurrency(s: string): (t: string)
    ensures |t| <= |s|
  {
    if s == [] then []
    else if s[0] == '$' || s[0] == ',' then StripCurrency(s[1..])
    else [s[0]] + StripCurrency(s[1..])
  }

  /** A catalog loan bound as a number: strip `$` and `,`, then `parseInt`. */
  function ParseLoan(s: string): (r: Option<int>)
    ensures StripCurrency(s) == [] ==> r == None
    ensures AllDigits(StripCurrency(s)) && StripCurrency(s) != [] ==> r == Some(DecimalValue(StripCurrency(s)))
  {
    var t := StripCurrency(s);
    if AllDigits(t) && t != [] then ParseIntOfDigits(t); ParseInt(t) else ParseInt(t)
  }

  /** A bound whose `$`/`,`-stripped text is the numeral of `n` reads as `n`. */
  lemma ParseLoanOf(bound: string, n: nat)
    requires StripCurrency(bound) == NatToString(n)
    ensures ParseLoan(bound) == Some(n)
  {
    ParseIntRoundTrip(n);
  }

  /** Stripping works piece by piece. */
  lemma {:induction false} StripCurrencyAppend(a: string, b: string)
    ensures StripCurrency(a + b) == StripCurrency(a) + StripCurrency(b)
  {
    if a == [] {
      assert a + b == b;
    } else {
      assert (a + b)[0] == a[0];
      assert (a + b)[1..] == a[1..] + b;
      StripCurrencyAppend(a[1..], b);
    }
  }

  /** A digit string has nothing to strip. */
  lemma {:induction false} StripCurrencyKeepsDigits(s: string)
    requires AllDigits(s)
    ensures StripCurrency(s) == s
  {
    if s != [] {
      StripCurrencyKeepsDigits(s[1..]);
    }
  }

  /** A bound written `$<head>,000` reads as the number whose numeral is `<head>000`. */
  lemma LoanBoundThousands(head: string, n: nat)
    requires AllDigits(head) && head + "000" == NatToString(n)
    ensures ParseLoan("$" + head + ",000") == Some(n)
  {
    StripCurrencyAppend("$" + head, ",000");
    StripCurrencyAppend("$", head);
    StripCurrencyKeepsDigits(head);
    assert StripCurrency(",000") == "000" by {
      assert ",000"[1..] == "000";
      StripCurrencyKeepsDigits("000");
    }
    ParseLoanOf("$" + head + ",000", n);
  }

  lemma LoanBound10000()
    ensures ParseLoan("$10,000") == Some(10000)
  {
    assert "$10,000" == "$" + "10" + ",000";
    LoanBoundThousands("10", 10000);
  }

  lemma LoanBound15000()
    ensures ParseLoan("$15,000") == Some(15000)
  {
    assert "$15,000" == "$" + "15" + ",000";
    LoanBoundThousands("15", 15000);
  }

  lemma LoanBound25000()
    ensures ParseLoan("$25,000") == Some(25000)
  {
    assert "$25,000" == "$" + "25" + ",000";
    LoanBoundThousands("25", 25000);
  }

  lemma LoanBound500000()
    ensures ParseLoan("$500,000") == Some(500000)
  {
    assert "$500,000" == "$" + "500" + ",000";
    LoanBoundThousands("500", 500000);
  }

  lemma LoanBound750000()
    ensures ParseLoan("$750,000") == Some(750000)
  {
    assert "$750,000" == "$" + "750" + ",000";
    LoanBoundThousands("750", 750000);
  }

  /** The catalog's bounds read as the amounts they display. */
  lemma CatalogLoanBounds()
    ensures ParseLoan("$10,000") == Some(10000)
    ensures ParseLoan("$15,000") == Some(15000)
    ensures ParseLoan("$25,000") == Some(25000)
    ensures ParseLoan("$500,000") == Some(500000)
    ensures ParseLoan("$750,000") == Some(750000)
  {
    LoanBound10000();
    LoanBound15000();
    LoanBound25000();
    LoanBound500000();
    LoanBound750000();
  }

  // ---------------------------------------------------------------- scoring

  /** The survey answers the score looks at, and the borrowable cash. */
  datatype MatchInput = MatchInput(creditScore: string, timeframe: string, useOfFunds: string, availableCash: int)

  /** `availableCash >= min && availableCash <= max`; a NaN bound never matches. */
  predicate CashInLoanRange(p: Partner, cash: int)
    ensures ParseLoan(p.minLoan).None? || ParseLoan(p.maxLoan).None? ==> !CashInLoanRange(p, cash)
    ensures ParseLoan(p.minLoan).Some? && ParseLoan(p.maxLoan).Some? ==>
              (CashInLoanRange(p, cash) <==> ParseLoan(p.minLoan).value <= cash <= ParseLoan(p.maxLoan).value)
  {
    var lo := ParseLoan(p.minLoan);
    var hi := ParseLoan(p.maxLoan);
    lo.Some? && hi.Some? && lo.value <= cash <= hi.value
  }

  function CreditBonus(p: Partner, answers: MatchInput): int {
    if answers.creditScore in p.creditTier then 10 else 0
  }

  function TimeframeBonus(p: Partner, answers: MatchInput): int {
    if answers.timeframe in p.specialties then 8 else 0
  }

  function UseOfFundsBonus(p: Partner, answers: MatchInput): int {
    if answers.useOfFunds in p.specialties then 7 else 0
  }

  function LoanRangeBonus(p: Partner, answers: MatchInput): int {
    if CashInLoanRange(p, answers.availableCash) then 5 else 0
  }

  /** All four bonuses apply. */
  predicate FullMatch(p: Partner, answers: MatchInput) {
    answers.creditScore in p.creditTier && answers.timeframe in p.specialties
    && answers.useOfFunds in p.specialties && CashInLoanRange(p, answers.availableCash)
  }

  /** None of the four bonuses applies. */
  predicate NoMatch(p: Partner, answers: MatchInput) {
    answers.creditScore !in p.creditTier && answers.timeframe !in p.specialties
    && answers.useOfFunds !in p.specialties && !CashInLoanRange(p, answers.availableCash)
  }

  /** The partner's final score: seed plus bonuses. */
  function Score(p: Partner, answers: MatchInput): (score: int)
    ensures p.matchScore <= score <= p.matchScore + 30
    ensures score == p.matchScore + 30 <==> FullMatch(p, answers)
    ensures score == p.matchScore <==> NoMatch(p, answers)
  {
    p.matchScore + CreditBonus(p, answers) + TimeframeBonus(p, answers) + UseOfFundsBonus(p, answers) + LoanRangeBonus(p, answers)
  }

  /** `partners.map(...)`: every partner scored, in order, none dropped. */
  function ScoreAll(partners: seq<Partner>, answers: MatchInput): (scored: seq<ScoredPartner>)
    ensures |scored| == |partners|
    ensures forall i :: 0 <= i < |partners| ==> scored[i].partner == partners[i]
    ensures forall i :: 0 <= i < |partners| ==> scored[i].finalScore == Score(partners[i], answers)
  {
    seq(|partners|, i requires 0 <= i < |partners| => ScoredPartner(partners[i], Score(partners[i], answers)))
  }

  // ---------------------------------------------------------------- stable sort

  predicate SortedByScore(s: seq<ScoredPartner>) {
    forall i, j :: 0 <= i < j < |s| ==> s[i].finalScore >= s[j].finalScore
  }

  /** The entries of `s` with score `k`, in order. */
  function WithScore(s: seq<ScoredPartner>, k: int): (r: seq<ScoredPartner>)
    ensures |r| <= |s|
  {
    if s == [] then []
    else if s[0].finalScore == k then [s[0]] + WithScore(s[1..], k)
    else WithScore(s[1..], k)
  }

  /** Put `x` before the first entry that does not score higher than it. */
  function Insert(x: ScoredPartner, s: seq<ScoredPartner>): (r: seq<ScoredPartner>)
    ensures multiset(r) == multiset(s) + multiset{x}
  {
    if s == [] || s[0].finalScore <= x.finalScore then [x] + s
    else
      assert s == [s[0]] + s[1..];
      [s[0]] + Insert(x, s[1..])
  }

  /** `sort((a, b) => b.finalScore - a.finalScore)`, stable. */
  function SortByScore(s: seq<ScoredPartner>): (r: seq<ScoredPartner>)
    ensures multiset(r) == multiset(s)
    ensures |r| == |s|
  {
    if s == [] then []
    else
      assert s == [s[0]] + s[1..];
      Insert(s[0], SortByScore(s[1..]))
  }

  lemma {:induction false} InsertSorted(x: ScoredPartner, s: seq<ScoredPartner>)
    requires SortedByScore(s)
    ensures SortedByScore(Insert(x, s))
  {
    if s != [] && s[0].finalScore > x.finalScore {
      InsertSorted(x, s[1..]);
      var r := Insert(x, s);
      assert r == [s[0]] + Insert(x, s[1..]);
      forall j | 0 < j < |r| ensures r[0].finalScore >= r[j].finalScore {
        assert r[j] in multiset(Insert(x, s[1..]));
        assert r[j] in multiset(s[1..]) + multiset{x};
        if r[j] != x {
          assert r[j] in s[1..];
        }
      }
    }
  }

  /** The sort orders by score, highest first. */
  lemma {:induction false} SortByScoreSorted(s: seq<ScoredPartner>)
    ensures SortedByScore(SortByScore(s))
  {
    if s != [] {
      SortByScoreSorted(s[1..]);
      InsertSorted(s[0], SortByScore(s[1..]));
    }
  }

  /** An inserted entry goes ahead of the entries with its own score. */
  lemma {:induction false} WithScoreInsert(x: ScoredPartner, s: seq<ScoredPartner>, k: int)
    ensures WithScore(Insert(x, s), k) == if x.finalScore == k then [x] + WithScore(s, k) else WithScore(s, k)
  {
    if s == [] || s[0].finalScore <= x.finalScore {
      assert ([x] + s)[1..] == s;
    } else {
      WithScoreInsert(x, s[1..], k);
      assert ([s[0]] + Insert(x, s[1..]))[1..] == Insert(x, s[1..]);
      if x.finalScore == k {
        assert s[0].finalScore != k;
      }
    }
  }

  /** Stability: for every score, the entries with that score keep their input order. */
  lemma {:induction false} SortByScoreStable(s: seq<ScoredPartner>, k: int)
    ensures WithScore(SortByScore(s), k) == WithScore(s, k)
  {
    if s != [] {
      SortByScoreStable(s[1..], k);
      WithScoreInsert(s[0], SortByScore(s[1..]), k);
    }
  }

  lemma {:induction false} WithScorePrefix(s: seq<ScoredPartner>, n: nat, k: int)
    requires n <= |s|
    ensures WithScore(s[..n], k) <= WithScore(s, k)
  {
    if n > 0 {
      WithScorePrefix(s[1..], n - 1, k);
      assert s[..n][1..] == s[1..][..n - 1];
    }
  }

  lemma DistinctFromMultiset(s: seq<ScoredPartner>, t: seq<ScoredPartner>)
    requires multiset(s) == multiset(t) && Distinct(t)
    ensures Distinct(s)
  {
    forall i, j | 0 <= i < j < |s| ensures s[i] != s[j] {
      if s[i] == s[j] {
        var x := s[i];
        assert s == s[..i] + [x] + s[i + 1..j] + [x] + s[j + 1..];
        assert multiset(s)[x] >= 2;
        CountAtMostOne(t, x);
      }
    }
  }

  lemma {:induction false} CountAtMostOne(t: seq<ScoredPartner>, x: ScoredPartner)
    requires Distinct(t)
    ensures multiset(t)[x] <= 1
  {
    if t != [] {
      assert t == [t[0]] + t[1..];
      CountAtMostOne(t[1..], x);
      if t[0] == x {
        assert x !in t[1..];
      }
    }
  }

  // ---------------------------------------------------------------- recommendation

  /** `surveyData.homeValue` as the page reads it: `Number(v) || 500000`. */
  function HomeValueOf(fd: SurveyWizard.FormData): (v: int)
    ensures v != 0
    ensures ToNumber(fd.homeValue) == None || ToNumber(fd.homeValue) == Some(0) ==> v == DefaultHomeValue
    ensures ToNumber(fd.homeValue).Some? && ToNumber(fd.homeValue).value != 0 ==> v == ToNumber(fd.homeValue).value
  {
    NumberOr(fd.homeValue, DefaultHomeValue)
  }

  /** `surveyData.mortgageBalance` as the page reads it: `Number(v) || 250000`. */
  function MortgageBalanceOf(fd: SurveyWizard.FormData): (b: int)
    ensures b != 0
    ensures ToNumber(fd.mortgageBalance) == None || ToNumber(fd.mortgageBalance) == Some(0) ==> b == DefaultMortgageBalance
    ensures ToNumber(fd.mortgageBalance).Some? && ToNumber(fd.mortgageBalance).value != 0 ==> b == ToNumber(fd.mortgageBalance).value
  {
    NumberOr(fd.mortgageBalance, DefaultMortgageBalance)
  }

  /** The input to scoring, taken from the survey answers. */
  function MatchInputOf(fd: SurveyWizard.FormData): (m: MatchInput)
    ensures m.creditScore == fd.creditScore && m.timeframe == fd.timeframe && m.useOfFunds == fd.useOfFunds
    ensures 100 * m.availableCash <= 85 * (HomeValueOf(fd) - MortgageBalanceOf(fd)) < 100 * m.availableCash + 100
  {
    MatchInput(fd.creditScore, fd.timeframe, fd.useOfFunds,
      AvailableCash(Equity(HomeValueOf(fd), MortgageBalanceOf(fd))))
  }

  /** How many partners are recommended out of `count`. */
  function TopCount(count: nat): (n: nat)
    ensures n <= count && n <= RecommendedCount
    ensures n == count || n == RecommendedCount
  {
    if count < RecommendedCount then count else RecommendedCount
  }

  /**
   * The first three of the stable score sort of `partners`, with what the
   * page promises of them: all from the catalog, each with its own score,
   * distinct, highest first, no unselected partner scoring above the last one
   * chosen, and ties in catalog order.
   */
  function RecommendTop(partners: seq<Partner>, answers: MatchInput): (r: seq<ScoredPartner>)
    requires Distinct(partners)
    ensures |r| == TopCount(|partners|)
    ensures forall i :: 0 <= i < |r| ==> r[i].partner in partners && r[i].finalScore == Score(r[i].partner, answers)
    ensures Distinct(r)
    ensures SortedByScore(r)
    ensures forall p :: p in partners && (forall i :: 0 <= i < |r| ==> r[i].partner != p) ==>
              |r| > 0 && Score(p, answers) <= r[|r| - 1].finalScore
    ensures forall k :: WithScore(r, k) <= WithScore(ScoreAll(partners, answers), k)
  {
    var sorted := SortByScore(ScoreAll(partners, answers));
    TopIsSortedMembers(partners, answers);
    TopIsDistinct(partners, answers);
    UnselectedScoreLower(partners, answers);
    TopKeepsTieOrder(ScoreAll(partners, answers), TopCount(|partners|));
    sorted[..TopCount(|partners|)]
  }

  lemma ScoredDistinct(partners: seq<Partner>, answers: MatchInput)
    requires Distinct(partners)
    ensures Distinct(ScoreAll(partners, answers))
  {
    var scored := ScoreAll(partners, answers);
    forall i, j | 0 <= i < j < |scored| ensures scored[i] != scored[j] {
      assert scored[i].partner == partners[i] != partners[j] == scored[j].partner;
    }
  }

  lemma TopIsSortedMembers(partners: seq<Partner>, answers: MatchInput)
    ensures var top := SortByScore(ScoreAll(partners, answers))[..TopCount(|partners|)];
      SortedByScore(top) &&
      forall i :: 0 <= i < |top| ==> top[i].partner in partners && top[i].finalScore == Score(top[i].partner, answers)
  {
    var scored := ScoreAll(partners, answers);
    var sorted := SortByScore(scored);
    var top := sorted[..TopCount(|partners|)];
    SortByScoreSorted(scored);
    forall i | 0 <= i < |top| ensures top[i].partner in partners && top[i].finalScore == Score(top[i].partner, answers) {
      assert top[i] == sorted[i];
      assert sorted[i] in multiset(sorted);
      assert sorted[i] in scored;
    }
  }

  lemma TopIsDistinct(partners: seq<Partner>, answers: MatchInput)
    requires Distinct(partners)
    ensures Distinct(SortByScore(ScoreAll(partners, answers))[..TopCount(|partners|)])
  {
    var scored := ScoreAll(partners, answers);
    var sorted := SortByScore(scored);
    ScoredDistinct(partners, answers);
    DistinctFromMultiset(sorted, scored);
  }

  /** An entry of a sorted permutation is in its first `n` places or scores no more than the `n`-th. */
  lemma InTopOrLower(scored: seq<ScoredPartner>, sorted: seq<ScoredPartner>, n: nat, x: ScoredPartner)
    requires multiset(sorted) == multiset(scored) && SortedByScore(sorted)
    requires 0 < n <= |sorted| && x in scored
    ensures (exists i :: 0 <= i < n && sorted[i] == x) || x.finalScore <= sorted[n - 1].finalScore
  {
    assert x in multiset(sorted);
    var j :| 0 <= j < |sorted| && sorted[j] == x;
    if n <= j {
      assert sorted[n - 1].finalScore >= sorted[j].finalScore;
    }
  }

  /** One partner: it is among the top entries or scores no more than the last of them. */
  lemma SelectedOrLower(partners: seq<Partner>, answers: MatchInput, p: Partner)
    requires p in partners
    ensures var top := SortByScore(ScoreAll(partners, answers))[..TopCount(|partners|)];
      (exists i :: 0 <= i < |top| && top[i].partner == p) ||
      (|top| > 0 && Score(p, answers) <= top[|top| - 1].finalScore)
  {
    var scored := ScoreAll(partners, answers);
    var sorted := SortByScore(scored);
    var n := TopCount(|partners|);
    var top := sorted[..n];
    SortByScoreSorted(scored);
    var m :| 0 <= m < |partners| && partners[m] == p;
    var x := scored[m];
    assert x.partner == p && x.finalScore == Score(p, answers);
    InTopOrLower(scored, sorted, n, x);
    if i :| 0 <= i < n && sorted[i] == x {
      assert top[i].partner == p;
    } else {
      assert top[|top| - 1] == sorted[n - 1];
    }
  }

  lemma UnselectedScoreLower(partners: seq<Partner>, answers: MatchInput)
    ensures var top := SortByScore(ScoreAll(partners, answers))[..TopCount(|partners|)];
      forall p :: p in partners ==>
        (exists i :: 0 <= i < |top| && top[i].partner == p) ||
        (|top| > 0 && Score(p, answers) <= top[|top| - 1].finalScore)
  {
    forall p | p in partners
      ensures var top := SortByScore(ScoreAll(partners, answers))[..TopCount(|partners|)];
        (exists i :: 0 <= i < |top| && top[i].partner == p) ||
        (|top| > 0 && Score(p, answers) <= top[|top| - 1].finalScore)
    {
      SelectedOrLower(partners, answers, p);
    }
  }

  lemma TopKeepsTieOrder(scored: seq<ScoredPartner>, n: nat)
    requires n <= |scored|
    ensures forall k :: WithScore(SortByScore(scored)[..n], k) <= WithScore(scored, k)
  {
    forall k ensures WithScore(SortByScore(scored)[..n], k) <= WithScore(scored, k) {
      WithScorePrefix(SortByScore(scored), n, k);
      SortByScoreStable(scored, k);
    }
  }

  lemma CatalogDistinct()
    ensures Distinct(Catalog)
  {
  }

  /** `getRecommendedPartners()` on the survey answers. */
  function GetRecommendedPartners(fd: SurveyWizard.FormData): (r: seq<ScoredPartner>)
    ensures |r| == RecommendedCount
    ensures forall i :: 0 <= i < |r| ==> r[i].partner in Catalog
    ensures Distinct(r) && SortedByScore(r)
  {
    CatalogDistinct();
    RecommendTop(Catalog, MatchInputOf(fd))
  }
}
