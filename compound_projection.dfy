/** The deterministic page (app/app3.py): one chosen path, a fixed growth
    rate per path, income compounded in closed form, a per-year net-savings
    figure and a one-line insight.

    The page compounds the salary exactly as entered (no factor of twelve)
    and subtracts twelve months of expenses from it; the model keeps those
    units as the page has them. */
module CompoundProjection {
  import opened RealMath
  import opened Paths

  /** The page's fixed growth table. */
  function Growth(p: Path): (g: real)
    ensures 0.0 < g
  {
    match p
    case StayInJob => 0.08
    case JoinStartup => 0.15
    case GoFreelance => 0.12
  }

  /** The table ranks the paths: startup above freelance above the job. */
  lemma GrowthRanksPaths()
    ensures Growth(JoinStartup) > Growth(GoFreelance) > Growth(StayInJob)
  {
  }

  /** `future_income`: salary * (1 + growth) ** i for i = 0 .. years. */
  function FutureIncome(salary: real, growth: real, years: nat): (r: seq<real>)
    ensures |r| == years + 1
    ensures r[0] == salary
    ensures forall i | 0 <= i < years :: r[i + 1] == r[i] * (1.0 + growth)
  {
    seq(years + 1, i requires 0 <= i <= years => salary * Pow(1.0 + growth, i))
  }

  /** For a positive salary and a positive growth rate, income rises
      strictly from every year to every later year. */
  lemma {:induction false} FutureIncomeIncreasing(salary: real, growth: real, years: nat, i: nat, j: nat)
    requires salary > 0.0 && growth > 0.0
    requires i < j <= years
    decreases j - i
    ensures FutureIncome(salary, growth, years)[i] < FutureIncome(salary, growth, years)[j]
  {
    var r := FutureIncome(salary, growth, years);
    if j == i + 1 {
      PowPositive(1.0 + growth, i);
      assert r[i] > 0.0;
      assert r[j] == r[i] + r[i] * growth;
    } else {
      FutureIncomeIncreasing(salary, growth, years, i, j - 1);
      FutureIncomeIncreasing(salary, growth, years, j - 1, j);
    }
  }

  /** `net_savings`: for every year, the savings plus that year's income
      minus twelve months of family expense and of EMIs. */
  function NetSavings(savings: real, familyExpense: real, emi: real, incomes: seq<real>): (r: seq<real>)
    ensures |r| == |incomes|
    ensures forall i | 0 <= i < |r| :: r[i] - incomes[i] == savings - familyExpense * 12.0 - emi * 12.0
  {
    seq(|incomes|, i requires 0 <= i < |incomes| => savings + (incomes[i] - familyExpense * 12.0 - emi * 12.0))
  }

  /** Net savings do not accumulate: year i's figure depends on year i's
      income alone, so the change from one year to the next is exactly the
      change in income, whatever the savings and expenses. */
  lemma NetSavingsNotCumulative(savings: real, familyExpense: real, emi: real, incomes: seq<real>, i: nat)
    requires i + 1 < |incomes|
    ensures NetSavings(savings, familyExpense, emi, incomes)[i + 1] - NetSavings(savings, familyExpense, emi, incomes)[i]
      == incomes[i + 1] - incomes[i]
  {
  }

  /** The insight box: a warning, an info note or a success message. */
  datatype Insight = RiskMismatch | UnderChallenged | WellAligned

  /** Exactly one insight fires, tested in the page's order. */
  function InsightFor(risk: int, p: Path): (r: Insight)
    ensures r == RiskMismatch <==> risk < 4 && p == JoinStartup
    ensures r == UnderChallenged <==> risk > 7 && p == StayInJob
    ensures r == WellAligned <==> !(risk < 4 && p == JoinStartup) && !(risk > 7 && p == StayInJob)
  {
    if risk < 4 && p == JoinStartup then RiskMismatch
    else if risk > 7 && p == StayInJob then UnderChallenged
    else WellAligned
  }
}
