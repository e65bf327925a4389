/** The multi-scenario wealth projection of the main dashboard page
    (app/app.py): three career scenarios, one random growth draw per scenario
    and year, a constant yearly outflow, the best and worst path after the
    last year, the displayed currency conversion and the risk-band advice.

    Every random draw `np.random.normal(mean, sd)` equals `mean + sd * z` for
    a standard-normal sample `z`; the samples are supplied as the sequence `z`
    instead of being drawn. */
module WealthProjection {
  import opened RealMath
  import opened Paths

  /** A scenario: a path, the mean of its yearly income growth and the
      standard deviation of that growth. */
  datatype Scenario = Scenario(path: Path, growth: real, volatility: real)

  /** The page's inputs: monthly salary, monthly family expense, monthly
      EMIs, current savings and the number of years to simulate. */
  datatype Profile = Profile(salary: real, familyExpense: real, emi: real, savings: real, years: nat)

  /** The wealth column of one scenario's table: entry t is Year t. */
  datatype ScenarioWealth = ScenarioWealth(path: Path, wealth: seq<real>)

  /** The scenario table, in declaration order. `growthBias` is the
      "Market Growth Bias (%)" slider, added to every mean as a fraction. */
  function Scenarios(growthBias: int): (r: seq<Scenario>)
    ensures |r| == 3
    ensures r[0].path == StayInJob && r[1].path == JoinStartup && r[2].path == GoFreelance
    ensures r[0].growth == 0.05 + growthBias as real / 100.0
    ensures r[1].growth == 0.12 + growthBias as real / 100.0
    ensures r[2].growth == 0.08 + growthBias as real / 100.0
    ensures r[1].growth > r[2].growth > r[0].growth
    ensures forall i | 0 <= i < 3 :: r[i].volatility > 0.0
  {
    var bias := growthBias as real / 100.0;
    [ Scenario(StayInJob, 0.05 + bias, 0.02),
      Scenario(JoinStartup, 0.12 + bias, 0.08),
      Scenario(GoFreelance, 0.08 + bias, 0.05) ]
  }

  /** The growth drawn for one year from standard-normal sample `z`. */
  function DrawnGrowth(s: Scenario, z: real): real
  {
    s.growth + s.volatility * z
  }

  /** The yearly deduction: family expense plus EMIs, times twelve months. */
  function AnnualOutflow(p: Profile): real
  {
    (p.familyExpense + p.emi) * 12.0
  }

  /** Income in year t: twelve monthly salaries in year 0, then last year's
      income grown by that year's draw. */
  function IncomeAt(s: Scenario, p: Profile, z: seq<real>, t: nat): real
    requires t <= |z|
  {
    if t == 0 then p.salary * 12.0
    else IncomeAt(s, p, z, t - 1) * (1.0 + DrawnGrowth(s, z[t - 1]))
  }

  /** Wealth in year t: the savings in year 0, then last year's wealth plus
      this year's income minus the yearly outflow. */
  function WealthAt(s: Scenario, p: Profile, z: seq<real>, t: nat): real
    requires t <= |z|
  {
    if t == 0 then p.savings
    else WealthAt(s, p, z, t - 1) + IncomeAt(s, p, z, t) - AnnualOutflow(p)
  }

  /** Total income earned in years 1..t. */
  function Earned(s: Scenario, p: Profile, z: seq<real>, t: nat): real
    requires t <= |z|
  {
    if t == 0 then 0.0 else Earned(s, p, z, t - 1) + IncomeAt(s, p, z, t)
  }

  /** The inner loop of the projection: one scenario over `p.years` years,
      appending to the income and wealth lists from their last entries. */
  method ProjectScenario(s: Scenario, p: Profile, z: seq<real>) returns (incomes: seq<real>, wealth: seq<real>)
    requires |z| >= p.years
    ensures |incomes| == |wealth| == p.years + 1
    ensures incomes[0] == p.salary * 12.0 && wealth[0] == p.savings
    ensures forall t | 0 <= t <= p.years :: incomes[t] == IncomeAt(s, p, z, t)
    ensures forall t | 0 <= t <= p.years :: wealth[t] == WealthAt(s, p, z, t)
  {
    incomes := [p.salary * 12.0];
    wealth := [p.savings];
    for year := 1 to p.years + 1
      invariant |incomes| == |wealth| == year
      invariant forall t {:trigger incomes[t]} | 0 <= t < year :: incomes[t] == IncomeAt(s, p, z, t)
      invariant forall t {:trigger wealth[t]} | 0 <= t < year :: wealth[t] == WealthAt(s, p, z, t)
    {
      var income := incomes[|incomes| - 1] * (1.0 + DrawnGrowth(s, z[year - 1]));
      var yearlyExpense := (p.familyExpense + p.emi) * 12.0;
      var net := wealth[|wealth| - 1] + income - yearlyExpense;
      incomes := incomes + [income];
      wealth := wealth + [net];
    }
  }

  /** The samples scenario i takes from the page's single generator: the
      scenarios run one after another, each consuming `years` samples. */
  function ScenarioDraws(z: seq<real>, i: nat, years: nat): (d: seq<real>)
    requires (i + 1) * years <= |z|
    ensures |d| == years
    ensures forall k | 0 <= k < years :: d[k] == z[i * years + k]
  {
    z[i * years .. (i + 1) * years]
  }

  /** The outer loop: every scenario of the table, in declaration order. */
  method SimulateAll(p: Profile, growthBias: int, z: seq<real>) returns (results: seq<ScenarioWealth>)
    requires |z| >= 3 * p.years
    ensures |results| == |Scenarios(growthBias)|
    ensures forall i | 0 <= i < |results| :: results[i].path == Scenarios(growthBias)[i].path
    ensures forall i | 0 <= i < |results| :: |results[i].wealth| == p.years + 1
    ensures forall i, t | 0 <= i < |results| && 0 <= t <= p.years ::
      results[i].wealth[t] == WealthAt(Scenarios(growthBias)[i], p, ScenarioDraws(z, i, p.years), t)
  {
    var scenarios := Scenarios(growthBias);
    results := [];
    for i := 0 to |scenarios|
      invariant |results| == i
      invariant forall j | 0 <= j < i :: results[j].path == scenarios[j].path
      invariant forall j | 0 <= j < i :: |results[j].wealth| == p.years + 1
      invariant forall j, t | 0 <= j < i && 0 <= t <= p.years ::
        results[j].wealth[t] == WealthAt(scenarios[j], p, ScenarioDraws(z, j, p.years), t)
    {
      assert (i + 1) * p.years <= 3 * p.years;
      var _, wealth := ProjectScenario(scenarios[i], p, ScenarioDraws(z, i, p.years));
      results := results + [ScenarioWealth(scenarios[i].path, wealth)];
    }
  }

  // ---------------------------------------------------------------------
  // Properties of the recurrences

  /** When every draw is the mean (zero volatility, or zero samples),
      income compounds: twelve monthly salaries times (1 + growth) to the
      power t. */
  lemma {:induction false} IncomeClosedForm(s: Scenario, p: Profile, z: seq<real>, t: nat)
    requires t <= |z|
    requires forall k | 0 <= k < t :: DrawnGrowth(s, z[k]) == s.growth
    ensures IncomeAt(s, p, z, t) == p.salary * 12.0 * Pow(1.0 + s.growth, t)
  {
    if t > 0 {
      IncomeClosedForm(s, p, z, t - 1);
      var x := 1.0 + s.growth;
      calc {
        IncomeAt(s, p, z, t);
        p.salary * 12.0 * Pow(x, t - 1) * x;
        p.salary * 12.0 * (x * Pow(x, t - 1));
      }
    }
  }

  /** Wealth is the savings plus everything earned so far minus t yearly
      outflows, the same outflow every year. */
  lemma {:induction false} WealthIsSavingsPlusEarnings(s: Scenario, p: Profile, z: seq<real>, t: nat)
    requires t <= |z|
    ensures WealthAt(s, p, z, t) == p.savings + Earned(s, p, z, t) - t as real * AnnualOutflow(p)
  {
    if t > 0 {
      WealthIsSavingsPlusEarnings(s, p, z, t - 1);
      var o, before := AnnualOutflow(p), WealthAt(s, p, z, t - 1);
      assert before == p.savings + Earned(s, p, z, t - 1) - (t - 1) as real * o;
      assert t as real * o == (t - 1) as real * o + o;
    }
  }

  /** Year t depends on the first t samples only: equal samples give equal
      incomes and wealth, and later samples are never read. */
  lemma {:induction false} DrawsConsumed(s: Scenario, p: Profile, z1: seq<real>, z2: seq<real>, t: nat)
    requires t <= |z1| && t <= |z2| && z1[..t] == z2[..t]
    ensures IncomeAt(s, p, z1, t) == IncomeAt(s, p, z2, t)
    ensures WealthAt(s, p, z1, t) == WealthAt(s, p, z2, t)
  {
    if t > 0 {
      assert z1[..t - 1] == z1[..t][..t - 1] && z2[..t - 1] == z2[..t][..t - 1];
      assert z1[t - 1] == z1[..t][t - 1] && z2[t - 1] == z2[..t][t - 1];
      DrawsConsumed(s, p, z1, z2, t - 1);
    }
  }

  /** A scenario whose every draw beats another's (both above -100%) earns
      strictly more from year 1 on, for a positive salary. */
  lemma {:induction false} HigherDrawsMoreIncome(s1: Scenario, s2: Scenario, p: Profile, z1: seq<real>, z2: seq<real>, t: nat)
    requires t <= |z1| && t <= |z2| && p.salary > 0.0
    requires forall k | 0 <= k < t :: DrawnGrowth(s1, z1[k]) > DrawnGrowth(s2, z2[k]) > -1.0
    ensures IncomeAt(s2, p, z2, t) > 0.0
    ensures IncomeAt(s1, p, z1, t) >= IncomeAt(s2, p, z2, t)
    ensures t > 0 ==> IncomeAt(s1, p, z1, t) > IncomeAt(s2, p, z2, t)
  {
    if t > 0 {
      HigherDrawsMoreIncome(s1, s2, p, z1, z2, t - 1);
      var a1, a2 := IncomeAt(s1, p, z1, t - 1), IncomeAt(s2, p, z2, t - 1);
      var f1, f2 := 1.0 + DrawnGrowth(s1, z1[t - 1]), 1.0 + DrawnGrowth(s2, z2[t - 1]);
      ProductOrder(a1, a2, f1, f2);
    }
  }

  /** Multiplying a larger positive amount by a larger positive factor. */
  lemma ProductOrder(a1: real, a2: real, f1: real, f2: real)
    requires a1 >= a2 > 0.0 && f1 > f2 > 0.0
    ensures a1 * f1 > a2 * f2 > 0.0
  {
  }

  /** ... and so ends every year from year 1 on strictly wealthier. */
  lemma {:induction false} HigherDrawsMoreWealth(s1: Scenario, s2: Scenario, p: Profile, z1: seq<real>, z2: seq<real>, t: nat)
    requires t <= |z1| && t <= |z2| && p.salary > 0.0
    requires forall k | 0 <= k < t :: DrawnGrowth(s1, z1[k]) > DrawnGrowth(s2, z2[k]) > -1.0
    ensures WealthAt(s1, p, z1, t) >= WealthAt(s2, p, z2, t)
    ensures t > 0 ==> WealthAt(s1, p, z1, t) > WealthAt(s2, p, z2, t)
  {
    if t > 0 {
      HigherDrawsMoreWealth(s1, s2, p, z1, z2, t - 1);
      HigherDrawsMoreIncome(s1, s2, p, z1, z2, t);
    }
  }

  /** With zero volatility, a higher mean growth (above -100%) gives strictly
      more wealth in every year after the first. */
  lemma HigherGrowthMoreWealth(s1: Scenario, s2: Scenario, p: Profile, z1: seq<real>, z2: seq<real>, t: nat)
    requires t <= |z1| && t <= |z2| && p.salary > 0.0 && 0 < t
    requires s1.volatility == 0.0 && s2.volatility == 0.0
    requires s1.growth > s2.growth > -1.0
    ensures WealthAt(s1, p, z1, t) > WealthAt(s2, p, z2, t)
  {
    HigherDrawsMoreWealth(s1, s2, p, z1, z2, t);
  }

  // ---------------------------------------------------------------------
  // Best and worst path

  /** k is the first index holding the largest value of xs. */
  ghost predicate IsFirstMax(xs: seq<real>, k: nat)
  {
    && k < |xs|
    && (forall j | 0 <= j < |xs| :: xs[j] <= xs[k])
    && (forall j | 0 <= j < k :: xs[j] < xs[k])
  }

  /** k is the first index holding the smallest value of xs. */
  ghost predicate IsFirstMin(xs: seq<real>, k: nat)
  {
    && k < |xs|
    && (forall j | 0 <= j < |xs| :: xs[k] <= xs[j])
    && (forall j | 0 <= j < k :: xs[k] < xs[j])
  }

  /** `idxmax`: the first index holding the largest value. */
  function ArgMax(xs: seq<real>): (k: nat)
    requires |xs| > 0
    ensures IsFirstMax(xs, k)
  {
    if |xs| == 1 then 0
    else
      var k := ArgMax(xs[..|xs| - 1]);
      if xs[|xs| - 1] > xs[k] then |xs| - 1 else k
  }

  /** `idxmin`: the first index holding the smallest value. */
  function ArgMin(xs: seq<real>): (k: nat)
    requires |xs| > 0
    ensures IsFirstMin(xs, k)
  {
    if |xs| == 1 then 0
    else
      var k := ArgMin(xs[..|xs| - 1]);
      if xs[|xs| - 1] < xs[k] then |xs| - 1 else k
  }

  /** Two first maxima of the same values are the same index. */
  lemma FirstMaxIsUnique(xs: seq<real>, a: nat, b: nat)
    requires IsFirstMax(xs, a) && IsFirstMax(xs, b)
    ensures a == b
  {
    assert xs[a] <= xs[b] && xs[b] <= xs[a];
  }

  /** The Wealth column of the rows whose Year is `years`, in scenario order. */
  function FinalWealths(rs: seq<ScenarioWealth>, years: nat): (f: seq<real>)
    requires forall i | 0 <= i < |rs| :: years < |rs[i].wealth|
    ensures |f| == |rs| && forall i | 0 <= i < |rs| :: f[i] == rs[i].wealth[years]
  {
    seq(|rs|, i requires 0 <= i < |rs| => rs[i].wealth[years])
  }

  /** A snapshot metric: a path and its final wealth in the chosen currency. */
  datatype Snapshot = Snapshot(path: Path, wealth: real)

  /** "Best Financial Path": the first scenario, in declaration order, whose
      final wealth no other scenario exceeds, with that wealth converted. */
  function BestPath(rs: seq<ScenarioWealth>, years: nat, rate: real): (r: Snapshot)
    requires |rs| > 0 && forall i | 0 <= i < |rs| :: years < |rs[i].wealth|
    ensures exists k: nat | IsFirstMax(FinalWealths(rs, years), k) ::
      r.path == rs[k].path && r.wealth == rs[k].wealth[years] * rate
  {
    var k := ArgMax(FinalWealths(rs, years));
    Snapshot(rs[k].path, rs[k].wealth[years] * rate)
  }

  /** "Lowest Return Path": the first scenario, in declaration order, whose
      final wealth no other scenario undercuts, with that wealth converted. */
  function WorstPath(rs: seq<ScenarioWealth>, years: nat, rate: real): (r: Snapshot)
    requires |rs| > 0 && forall i | 0 <= i < |rs| :: years < |rs[i].wealth|
    ensures exists k: nat | IsFirstMin(FinalWealths(rs, years), k) ::
      r.path == rs[k].path && r.wealth == rs[k].wealth[years] * rate
  {
    var k := ArgMin(FinalWealths(rs, years));
    Snapshot(rs[k].path, rs[k].wealth[years] * rate)
  }

  // ---------------------------------------------------------------------
  // Currency

  const BaseCurrency: string := "AED"

  /** What the exchange-rate service gave: a rate for the chosen currency, or
      nothing (a status other than 200, a missing rate, any exception). */
  datatype RateReply = Rate(value: real) | Unavailable

  /** The conversion rate: 1.0 for the base currency, without consulting the
      service; otherwise the fetched rate, or 1.0 when none was fetched. */
  function ConversionRate(currency: string, reply: RateReply): (r: real)
    ensures currency == BaseCurrency ==> r == 1.0
    ensures reply == Unavailable ==> r == 1.0
    ensures currency != BaseCurrency && reply.Rate? ==> r == reply.value
  {
    if currency != BaseCurrency && reply.Rate? then reply.value else 1.0
  }

  /** The charted wealth column: every projected value times the rate, one
      charted value per projected year; a rate of 1.0 charts the projection
      itself. */
  function Converted(wealth: seq<real>, rate: real): (c: seq<real>)
    ensures |c| == |wealth|
    ensures forall i | 0 <= i < |c| :: c[i] == wealth[i] * rate
    ensures rate == 1.0 ==> c == wealth
  {
    seq(|wealth|, i requires 0 <= i < |wealth| => wealth[i] * rate)
  }

  /** In the base currency the chart shows the projected wealth unchanged. */
  lemma BaseCurrencyShowsProjection(wealth: seq<real>, reply: RateReply)
    ensures Converted(wealth, ConversionRate(BaseCurrency, reply)) == wealth
  {
  }

  /** For a positive rate the chart's leading path is the snapshot's best
      path: converting never changes which index is the first maximum. */
  lemma {:induction false} ArgMaxIgnoresRate(xs: seq<real>, rate: real)
    requires |xs| > 0 && rate > 0.0
    ensures ArgMax(Converted(xs, rate)) == ArgMax(xs)
  {
    var c := Converted(xs, rate);
    var k := ArgMax(xs);
    forall j | 0 <= j < |xs|
      ensures c[j] <= c[k] && (j < k ==> c[j] < c[k])
    {
      assert c[j] == xs[j] * rate && c[k] == xs[k] * rate;
      ScaleKeepsOrder(xs[k], xs[j], rate);
      ScaleKeepsOrder(xs[j], xs[k], rate);
    }
    FirstMaxIsUnique(c, k, ArgMax(c));
  }

  /** Multiplying by a positive rate keeps the order of two amounts. */
  lemma ScaleKeepsOrder(a: real, b: real, rate: real)
    requires rate > 0.0
    ensures a <= b <==> a * rate <= b * rate
  {
  }

  // ---------------------------------------------------------------------
  // Advice

  /** The summary's three advice bands. */
  datatype Advice = StableJob | Balanced | Venture

  /** The advice for the integer "Risk Appetite" slider value. */
  function AdviceFor(risk: int): (a: Advice)
    ensures a == StableJob <==> risk <= 3
    ensures a == Balanced <==> 4 <= risk <= 7
    ensures a == Venture <==> risk >= 8
  {
    if risk <= 3 then StableJob
    else if 4 <= risk <= 7 then Balanced
    else Venture
  }
}
