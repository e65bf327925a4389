/** The seeded single-path income simulation (utils/simulation_core.py).

    The generator is created from the seed inside the routine, so a seed
    fixes the sequence of samples it hands out; the model takes that
    sequence of standard-normal samples `z` as an input. A normal draw
    with mean 0 and standard deviation `volatility` is `volatility * z[k]`. */
module SimulationCore {
  import opened RealMath

  /** The change applied in step k: the growth rate plus that step's noise. */
  function Change(growthRate: real, volatility: real, zk: real): real
  {
    growthRate + volatility * zk
  }

  /** s is a simulated path: it starts at `baseSalary`, and each entry is the
      previous one grown by that step's change scaled by the risk tolerance. */
  ghost predicate FollowsPath(s: seq<real>, baseSalary: real, growthRate: real, volatility: real,
                              riskTolerance: real, z: seq<real>)
  {
    && 1 <= |s| && |s| - 1 <= |z|
    && s[0] == baseSalary
    && forall k | 0 <= k < |s| - 1 ::
         s[k + 1] == s[k] * (1.0 + Change(growthRate, volatility, z[k]) * riskTolerance)
  }

  /** The Year column the caller charts the path against: 1 .. years. */
  function YearColumn(years: int): (c: seq<int>)
    ensures |c| == if years >= 1 then years else 0
    ensures forall i | 0 <= i < |c| :: c[i] == i + 1
  {
    if years >= 1 then seq(years, i => i + 1) else []
  }

  /** What `simulate_path` gives back: the salary list, or the error the
      generator raises when asked for a normal draw with a negative
      standard deviation (numpy's `ValueError("scale < 0")`). */
  datatype PathResult = Salaries(salary: seq<real>) | NegativeScale

  /** `simulate_path`: append `years - 1` grown salaries to the base one.
      Every step draws with standard deviation `volatility`, so a negative
      volatility fails at the first step, which runs only when years >= 2. */
  method SimulatePath(baseSalary: real, growthRate: real, volatility: real, riskTolerance: real,
                      years: int, z: seq<real>) returns (r: PathResult)
    requires years - 1 <= |z|
    ensures r == NegativeScale <==> years >= 2 && volatility < 0.0
    ensures r.Salaries? ==> |r.salary| == if years >= 1 then years else 1
    ensures r.Salaries? && years >= 1 ==> |r.salary| == |YearColumn(years)|
    ensures r.Salaries? ==> FollowsPath(r.salary, baseSalary, growthRate, volatility, riskTolerance, z)
  {
    var salary := [baseSalary];
    var k := 0;
    while k < years - 1
      invariant 0 <= k && (k <= years - 1 || k == 0)
      invariant k > 0 ==> volatility >= 0.0
      invariant |salary| == k + 1
      invariant FollowsPath(salary, baseSalary, growthRate, volatility, riskTolerance, z)
    {
      if volatility < 0.0 {
        return NegativeScale;
      }
      var change := growthRate + volatility * z[k];
      salary := salary + [salary[|salary| - 1] * (1.0 + change * riskTolerance)];
      k := k + 1;
    }
    return Salaries(salary);
  }

  /** With zero risk tolerance no change is ever applied: every entry is
      the base salary. */
  lemma {:induction false} NoRiskIsFlat(s: seq<real>, baseSalary: real, growthRate: real, volatility: real,
                                        z: seq<real>, k: nat)
    requires FollowsPath(s, baseSalary, growthRate, volatility, 0.0, z)
    requires k < |s|
    ensures s[k] == baseSalary
  {
    if k > 0 {
      NoRiskIsFlat(s, baseSalary, growthRate, volatility, z, k - 1);
      assert s[k] == s[k - 1] * (1.0 + Change(growthRate, volatility, z[k - 1]) * 0.0);
    }
  }

  /** With every draw `volatility * z[i]` zero (zero volatility, or zero
      samples) the path compounds at the growth rate scaled by the risk
      tolerance. */
  lemma {:induction false} ZeroNoiseCompounds(s: seq<real>, baseSalary: real, growthRate: real, volatility: real,
                                              riskTolerance: real, z: seq<real>, k: nat)
    requires FollowsPath(s, baseSalary, growthRate, volatility, riskTolerance, z)
    requires forall i | 0 <= i < |s| - 1 :: volatility * z[i] == 0.0
    requires k < |s|
    ensures s[k] == baseSalary * Pow(1.0 + growthRate * riskTolerance, k)
  {
    if k > 0 {
      ZeroNoiseCompounds(s, baseSalary, growthRate, volatility, riskTolerance, z, k - 1);
      var x := 1.0 + growthRate * riskTolerance;
      assert s[k] == s[k - 1] * (1.0 + Change(growthRate, volatility, z[k - 1]) * riskTolerance);
      assert s[k] == baseSalary * Pow(x, k - 1) * x;
    }
  }

  /** The path is determined by its length and the samples it reads: the
      first |s| - 1 samples, one per appended salary. Equal samples there
      (the same seed) give the same path, whatever follows them. */
  lemma SameSamplesSamePath(s1: seq<real>, s2: seq<real>, baseSalary: real, growthRate: real,
                            volatility: real, riskTolerance: real, z1: seq<real>, z2: seq<real>)
    requires FollowsPath(s1, baseSalary, growthRate, volatility, riskTolerance, z1)
    requires FollowsPath(s2, baseSalary, growthRate, volatility, riskTolerance, z2)
    requires |s1| == |s2| && z1[..|s1| - 1] == z2[..|s2| - 1]
    ensures s1 == s2
  {
    forall k | 0 <= k < |s1|
      ensures s1[k] == s2[k]
    {
      SameSamplesSameEntry(s1, s2, baseSalary, growthRate, volatility, riskTolerance, z1, z2, k);
    }
  }

  /** Entry k of two such paths agrees, by induction on k. */
  lemma {:induction false} SameSamplesSameEntry(s1: seq<real>, s2: seq<real>, baseSalary: real, growthRate: real,
                                                volatility: real, riskTolerance: real, z1: seq<real>, z2: seq<real>, k: nat)
    requires FollowsPath(s1, baseSalary, growthRate, volatility, riskTolerance, z1)
    requires FollowsPath(s2, baseSalary, growthRate, volatility, riskTolerance, z2)
    requires |s1| == |s2| && z1[..|s1| - 1] == z2[..|s2| - 1]
    requires k < |s1|
    ensures s1[k] == s2[k]
  {
    if k > 0 {
      SameSamplesSameEntry(s1, s2, baseSalary, growthRate, volatility, riskTolerance, z1, z2, k - 1);
      assert z1[k - 1] == z1[..|s1| - 1][k - 1] == z2[..|s2| - 1][k - 1] == z2[k - 1];
      assert s1[k] == s1[k - 1] * (1.0 + Change(growthRate, volatility, z1[k - 1]) * riskTolerance);
      assert s2[k] == s2[k - 1] * (1.0 + Change(growthRate, volatility, z2[k - 1]) * riskTolerance);
    }
  }
}
