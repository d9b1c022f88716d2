/** Properties of the fit score: bounds, monotonicity, when the clamp binds,
    and the two worked examples. */
module ScoreProperties {
  import opened Outcomes
  import opened Json
  import opened Industry
  import opened Scoring

  /** Over a non-negative ceiling, normalisation never decreases as the value grows. */
  lemma NormalizeMonotone(v1: real, v2: real, m: real)
    requires v1 <= v2 && 0.0 <= m
    ensures Normalize(v1, m) <= Normalize(v2, m)
  {
    if m != 0.0 {
      var a, b := v1 / m, v2 / m;
      assert a * m == v1 && b * m == v2;
      if b < a {
        assert (a - b) * m == v1 - v2;
        WeightedMonotone(m, 0.0, a - b);
        assert false;
      }
    }
  }

  /** Scaling a smaller normalised value by a non-negative weight gives a smaller product. */
  lemma WeightedMonotone(w: real, a: real, b: real)
    requires 0.0 <= w && a <= b
    ensures w * a <= w * b
  {
    assert w * b - w * a == w * (b - a);
  }

  /** More employees never lower the score. */
  lemma ScoreMonotoneInEmployees(w: Weights, e1: real, e2: real, revenue: real)
    requires NonNegative(w) && 0.0 <= w.maxEmployees && e1 <= e2
    ensures Score(w, e1, revenue) <= Score(w, e2, revenue)
  {
    NormalizeMonotone(e1, e2, w.maxEmployees);
    WeightedMonotone(w.employee, Normalize(e1, w.maxEmployees), Normalize(e2, w.maxEmployees));
    assert RawScore(w, e1, revenue) <= RawScore(w, e2, revenue);
  }

  /** More revenue never lowers the score. */
  lemma ScoreMonotoneInRevenue(w: Weights, employees: real, r1: real, r2: real)
    requires NonNegative(w) && 0.0 <= w.maxRevenue && r1 <= r2
    ensures Score(w, employees, r1) <= Score(w, employees, r2)
  {
    NormalizeMonotone(r1, r2, w.maxRevenue);
    WeightedMonotone(w.revenue, Normalize(r1, w.maxRevenue), Normalize(r2, w.maxRevenue));
    assert RawScore(w, employees, r1) <= RawScore(w, employees, r2);
  }

  /** For a balanced entry the raw sum never exceeds 1, whatever the inputs,
      because each normalised term is at most 1. */
  lemma BalancedRawAtMostOne(w: Weights, employees: real, revenue: real)
    requires NonNegative(w) && Balanced(w)
    ensures RawScore(w, employees, revenue) <= 1.0
  {
    BalancedCombineAtMostOne(w, Normalize(employees, w.maxEmployees), Normalize(revenue, w.maxRevenue));
  }

  /** The weighted sum of two factors of at most 1 under balanced weights is at most 1. */
  lemma BalancedCombineAtMostOne(w: Weights, ne: real, nr: real)
    requires NonNegative(w) && Balanced(w) && ne <= 1.0 && nr <= 1.0
    ensures Combine(w, ne, nr) <= 1.0
  {
    ScaledAtMost(w.employee, ne);
    ScaledAtMost(w.revenue, nr);
    ScaledAtMost(w.industry, w.industryScore);
    SumMonotone(w.employee * ne, w.revenue * nr, w.industry * w.industryScore,
                w.employee, w.revenue, w.industry);
  }

  /** A non-negative weight times a factor of at most 1 is at most the weight. */
  lemma ScaledAtMost(w: real, a: real)
    requires 0.0 <= w && a <= 1.0
    ensures w * a <= w
  {
    assert w - w * a == w * (1.0 - a);
  }

  /** Term-wise bounds add up. */
  lemma SumMonotone(x: real, y: real, z: real, a: real, b: real, c: real)
    requires x <= a && y <= b && z <= c
    ensures x + y + z <= a + b + c
  {
  }

  /** For every table industry the clamp at line 162 never changes the sum. */
  lemma TableClampNeverBinds(industry: string, employees: real, revenue: real)
    requires industry in Table
    ensures Score(Lookup(industry), employees, revenue) == RawScore(Lookup(industry), employees, revenue)
  {
    TableBalanced();
    BalancedRawAtMostOne(Lookup(industry), employees, revenue);
  }

  /** With the defaults and both inputs at or above their ceilings the raw sum
      is 0.3 + 0.7 + 0.1 = 1.1, and the clamp brings it down to 1. */
  lemma DefaultClampBinds(employees: real, revenue: real)
    requires 500000.0 <= employees && 100000000000000.0 <= revenue
    ensures RawScore(Default, employees, revenue) == 1.1
    ensures Score(Default, employees, revenue) == 1.0
  {
  }

  /** Records that differ only in employee size are ranked in the order of
      their employee sizes. */
  lemma FitScoreMonotoneInEmployees(d1: Dict, d2: Dict)
    requires Rankable(d1) && Rankable(d2)
    requires d2 == d1["employee_size" := d2["employee_size"]]
    requires AsNumber(d1["employee_size"]).value <= AsNumber(d2["employee_size"]).value
    ensures FitScore(d1) <= FitScore(d2)
  {
    assert IndustryOf(d1) == IndustryOf(d2);
    var w := WeightsFor(IndustryOf(d1)).value;
    ScoreMonotoneInEmployees(w, AsNumber(d1["employee_size"]).value,
      AsNumber(d2["employee_size"]).value, AsNumber(d1["revenue"]).value);
  }

  /** Records that differ only in revenue are ranked in the order of their revenues. */
  lemma FitScoreMonotoneInRevenue(d1: Dict, d2: Dict)
    requires Rankable(d1) && Rankable(d2)
    requires d2 == d1["revenue" := d2["revenue"]]
    requires AsNumber(d1["revenue"]).value <= AsNumber(d2["revenue"]).value
    ensures FitScore(d1) <= FitScore(d2)
  {
    assert IndustryOf(d1) == IndustryOf(d2);
    var w := WeightsFor(IndustryOf(d1)).value;
    ScoreMonotoneInRevenue(w, AsNumber(d1["employee_size"]).value,
      AsNumber(d1["revenue"]).value, AsNumber(d2["revenue"]).value);
  }

  /** The stored score lies in [0, 1] when employee size and revenue are
      non-negative. */
  lemma FitScoreBounds(d: Dict)
    requires Rankable(d)
    requires 0.0 <= AsNumber(d["employee_size"]).value && 0.0 <= AsNumber(d["revenue"]).value
    ensures 0.0 <= FitScore(d) <= 1.0
  {
    ScoreNonNegative(WeightsFor(IndustryOf(d)).value,
      AsNumber(d["employee_size"]).value, AsNumber(d["revenue"]).value);
  }

  /** Automotive, 250000 employees and revenue 250000000000: both ratios are
      0.5, so the score is 0.4 * 0.5 + 0.4 * 0.5 + 0.2 * 0.85 = 0.57. */
  lemma AutomotiveExample(d: Dict)
    requires d == map["company_name" := Str("Acme"), "employee_size" := Int(250000),
                      "revenue" := Int(250000000000), "industry" := Str("automotive")]
    ensures Rank(d) == Ok(d["score" := Real(0.57)])
  {
    assert Normalize(250000.0, 500000.0) == 0.5;
    assert Normalize(250000000000.0, 500000000000.0) == 0.5;
  }

  /** An unknown industry with 10000000 employees and no revenue: the
      employee ratio clamps to 1, so the score is 0.3 * 1 + 0.7 * 0 + 0.2 * 0.5 = 0.4. */
  lemma UnknownIndustryExample(d: Dict)
    requires d == map["company_name" := Str("Acme"), "employee_size" := Int(10000000),
                      "revenue" := Int(0), "industry" := Str("quantum farming")]
    ensures Rank(d) == Ok(d["score" := Real(0.4)])
  {
    assert "quantum farming" !in Table;
    assert Normalize(10000000.0, 500000.0) == 1.0;
  }
}
