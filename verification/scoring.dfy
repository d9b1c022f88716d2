/** `normalize` and `rank_companies`: the weighted, clamped fit score. */
module Scoring {
  import opened Outcomes
  import opened Json
  import opened Industry

  /** `min(value / max_value, 1) if max_value else 0`. */
  function Normalize(v: real, m: real): (r: real)
    ensures r <= 1.0
    ensures m == 0.0 ==> r == 0.0
    ensures m != 0.0 && v / m <= 1.0 ==> r == v / m
    ensures m != 0.0 && v / m > 1.0 ==> r == 1.0
    ensures 0.0 <= v && 0.0 < m ==> 0.0 <= r
    ensures 0.0 < m <= v ==> r == 1.0
  {
    if m == 0.0 then 0.0 else Min1(v / m)
  }

  /** `min(x, 1)`. */
  function Min1(x: real): (r: real)
    ensures r <= 1.0 && r <= x
    ensures r == x || r == 1.0
  {
    if x <= 1.0 then x else 1.0
  }

  /** The weighted sum of lines 156-160 over already normalised values. */
  function Combine(w: Weights, normEmployees: real, normRevenue: real): real {
    w.employee * normEmployees + w.revenue * normRevenue + w.industry * w.industryScore
  }

  /** The weighted sum before the final clamp. */
  function RawScore(w: Weights, employees: real, revenue: real): real {
    Combine(w, Normalize(employees, w.maxEmployees), Normalize(revenue, w.maxRevenue))
  }

  /** `min(score, 1)` at line 162: never above 1, equal to the raw sum
      whenever that is at most 1, and exactly 1 whenever it exceeds 1. */
  function Score(w: Weights, employees: real, revenue: real): (s: real)
    ensures s <= 1.0
    ensures s <= RawScore(w, employees, revenue)
    ensures RawScore(w, employees, revenue) <= 1.0 ==> s == RawScore(w, employees, revenue)
    ensures RawScore(w, employees, revenue) > 1.0 ==> s == 1.0
  {
    Min1(RawScore(w, employees, revenue))
  }

  /** With non-negative weights and inputs, the score lies in [0, 1]. */
  lemma ScoreNonNegative(w: Weights, employees: real, revenue: real)
    requires NonNegative(w) && PositiveCeilings(w) && 0.0 <= employees && 0.0 <= revenue
    ensures 0.0 <= Score(w, employees, revenue) <= 1.0
  {
    var ne := Normalize(employees, w.maxEmployees);
    var nr := Normalize(revenue, w.maxRevenue);
    assert 0.0 <= w.employee * ne;
    assert 0.0 <= w.revenue * nr;
    assert 0.0 <= w.industry * w.industryScore;
    assert 0.0 <= RawScore(w, employees, revenue);
  }

  /** The weights `rank_companies` uses for an industry value: the dict
      default `{}` (no industry) and a list or dict value cannot be hashed,
      a string is looked up, and any other value matches no string key. */
  function WeightsFor(industry: Option<Value>): (r: Result<Weights>)
    ensures r.Fail? <==> (industry.None? || !Hashable(industry.value))
    ensures r.Fail? ==> r.error == UnhashableIndustry
    ensures r.Ok? && industry.value.Str? ==> r.value == Lookup(industry.value.s)
    ensures r.Ok? && !industry.value.Str? ==> r.value == Default
    ensures r.Ok? ==> NonNegative(r.value) && PositiveCeilings(r.value)
  {
    match industry
    case None => Fail(UnhashableIndustry)
    case Some(v) =>
      if !Hashable(v) then Fail(UnhashableIndustry)
      else if v.Str? then Ok(Lookup(v.s))
      else Ok(Default)
  }

  /** `normalize(company_data[key], ceiling)`: a missing key raises, a zero
      ceiling short-circuits before the division, and a non-number raises. */
  function NormalizeField(d: Dict, key: string, ceiling: real): (r: Result<real>)
    ensures r.Fail? <==> (key !in d || (ceiling != 0.0 && AsNumber(d[key]).None?))
    ensures key !in d ==> r == Fail(MissingField(key))
    ensures key in d && r.Fail? ==> r == Fail(NotNumeric(key))
    ensures r.Ok? && ceiling != 0.0 ==> r.value == Normalize(AsNumber(d[key]).value, ceiling)
    ensures r.Ok? && ceiling == 0.0 ==> r.value == 0.0
  {
    if key !in d then Fail(MissingField(key))
    else if ceiling == 0.0 then Ok(0.0)
    else match AsNumber(d[key])
      case None => Fail(NotNumeric(key))
      case Some(n) => Ok(Normalize(n, ceiling))
  }

  /** The industry entry `company_data.get("industry", {})` reads: None for the `{}` default. */
  function IndustryOf(d: Dict): (v: Option<Value>)
    ensures v.Some? <==> "industry" in d
    ensures v.Some? ==> v.value == d["industry"]
  {
    if "industry" in d then Some(d["industry"]) else None
  }

  /** The record shape `rank_companies` completes on: a hashable industry
      (or none found) and numeric employee size and revenue. */
  predicate Rankable(d: Dict) {
    && WeightsFor(IndustryOf(d)).Ok?
    && "employee_size" in d && AsNumber(d["employee_size"]).Some?
    && "revenue" in d && AsNumber(d["revenue"]).Some?
  }

  /** The score `rank_companies` stores for a rankable record. */
  function FitScore(d: Dict): (s: real)
    requires Rankable(d)
    ensures s <= 1.0
  {
    Score(WeightsFor(IndustryOf(d)).value,
          AsNumber(d["employee_size"]).value, AsNumber(d["revenue"]).value)
  }

  /** `rank_companies`: look up the weights, normalise employee size then
      revenue, and store the clamped weighted sum under "score". It fails
      exactly on non-rankable records, in the order Python evaluates the
      lines, and otherwise keeps every other key of the input unchanged. */
  function Rank(d: Dict): (r: Result<Dict>)
    ensures r.Ok? <==> Rankable(d)
    ensures r.Ok? ==> r.value.Keys == d.Keys + {"score"}
    ensures r.Ok? ==> forall k :: k in d && k != "score" ==> r.value[k] == d[k]
    ensures r.Ok? ==> r.value["score"] == Real(FitScore(d))
  {
    match WeightsFor(IndustryOf(d))
    case Fail(e) => Fail(e)
    case Ok(w) =>
      match NormalizeField(d, "employee_size", w.maxEmployees)
      case Fail(e) => Fail(e)
      case Ok(ne) =>
        match NormalizeField(d, "revenue", w.maxRevenue)
        case Fail(e) => Fail(e)
        case Ok(nr) =>
          Ok(d["score" := Real(Min1(Combine(w, ne, nr)))])
  }

  /** Which exception `rank_companies` raises: the lookup key is checked
      first, then employee size, then revenue. */
  lemma RankFailures(d: Dict)
    ensures WeightsFor(IndustryOf(d)).Fail? ==> Rank(d) == Fail(UnhashableIndustry)
    ensures WeightsFor(IndustryOf(d)).Ok? && "employee_size" !in d ==>
              Rank(d) == Fail(MissingField("employee_size"))
    ensures WeightsFor(IndustryOf(d)).Ok? && "employee_size" in d && AsNumber(d["employee_size"]).None? ==>
              Rank(d) == Fail(NotNumeric("employee_size"))
    ensures WeightsFor(IndustryOf(d)).Ok? && "employee_size" in d && AsNumber(d["employee_size"]).Some?
            && "revenue" !in d ==>
              Rank(d) == Fail(MissingField("revenue"))
    ensures WeightsFor(IndustryOf(d)).Ok? && "employee_size" in d && AsNumber(d["employee_size"]).Some?
            && "revenue" in d && AsNumber(d["revenue"]).None? ==>
              Rank(d) == Fail(NotNumeric("revenue"))
  {
  }
}
