/** The industry weight table (`standard_industry_data`) and the `DEFAULT_*`
    constants used when an industry is not in it. */
module Industry {
  import Text

  /** One table entry: three factor weights, the industry's baseline score,
      and the two normalisation ceilings. */
  datatype Weights = Weights(
    employee: real,       // weight_emp_size
    revenue: real,        // weight_revenue
    industry: real,       // weight_industry
    industryScore: real,  // industry_score
    maxEmployees: real,   // max_emp_size
    maxRevenue: real      // max_revenue
  )

  /** Every weight and the baseline score are non-negative. */
  predicate NonNegative(w: Weights) {
    0.0 <= w.employee && 0.0 <= w.revenue && 0.0 <= w.industry && 0.0 <= w.industryScore
  }

  /** Both ceilings are positive, so normalisation always divides. */
  predicate PositiveCeilings(w: Weights) {
    0.0 < w.maxEmployees && 0.0 < w.maxRevenue
  }

  /** The weights form a convex combination and the baseline is at most 1. */
  predicate Balanced(w: Weights) {
    w.employee + w.revenue + w.industry == 1.0 && w.industryScore <= 1.0
  }

  /** The fallback for an industry missing from the table. */
  const Default := Weights(0.3, 0.7, 0.2, 0.5, 500000.0, 100000000000000.0)

  const Automotive := Weights(0.4, 0.4, 0.2, 0.85, 500000.0, 500000000000.0)
  const Telecommunications := Weights(0.3, 0.5, 0.2, 0.9, 300000.0, 300000000000.0)
  const Healthcare := Weights(0.3, 0.5, 0.2, 0.9, 1000000.0, 400000000000.0)
  const Retail := Weights(0.3, 0.4, 0.3, 0.7, 2000000.0, 600000000000.0)
  const FinancialServices := Weights(0.25, 0.55, 0.2, 0.8, 500000.0, 500000000000.0)
  const AudioStreaming := Weights(0.2, 0.5, 0.3, 0.65, 20000.0, 10000000000.0)

  /** The one key of the table written with upper-case letters. */
  const AudioKey: string := "Audio streamingPodcasting"

  const Table: map<string, Weights> := map[
    "automotive" := Automotive,
    "telecommunications" := Telecommunications,
    "healthcare" := Healthcare,
    "retail" := Retail,
    "financial services" := FinancialServices,
    AudioKey := AudioStreaming
  ]

  /** `standard_industry_data.get(industry, {})` followed by the six
      per-field `.get(field, DEFAULT_…)` calls. Every table entry has all six
      fields, so a key is either found whole or every field takes its default. */
  function Lookup(industry: string): (w: Weights)
    ensures NonNegative(w) && PositiveCeilings(w)
    ensures industry in Table ==> w == Table[industry]
    ensures w == Default <==> industry !in Table
    ensures w == AudioStreaming <==> industry == AudioKey
  {
    if industry in Table then Table[industry] else Default
  }

  /** The six entries are exactly the six keys of the table, and each is
      balanced: its weights sum to 1 and its baseline is at most 1. */
  lemma TableBalanced()
    ensures Table.Keys == {"automotive", "telecommunications", "healthcare", "retail",
                           "financial services", AudioKey}
    ensures forall k :: k in Table ==> Balanced(Table[k])
  {
  }

  /** The default weights sum to 1.2 and are therefore not balanced. */
  lemma DefaultUnbalanced()
    ensures Default.employee + Default.revenue + Default.industry == 1.2
    ensures !Balanced(Default)
  {
  }

  /** Matching is exact: any label outside the six keys, including a
      differently cased or padded spelling, gets the documented defaults. */
  lemma UnknownIndustryDefaults(industry: string)
    requires industry !in {"automotive", "telecommunications", "healthcare", "retail",
                           "financial services", AudioKey}
    ensures Lookup(industry) == Weights(0.3, 0.7, 0.2, 0.5, 500000.0, 100000000000000.0)
  {
  }

  /** Case sensitivity in practice: "Automotive" is not "automotive". */
  lemma CaseSensitiveExample()
    ensures Lookup("Automotive") == Default
    ensures Lookup("automotive") == Automotive
  {
  }

  /** An extracted industry is always lower-cased, and the audio-streaming
      key holds upper-case letters, so its entry is never selected for one. */
  lemma AudioEntryUnreachable(raw: string)
    ensures Text.Lower(raw) != AudioKey
    ensures Lookup(Text.Lower(raw)) != AudioStreaming
  {
    assert Text.IsUpper(AudioKey[0]);
    Text.NeverLowerOf(raw, AudioKey);
  }
}
