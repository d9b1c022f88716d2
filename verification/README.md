# PMF score generator: extraction and scoring core

This project models the deterministic core of `demo.py`, a script that
estimates a company's product/market fit for a CRM product. The script takes
the free-text answer a language model gives about a company and
`extract_json_from_response` turns it into a four-field record
(`company_name`, `employee_size`, `revenue`, `industry`). Then
`rank_companies` scores that record against the industry weight table
`standard_industry_data`, with the `DEFAULT_*` constants as fallback. The
score is a weighted sum of normalised employee size, normalised revenue and an
industry baseline, clamped to at most 1.

Modules, leaves first:

- `Outcomes` (outcomes.dfy): `Option`, the `Error` kinds the Python code
  raises, and `Result`.
- `Json` (json.dfy): the values `json.loads` produces, classified by kind.
  There is also Python's numeric view of a value (bools divide as 1/0) and
  hashability.
- `Text` (text.dfy): ASCII `str.lower`.
- `Extract` (extract.dfy): `extract_json_from_response`. `Span`/`Locate`
  give the semantics of the greedy DOTALL search `\{.*\}`. `Project` builds
  the record. `ExtractJson` combines the two.
- `Industry` (industry.dfy): the weight table, the defaults and the exact,
  case-sensitive lookup.
- `Scoring` (scoring.dfy): `normalize` and `rank_companies`.
- `ScoreProperties` (score_properties.dfy): bounds, monotonicity, when the
  clamp binds, and the two worked examples.
- `Pipeline` (pipeline.dfy): lines 253-256 of `main`, i.e. extraction
  followed by ranking.

`json.loads` is a parameter `parse: string -> Option<Dict>`. `None` stands for
a decoding error. The text handed to it always starts with `{`, so a
successful decode is an object. Python's runtime type errors are modelled as
`Fail` results, not as preconditions. These are:

- `.lower()` on a non-string industry;
- an unhashable lookup key (the `{}` default, or a list or dict);
- a missing key in `company_data[...]`;
- division of a non-number.

In these places the code does something other than its names, comments and
prompt suggest; the model follows the code:

- Extraction on undecodable JSON-shaped text returns Python's `None`, not a
  record of defaults, because line 130 builds `dict()` without returning it.
  `main` then passes that `None` to `rank_companies`, which fails
  (`Pipeline.UndecodableFails`).
- Employee size and revenue are copied as decoded, not converted to integers.
  A string such as `"50000"` makes ranking fail
  (`Pipeline.StringNumbersNotCoerced`).
- The default industry is lower-cased along with a present one, so a record
  without an industry carries `"no_industry_found"`.
- Missing JSON raises at line 112. The intended `JSONDecodeError` needs three
  arguments, so what Python actually raises is a `TypeError`. Either way it
  is the generic failure `JsonNotFound` here.
- The table key `"Audio streamingPodcasting"` contains upper-case letters, so
  a lower-cased extracted industry can never select it
  (`Industry.AudioEntryUnreachable`, `Pipeline.AudioWeightsNeverUsed`).

## Model

| member | source | states |
|---|---|---|
| Scoring.Normalize | demo.py:103-104 | a zero ceiling gives 0. Otherwise the result is the ratio when the ratio is at most 1, and 1 when it exceeds 1. So the result is always at most 1, lies in [0, 1] for a non-negative value over a positive ceiling, and is 1 once the value reaches a positive ceiling |
| ScoreProperties.NormalizeMonotone | demo.py:103-104 | over a non-negative ceiling, normalisation is non-decreasing in the value |
| Extract.MatchAt | demo.py:109 | a slice matches `\{.*\}` under DOTALL exactly when it opens with `{`, closes with a distinct `}`, and may hold any characters, newlines included, in between |
| Extract.Span | demo.py:109 | the regex search succeeds exactly when `\{.*\}` matches somewhere. The reported match is itself a match and contains every other match, so it is the leftmost and longest one |
| Extract.Locate | demo.py:109-114 | a JSON part is found exactly when some `{` precedes some `}`. The found text starts with `{` and ends with `}`. It is the slice of the response from the first `{` through the last `}` |
| Extract.NotFoundExamples | demo.py:109-112 | `"}{"` and a lone `{` have no JSON part, so the failure path is taken |
| Extract.GreedyExample | demo.py:109-114 | for two objects separated by prose, the located text runs from the first object's `{` to the second object's `}` |
| Extract.Project | demo.py:121-126 | the record has exactly the four keys. Name, employee size and revenue are copied when present and otherwise default to `"NO_NAME_FOUND"`, 0 and 0. The industry is the lower-cased value, or the lower-cased sentinel when absent. A non-string industry raises, and that is the only way this step fails |
| Extract.ExtractJson | demo.py:107-130 | no JSON part means failure `JsonNotFound`. A JSON part that does not decode gives `None`, not a record. A decoded object with a string industry (or none) always gives `Some` of exactly its projection, which has the four keys. A non-string industry raises |
| Extract.DefaultsExample | demo.py:121-126 | an object with no fields extracts to `NO_NAME_FOUND`, 0, 0 and `no_industry_found` |
| Extract.LowerDefaultIndustry | demo.py:125 | the default industry sentinel lower-cases to `no_industry_found` |
| Text.Lower | demo.py:125 | lower-casing keeps the length, maps each upper-case ASCII letter to its lower-case form and keeps every other character, so the result has no upper-case letter |
| Text.LowerIdempotent | demo.py:125 | lower-casing twice equals lower-casing once |
| Text.LowerFixesExactlyLowerCase | demo.py:125 | lower-casing leaves a string unchanged if and only if it has no upper-case letter |
| Text.NeverLowerOf | demo.py:125 | a string containing an upper-case letter is never the result of lower-casing |
| Industry.Lookup | demo.py:134-149 | a table key gets its own entry. Every looked-up entry has non-negative weights and baseline and positive ceilings. The defaults are returned exactly when the label is not a table key. The audio-streaming entry is returned exactly for its own key |
| Industry.TableBalanced | demo.py:40-89 | the table has exactly the six listed keys. In every entry the three weights sum to 1 and the industry score is at most 1 |
| Industry.DefaultUnbalanced | demo.py:29-31 | the default weights sum to 1.2, so the defaults are not balanced |
| Industry.UnknownIndustryDefaults | demo.py:25-32 | any label outside the six keys gets weights 0.3/0.7/0.2, industry score 0.5, employee ceiling 500000 and revenue ceiling 100000000000000 |
| Industry.CaseSensitiveExample | demo.py:134-136 | `"Automotive"` falls back to the defaults while `"automotive"` finds its entry |
| Industry.AudioEntryUnreachable | demo.py:81 | no lower-cased string equals the audio-streaming key, so looking one up never yields that entry |
| Scoring.Combine | demo.py:156-160 | the weighted sum of normalised employee size, normalised revenue and the industry baseline, each with its weight |
| Scoring.RawScore | demo.py:151-160 | the weighted sum before the clamp, with employee size and revenue normalised against the entry's ceilings |
| Scoring.Score | demo.py:156-162 | the score is at most 1 and at most the raw weighted sum. It equals the raw sum whenever that sum is at most 1, and is exactly 1 whenever the sum exceeds 1 |
| Scoring.Min1 | demo.py:162 | `min(x, 1)` is at most 1 and at most `x`, and it is one of the two |
| Scoring.ScoreNonNegative | demo.py:156-162 | the score lies in [0, 1] for non-negative weights and inputs with positive ceilings |
| Json.Hashable | demo.py:134-135 | a list or dict value cannot be hashed and so cannot be a lookup key; every other decoded value can |
| Scoring.IndustryOf | demo.py:135 | `company_data.get("industry", {})` yields the stored industry when the key is present, and nothing (the unhashable `{}` default) otherwise |
| Scoring.WeightsFor | demo.py:134-136 | an absent industry (the `{}` default), a list or a dict fails as unhashable. A string is looked up in the table. Any other value gets the defaults. The weights used are always non-negative, with positive ceilings |
| Json.AsNumber | demo.py:104 | the value true division sees: ints and floats are numbers, a bool divides as 1 or 0, and strings, null, lists and dicts are not numbers |
| Scoring.NormalizeField | demo.py:151-154 | a missing key raises `MissingField`. A zero ceiling yields 0 without dividing. A non-number over a non-zero ceiling raises `NotNumeric`. A number is normalised |
| Scoring.Rank | demo.py:133-163 | ranking succeeds exactly when the industry is hashable and employee size and revenue are present numbers. On success it adds only the `score` key, keeps every other key unchanged, and stores the clamped score, which is at most 1 |
| Scoring.Rankable | demo.py:134-154 | the records `rank_companies` completes on: a hashable industry, and employee size and revenue present as numbers |
| Scoring.FitScore | demo.py:156-162 | the score stored for a rankable record, computed with the looked-up weights; it is at most 1 |
| Scoring.RankFailures | demo.py:134-154 | failures surface in evaluation order: the unhashable industry first, then a missing or non-numeric employee size, then a missing or non-numeric revenue |
| ScoreProperties.ScoreMonotoneInEmployees | demo.py:151-162 | under non-negative weights the score is non-decreasing in employee size |
| ScoreProperties.ScoreMonotoneInRevenue | demo.py:154-162 | under non-negative weights the score is non-decreasing in revenue |
| ScoreProperties.BalancedRawAtMostOne | demo.py:156-160 | for non-negative weights summing to 1 with industry score at most 1, the raw sum is at most 1 for any inputs |
| ScoreProperties.TableClampNeverBinds | demo.py:162 | for every table industry the clamp leaves the raw sum unchanged |
| ScoreProperties.DefaultClampBinds | demo.py:25-32 | with the defaults and both inputs at or above their ceilings, the raw sum is 1.1 and the clamp makes the score 1 |
| ScoreProperties.FitScoreMonotoneInEmployees | demo.py:151-162 | of two rankable records differing only in employee size, the larger size never scores lower |
| ScoreProperties.FitScoreMonotoneInRevenue | demo.py:154-162 | of two rankable records differing only in revenue, the larger revenue never scores lower |
| ScoreProperties.FitScoreBounds | demo.py:151-162 | a rankable record with non-negative employee size and revenue scores in [0, 1] |
| ScoreProperties.AutomotiveExample | demo.py:41-48 | automotive with 250000 employees and revenue 250000000000 scores 0.57 |
| ScoreProperties.UnknownIndustryExample | demo.py:133-163 | an unknown industry with 10000000 employees and revenue 0 scores 0.4 |
| Pipeline.Assess | demo.py:253-256 | extraction followed by ranking succeeds exactly when a JSON part is found, decodes, and has a string industry (or none) and numbers (or nothing) for employee size and revenue. Missing JSON fails with `JsonNotFound` and undecodable JSON fails with `NoRecord`. On success the result is the extracted record, every field unchanged, plus its fit score under `score`: the four record keys plus `score`, a lower-case industry and a score of at most 1 |
| Pipeline.ScoredFrom | demo.py:162-163 | what `rank_companies` returns for a record: the record's keys plus `score`, every other field unchanged, and the fit score stored |
| Pipeline.RankExtracted | demo.py:133-163 | ranking what extraction returned: an extraction failure propagates, `None` fails at its first lookup, and a record is ranked exactly when rankable, giving that record with its fit score |
| Pipeline.AssessOutcome | demo.py:107-163 | a run succeeds exactly when the JSON part is found, decodes and is usable; the two stage failures are `JsonNotFound` and `NoRecord` |
| Pipeline.AssessShape | demo.py:121-163 | a successful run has the four record keys plus `score`, a score of at most 1 and a lower-case industry |
| Pipeline.AssessFailures | demo.py:121-154 | a decoded object that is not usable fails with `IndustryNotText` for a non-string industry, and otherwise with `NotNumeric` on employee size first, then revenue; a projected record has every key, so no `MissingField` arises |
| Pipeline.ProjectRankable | demo.py:121-154 | a record projected from a decoded object with a string industry (or none) can be ranked exactly when the object's employee size and revenue are numbers or absent |
| Pipeline.ProjectedScoreBounds | demo.py:121-162 | ranking the record projected from an object with non-negative numbers succeeds, with a score in [0, 1] |
| Pipeline.AudioWeightsNeverUsed | demo.py:125-136 | a successful run never scores with the audio-streaming weights |
| Pipeline.AssessScoreBounds | demo.py:253-256 | a successful run whose decoded employee size and revenue are non-negative scores in [0, 1] |
| Pipeline.UndecodableFails | demo.py:129-130 | undecodable JSON-shaped text makes extraction return `None` and the run fail, not degrade to defaults |
| Pipeline.StringNumbersNotCoerced | demo.py:123-124 | string-valued numbers pass extraction unchanged, with the industry lower-cased, and then make ranking fail on the employee size |

## Left out

- `fetch_wikipedia_page` (HTTP search and HTML scraping): network and foreign-library boundary. The response text is an input here.
- `query_ollama` (HTTP request to the model backend, and the file write on a bad reply): I/O only.
- `main`'s argument handling and logging. Only its extract-then-rank sequence is modelled (`Pipeline.Assess`).
- The `prompt` template and the `MODEL`, `OLLAMA_URL` and `headers` constants: they only feed the I/O above.
- `json.loads` itself: it is an oracle parameter. Duplicate keys, number syntax and so on are its business.
- Python float rounding, infinities and the `OverflowError` of dividing a huge integer: arithmetic is exact over `real`.
- NaN: Python's `json.loads` accepts the bare literal `NaN`, and `Json.Value` cannot represent it. For such an employee size or revenue, `normalize` returns NaN at line 104, because `min(nan, 1)` keeps its first argument, and line 162 then stores a NaN score.
- Scoring.Rank: its `score <= 1` bound does not hold in Python for a NaN input; see the NaN line above.
- Pipeline.Assess: the same `score <= 1` bound fails in Python for a decoded NaN employee size or revenue.
- Scoring.Rank: the model returns a new map. `rank_companies` writes `score` into `company_data` itself and returns that same object (lines 162-163), so the caller's dict changes too. `main` never reads the dict again, so nothing observable depends on the difference.
- Scoring.Rank: stores the score as a real. When the raw sum exceeds 1, Python's `min(score, 1)` stores the integer 1, which has the same numeric value.
- Text.Lower: covers ASCII only. Python's Unicode lower-casing of other letters is not modelled.
- The exact exception classes: each failure is a constructor of `Error`. In particular line 112's `TypeError` and the intended decoding error are the same `JsonNotFound`.
- The contents of JSON arrays and objects: only their kind matters to the code.
- The per-field `.get(field, DEFAULT_…)` calls on a table entry: every entry has all six fields, so a found entry is used whole and a missing one takes every default.
