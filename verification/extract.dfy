/** `extract_json_from_response`: locate the JSON-looking part of a model
    response, decode it, and project it onto the four record fields. */
module Extract {
  import opened Outcomes
  import opened Json
  import Text

  const NoName: string := "NO_NAME_FOUND"
  const NoIndustry: string := "NO_INDUSTRY_FOUND"

  /** The keys of every extracted record. */
  const RecordKeys: set<string> := {"company_name", "employee_size", "revenue", "industry"}

  /** `t[i..j]` is a match of the DOTALL pattern `\{.*\}`: it opens with `{`,
      closes with `}`, and the two are distinct characters. */
  ghost predicate MatchAt(t: string, i: int, j: int) {
    0 <= i && i + 2 <= j <= |t| && t[i] == '{' && t[j - 1] == '}'
  }

  /** Position of the first occurrence of `c` in `t`. */
  function FirstIndex(t: string, c: char): (r: Option<nat>)
    ensures r.Some? ==> r.value < |t| && t[r.value] == c
    ensures r.Some? ==> forall k :: 0 <= k < r.value ==> t[k] != c
    ensures r.None? ==> forall k :: 0 <= k < |t| ==> t[k] != c
  {
    if |t| == 0 then None
    else if t[0] == c then Some(0)
    else match FirstIndex(t[1..], c)
      case None => None
      case Some(k) => Some(k + 1)
  }

  /** Position of the last occurrence of `c` in `t`. */
  function LastIndex(t: string, c: char): (r: Option<nat>)
    ensures r.Some? ==> r.value < |t| && t[r.value] == c
    ensures r.Some? ==> forall k :: r.value < k < |t| ==> t[k] != c
    ensures r.None? ==> forall k :: 0 <= k < |t| ==> t[k] != c
  {
    if |t| == 0 then None
    else if t[|t| - 1] == c then Some(|t| - 1)
    else LastIndex(t[..|t| - 1], c)
  }

  /** The bounds `re.search(r"\{.*\}", t, re.DOTALL)` reports: a match exists
      exactly when the pattern matches somewhere, and the reported match
      covers every other one, so it is both the leftmost and the longest. */
  function Span(t: string): (r: Option<(nat, nat)>)
    ensures r.Some? <==> exists i, j :: MatchAt(t, i, j)
    ensures r.Some? ==> MatchAt(t, r.value.0, r.value.1)
    ensures r.Some? ==> forall i, j :: MatchAt(t, i, j) ==> r.value.0 <= i && j <= r.value.1
  {
    match (FirstIndex(t, '{'), LastIndex(t, '}'))
    case (Some(i), Some(k)) =>
      if i < k then
        assert MatchAt(t, i, k + 1);
        Some((i, k + 1))
      else None
    case _ => None
  }

  /** `json_match.group(0)`, or None when the search fails: the text from the
      first `{` through the last `}`, provided some `{` precedes some `}`. */
  function Locate(t: string): (r: Option<string>)
    ensures r.Some? <==> exists i, j :: 0 <= i < j < |t| && t[i] == '{' && t[j] == '}'
    ensures r.Some? ==> |r.value| >= 2 && r.value[0] == '{' && r.value[|r.value| - 1] == '}'
    ensures r.Some? ==> exists i, j :: 0 <= i <= j <= |t| && r.value == t[i..j]
                                       && (forall k :: 0 <= k < i ==> t[k] != '{')
                                       && (forall k :: j <= k < |t| ==> t[k] != '}')
  {
    match Span(t)
    case None =>
      assert forall i, j :: 0 <= i < j < |t| && t[i] == '{' && t[j] == '}' ==> MatchAt(t, i, j + 1);
      None
    case Some((i, j)) =>
      assert MatchAt(t, i, j);
      FirstAndLast(t, i, j);
      Some(t[i..j])
  }

  /** The span `Span` reports starts at the first `{` and ends after the last `}`. */
  lemma FirstAndLast(t: string, i: nat, j: nat)
    requires Span(t) == Some((i, j))
    ensures forall k :: 0 <= k < i ==> t[k] != '{'
    ensures forall k :: j <= k < |t| ==> t[k] != '}'
  {
    forall k | 0 <= k < i && t[k] == '{'
      ensures false
    {
      assert MatchAt(t, k, j);
    }
    forall k | j <= k < |t| && t[k] == '}'
      ensures false
    {
      assert MatchAt(t, i, k + 1);
    }
  }

  /** A four-field record with the given field values. */
  function Record(name: Value, employees: Value, revenue: Value, industry: string): (d: Dict)
    ensures d.Keys == RecordKeys
    ensures "company_name" in d && "employee_size" in d && "revenue" in d && "industry" in d
    ensures d["company_name"] == name && d["employee_size"] == employees && d["revenue"] == revenue
    ensures d["industry"] == Str(industry)
  {
    map["company_name" := name, "employee_size" := employees, "revenue" := revenue,
        "industry" := Str(industry)]
  }

  /** The dict built at lines 121-126 from a decoded object: missing fields
      take the sentinel defaults, present ones are copied, and the industry
      (present or default) is lower-cased. A non-string industry makes
      `.lower()` raise. */
  function Project(data: Dict): (r: Result<Dict>)
    ensures r.Ok? <==> ("industry" !in data || data["industry"].Str?)
    ensures r.Fail? ==> r.error == IndustryNotText
    ensures r.Ok? ==> r.value.Keys == RecordKeys
    ensures r.Ok? ==> r.value["company_name"]
                      == (if "company_name" in data then data["company_name"] else Str(NoName))
    ensures r.Ok? ==> r.value["employee_size"]
                      == (if "employee_size" in data then data["employee_size"] else Int(0))
    ensures r.Ok? ==> r.value["revenue"]
                      == (if "revenue" in data then data["revenue"] else Int(0))
    ensures r.Ok? ==> r.value["industry"]
                      == Str(Text.Lower(if "industry" in data then data["industry"].s else NoIndustry))
  {
    match Get(data, "industry", Str(NoIndustry))
    case Str(industry) =>
      Ok(Record(Get(data, "company_name", Str(NoName)), Get(data, "employee_size", Int(0)),
                Get(data, "revenue", Int(0)), Text.Lower(industry)))
    case _ => Fail(IndustryNotText)
  }

  /** `extract_json_from_response`, with `json.loads` as the oracle `parse`
      (None standing for a decoding error). The three outcomes: no JSON-shaped
      text is a failure; text that does not decode gives Python's None (the
      handler at line 130 builds a dict but does not return it); text that
      decodes gives the projected record. */
  function ExtractJson(response: string, parse: string -> Option<Dict>): (r: Result<Option<Dict>>)
    ensures Locate(response).None? <==> r == Fail(JsonNotFound)
    ensures r == Ok(None) <==> (Locate(response).Some? && parse(Locate(response).value).None?)
    ensures r.Ok? && r.value.Some? ==>
              && Locate(response).Some?
              && parse(Locate(response).value).Some?
              && Project(parse(Locate(response).value).value) == Ok(r.value.value)
    ensures Locate(response).Some? && parse(Locate(response).value).Some?
            && Project(parse(Locate(response).value).value).Ok? ==>
              r == Ok(Some(Project(parse(Locate(response).value).value).value))
    ensures r.Ok? && r.value.Some? ==> r.value.value.Keys == RecordKeys
    ensures r == Fail(IndustryNotText) <==>
              (Locate(response).Some? && parse(Locate(response).value).Some?
               && Project(parse(Locate(response).value).value).Fail?)
  {
    match Locate(response)
    case None => Fail(JsonNotFound)
    case Some(text) =>
      match parse(text)
      case None => Ok(None)
      case Some(data) =>
        match Project(data)
        case Fail(e) => Fail(e)
        case Ok(record) => Ok(Some(record))
  }

  /** Text with no `{` before a `}` has no JSON part, e.g. "}{" or a lone brace. */
  lemma NotFoundExamples()
    ensures Locate("}{") == None
    ensures Locate("{") == None
  {
  }

  /** Greedy matching: prose between two objects is swallowed into one span. */
  lemma GreedyExample()
    ensures Locate("x {a} y {b} z") == Some("{a} y {b}")
  {
    var t := "x {a} y {b} z";
    assert FirstIndex(t, '{') == Some(2);
    assert LastIndex(t, '}') == Some(10);
    assert t[2..11] == "{a} y {b}";
  }

  /** A response whose JSON part decodes to an object lacking every field
      yields the defaults, with the default industry lower-cased as well. */
  lemma DefaultsExample(response: string, parse: string -> Option<Dict>)
    requires Locate(response).Some? && parse(Locate(response).value) == Some(map[])
    ensures ExtractJson(response, parse) == Ok(Some(map[
              "company_name" := Str("NO_NAME_FOUND"),
              "employee_size" := Int(0),
              "revenue" := Int(0),
              "industry" := Str("no_industry_found")]))
  {
    LowerDefaultIndustry();
  }

  /** The default industry, lower-cased on the way out. */
  lemma LowerDefaultIndustry()
    ensures Text.Lower(NoIndustry) == "no_industry_found"
  {
    Text.LowerEach(NoIndustry, "no_industry_found");
  }
}
