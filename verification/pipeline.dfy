/** Lines 253-256 of `main`: extract a record from the model's response and
    rank it. Retrieval and the completion request that produce the response
    are outside this model. */
module Pipeline {
  import opened Outcomes
  import opened Json
  import Text
  import opened Extract
  import opened Industry
  import opened Scoring
  import ScoreProperties

  /** A decoded object whose record can be scored: a string industry (or
      none) and numbers (or nothing) for employee size and revenue. */
  predicate Usable(data: Dict) {
    && ("industry" !in data || data["industry"].Str?)
    && ("employee_size" !in data || AsNumber(data["employee_size"]).Some?)
    && ("revenue" !in data || AsNumber(data["revenue"]).Some?)
  }

  /** `result` is `record` with its fit score added under "score" and every
      other key unchanged: what `rank_companies` returns for a record. */
  predicate ScoredFrom(result: Dict, record: Dict) {
    && Rankable(record)
    && result.Keys == record.Keys + {"score"}
    && (forall k :: k in record && k != "score" ==> result[k] == record[k])
    && result["score"] == Real(FitScore(record))
  }

  /** `rank_companies(extract_json_from_response(response))`. */
  function Assess(response: string, parse: string -> Option<Dict>): (r: Result<Dict>)
    ensures r.Ok? <==> && Locate(response).Some?
                       && parse(Locate(response).value).Some?
                       && Usable(parse(Locate(response).value).value)
    ensures Locate(response).None? ==> r == Fail(JsonNotFound)
    ensures Locate(response).Some? && parse(Locate(response).value).None? ==> r == Fail(NoRecord)
    ensures r.Ok? ==> r.value.Keys == RecordKeys + {"score"}
    ensures r.Ok? ==> r.value["score"].Real? && r.value["score"].r <= 1.0
    ensures r.Ok? ==> r.value["industry"].Str? && Text.IsLowerCase(r.value["industry"].s)
    ensures r.Ok? ==> && ExtractJson(response, parse).Ok?
                      && ExtractJson(response, parse).value.Some?
                      && ScoredFrom(r.value, ExtractJson(response, parse).value.value)
  {
    var r := RankExtracted(ExtractJson(response, parse));
    AssessOutcome(response, parse, r);
    AssessShape(response, parse, r);
    r
  }

  /** `rank_companies` applied to what extraction returned: an extraction
      failure propagates, Python's None fails on the first lookup, and a
      record is ranked. */
  function RankExtracted(extracted: Result<Option<Dict>>): (r: Result<Dict>)
    ensures extracted.Fail? ==> r == Fail(extracted.error)
    ensures extracted == Ok(None) ==> r == Fail(NoRecord)
    ensures extracted.Ok? && extracted.value.Some? ==>
              (r.Ok? <==> Rankable(extracted.value.value))
    ensures r.Ok? ==> && extracted.Ok? && extracted.value.Some?
                      && ScoredFrom(r.value, extracted.value.value)
  {
    match extracted
    case Fail(e) => Fail(e)
    case Ok(None) => Fail(NoRecord)
    case Ok(Some(record)) => Rank(record)
  }

  /** When a run succeeds, and the two stage failures. */
  lemma AssessOutcome(response: string, parse: string -> Option<Dict>, r: Result<Dict>)
    requires r == RankExtracted(ExtractJson(response, parse))
    ensures r.Ok? <==> && Locate(response).Some?
                       && parse(Locate(response).value).Some?
                       && Usable(parse(Locate(response).value).value)
    ensures Locate(response).None? ==> r == Fail(JsonNotFound)
    ensures Locate(response).Some? && parse(Locate(response).value).None? ==> r == Fail(NoRecord)
  {
    if Locate(response).Some? && parse(Locate(response).value).Some? {
      var data := parse(Locate(response).value).value;
      if "industry" !in data || data["industry"].Str? {
        ProjectRankable(data);
      }
    }
  }

  /** The shape of a successful run: the record keys plus "score", a score
      of at most 1 and a lower-case industry. */
  lemma AssessShape(response: string, parse: string -> Option<Dict>, r: Result<Dict>)
    requires r == RankExtracted(ExtractJson(response, parse))
    ensures r.Ok? ==> r.value.Keys == RecordKeys + {"score"}
    ensures r.Ok? ==> r.value["score"].Real? && r.value["score"].r <= 1.0
    ensures r.Ok? ==> r.value["industry"].Str? && Text.IsLowerCase(r.value["industry"].s)
  {
    if r.Ok? {
      var record := ExtractJson(response, parse).value.value;
      assert r.value["industry"] == record["industry"];
    }
  }

  /** Why a decoded object that is not usable fails: a non-string industry
      stops extraction, and otherwise ranking rejects the first non-numeric
      field, employee size before revenue. A projected record has every
      key, so `MissingField` never arises here. */
  lemma AssessFailures(response: string, parse: string -> Option<Dict>)
    ensures Locate(response).Some? && parse(Locate(response).value).Some? ==>
              var data := parse(Locate(response).value).value;
              && ("industry" in data && !data["industry"].Str? ==>
                    Assess(response, parse) == Fail(IndustryNotText))
              && (("industry" !in data || data["industry"].Str?)
                  && "employee_size" in data && AsNumber(data["employee_size"]).None? ==>
                    Assess(response, parse) == Fail(NotNumeric("employee_size")))
              && (("industry" !in data || data["industry"].Str?)
                  && ("employee_size" !in data || AsNumber(data["employee_size"]).Some?)
                  && "revenue" in data && AsNumber(data["revenue"]).None? ==>
                    Assess(response, parse) == Fail(NotNumeric("revenue")))
  {
    if Locate(response).Some? && parse(Locate(response).value).Some? {
      var data := parse(Locate(response).value).value;
      if "industry" !in data || data["industry"].Str? {
        ProjectRankable(data);
        var record := Project(data).value;
        assert ExtractJson(response, parse) == Ok(Some(record));
        assert record["industry"].Str?;
        assert WeightsFor(IndustryOf(record)).Ok?;
        RankFailures(record);
      }
    }
  }

  /** A projected record can be ranked exactly when the decoded object was usable. */
  lemma ProjectRankable(data: Dict)
    requires "industry" !in data || data["industry"].Str?
    ensures Project(data).Ok?
    ensures Rankable(Project(data).value) <==> Usable(data)
  {
    var record := Project(data).value;
    var e, v := record["employee_size"], record["revenue"];
    assert e == (if "employee_size" in data then data["employee_size"] else Int(0));
    assert v == (if "revenue" in data then data["revenue"] else Int(0));
    assert record["industry"].Str?;
    assert IndustryOf(record) == Some(record["industry"]);
    assert Hashable(record["industry"]);
    assert WeightsFor(IndustryOf(record)).Ok?;
    assert Rankable(record) <==> AsNumber(e).Some? && AsNumber(v).Some?;
  }

  /** A successful run never uses the audio-streaming weights: the industry it
      looks up is lower-cased, and that key is not. */
  lemma AudioWeightsNeverUsed(response: string, parse: string -> Option<Dict>)
    ensures Assess(response, parse).Ok? ==>
              Lookup(Assess(response, parse).value["industry"].s) != AudioStreaming
  {
    if Assess(response, parse).Ok? {
      var data := parse(Locate(response).value).value;
      var raw := if "industry" in data then data["industry"].s else NoIndustry;
      assert Assess(response, parse).value["industry"] == Str(Text.Lower(raw));
      AudioEntryUnreachable(raw);
    }
  }

  /** Employee size and revenue, where present, are numbers no less than 0. */
  predicate NonNegativeNumbers(data: Dict) {
    && ("employee_size" in data ==> AsNumber(data["employee_size"]).Some?
                                    && 0.0 <= AsNumber(data["employee_size"]).value)
    && ("revenue" in data ==> AsNumber(data["revenue"]).Some?
                              && 0.0 <= AsNumber(data["revenue"]).value)
  }

  /** A run whose decoded employee size and revenue are non-negative numbers
      scores in [0, 1]. */
  lemma AssessScoreBounds(response: string, parse: string -> Option<Dict>)
    ensures && Assess(response, parse).Ok?
            && NonNegativeNumbers(parse(Locate(response).value).value)
            ==> 0.0 <= Assess(response, parse).value["score"].r <= 1.0
  {
    if Assess(response, parse).Ok? && NonNegativeNumbers(parse(Locate(response).value).value) {
      var data := parse(Locate(response).value).value;
      assert Project(data).Ok?;
      assert ExtractJson(response, parse) == Ok(Some(Project(data).value));
      ProjectedScoreBounds(data);
    }
  }

  /** Ranking the record projected from a decoded object with non-negative
      numbers succeeds with a score in [0, 1]. */
  lemma ProjectedScoreBounds(data: Dict)
    requires ("industry" !in data || data["industry"].Str?) && NonNegativeNumbers(data)
    ensures Project(data).Ok? && Rank(Project(data).value).Ok?
    ensures 0.0 <= Rank(Project(data).value).value["score"].r <= 1.0
  {
    ProjectRankable(data);
    var record := Project(data).value;
    assert record["employee_size"] == Get(data, "employee_size", Int(0));
    assert record["revenue"] == Get(data, "revenue", Int(0));
    ScoreProperties.FitScoreBounds(record);
  }

  /** Undecodable JSON-shaped text does not degrade to a defaulted record:
      extraction yields None and ranking that None fails. */
  lemma UndecodableFails(response: string, parse: string -> Option<Dict>)
    requires Locate(response).Some? && parse(Locate(response).value).None?
    ensures ExtractJson(response, parse) == Ok(None)
    ensures Assess(response, parse) == Fail(NoRecord)
  {
  }

  /** Numbers given as strings are not converted: for any response whose
      JSON part decodes to this object, the industry is lower-cased, the
      employee size and revenue stay strings, and ranking fails on them. */
  lemma StringNumbersNotCoerced(response: string, parse: string -> Option<Dict>, data: Dict)
    requires data == map["company_name" := Str("Acme"), "employee_size" := Str("50000"),
                         "revenue" := Str("2000000000"), "industry" := Str("Retail")]
    requires Locate(response).Some? && parse(Locate(response).value) == Some(data)
    ensures ExtractJson(response, parse)
            == Ok(Some(Record(Str("Acme"), Str("50000"), Str("2000000000"), "retail")))
    ensures Assess(response, parse) == Fail(NotNumeric("employee_size"))
  {
    LowerRetail();
    var record := Record(Str("Acme"), Str("50000"), Str("2000000000"), "retail");
    assert Project(data) == Ok(record);
    assert Assess(response, parse) == Rank(record);
    assert WeightsFor(IndustryOf(record)).Ok?;
    RankFailures(record);
  }

  /** The capitalised label a model typically answers with lower-cases to
      the table key "retail". */
  lemma LowerRetail()
    ensures Text.Lower("Retail") == "retail"
  {
    Text.LowerEach("Retail", "retail");
  }
}
