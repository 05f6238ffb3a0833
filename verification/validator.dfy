/** Strict validation of a decoded JSON payload into a ForgeryAnalysis: every
    field of every record is required, must carry the JSON type of the field,
    and keys the records do not name are ignored. */
module Validator {
  import opened Wrappers
  import opened Json
  import opened Records

  // ----- the schema, stated independently of the decoding functions -----

  predicate HasBool(f: map<string, Json>, key: string)
  {
    key in f && f[key].JBool?
  }

  predicate HasInt(f: map<string, Json>, key: string)
  {
    key in f && f[key].JInt?
  }

  predicate HasString(f: map<string, Json>, key: string)
  {
    key in f && f[key].JString?
  }

  predicate HasStringArray(f: map<string, Json>, key: string)
  {
    key in f && IsStringArray(f[key])
  }

  /** `j` is an object holding every field of a VisualAnalysis with its type. */
  predicate VisualShape(j: Json)
  {
    && j.JObject?
    && HasBool(j.fields, "is_tampered")
    && HasInt(j.fields, "confidence_score")
    && HasStringArray(j.fields, "specific_artifacts")
    && HasString(j.fields, "quality_check")
  }

  /** `j` is an object holding every field of a LogicalAnalysis with its type. */
  predicate LogicalShape(j: Json)
  {
    && j.JObject?
    && HasBool(j.fields, "has_contradictions")
    && HasInt(j.fields, "confidence_score")
    && HasStringArray(j.fields, "math_errors")
    && HasStringArray(j.fields, "date_issues")
  }

  /** `j` is an object holding every field of a ForgeryAnalysis with its type. */
  predicate ForgeryShape(j: Json)
  {
    && j.JObject?
    && "visual_analysis" in j.fields && VisualShape(j.fields["visual_analysis"])
    && "logical_analysis" in j.fields && LogicalShape(j.fields["logical_analysis"])
    && HasString(j.fields, "final_classification")
    && HasInt(j.fields, "final_confidence")
    && HasString(j.fields, "summary")
  }

  /** Every key of object `a` is present in object `b` with the same value:
      `b` says what `a` says, and possibly more. */
  predicate SubObject(a: Json, b: Json)
  {
    a.JObject? && b.JObject? && forall k :: k in a.fields ==> k in b.fields && b.fields[k] == a.fields[k]
  }

  // ----- field decoders -----

  function Field(f: map<string, Json>, key: string): Result<Json>
  {
    if key in f then Success(f[key]) else Failure(key + ": Field required")
  }

  function BoolField(f: map<string, Json>, key: string): Result<bool>
  {
    var j :- Field(f, key);
    if j.JBool? then Success(j.b) else Failure(key + ": Input should be a valid boolean")
  }

  function IntField(f: map<string, Json>, key: string): Result<int>
  {
    var j :- Field(f, key);
    if j.JInt? then Success(j.i) else Failure(key + ": Input should be a valid integer")
  }

  function StringField(f: map<string, Json>, key: string): Result<string>
  {
    var j :- Field(f, key);
    if j.JString? then Success(j.s) else Failure(key + ": Input should be a valid string")
  }

  function StringListField(f: map<string, Json>, key: string): (r: Result<seq<string>>)
    ensures r.Success? ==> key in f && f[key] == StringArray(r.value)
  {
    var j :- Field(f, key);
    if IsStringArray(j)
    then Success(seq(|j.items|, k requires 0 <= k < |j.items| => j.items[k].s))
    else Failure(key + ": Input should be a valid list of strings")
  }

  // ----- record decoders -----

  /** Validates the `visual_analysis` sub-object. */
  function DecodeVisual(j: Json): (r: Result<VisualAnalysis>)
    ensures r.Success? <==> VisualShape(j)
    ensures r.Success? ==> SubObject(VisualToJson(r.value), j)
  {
    if !j.JObject? then Failure("visual_analysis: Input should be a valid dictionary")
    else
      var tampered :- BoolField(j.fields, "is_tampered");
      var score :- IntField(j.fields, "confidence_score");
      var artifacts :- StringListField(j.fields, "specific_artifacts");
      var quality :- StringField(j.fields, "quality_check");
      Success(VisualAnalysis(tampered, score, artifacts, quality))
  }

  /** Validates the `logical_analysis` sub-object. */
  function DecodeLogical(j: Json): (r: Result<LogicalAnalysis>)
    ensures r.Success? <==> LogicalShape(j)
    ensures r.Success? ==> SubObject(LogicalToJson(r.value), j)
  {
    if !j.JObject? then Failure("logical_analysis: Input should be a valid dictionary")
    else
      var contradictions :- BoolField(j.fields, "has_contradictions");
      var score :- IntField(j.fields, "confidence_score");
      var mathErrors :- StringListField(j.fields, "math_errors");
      var dateIssues :- StringListField(j.fields, "date_issues");
      Success(LogicalAnalysis(contradictions, score, mathErrors, dateIssues))
  }

  /** Builds a ForgeryAnalysis from the payload's keyword fields: it succeeds
      exactly on payloads of the schema's shape, and the record it returns
      is the one the payload spells out (extra keys ignored). */
  function DecodeForgery(j: Json): (r: Result<ForgeryAnalysis>)
    ensures r.Success? <==> ForgeryShape(j)
    ensures r.Success? ==>
      && SubObject(VisualToJson(r.value.visualAnalysis), j.fields["visual_analysis"])
      && SubObject(LogicalToJson(r.value.logicalAnalysis), j.fields["logical_analysis"])
      && j.fields["final_classification"] == JString(r.value.finalClassification)
      && j.fields["final_confidence"] == JInt(r.value.finalConfidence)
      && j.fields["summary"] == JString(r.value.summary)
  {
    if !j.JObject? then Failure("argument after ** must be a mapping")
    else
      var visual :- (var v :- Field(j.fields, "visual_analysis"); DecodeVisual(v));
      var logical :- (var l :- Field(j.fields, "logical_analysis"); DecodeLogical(l));
      var classification :- StringField(j.fields, "final_classification");
      var confidence :- IntField(j.fields, "final_confidence");
      var summary :- StringField(j.fields, "summary");
      Success(ForgeryAnalysis(visual, logical, classification, confidence, summary))
  }

  /** Encoding a record and validating the result gives the record back. */
  lemma DecodeToJson(a: ForgeryAnalysis)
    ensures DecodeForgery(ToJson(a)) == Success(a)
  {
    var r := DecodeForgery(ToJson(a));
    assert ForgeryShape(ToJson(a));
    StringArrayInjective(r.value.visualAnalysis.specificArtifacts, a.visualAnalysis.specificArtifacts);
    StringArrayInjective(r.value.logicalAnalysis.mathErrors, a.logicalAnalysis.mathErrors);
    StringArrayInjective(r.value.logicalAnalysis.dateIssues, a.logicalAnalysis.dateIssues);
  }

  /** Keys outside the schema do not affect validation: adding or replacing
      one leaves the outcome unchanged. */
  lemma DecodeIgnoresExtraKeys(j: Json, key: string, value: Json)
    requires j.JObject?
    requires key !in {"visual_analysis", "logical_analysis", "final_classification", "final_confidence", "summary"}
    ensures DecodeForgery(JObject(j.fields[key := value])) == DecodeForgery(j)
  {
  }

  /** An answer in the shape the reasoning service is asked for, with
      `classification` and `confidence` instead of `final_classification` and
      `final_confidence`, fails validation: the record accepts no aliases. */
  lemma SchemaAnswerFails(v: VisualAnalysis, l: LogicalAnalysis, classification: string,
                          confidence: int, summary: string, reasoning: string)
    ensures DecodeForgery(JObject(map[
      "visual_analysis" := VisualToJson(v),
      "logical_analysis" := LogicalToJson(l),
      "classification" := JString(classification),
      "confidence" := JInt(confidence),
      "summary" := JString(summary),
      "reasoning" := JString(reasoning)])).Failure?
  {
  }

  /** Distinct string lists have distinct JSON arrays. */
  lemma StringArrayInjective(xs: seq<string>, ys: seq<string>)
    requires StringArray(xs) == StringArray(ys)
    ensures xs == ys
  {
    assert |xs| == |StringArray(xs).items| == |StringArray(ys).items| == |ys|;
    forall k | 0 <= k < |xs|
      ensures xs[k] == ys[k]
    {
      assert StringArray(xs).items[k] == JString(xs[k]);
      assert StringArray(ys).items[k] == JString(ys[k]);
    }
  }
}
