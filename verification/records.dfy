/** The three verdict records of the response service, and their JSON form:
    the object `ForgeryAnalysis(**data)` accepts, keyed by the records' field
    names. */
module Records {
  import opened Json

  /** The visual (pixel-level) half of the analysis. */
  datatype VisualAnalysis = VisualAnalysis(
    isTampered: bool,
    confidenceScore: int,
    specificArtifacts: seq<string>,
    qualityCheck: string)

  /** The logical (content-consistency) half of the analysis. */
  datatype LogicalAnalysis = LogicalAnalysis(
    hasContradictions: bool,
    confidenceScore: int,
    mathErrors: seq<string>,
    dateIssues: seq<string>)

  /** The verdict. The classification is free text: the record itself does
      not restrict it to ORIGINAL, SUSPICIOUS, FORGED or ERROR, and the
      confidence is an unbounded integer. */
  datatype ForgeryAnalysis = ForgeryAnalysis(
    visualAnalysis: VisualAnalysis,
    logicalAnalysis: LogicalAnalysis,
    finalClassification: string,
    finalConfidence: int,
    summary: string)

  function VisualToJson(v: VisualAnalysis): Json
  {
    JObject(map[
      "is_tampered" := JBool(v.isTampered),
      "confidence_score" := JInt(v.confidenceScore),
      "specific_artifacts" := StringArray(v.specificArtifacts),
      "quality_check" := JString(v.qualityCheck)])
  }

  function LogicalToJson(l: LogicalAnalysis): Json
  {
    JObject(map[
      "has_contradictions" := JBool(l.hasContradictions),
      "confidence_score" := JInt(l.confidenceScore),
      "math_errors" := StringArray(l.mathErrors),
      "date_issues" := StringArray(l.dateIssues)])
  }

  /** The JSON object whose keys are the record's field names. */
  function ToJson(a: ForgeryAnalysis): Json
  {
    JObject(map[
      "visual_analysis" := VisualToJson(a.visualAnalysis),
      "logical_analysis" := LogicalToJson(a.logicalAnalysis),
      "final_classification" := JString(a.finalClassification),
      "final_confidence" := JInt(a.finalConfidence),
      "summary" := JString(a.summary)])
  }
}
