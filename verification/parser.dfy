/** `parse_llm_response`: locating the JSON payload in the reasoning service's
    raw text, decoding and validating it, and the ERROR verdict that stands
    in for every failure on the way. */
module ResponseParser {
  import opened Wrappers
  import opened Text
  import opened Json
  import opened Records
  import opened Validator

  // ----- the payload span: a search for the pattern `\{.*\}` with DOTALL -----

  /** Half-open span `[start, end)` of the raw text. */
  datatype Span = Span(start: nat, end: nat)

  /** `s[a..b]` matches `\{.*\}` when `.` also matches line breaks: it opens
      with `{`, closes with a later `}`, and anything lies between. */
  ghost predicate MatchAt(s: string, a: int, b: int)
  {
    0 <= a && a + 2 <= b <= |s| && s[a] == '{' && s[b - 1] == '}'
  }

  /** The match a backtracking regex search reports: the leftmost start that
      admits a match, and there the longest match (greedy `.*`). */
  ghost predicate SearchResult(s: string, a: int, b: int)
  {
    && MatchAt(s, a, b)
    && (forall a', b' :: 0 <= a' < a ==> !MatchAt(s, a', b'))
    && (forall b' :: b < b' <= |s| ==> !MatchAt(s, a, b'))
  }

  /** The span from the first `{` to the last `}`, when the first `{` comes
      before the last `}`. */
  function FindSpan(s: string): (r: Option<Span>)
    ensures r.Some? ==> MatchAt(s, r.value.start, r.value.end)
  {
    match (FirstIndexOf(s, '{'), LastIndexOf(s, '}'))
    case (Some(i), Some(j)) => if i < j then Some(Span(i, j + 1)) else None
    case _ => None
  }

  /** The span is exactly the regex search's match, and there is none when
      the search finds none. */
  lemma FindSpanIsSearchResult(s: string)
    ensures FindSpan(s).Some? ==> SearchResult(s, FindSpan(s).value.start, FindSpan(s).value.end)
    ensures FindSpan(s).None? ==> forall a, b :: !MatchAt(s, a, b)
  {
  }

  /** The search result is unique: whenever the search matches, FindSpan
      returns that match. */
  lemma SearchResultIsFindSpan(s: string, a: int, b: int)
    requires SearchResult(s, a, b)
    ensures FindSpan(s) == Some(Span(a, b))
  {
    FindSpanIsSearchResult(s);
    var sp := FindSpan(s).value;
    assert sp.start == a && sp.end == b;
  }

  /** The candidate payload: the text of the span, braces included. */
  function Candidate(s: string): (r: Option<string>)
    ensures r.Some? ==> |r.value| >= 2 && r.value[0] == '{' && r.value[|r.value| - 1] == '}'
  {
    match FindSpan(s)
    case None => None
    case Some(sp) => Some(s[sp.start..sp.end])
  }

  /** Surrounding prose without braces is stripped: when the only `{` before
      the payload and the only `}` after it belong to the payload itself, the
      candidate is the payload. */
  lemma CandidateOfWrapped(prefix: string, payload: string, suffix: string)
    requires '{' !in prefix && '}' !in suffix
    requires |payload| >= 2 && payload[0] == '{' && payload[|payload| - 1] == '}'
    ensures Candidate(prefix + payload + suffix) == Some(payload)
  {
    var s := prefix + payload + suffix;
    var a, b := |prefix|, |prefix| + |payload|;
    assert s[a] == payload[0] && s[b - 1] == payload[|payload| - 1];
    forall a', b' | 0 <= a' < a
      ensures !MatchAt(s, a', b')
    {
      assert s[a'] == prefix[a'];
    }
    forall b' | b < b' <= |s|
      ensures !MatchAt(s, a, b')
    {
      assert s[b' - 1] == suffix[b' - 1 - b];
    }
    SearchResultIsFindSpan(s, a, b);
    assert s[a..b] == payload;
  }

  /** Conversely, a candidate always sits in the raw text between a prefix
      with no `{` and a suffix with no `}`. */
  lemma CandidateSplits(s: string)
    requires Candidate(s).Some?
    ensures exists prefix, suffix ::
      s == prefix + Candidate(s).value + suffix && '{' !in prefix && '}' !in suffix
  {
    var i, j := FirstIndexOf(s, '{').value, LastIndexOf(s, '}').value;
    var c := Candidate(s).value;
    var prefix, suffix := s[..i], s[j + 1..];
    assert c == s[i..j + 1];
    assert s == prefix + c + suffix;
    assert '{' !in prefix by {
      forall k | 0 <= k < |prefix|
        ensures prefix[k] != '{'
      {
        assert prefix[k] == s[k];
      }
    }
    assert '}' !in suffix by {
      forall k | 0 <= k < |suffix|
        ensures suffix[k] != '}'
      {
        assert suffix[k] == s[j + 1 + k];
      }
    }
  }

  // ----- the parse, with its ERROR fallback -----

  const ErrorPrefix: string := "Parsing Error: "
  const NoJsonMessage: string := "No JSON found"

  /** The safe ERROR verdict returned in place of any failure; `message`
      stands for the text of the exception caught. */
  function Fallback(message: string): ForgeryAnalysis
  {
    ForgeryAnalysis(
      VisualAnalysis(false, 0, [], "Error"),
      LogicalAnalysis(false, 0, [], []),
      "ERROR", 0, ErrorPrefix + message)
  }

  /** The shape every fallback verdict has, whatever the failure. */
  predicate IsFallback(a: ForgeryAnalysis)
  {
    && a.finalClassification == "ERROR" && a.finalConfidence == 0
    && !a.visualAnalysis.isTampered && a.visualAnalysis.confidenceScore == 0
    && a.visualAnalysis.specificArtifacts == [] && a.visualAnalysis.qualityCheck == "Error"
    && !a.logicalAnalysis.hasContradictions && a.logicalAnalysis.confidenceScore == 0
    && a.logicalAnalysis.mathErrors == [] && a.logicalAnalysis.dateIssues == []
    && ErrorPrefix <= a.summary
  }

  /** The payload text decodes (through `loads`, the JSON decoder) and
      validates. */
  ghost predicate Validates(raw: string, loads: string -> Result<Json>)
  {
    && Candidate(raw).Some?
    && loads(Candidate(raw).value).Success?
    && DecodeForgery(loads(Candidate(raw).value).value).Success?
  }

  /** Turns the raw answer into a verdict. Total: every input yields either
      the validated record or the fallback, and no failure escapes. */
  function ParseLlmResponse(raw: string, loads: string -> Result<Json>): (r: ForgeryAnalysis)
    ensures Validates(raw, loads) ==>
      r == DecodeForgery(loads(Candidate(raw).value).value).value
    ensures !Validates(raw, loads) ==> IsFallback(r)
    ensures Candidate(raw).None? ==> r.summary == ErrorPrefix + NoJsonMessage
    ensures Candidate(raw).Some? && loads(Candidate(raw).value).Failure? ==>
      r.summary == ErrorPrefix + loads(Candidate(raw).value).error
  {
    match Candidate(raw)
    case None => Fallback(NoJsonMessage)
    case Some(payload) =>
      match loads(payload)
      case Failure(e) => Fallback(e)
      case Success(data) =>
        match DecodeForgery(data)
        case Failure(e) => Fallback(e)
        case Success(a) => a
  }

  /** A verdict in its `ToJson` form, wrapped in prose or a fenced block, is
      recovered exactly. */
  lemma ParseWrapped(prefix: string, payload: string, suffix: string,
                     loads: string -> Result<Json>, a: ForgeryAnalysis)
    requires '{' !in prefix && '}' !in suffix
    requires |payload| >= 2 && payload[0] == '{' && payload[|payload| - 1] == '}'
    requires loads(payload) == Success(ToJson(a))
    ensures ParseLlmResponse(prefix + payload + suffix, loads) == a
  {
    CandidateOfWrapped(prefix, payload, suffix);
    DecodeToJson(a);
  }

  /** Text without a `{` before a `}` never yields a validated record. */
  lemma ParseWithoutBracesFails(raw: string, loads: string -> Result<Json>)
    requires forall i, j :: 0 <= i < j < |raw| ==> !(raw[i] == '{' && raw[j] == '}')
    ensures ParseLlmResponse(raw, loads) == Fallback(NoJsonMessage)
  {
  }
}
