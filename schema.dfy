/** The record types of the notice-analysis pipeline (se_eval_eval/schema.py) and the
    validation that turns a parsed JSON object into one of them: required fields must be
    present, optional ones take their defaults, and an analysis answers exactly four questions. */
module Schema {
  import opened Wrappers

  /** A metric's score. Scores are carried around and compared for identity only. */
  type Score = real

  /** A value of a metric's open-ended `details` payload. The ROUGE adaptor distinguishes
      numpy's float64 from Python's float; everything else is opaque. */
  datatype DetailValue = NumpyFloat64(x: real) | PyFloat(x: real) | OtherValue(repr: string)

  type Details = map<string, DetailValue>

  /** One metric's verdict on one part of an analysis. `score` is optional because the Ragas
      adaptor reports a missing score; `relatedAnalysis` names the analysis part that was scored. */
  datatype EvaluationResult = EvaluationResult(
    metricName: string,
    score: Option<Score>,
    reason: Option<string>,
    details: Option<Details>,
    llmModelName: Option<string>,
    relatedAnalysis: Option<string>)

  /** A question about a notice and the model's answer; `contextChunks` is the retrieved
      context the Ragas adaptor needs, absent in most analyses. */
  datatype AnalysisQuestion = AnalysisQuestion(question: string, answer: string, contextChunks: Option<seq<string>>)

  datatype Analysis = Analysis(
    summary: string,
    questions: seq<AnalysisQuestion>,
    llmModelName: string,
    promptName: string,
    evaluationResults: seq<EvaluationResult>)

  datatype Document = Document(path: string, text: string, notes: Option<string>, noticeAnalysis: seq<Analysis>)

  datatype Manifest = Manifest(documents: seq<Document>)

  /** An analysis answers exactly this many questions (`min_length=4, max_length=4`). */
  const QuestionsPerAnalysis: nat := 4

  predicate ValidAnalysis(a: Analysis) {
    |a.questions| == QuestionsPerAnalysis
  }

  // ---- Parsed JSON objects: `None` stands for a key that is absent ----

  datatype RawEvaluationResult = RawEvaluationResult(
    metricName: Option<string>,
    score: Option<Score>,
    reason: Option<string>,
    details: Option<Details>,
    llmModelName: Option<string>,
    relatedAnalysis: Option<string>)

  datatype RawQuestion = RawQuestion(question: Option<string>, answer: Option<string>, contextChunks: Option<seq<string>>)

  datatype RawAnalysis = RawAnalysis(
    summary: Option<string>,
    questions: Option<seq<RawQuestion>>,
    llmModelName: Option<string>,
    promptName: Option<string>,
    evaluationResults: Option<seq<RawEvaluationResult>>)

  datatype RawDocument = RawDocument(
    path: Option<string>,
    text: Option<string>,
    notes: Option<string>,
    noticeAnalysis: Option<seq<RawAnalysis>>)

  datatype RawManifest = RawManifest(documents: Option<seq<RawDocument>>)

  /** Why validation refused an object: the first offending field, in declaration order. */
  datatype ValidationError =
    | MissingField(model: string, field: string)
    | WrongQuestionCount(count: nat)

  /** Validates every element in order; fails exactly when some element fails. */
  function ValidateEach<R, T>(raws: seq<R>, f: R -> Result<T, ValidationError>): (r: Result<seq<T>, ValidationError>)
    ensures r.Success? <==> forall i :: 0 <= i < |raws| ==> f(raws[i]).Success?
    ensures r.Success? ==> |r.value| == |raws| && forall i :: 0 <= i < |raws| ==> f(raws[i]) == Success(r.value[i])
  {
    if raws == [] then Success([])
    else
      match f(raws[0])
      case Failure(e) => Failure(e)
      case Success(x) =>
        match ValidateEach(raws[1..], f)
        case Failure(e) => Failure(e)
        case Success(xs) =>
          assert forall i :: 1 <= i < |raws| ==> raws[i] == raws[1..][i - 1];
          Success([x] + xs)
  }

  /** `EvaluationResult.model_validate`: metric_name and score are required; reason, details
      and llm_model_name default to None. */
  function ValidateEvaluationResult(raw: RawEvaluationResult): (r: Result<EvaluationResult, ValidationError>)
    ensures r.Success? <==> raw.metricName.Some? && raw.score.Some?
    ensures r.Success? ==> r.value.score.Some?
    ensures r.Success? ==> DumpEvaluationResult(r.value) == raw
  {
    if raw.metricName.None? then Failure(MissingField("EvaluationResult", "metric_name"))
    else if raw.score.None? then Failure(MissingField("EvaluationResult", "score"))
    else Success(EvaluationResult(raw.metricName.value, raw.score, raw.reason, raw.details,
                                  raw.llmModelName, raw.relatedAnalysis))
  }

  function ValidateQuestion(raw: RawQuestion): (r: Result<AnalysisQuestion, ValidationError>)
    ensures r.Success? <==> raw.question.Some? && raw.answer.Some?
    ensures r.Success? ==> DumpQuestion(r.value) == raw
  {
    if raw.question.None? then Failure(MissingField("AnalysisQuestion", "question"))
    else if raw.answer.None? then Failure(MissingField("AnalysisQuestion", "answer"))
    else Success(AnalysisQuestion(raw.question.value, raw.answer.value, raw.contextChunks))
  }

  /** `Analysis.model_validate`: summary and exactly four valid questions are required;
      llm_model_name and prompt_name default to "", evaluation_results to []. */
  function ValidateAnalysis(raw: RawAnalysis): (r: Result<Analysis, ValidationError>)
    ensures r.Success? <==>
      && raw.summary.Some?
      && raw.questions.Some?
      && |raw.questions.value| == QuestionsPerAnalysis
      && (forall i :: 0 <= i < |raw.questions.value| ==> ValidateQuestion(raw.questions.value[i]).Success?)
      && (raw.evaluationResults.Some? ==>
            forall i :: 0 <= i < |raw.evaluationResults.value| ==>
              ValidateEvaluationResult(raw.evaluationResults.value[i]).Success?)
    ensures r.Success? ==> ValidAnalysis(r.value) && r.value.summary == raw.summary.value
    ensures r.Success? ==>
      && r.value.llmModelName == raw.llmModelName.GetOr("")
      && r.value.promptName == raw.promptName.GetOr("")
      && |r.value.questions| == |raw.questions.value|
      && (forall i :: 0 <= i < |raw.questions.value| ==>
            ValidateQuestion(raw.questions.value[i]) == Success(r.value.questions[i]))
      && |r.value.evaluationResults| == |raw.evaluationResults.GetOr([])|
      && (forall i :: 0 <= i < |raw.evaluationResults.GetOr([])| ==>
            ValidateEvaluationResult(raw.evaluationResults.GetOr([])[i]) == Success(r.value.evaluationResults[i]))
  {
    if raw.summary.None? then Failure(MissingField("Analysis", "summary"))
    else if raw.questions.None? then Failure(MissingField("Analysis", "questions"))
    else if |raw.questions.value| != QuestionsPerAnalysis then Failure(WrongQuestionCount(|raw.questions.value|))
    else
      var qs :- ValidateEach(raw.questions.value, ValidateQuestion);
      var results :- ValidateEach(raw.evaluationResults.GetOr([]), ValidateEvaluationResult);
      Success(Analysis(raw.summary.value, qs, raw.llmModelName.GetOr(""), raw.promptName.GetOr(""), results))
  }

  /** `Document.model_validate`: path and text are required; notes defaults to None and
      notice_analysis to []. */
  function ValidateDocument(raw: RawDocument): (r: Result<Document, ValidationError>)
    ensures r.Success? ==> raw.path == Some(r.value.path) && raw.text == Some(r.value.text)
    ensures raw.path.None? || raw.text.None? ==> r.Failure?
    ensures r.Success? <==>
      && raw.path.Some? && raw.text.Some?
      && forall i :: 0 <= i < |raw.noticeAnalysis.GetOr([])| ==> ValidateAnalysis(raw.noticeAnalysis.GetOr([])[i]).Success?
    ensures r.Success? ==>
      && r.value.notes == raw.notes
      && |r.value.noticeAnalysis| == |raw.noticeAnalysis.GetOr([])|
      && forall i :: 0 <= i < |raw.noticeAnalysis.GetOr([])| ==>
           ValidateAnalysis(raw.noticeAnalysis.GetOr([])[i]) == Success(r.value.noticeAnalysis[i])
    ensures r.Success? ==> forall a :: a in r.value.noticeAnalysis ==> ValidAnalysis(a)
  {
    if raw.path.None? then Failure(MissingField("Document", "path"))
    else if raw.text.None? then Failure(MissingField("Document", "text"))
    else
      var analyses :- ValidateEach(raw.noticeAnalysis.GetOr([]), ValidateAnalysis);
      Success(Document(raw.path.value, raw.text.value, raw.notes, analyses))
  }

  /** `Manifest(**data)`: documents defaults to []. */
  function ValidateManifest(raw: RawManifest): (r: Result<Manifest, ValidationError>)
    ensures raw.documents.None? ==> r == Success(Manifest([]))
    ensures r.Success? <==>
      forall i :: 0 <= i < |raw.documents.GetOr([])| ==> ValidateDocument(raw.documents.GetOr([])[i]).Success?
    ensures r.Success? ==> |r.value.documents| == |raw.documents.GetOr([])|
    ensures r.Success? ==> forall i :: 0 <= i < |raw.documents.GetOr([])| ==>
      ValidateDocument(raw.documents.GetOr([])[i]) == Success(r.value.documents[i])
  {
    var docs :- ValidateEach(raw.documents.GetOr([]), ValidateDocument);
    Success(Manifest(docs))
  }

  // ---- Serialisation (`model_dump`) back to the parsed-object form ----

  function DumpEvaluationResult(e: EvaluationResult): RawEvaluationResult {
    RawEvaluationResult(Some(e.metricName), e.score, e.reason, e.details, e.llmModelName, e.relatedAnalysis)
  }

  function DumpQuestion(q: AnalysisQuestion): RawQuestion {
    RawQuestion(Some(q.question), Some(q.answer), q.contextChunks)
  }

  function DumpAnalysis(a: Analysis): RawAnalysis {
    RawAnalysis(Some(a.summary), Some(seq(|a.questions|, i requires 0 <= i < |a.questions| => DumpQuestion(a.questions[i]))),
                Some(a.llmModelName), Some(a.promptName),
                Some(seq(|a.evaluationResults|, i requires 0 <= i < |a.evaluationResults| => DumpEvaluationResult(a.evaluationResults[i]))))
  }

  function DumpDocument(d: Document): RawDocument {
    RawDocument(Some(d.path), Some(d.text), d.notes,
                Some(seq(|d.noticeAnalysis|, i requires 0 <= i < |d.noticeAnalysis| => DumpAnalysis(d.noticeAnalysis[i]))))
  }

  function DumpManifest(m: Manifest): RawManifest {
    RawManifest(Some(seq(|m.documents|, i requires 0 <= i < |m.documents| => DumpDocument(m.documents[i]))))
  }

  /** What a manifest must satisfy to survive a dump and a reload: every analysis has four
      questions and every result has a score. */
  predicate Reloadable(m: Manifest) {
    forall d, a :: d in m.documents && a in d.noticeAnalysis ==>
      ValidAnalysis(a) && forall e :: e in a.evaluationResults ==> e.score.Some?
  }

  lemma AnalysisRoundTrip(a: Analysis)
    requires ValidAnalysis(a)
    requires forall e :: e in a.evaluationResults ==> e.score.Some?
    ensures ValidateAnalysis(DumpAnalysis(a)) == Success(a)
  {
    var raw := DumpAnalysis(a);
    var qs := ValidateEach(raw.questions.value, ValidateQuestion);
    assert qs.Success? && qs.value == a.questions;
    var rs := ValidateEach(raw.evaluationResults.value, ValidateEvaluationResult);
    assert forall i :: 0 <= i < |a.evaluationResults| ==> a.evaluationResults[i] in a.evaluationResults;
    assert rs.Success? && rs.value == a.evaluationResults;
  }

  lemma DocumentRoundTrip(d: Document)
    requires forall a :: a in d.noticeAnalysis ==> ValidAnalysis(a) && forall e :: e in a.evaluationResults ==> e.score.Some?
    ensures ValidateDocument(DumpDocument(d)) == Success(d)
  {
    var raw := DumpDocument(d);
    forall i | 0 <= i < |d.noticeAnalysis|
      ensures ValidateAnalysis(raw.noticeAnalysis.value[i]) == Success(d.noticeAnalysis[i])
    {
      AnalysisRoundTrip(d.noticeAnalysis[i]);
    }
    var va := ValidateEach(raw.noticeAnalysis.value, ValidateAnalysis);
    assert va.Success? && va.value == d.noticeAnalysis;
  }

  /** Serialising a manifest and validating it again gives back the same manifest, field for
      field, whenever every analysis has four questions and every result a score. */
  lemma ManifestRoundTrip(m: Manifest)
    requires Reloadable(m)
    ensures ValidateManifest(DumpManifest(m)) == Success(m)
  {
    var raw := DumpManifest(m);
    forall i | 0 <= i < |m.documents|
      ensures ValidateDocument(raw.documents.value[i]) == Success(m.documents[i])
    {
      DocumentRoundTrip(m.documents[i]);
    }
    var ds := ValidateEach(raw.documents.value, ValidateDocument);
    assert ds.Success? && ds.value == m.documents;
  }

  /** Fields left out of the JSON take their declared defaults. */
  lemma Defaults(metric: string, score: Score, summary: string, qs: seq<AnalysisQuestion>, path: string, text: string)
    requires |qs| == QuestionsPerAnalysis
    ensures ValidateEvaluationResult(RawEvaluationResult(Some(metric), Some(score), None, None, None, None))
         == Success(EvaluationResult(metric, Some(score), None, None, None, None))
    ensures ValidateAnalysis(RawAnalysis(Some(summary), Some(seq(|qs|, i requires 0 <= i < |qs| => DumpQuestion(qs[i]))), None, None, None))
         == Success(Analysis(summary, qs, "", "", []))
    ensures ValidateDocument(RawDocument(Some(path), Some(text), None, None)) == Success(Document(path, text, None, []))
    ensures ValidateManifest(RawManifest(None)) == Success(Manifest([]))
  {
    var raw := seq(|qs|, i requires 0 <= i < |qs| => DumpQuestion(qs[i]));
    var v := ValidateEach(raw, ValidateQuestion);
    assert v.Success? && v.value == qs;
  }
}
