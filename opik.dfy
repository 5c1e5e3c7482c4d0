/** experiments/opik_experiment.py: the Opik hallucination adaptor. It scores the summary and
    every answer of an analysis against the notice text and turns each score into one
    EvaluationResult. The Opik scorer is a parameter. */
module Opik {
  import opened Wrappers
  import opened Schema

  const MetricName: string := "opik_eval_hallucination"

  /** `OllamaModel("deepseek-r1:8b").model_name`. */
  const ModelName: string := "deepseek-r1:8b"

  /** The label of the summary item. */
  const SummaryLabel: string := "summary"

  /** One entry of `text_to_evaluate`: the label of an analysis part and its text. */
  datatype Item = Item(part: string, text: string)

  /** What `Hallucination().score` returns: a value and an optional reason. */
  datatype ScoreResult = ScoreResult(value: Score, reason: Option<string>)

  /** `metric.score(input=..., output=..., context=...)`. */
  type Scorer = (string, string, seq<string>) -> ScoreResult

  /** The items of the questions, in order. */
  function QuestionItems(questions: seq<AnalysisQuestion>): seq<Item> {
    if questions == [] then []
    else
      var last := questions[|questions| - 1];
      QuestionItems(questions[..|questions| - 1]) + [Item(last.question, last.answer)]
  }

  /** The items `run_eval` scores: the summary first, then every question with its answer. */
  function Items(a: Analysis): seq<Item> {
    [Item(SummaryLabel, a.summary)] + QuestionItems(a.questions)
  }

  /** One item per question, in order, labelled by its question and holding its answer. */
  lemma {:induction false} QuestionItemsFacts(questions: seq<AnalysisQuestion>)
    ensures |QuestionItems(questions)| == |questions|
    ensures forall i :: 0 <= i < |questions| ==>
      QuestionItems(questions)[i] == Item(questions[i].question, questions[i].answer)
  {
    if questions != [] {
      var init := questions[..|questions| - 1];
      QuestionItemsFacts(init);
      assert forall i :: 0 <= i < |init| ==> init[i] == questions[i];
    }
  }

  /** 1 + |questions| items: the summary, then question i at position i + 1. */
  lemma ItemsFacts(a: Analysis)
    ensures |Items(a)| == 1 + |a.questions|
    ensures Items(a)[0] == Item(SummaryLabel, a.summary)
    ensures forall i :: 0 <= i < |a.questions| ==>
      Items(a)[i + 1] == Item(a.questions[i].question, a.questions[i].answer)
  {
    QuestionItemsFacts(a.questions);
  }

  /** The construction of `text_to_evaluate`. */
  method TextToEvaluate(a: Analysis) returns (items: seq<Item>)
    ensures items == Items(a)
  {
    items := [Item(SummaryLabel, a.summary)];
    for i := 0 to |a.questions|
      invariant items == [Item(SummaryLabel, a.summary)] + QuestionItems(a.questions[..i])
    {
      assert a.questions[..i + 1][..i] == a.questions[..i];
      items := items + [Item(a.questions[i].question, a.questions[i].answer)];
    }
    assert a.questions[..|a.questions|] == a.questions;
  }

  /** The result for one item, scored against `[notice_text]`. */
  function ResultOf(item: Item, noticeText: string, score: Scorer): EvaluationResult {
    var s := score(item.part, item.text, [noticeText]);
    EvaluationResult(MetricName, Some(s.value), s.reason, None, Some(ModelName), Some(item.part))
  }

  /** The results for the items, in order. */
  function Results(items: seq<Item>, noticeText: string, score: Scorer): seq<EvaluationResult> {
    if items == [] then []
    else Results(items[..|items| - 1], noticeText, score) + [ResultOf(items[|items| - 1], noticeText, score)]
  }

  /** One result per item, in item order. */
  lemma {:induction false} ResultsFacts(items: seq<Item>, noticeText: string, score: Scorer)
    ensures |Results(items, noticeText, score)| == |items|
    ensures forall i :: 0 <= i < |items| ==>
      Results(items, noticeText, score)[i] == ResultOf(items[i], noticeText, score)
  {
    if items != [] {
      var init := items[..|items| - 1];
      ResultsFacts(init, noticeText, score);
      assert forall i :: 0 <= i < |init| ==> init[i] == items[i];
    }
  }

  /** `OpikHallucinationExperiment.run_eval`. */
  method RunEval(a: Analysis, noticeText: string, score: Scorer) returns (results: seq<EvaluationResult>)
    ensures results == Results(Items(a), noticeText, score)
  {
    var items := TextToEvaluate(a);
    results := [];
    for i := 0 to |items|
      invariant results == Results(items[..i], noticeText, score)
    {
      assert items[..i + 1][..i] == items[..i];
      results := results + [ResultOf(items[i], noticeText, score)];
    }
    assert items[..|items|] == items;
  }

  /** Every result is an Opik hallucination verdict by the Ollama model, scored against the
      notice text alone, whose score and reason are the scorer's and whose related part is
      the item's part. */
  predicate ScoredItem(r: EvaluationResult, item: Item, noticeText: string, score: Scorer) {
    var s := score(item.part, item.text, [noticeText]);
    && r.metricName == MetricName
    && r.llmModelName == Some(ModelName)
    && r.score == Some(s.value)
    && r.reason == s.reason
    && r.details.None?
    && r.relatedAnalysis == Some(item.part)
  }

  /** `run_eval` yields 1 + |questions| results: the summary's verdict first, then the verdict
      on each question's answer, labelled by its question. */
  lemma RunEvalResults(a: Analysis, noticeText: string, score: Scorer)
    ensures var results := Results(Items(a), noticeText, score);
      && |results| == 1 + |a.questions|
      && ScoredItem(results[0], Item(SummaryLabel, a.summary), noticeText, score)
      && forall i :: 0 <= i < |a.questions| ==>
           ScoredItem(results[i + 1], Item(a.questions[i].question, a.questions[i].answer), noticeText, score)
  {
    ItemsFacts(a);
    ResultsFacts(Items(a), noticeText, score);
  }

  /** The related parts of the results are "summary" and then the questions, in order. */
  lemma RelatedParts(a: Analysis, noticeText: string, score: Scorer)
    ensures var results := Results(Items(a), noticeText, score);
      && |results| == 1 + |a.questions|
      && results[0].relatedAnalysis == Some(SummaryLabel)
      && forall i :: 0 <= i < |a.questions| ==> results[i + 1].relatedAnalysis == Some(a.questions[i].question)
  {
    RunEvalResults(a, noticeText, score);
  }
}
