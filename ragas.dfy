/** experiments/ragas_experiment.py: the Ragas faithfulness adaptor. Without context chunks on
    the first question it reports a missing score; otherwise it builds one dataset row per
    question and reports the faithfulness Ragas computes over the whole dataset. Ragas'
    `evaluate` is a parameter. */
module Ragas {
  import opened Wrappers
  import opened Schema

  const MetricName: string := "ragas_faithfulness"
  const ModelName: string := "deepseek-r1:8b"
  const MissingContextReason: string := "Missing context chunks; required for Ragas faithfulness evaluation."
  const EvaluatedReason: string := "Evaluated with Ragas faithfulness metric using Ollama."

  /** One element of `data`. */
  datatype DataRow = DataRow(question: string, answer: string, context: Option<seq<string>>, groundTruth: string)

  /** `analysis.questions[0]` on an analysis without questions raises IndexError. */
  datatype RagasError = IndexError

  /** `evaluate(dataset=..., metrics=[faithfulness])["faithfulness"]`. */
  type Evaluate = seq<DataRow> -> Score

  /** `not analysis.questions[0].context_chunks`: the chunks are None or the empty list. */
  predicate NoContext(q: AnalysisQuestion) {
    q.contextChunks.None? || q.contextChunks.value == []
  }

  function RowOf(q: AnalysisQuestion): DataRow {
    DataRow(q.question, q.answer, q.contextChunks, "")
  }

  /** The dataset rows for the questions, in order. */
  function Dataset(questions: seq<AnalysisQuestion>): seq<DataRow> {
    if questions == [] then [] else Dataset(questions[..|questions| - 1]) + [RowOf(questions[|questions| - 1])]
  }

  /** One row per question, in order, holding its question, answer and chunks and an empty
      ground truth. */
  lemma {:induction false} DatasetFacts(questions: seq<AnalysisQuestion>)
    ensures |Dataset(questions)| == |questions|
    ensures forall i :: 0 <= i < |questions| ==>
      Dataset(questions)[i] == DataRow(questions[i].question, questions[i].answer, questions[i].contextChunks, "")
  {
    if questions != [] {
      var init := questions[..|questions| - 1];
      DatasetFacts(init);
      assert forall i :: 0 <= i < |init| ==> init[i] == questions[i];
    }
  }

  /** The loop that fills `data`. */
  method BuildDataset(questions: seq<AnalysisQuestion>) returns (data: seq<DataRow>)
    ensures data == Dataset(questions)
  {
    data := [];
    for i := 0 to |questions|
      invariant data == Dataset(questions[..i])
    {
      assert questions[..i + 1][..i] == questions[..i];
      var q := questions[i];
      data := data + [DataRow(q.question, q.answer, q.contextChunks, "")];
    }
    assert questions[..|questions|] == questions;
  }

  /** What `run_eval` returns. */
  function Outcome(a: Analysis, evaluate: Evaluate): Result<EvaluationResult, RagasError> {
    if a.questions == [] then Failure(IndexError)
    else if NoContext(a.questions[0]) then
      Success(EvaluationResult(MetricName, None, Some(MissingContextReason), None, Some(ModelName), None))
    else
      Success(EvaluationResult(MetricName, Some(evaluate(Dataset(a.questions))), Some(EvaluatedReason), None, Some(ModelName), None))
  }

  /** `RagasFaithfulnessExperiment.run_eval`. */
  method RunEval(a: Analysis, evaluate: Evaluate) returns (r: Result<EvaluationResult, RagasError>)
    ensures r == Outcome(a, evaluate)
  {
    if |a.questions| == 0 {
      return Failure(IndexError);
    }
    if NoContext(a.questions[0]) {
      return Success(EvaluationResult(MetricName, None, Some(MissingContextReason), None, Some(ModelName), None));
    }
    var data := BuildDataset(a.questions);
    var score := evaluate(data);
    return Success(EvaluationResult(MetricName, Some(score), Some(EvaluatedReason), None, Some(ModelName), None));
  }

  /** One result, named after the Ragas metric and the Ollama model, and it has a score exactly
      when the first question carries context chunks; the score is then Ragas' verdict on the
      dataset of all questions. An analysis without questions raises. */
  lemma OutcomeFacts(a: Analysis, evaluate: Evaluate)
    ensures Outcome(a, evaluate).Failure? <==> a.questions == []
    ensures Outcome(a, evaluate).Success? ==>
      var r := Outcome(a, evaluate).value;
      && r.metricName == MetricName
      && r.llmModelName == Some(ModelName)
      && (r.score.None? <==> NoContext(a.questions[0]))
      && (r.score.None? ==> r.reason == Some(MissingContextReason))
      && (r.score.Some? ==>
            && r.reason == Some(EvaluatedReason)
            && r.score.value == evaluate(Dataset(a.questions))
            && |Dataset(a.questions)| == |a.questions|)
  {
    DatasetFacts(a.questions);
  }

  /** Only the first question's chunks are checked: two analyses whose first questions agree
      on their chunks both skip the scorer or both call it, whatever the other questions hold. */
  lemma OnlyFirstQuestionGuards(a: Analysis, b: Analysis, evaluate: Evaluate)
    requires a.questions != [] && b.questions != []
    requires a.questions[0].contextChunks == b.questions[0].contextChunks
    ensures Outcome(a, evaluate).value.score.None? <==> Outcome(b, evaluate).value.score.None?
  {
  }

  /** An illustration of `OnlyFirstQuestionGuards` on one analysis: a scored analysis may still
      hold questions without chunks after the first, and the guard lets them through to the
      dataset unchanged. */
  lemma LaterQuestionsUnchecked(evaluate: Evaluate)
    ensures var q0 := AnalysisQuestion("q0", "a0", Some(["chunk"]));
      var q1 := AnalysisQuestion("q1", "a1", None);
      var a := Analysis("s", [q0, q1], "", "", []);
      && Outcome(a, evaluate).value.score.Some?
      && Dataset(a.questions)[1].context.None?
  {
    var q0 := AnalysisQuestion("q0", "a0", Some(["chunk"]));
    var q1 := AnalysisQuestion("q1", "a1", None);
    DatasetFacts([q0, q1]);
  }
}
