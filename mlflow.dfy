/** experiments/mlflow_experiment.py: the MLflow faithfulness adaptor. It lays an analysis out
    as an evaluation table (the summary and every question as inputs, the notice text as the
    context of each, the summary and the answers as the outputs of a model that only replays
    them) and turns the rows MLflow scores into EvaluationResults. `mlflow.evaluate` is a
    parameter. */
module Mlflow {
  import opened Wrappers
  import opened Schema
  import opened FailFast

  const MetricName: string := "mlflow_faithfulness"
  const LlmName: string := "openai"

  /** The input that stands for the summary. */
  const SummaryInput: string := "summary"

  const ScoreColumn: string := "faithfulness/v1/score"
  const OutputsColumn: string := "outputs"

  /** The `input_data` dictionary: its two columns. */
  datatype InputData = InputData(inputs: seq<string>, context: seq<string>)

  /** One row of the evaluation table, in the two columns the adaptor reads. */
  datatype TableRow = TableRow(score: Score, output: string)

  /** `mlflow_results.tables['eval_results_table']`: the names of its columns and its rows.
      `to_dict()` turns it into a dictionary keyed by column name, so the length of that
      dictionary is the number of columns. */
  datatype EvalTable = EvalTable(columns: set<string>, rows: seq<TableRow>)

  /** An indexing that raised KeyError: a column the table lacks, or a row index past its end. */
  datatype TableError = MissingColumn(column: string) | MissingRow(index: nat)

  /** `mlflow.evaluate(model, data, ...)`. */
  type Evaluate = (seq<string> -> seq<string>, InputData) -> EvalTable

  // ---- The evaluation data ----

  function QuestionTexts(questions: seq<AnalysisQuestion>): seq<string> {
    if questions == [] then [] else QuestionTexts(questions[..|questions| - 1]) + [questions[|questions| - 1].question]
  }

  function AnswerTexts(questions: seq<AnalysisQuestion>): seq<string> {
    if questions == [] then [] else AnswerTexts(questions[..|questions| - 1]) + [questions[|questions| - 1].answer]
  }

  lemma {:induction false} TextsFacts(questions: seq<AnalysisQuestion>)
    ensures |QuestionTexts(questions)| == |AnswerTexts(questions)| == |questions|
    ensures forall i :: 0 <= i < |questions| ==>
      QuestionTexts(questions)[i] == questions[i].question && AnswerTexts(questions)[i] == questions[i].answer
  {
    if questions != [] {
      var init := questions[..|questions| - 1];
      TextsFacts(init);
      assert forall i :: 0 <= i < |init| ==> init[i] == questions[i];
    }
  }

  /** `n` copies of `x`. */
  function Repeat(x: string, n: nat): (r: seq<string>)
    ensures |r| == n && forall i :: 0 <= i < n ==> r[i] == x
  {
    seq(n, _ => x)
  }

  function Inputs(a: Analysis): seq<string> {
    [SummaryInput] + QuestionTexts(a.questions)
  }

  function Outputs(a: Analysis): seq<string> {
    [a.summary] + AnswerTexts(a.questions)
  }

  /** The appends before and inside `for item in analysis.questions`. */
  method BuildEvaluationData(a: Analysis, noticeText: string) returns (inputData: InputData, outputData: seq<string>)
    ensures inputData == InputData(Inputs(a), Repeat(noticeText, 1 + |a.questions|))
    ensures outputData == Outputs(a)
  {
    var inputs := [SummaryInput];
    var context := [noticeText];
    outputData := [a.summary];
    for i := 0 to |a.questions|
      invariant inputs == [SummaryInput] + QuestionTexts(a.questions[..i])
      invariant context == Repeat(noticeText, 1 + i)
      invariant outputData == [a.summary] + AnswerTexts(a.questions[..i])
    {
      assert a.questions[..i + 1][..i] == a.questions[..i];
      var item := a.questions[i];
      inputs := inputs + [item.question];
      context := context + [noticeText];
      outputData := outputData + [item.answer];
    }
    assert a.questions[..|a.questions|] == a.questions;
    inputData := InputData(inputs, context);
  }

  /** The three lists line up: 1 + |questions| entries each, the summary first and then each
      question with its answer, every one against the notice text. */
  lemma EvaluationDataFacts(a: Analysis, noticeText: string)
    ensures |Inputs(a)| == |Outputs(a)| == |Repeat(noticeText, 1 + |a.questions|)| == 1 + |a.questions|
    ensures Inputs(a)[0] == SummaryInput && Outputs(a)[0] == a.summary
    ensures forall i :: 0 <= i < |a.questions| ==>
      Inputs(a)[i + 1] == a.questions[i].question && Outputs(a)[i + 1] == a.questions[i].answer
  {
    TextsFacts(a.questions);
  }

  /** `simulated_llm = lambda inputs: output_data`. */
  function SimulatedLlm(outputData: seq<string>): seq<string> -> seq<string> {
    _ => outputData
  }

  /** The simulated model answers every input with the whole precomputed output list. */
  lemma SimulatedLlmIgnoresInput(outputData: seq<string>, x: seq<string>, y: seq<string>)
    ensures SimulatedLlm(outputData)(x) == SimulatedLlm(outputData)(y) == outputData
  {
  }

  // ---- The result loop ----

  /** `0, 1, ..., n - 1`. */
  function Range(n: nat): (r: seq<nat>)
    ensures |r| == n && forall i :: 0 <= i < n ==> r[i] == i
  {
    seq(n, i => i)
  }

  /** The loop body for index `i`, as written: the keyword arguments are evaluated left to
      right, and the misspelt `related_alanysis` is not a field, so the pydantic model drops
      it and `related_analysis` keeps its default, None. */
  function ResultAt(t: EvalTable, i: nat): Result<EvaluationResult, TableError> {
    if ScoreColumn !in t.columns then Failure(MissingColumn(ScoreColumn))
    else if i >= |t.rows| then Failure(MissingRow(i))
    else if OutputsColumn !in t.columns then Failure(MissingColumn(OutputsColumn))
    else Success(EvaluationResult(MetricName, Some(t.rows[i].score), None, None, Some(LlmName), None))
  }

  /** The loop body with the result related to the row's output, as the keyword means. */
  function CorrectedResultAt(t: EvalTable, i: nat): Result<EvaluationResult, TableError> {
    if ScoreColumn !in t.columns then Failure(MissingColumn(ScoreColumn))
    else if i >= |t.rows| then Failure(MissingRow(i))
    else if OutputsColumn !in t.columns then Failure(MissingColumn(OutputsColumn))
    else Success(EvaluationResult(MetricName, Some(t.rows[i].score), None, None, Some(LlmName), Some(t.rows[i].output)))
  }

  function ResultFn(t: EvalTable): nat -> Result<EvaluationResult, TableError> {
    (i: nat) => ResultAt(t, i)
  }

  function CorrectedResultFn(t: EvalTable): nat -> Result<EvaluationResult, TableError> {
    (i: nat) => CorrectedResultAt(t, i)
  }

  /** How many leading indices the table can answer: all rows when both columns exist. */
  function Answerable(t: EvalTable): nat {
    if ScoreColumn in t.columns && OutputsColumn in t.columns then |t.rows| else 0
  }

  /** `for i in range(0, bound): results.append(...)`. */
  method CollectResults(f: nat -> Result<EvaluationResult, TableError>, bound: nat)
    returns (r: Result<seq<EvaluationResult>, TableError>)
    ensures r == MapAll(f, Range(bound))
  {
    ghost var indices := Range(bound);
    var results := [];
    ContinueEmpty([], f, indices);
    for i := 0 to bound
      invariant Continue([], f, indices[..i]) == Success(results)
    {
      ContinueElement([], f, indices, i, results);
      var result := f(i);
      if result.Failure? {
        return Failure(result.error);
      }
      results := results + [result.value];
    }
    assert indices[..bound] == indices;
    assert [] + MapAll(f, indices).value == MapAll(f, indices).value;
    return Success(results);
  }

  /** `MLFlowFaithfulnessExperiment.run_eval` as written: the loop bound is the length of
      `to_dict()`, the number of columns. */
  method RunEvalAsWritten(a: Analysis, noticeText: string, evaluate: Evaluate)
    returns (r: Result<seq<EvaluationResult>, TableError>)
    ensures var t := evaluate(SimulatedLlm(Outputs(a)), InputData(Inputs(a), Repeat(noticeText, 1 + |a.questions|)));
      r == MapAll(ResultFn(t), Range(|t.columns|))
  {
    var inputData, outputData := BuildEvaluationData(a, noticeText);
    var table := evaluate(SimulatedLlm(outputData), inputData);
    r := CollectResults(ResultFn(table), |table.columns|);
  }

  /** `run_eval` with the loop over the table's rows and the result related to the row's output. */
  method RunEval(a: Analysis, noticeText: string, evaluate: Evaluate)
    returns (r: Result<seq<EvaluationResult>, TableError>)
    ensures var t := evaluate(SimulatedLlm(Outputs(a)), InputData(Inputs(a), Repeat(noticeText, 1 + |a.questions|)));
      r == MapAll(CorrectedResultFn(t), Range(|t.rows|))
  {
    var inputData, outputData := BuildEvaluationData(a, noticeText);
    var table := evaluate(SimulatedLlm(outputData), inputData);
    r := CollectResults(CorrectedResultFn(table), |table.rows|);
  }

  // ---- What the loops yield ----

  /** The loop over the first `n` indices stops at the first index the table cannot answer. */
  lemma FirstUnanswerable(t: EvalTable, f: nat -> Result<EvaluationResult, TableError>, n: nat)
    requires forall i: nat :: f(i).Success? <==> i < Answerable(t)
    ensures FirstFailure(f, Range(n)) == if n <= Answerable(t) then n else Answerable(t)
  {
    var k, a := FirstFailure(f, Range(n)), Answerable(t);
    if k > 0 {
      assert f(Range(n)[k - 1]).Success?;
    }
    assert k < n ==> f(Range(n)[k]).Failure?;
  }

  /** As written: the loop succeeds exactly when there are no more columns than answerable
      rows, and then yields one result per column, not per row; every result has the MLflow
      metric name, the 'openai' model name, the row's score and no related part. */
  lemma AsWrittenResults(t: EvalTable)
    ensures MapAll(ResultFn(t), Range(|t.columns|)).Success? <==> |t.columns| <= Answerable(t)
    ensures MapAll(ResultFn(t), Range(|t.columns|)).Failure? ==>
      MapAll(ResultFn(t), Range(|t.columns|)).error == ResultAt(t, Answerable(t)).error
    ensures MapAll(ResultFn(t), Range(|t.columns|)).Success? ==>
      var results := MapAll(ResultFn(t), Range(|t.columns|)).value;
      && |results| == |t.columns|
      && forall i :: 0 <= i < |results| ==>
           results[i] == EvaluationResult(MetricName, Some(t.rows[i].score), None, None, Some(LlmName), None)
  {
    var f := ResultFn(t);
    FirstUnanswerable(t, f, |t.columns|);
    MapAllFacts(f, Range(|t.columns|));
  }

  /** Corrected: with both columns present the loop yields exactly one result per row, in row
      order, each carrying that row's score and output; with a column missing, a non-empty
      table raises KeyError for it. */
  lemma CorrectedResults(t: EvalTable)
    ensures MapAll(CorrectedResultFn(t), Range(|t.rows|)).Success? <==>
      |t.rows| == 0 || (ScoreColumn in t.columns && OutputsColumn in t.columns)
    ensures MapAll(CorrectedResultFn(t), Range(|t.rows|)).Failure? ==>
      MapAll(CorrectedResultFn(t), Range(|t.rows|)).error ==
        MissingColumn(if ScoreColumn !in t.columns then ScoreColumn else OutputsColumn)
    ensures MapAll(CorrectedResultFn(t), Range(|t.rows|)).Success? ==>
      var results := MapAll(CorrectedResultFn(t), Range(|t.rows|)).value;
      && |results| == |t.rows|
      && forall i :: 0 <= i < |results| ==>
           results[i] == EvaluationResult(MetricName, Some(t.rows[i].score), None, None, Some(LlmName), Some(t.rows[i].output))
  {
    var f := CorrectedResultFn(t);
    FirstUnanswerable(t, f, |t.rows|);
    MapAllFacts(f, Range(|t.rows|));
  }

  /** The columns assumed for MLflow's results table in this evaluation: the two data columns,
      the replayed outputs, their token count and the metric's score and justification. The
      source does not state this layout; it is an assumption about MLflow. */
  const ResultColumns: set<string> :=
    {"inputs", "context", OutputsColumn, "token_count", ScoreColumn, "faithfulness/v1/justification"}

  /** An analysis with its four questions gives five rows and six columns: as written, the loop
      reaches index 5 and raises KeyError, where one result per row was meant. */
  lemma SixColumnsFiveRows(rows: seq<TableRow>)
    requires |rows| == 5
    ensures MapAll(ResultFn(EvalTable(ResultColumns, rows)), Range(|ResultColumns|)) == Failure(MissingRow(5))
    ensures MapAll(CorrectedResultFn(EvalTable(ResultColumns, rows)), Range(|rows|)).Success?
    ensures |MapAll(CorrectedResultFn(EvalTable(ResultColumns, rows)), Range(|rows|)).value| == 5
  {
    var t := EvalTable(ResultColumns, rows);
    assert |ResultColumns| == 6;
    AsWrittenResults(t);
    CorrectedResults(t);
  }

  /** An illustration of `AsWrittenResults`: with fewer columns than rows the loop stops early,
      and a two-column table of five rows yields two results. */
  lemma TwoColumnsFiveRows(rows: seq<TableRow>)
    requires |rows| == 5
    ensures |{ScoreColumn, OutputsColumn}| == 2
    ensures MapAll(ResultFn(EvalTable({ScoreColumn, OutputsColumn}, rows)), Range(2)).Success?
    ensures |MapAll(ResultFn(EvalTable({ScoreColumn, OutputsColumn}, rows)), Range(2)).value| == 2
  {
    var t := EvalTable({ScoreColumn, OutputsColumn}, rows);
    assert |t.columns| == 2;
    AsWrittenResults(t);
  }
}
