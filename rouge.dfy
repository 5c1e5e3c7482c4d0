/** experiments/rouge_experiment.py: the ROUGE adaptor. It compares a scenario's AI
    translation with its golden translation, turns numpy floats in the metric's output into
    plain floats, and reports the `rougeLsum` entry as the score. The ROUGE computation is a
    parameter. The scenario and result records are defined outside the files modelled here;
    only the fields this adaptor reads or writes are kept. */
module Rouge {
  import opened Wrappers
  import opened Schema
  import opened Translations

  const ExperimentName: string := "rouge_experiment"

  /** The details entry that becomes the score. */
  const ScoreKey: string := "rougeLsum"

  /** A scenario; `name` holds its `label`. */
  datatype Scenario = Scenario(name: string, goldenTranslation: Translation, aiTranslation: Translation)

  /** The result record `run_eval` builds. */
  datatype RougeResult = RougeResult(metricName: string, score: DetailValue, details: Details)

  /** `metric_result["rougeLsum"]` on a map without that key raises KeyError. */
  datatype KeyError = KeyError(key: string)

  /** `metric.compute(references=..., predictions=...)`. */
  type Compute = (seq<string>, seq<string>) -> Details

  /** `float(value)` when `type(value) is np.float64`; any other value is kept. */
  function PlainValue(v: DetailValue): (r: DetailValue)
    ensures !r.NumpyFloat64?
    ensures v.NumpyFloat64? ==> r == PyFloat(v.x)
    ensures !v.NumpyFloat64? ==> r == v
  {
    if v.NumpyFloat64? then PyFloat(v.x) else v
  }

  /** The details with every value made plain. */
  function Plain(d: Details): Details {
    map k | k in d :: PlainValue(d[k])
  }

  /** The loop over `metric_result.items()`, which rewrites the map in place; the keys are
      visited in an order the model leaves open. */
  method NormaliseDetails(d: Details) returns (m: Details)
    ensures m == Plain(d)
  {
    m := d;
    var todo := d.Keys;
    while todo != {}
      invariant todo <= d.Keys && m.Keys == d.Keys
      invariant forall k :: k in d && k !in todo ==> m[k] == PlainValue(d[k])
      invariant forall k :: k in todo ==> m[k] == d[k]
      decreases |todo|
    {
      var k :| k in todo;
      if m[k].NumpyFloat64? {
        m := m[k := PyFloat(m[k].x)];
      }
      todo := todo - {k};
    }
  }

  /** The keys stay, no numpy float is left, and every value keeps its number or is untouched. */
  lemma PlainFacts(d: Details)
    ensures Plain(d).Keys == d.Keys
    ensures forall k :: k in d ==> !Plain(d)[k].NumpyFloat64?
    ensures forall k :: k in d && d[k].NumpyFloat64? ==> Plain(d)[k] == PyFloat(d[k].x)
    ensures forall k :: k in d && !d[k].NumpyFloat64? ==> Plain(d)[k] == d[k]
  {
  }

  /** Normalising a normalised map changes nothing. */
  lemma PlainIdempotent(d: Details)
    ensures Plain(Plain(d)) == Plain(d)
  {
    PlainFacts(d);
    PlainFacts(Plain(d));
  }

  /** `f"{RougeExperiment.EXPERIMENT_NAME}:{scenario.label}"`. */
  function MetricNameOf(scenarioLabel: string): string {
    ExperimentName + ":" + scenarioLabel
  }

  /** The scenario label can be read back from the metric name, so distinct labels give
      distinct metric names. */
  lemma MetricNameLabel(scenarioLabel: string)
    ensures |MetricNameOf(scenarioLabel)| == |ExperimentName| + 1 + |scenarioLabel|
    ensures MetricNameOf(scenarioLabel)[..|ExperimentName| + 1] == "rouge_experiment:"
    ensures MetricNameOf(scenarioLabel)[|ExperimentName| + 1..] == scenarioLabel
  {
  }

  lemma MetricNameInjective(a: string, b: string)
    requires MetricNameOf(a) == MetricNameOf(b)
    ensures a == b
  {
    MetricNameLabel(a);
    MetricNameLabel(b);
  }

  /** What `run_eval` returns for the metric's raw output. */
  function Outcome(scenarioLabel: string, raw: Details): Result<RougeResult, KeyError> {
    var details := Plain(raw);
    if ScoreKey in details then Success(RougeResult(MetricNameOf(scenarioLabel), details[ScoreKey], details))
    else Failure(KeyError(ScoreKey))
  }

  /** `RougeExperiment.run_eval`. */
  method RunEval(scenario: Scenario, compute: Compute) returns (r: Result<RougeResult, KeyError>)
    ensures r == Outcome(scenario.name, compute([scenario.goldenTranslation.text], [scenario.aiTranslation.text]))
  {
    var metricResult := compute([scenario.goldenTranslation.text], [scenario.aiTranslation.text]);
    metricResult := NormaliseDetails(metricResult);
    var experimentName := ExperimentName + ":" + scenario.name;
    if ScoreKey !in metricResult {
      return Failure(KeyError(ScoreKey));
    }
    return Success(RougeResult(experimentName, metricResult[ScoreKey], metricResult));
  }

  /** The run succeeds exactly when the metric reports `rougeLsum`. Then the score is that
      entry made plain, the details are the whole output made plain, and the metric name
      is the experiment name and the scenario label. */
  lemma OutcomeFacts(scenarioLabel: string, raw: Details)
    ensures Outcome(scenarioLabel, raw).Success? <==> ScoreKey in raw
    ensures Outcome(scenarioLabel, raw).Failure? ==> Outcome(scenarioLabel, raw).error == KeyError(ScoreKey)
    ensures Outcome(scenarioLabel, raw).Success? ==>
      var r := Outcome(scenarioLabel, raw).value;
      && r.metricName == MetricNameOf(scenarioLabel)
      && r.score == PlainValue(raw[ScoreKey])
      && !r.score.NumpyFloat64?
      && r.details.Keys == raw.Keys
      && r.details[ScoreKey] == r.score
      && forall k :: k in raw ==> r.details[k] == PlainValue(raw[k])
  {
    PlainFacts(raw);
  }
}
