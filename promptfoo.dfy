/** The promptfoo faithfulness adaptor (experiments/promptfoo_experiment.py): one promptfoo
    test per analysis part, file names derived from the analysis, the extraction of the
    faithfulness verdicts from promptfoo's output, the exit-code rule, and the loop that adds
    the verdicts to every analysis of a manifest. */
module PromptfooExperiment {
  import opened Wrappers
  import opened Schema
  import opened DocumentStore
  import PyStr
  import PosixPath

  const MetricName: string := "promptfoo_faithfulness"
  const ConfigFileBase: string := "promptfooconfig"
  const OutputFileBase: string := "promptfoo_output"

  /** The grading model every assertion names (`model_name` in `run_eval`). */
  const ProviderModel: string := "openai:gpt-4.1"
  const ProviderFile: string := "file://experiments/promptfoo_provider.py"
  const AssertionType: string := "context-faithfulness"
  const Threshold: real := 0.5
  const SummaryQuery: string := "Write a 2-3 sentence summary of the notice."
  const SummaryPart: string := "summary"
  const ExperimentsDir: string := "experiments"

  // ---- The configuration handed to promptfoo ----

  datatype TestVars = TestVars(query: string, context: string, prompt: string)

  datatype TestAssertion = TestAssertion(kind: string, threshold: real, provider: string)

  datatype TestMetadata = TestMetadata(relatedAnalysisPart: string, llmModelName: string, promptName: string)

  datatype TestCase = TestCase(vars: TestVars, assertions: seq<TestAssertion>, description: string, metadata: TestMetadata)

  datatype Config = Config(description: string, providers: seq<string>, tests: seq<TestCase>, outputPath: string)

  /** The one assertion every test carries. */
  function Faithfulness(provider: string): TestAssertion {
    TestAssertion(AssertionType, Threshold, provider)
  }

  /** " Faithfulness for <model> with <prompt>", the tail shared by the test descriptions. */
  function DescriptionTail(a: Analysis): string {
    " Faithfulness for " + a.llmModelName + " with " + a.promptName
  }

  function SummaryTest(a: Analysis, noticeText: string, provider: string): TestCase {
    TestCase(TestVars(SummaryQuery, noticeText, a.summary), [Faithfulness(provider)],
             "Summary" + DescriptionTail(a),
             TestMetadata(SummaryPart, a.llmModelName, a.promptName))
  }

  /** The test of question i (counted from 0; its description counts from 1). */
  function QuestionTest(a: Analysis, i: nat, noticeText: string, provider: string): TestCase
    requires i < |a.questions|
  {
    var q := a.questions[i];
    TestCase(TestVars(q.question, noticeText, q.answer), [Faithfulness(provider)],
             "Question " + PyStr.NatToDecimal(i + 1) + DescriptionTail(a),
             TestMetadata(q.question, a.llmModelName, a.promptName))
  }

  /** The tests of the first k questions, in question order. */
  function QuestionTests(a: Analysis, k: nat, noticeText: string, provider: string): (r: seq<TestCase>)
    requires k <= |a.questions|
    ensures |r| == k
  {
    seq(k, i requires 0 <= i < k => QuestionTest(a, i, noticeText, provider))
  }

  /** The dictionary `_generate_promptfoo_config` returns. */
  function PromptfooConfig(a: Analysis, noticeText: string, provider: string, outputFilename: string): Config {
    Config("Faithfulness Evaluation for " + a.llmModelName + " (" + a.promptName + ")",
           [ProviderFile],
           [SummaryTest(a, noticeText, provider)] + QuestionTests(a, |a.questions|, noticeText, provider),
           outputFilename)
  }

  /** `_generate_promptfoo_config`: the summary test, then one test per question appended in order. */
  method GenerateConfig(a: Analysis, noticeText: string, provider: string, outputFilename: string) returns (config: Config)
    ensures config == PromptfooConfig(a, noticeText, provider, outputFilename)
  {
    var tests := [SummaryTest(a, noticeText, provider)];
    for i := 0 to |a.questions|
      invariant tests == [SummaryTest(a, noticeText, provider)] + QuestionTests(a, i, noticeText, provider)
    {
      assert QuestionTests(a, i + 1, noticeText, provider)
          == QuestionTests(a, i, noticeText, provider) + [QuestionTest(a, i, noticeText, provider)];
      tests := tests + [QuestionTest(a, i, noticeText, provider)];
    }
    config := Config("Faithfulness Evaluation for " + a.llmModelName + " (" + a.promptName + ")",
                     [ProviderFile], tests, outputFilename);
  }

  /** The configuration holds one test for the summary followed by one per question, in
      order; every test checks the notice text as context, with a single faithfulness
      assertion at threshold 0.5 graded by the given provider. */
  lemma ConfigTests(a: Analysis, noticeText: string, provider: string, outputFilename: string)
    ensures var c := PromptfooConfig(a, noticeText, provider, outputFilename);
      && |c.tests| == 1 + |a.questions|
      && c.outputPath == outputFilename
      && (forall t :: t in c.tests ==>
            && t.assertions == [TestAssertion("context-faithfulness", 0.5, provider)]
            && t.vars.context == noticeText
            && t.metadata.llmModelName == a.llmModelName
            && t.metadata.promptName == a.promptName)
      && c.tests[0].vars.query == SummaryQuery
      && c.tests[0].vars.prompt == a.summary
      && c.tests[0].metadata.relatedAnalysisPart == "summary"
      && c.tests[0].description == "Summary" + DescriptionTail(a)
      && (forall i :: 0 <= i < |a.questions| ==>
            && c.tests[i + 1].description == "Question " + PyStr.NatToDecimal(i + 1) + DescriptionTail(a)
            && c.tests[i + 1].vars.query == a.questions[i].question
            && c.tests[i + 1].vars.prompt == a.questions[i].answer
            && c.tests[i + 1].metadata.relatedAnalysisPart == a.questions[i].question)
  {
    var c := PromptfooConfig(a, noticeText, provider, outputFilename);
    forall t | t in c.tests
      ensures t.assertions == [TestAssertion("context-faithfulness", 0.5, provider)]
      ensures t.vars.context == noticeText
      ensures t.metadata.llmModelName == a.llmModelName && t.metadata.promptName == a.promptName
    {
      var k :| 0 <= k < |c.tests| && c.tests[k] == t;
      if k > 0 {
        assert t == QuestionTest(a, k - 1, noticeText, provider);
      }
    }
  }

  /** A valid analysis, with its four questions, yields five tests. */
  lemma ValidAnalysisFiveTests(a: Analysis, noticeText: string, provider: string, outputFilename: string)
    requires ValidAnalysis(a)
    ensures |PromptfooConfig(a, noticeText, provider, outputFilename).tests| == 5
  {
  }

  /** The number of leading decimal digits of w. */
  function LeadingDigits(w: string): (r: nat)
    ensures r <= |w|
  {
    if w == [] || !PyStr.IsDigit(w[0]) then 0 else 1 + LeadingDigits(w[1..])
  }

  lemma {:induction false} LeadingDigitsOf(x: string, s: string)
    requires forall i :: 0 <= i < |x| ==> PyStr.IsDigit(x[i])
    requires s != [] && !PyStr.IsDigit(s[0])
    ensures LeadingDigits(x + s) == |x|
  {
    if x == [] {
      assert x + s == s;
    } else {
      assert (x + s)[0] == x[0];
      assert (x + s)[1..] == x[1..] + s;
      LeadingDigitsOf(x[1..], s);
    }
  }

  /** A string of digits followed by a text that does not start with a digit can be split
      in one way only. */
  lemma DigitsThenTextSplit(x: string, y: string, s: string, t: string)
    requires forall i :: 0 <= i < |x| ==> PyStr.IsDigit(x[i])
    requires forall i :: 0 <= i < |y| ==> PyStr.IsDigit(y[i])
    requires s != [] && !PyStr.IsDigit(s[0]) && t != [] && !PyStr.IsDigit(t[0])
    requires x + s == y + t
    ensures x == y
  {
    LeadingDigitsOf(x, s);
    LeadingDigitsOf(y, t);
    assert x == (x + s)[..|x|];
    assert y == (y + t)[..|y|];
  }

  lemma PrefixCancel(p: string, x: string, y: string)
    requires p + x == p + y
    ensures x == y
  {
    assert x == (p + x)[|p|..];
    assert y == (p + y)[|p|..];
  }

  /** Different question numbers give different descriptions. */
  lemma QuestionDescriptionInjective(p: string, i: nat, j: nat, tail: string)
    requires tail != [] && tail[0] == ' '
    requires p + PyStr.NatToDecimal(i) + tail == p + PyStr.NatToDecimal(j) + tail
    ensures i == j
  {
    var di := PyStr.NatToDecimal(i);
    var dj := PyStr.NatToDecimal(j);
    assert p + di + tail == p + (di + tail);
    assert p + dj + tail == p + (dj + tail);
    PrefixCancel(p, di + tail, dj + tail);
    DigitsThenTextSplit(di, dj, tail, tail);
    PyStr.NatToDecimalInjective(i, j);
  }

  /** The test descriptions tell the tests apart: no two question tests share one, and none
      of them is the summary's. */
  lemma DescriptionsDistinct(a: Analysis, noticeText: string, provider: string, outputFilename: string, i: nat, j: nat)
    requires i < j < |a.questions|
    ensures var c := PromptfooConfig(a, noticeText, provider, outputFilename);
      && c.tests[i + 1].description != c.tests[j + 1].description
      && c.tests[0].description != c.tests[i + 1].description
  {
    var c := PromptfooConfig(a, noticeText, provider, outputFilename);
    var tail := DescriptionTail(a);
    assert tail[0] == ' ';
    var di := "Question " + PyStr.NatToDecimal(i + 1) + tail;
    var dj := "Question " + PyStr.NatToDecimal(j + 1) + tail;
    assert c.tests[i + 1] == QuestionTest(a, i, noticeText, provider);
    assert c.tests[j + 1] == QuestionTest(a, j, noticeText, provider);
    assert c.tests[i + 1].description == di;
    assert c.tests[j + 1].description == dj;
    if di == dj {
      QuestionDescriptionInjective("Question ", i + 1, j + 1, tail);
    }
    assert c.tests[0].description[0] == 'S';
    assert di[0] == 'Q';
  }

  // ---- File names ----

  predicate Unsafe(c: char) {
    c == ':' || c == '/' || c == '\\'
  }

  /** The chained `.replace(':', '_').replace('/', '_').replace('\\', '_')`. */
  function Sanitize(s: string): (r: string)
    ensures |r| == |s|
    ensures forall i :: 0 <= i < |s| ==> r[i] == if Unsafe(s[i]) then '_' else s[i]
  {
    PyStr.ReplaceChar(PyStr.ReplaceChar(PyStr.ReplaceChar(s, ':', '_'), '/', '_'), '\\', '_')
  }

  /** A sanitised name has none of the three characters left, so it is safe as a file name
      component; sanitising it again changes nothing. */
  lemma SanitizeClean(s: string)
    ensures forall i :: 0 <= i < |Sanitize(s)| ==> !Unsafe(Sanitize(s)[i])
    ensures Sanitize(Sanitize(s)) == Sanitize(s)
    ensures PosixPath.NoSlash(Sanitize(s))
  {
  }

  /** Names without any of the three characters pass through unchanged. */
  lemma SanitizeKeepsSafe(s: string)
    requires forall i :: 0 <= i < |s| ==> !Unsafe(s[i])
    ensures Sanitize(s) == s
  {
  }

  /** Sanitising is not injective: a name and the same name with one of the three
      characters replaced by '_' (say "llama3:8b" and "llama3_8b") write to the same files. */
  lemma SanitizeCollides(s: string, i: nat)
    requires i < |s| && Unsafe(s[i])
    ensures s[i := '_'] != s
    ensures Sanitize(s[i := '_']) == Sanitize(s)
  {
    var t := s[i := '_'];
    assert t[i] != s[i];
    forall j | 0 <= j < |s|
      ensures Sanitize(t)[j] == Sanitize(s)[j]
    {
    }
  }

  /** `<base>_<model>_<prompt>` with the names sanitised. */
  function FileStem(base: string, modelName: string, promptName: string): (r: string)
    requires base != [] && PosixPath.NoSlash(base)
    ensures r != [] && PosixPath.NoSlash(r)
  {
    SanitizeClean(modelName);
    SanitizeClean(promptName);
    base + "_" + Sanitize(modelName) + "_" + Sanitize(promptName)
  }

  /** `experiments/promptfooconfig_<model>_<prompt>.yaml`. */
  function ConfigFilename(modelName: string, promptName: string): string {
    PosixPath.Join(ExperimentsDir, FileStem(ConfigFileBase, modelName, promptName) + ".yaml")
  }

  /** `experiments/promptfoo_output_<model>_<prompt>.json`. */
  function OutputFilename(modelName: string, promptName: string): string {
    PosixPath.Join(ExperimentsDir, FileStem(OutputFileBase, modelName, promptName) + ".json")
  }

  /** A file named by `FileStem` sits directly in `experiments`. */
  lemma StemInExperiments(base: string, modelName: string, promptName: string, ext: string)
    requires base != [] && PosixPath.NoSlash(base) && PosixPath.NoSlash(ext)
    ensures var name := FileStem(base, modelName, promptName) + ext;
      && PosixPath.Dirname(PosixPath.Join(ExperimentsDir, name)) == "experiments"
      && PosixPath.Basename(PosixPath.Join(ExperimentsDir, name)) == name
  {
    var name := FileStem(base, modelName, promptName) + ext;
    assert PosixPath.NoSlash(name);
    PosixPath.BasenameOfJoin(ExperimentsDir, name);
    PosixPath.DirnameOfJoin(ExperimentsDir, name);
  }

  /** The config file sits directly in `experiments`, named after the sanitised model and prompt. */
  lemma ConfigFilenameParts(modelName: string, promptName: string)
    ensures PosixPath.Dirname(ConfigFilename(modelName, promptName)) == ExperimentsDir
    ensures PosixPath.Basename(ConfigFilename(modelName, promptName))
         == ConfigFileBase + "_" + Sanitize(modelName) + "_" + Sanitize(promptName) + ".yaml"
  {
    StemInExperiments(ConfigFileBase, modelName, promptName, ".yaml");
  }

  /** So does the output file, under its own base name and extension. */
  lemma OutputFilenameParts(modelName: string, promptName: string)
    ensures PosixPath.Dirname(OutputFilename(modelName, promptName)) == ExperimentsDir
    ensures PosixPath.Basename(OutputFilename(modelName, promptName))
         == OutputFileBase + "_" + Sanitize(modelName) + "_" + Sanitize(promptName) + ".json"
  {
    StemInExperiments(OutputFileBase, modelName, promptName, ".json");
  }

  // ---- promptfoo's output and the extraction of the verdicts ----

  /** One entry of a test's `gradingResult.componentResults`; `None` is an absent key
      (`assertionType` is absent also when the whole `assertion` object is). */
  datatype ComponentResult = ComponentResult(assertionType: Option<string>, score: Option<Score>, reason: Option<string>)

  /** One entry of `results.results`: its component results (none when `gradingResult` is
      absent) and the `related_analysis_part` of its metadata. */
  datatype TestCaseResult = TestCaseResult(components: seq<ComponentResult>, relatedAnalysisPart: Option<string>)

  /** The parsed output file; `testResults` is empty when `results.results` is absent. */
  datatype PromptfooOutput = PromptfooOutput(testResults: seq<TestCaseResult>)

  /** The output file after promptfoo ran: absent, not JSON, or parsed. */
  datatype OutputFile = Missing | Unparsable | Parsed(output: PromptfooOutput)

  /** What running `promptfoo eval -c <config> --output <output>` came to. */
  datatype RunOutcome = Exited(returnCode: int, outputFile: OutputFile) | NotInstalled

  /** The subprocess, given the configuration written to the config file and the two file names. */
  type PromptfooRunner = (Config, string, string) -> RunOutcome

  /** The exceptions `run_eval` lets through. */
  datatype EvalError =
    | PromptfooExit(returnCode: int)  // CalledProcessError with a code other than 100
    | PromptfooNotFound               // FileNotFoundError: the command is not installed
    | UnreadableOutput                // json.load failed on the output file

  const NoReason: string := "No reason provided."
  const UnknownPart: string := "unknown"

  predicate IsFaithfulness(c: ComponentResult) {
    c.assertionType == Some(AssertionType)
  }

  function PartOf(tc: TestCaseResult): string {
    tc.relatedAnalysisPart.GetOr(UnknownPart)
  }

  /** The result recorded for one faithfulness assertion: a missing score counts as 0, a
      missing reason and a missing part take their fixed defaults. */
  function FromComponent(part: string, c: ComponentResult): (r: EvaluationResult)
    ensures r.metricName == MetricName && r.llmModelName == Some(ProviderModel)
    ensures r.details.None? && r.relatedAnalysis == Some(part)
    ensures r.score == Some(if c.score.Some? then c.score.value else 0.0)
    ensures r.reason == Some(if c.reason.Some? then c.reason.value else NoReason)
  {
    EvaluationResult(MetricName, Some(c.score.GetOr(0.0)), Some(c.reason.GetOr(NoReason)), None,
                     Some(ProviderModel), Some(part))
  }

  /** The results of one test case: one per faithfulness assertion, in order. */
  function TestResults(part: string, cs: seq<ComponentResult>): seq<EvaluationResult> {
    if cs == [] then []
    else TestResults(part, cs[..|cs| - 1]) + (if IsFaithfulness(cs[|cs| - 1]) then [FromComponent(part, cs[|cs| - 1])] else [])
  }

  /** The results of all test cases, test case by test case. */
  function Extracted(tcs: seq<TestCaseResult>): seq<EvaluationResult> {
    if tcs == [] then []
    else Extracted(tcs[..|tcs| - 1]) + TestResults(PartOf(tcs[|tcs| - 1]), tcs[|tcs| - 1].components)
  }

  /** The inner loop over the component results of one test case. */
  method AppendTestResults(results: seq<EvaluationResult>, part: string, cs: seq<ComponentResult>) returns (out: seq<EvaluationResult>)
    ensures out == results + TestResults(part, cs)
  {
    out := results;
    for k := 0 to |cs|
      invariant out == results + TestResults(part, cs[..k])
    {
      var c := cs[k];
      assert cs[..k + 1][..k] == cs[..k];
      if c.assertionType == Some(AssertionType) {
        out := out + [FromComponent(part, c)];
      }
    }
    assert cs[..|cs|] == cs;
  }

  /** The nested extraction loop. */
  method ExtractResults(tcs: seq<TestCaseResult>) returns (results: seq<EvaluationResult>)
    ensures results == Extracted(tcs)
  {
    results := [];
    for i := 0 to |tcs|
      invariant results == Extracted(tcs[..i])
    {
      assert tcs[..i + 1][..i] == tcs[..i];
      results := AppendTestResults(results, PartOf(tcs[i]), tcs[i].components);
    }
    assert tcs[..|tcs|] == tcs;
  }

  /** Component k of cs is a faithfulness assertion whose result is r. */
  predicate Yields(part: string, cs: seq<ComponentResult>, k: int, r: EvaluationResult) {
    0 <= k < |cs| && IsFaithfulness(cs[k]) && r == FromComponent(part, cs[k])
  }

  lemma YieldsSnoc(part: string, p: seq<ComponentResult>, c: ComponentResult, r: EvaluationResult)
    ensures (exists k :: Yields(part, p + [c], k, r)) <==> (exists k :: Yields(part, p, k, r)) || Yields(part, p + [c], |p|, r)
  {
    var cs := p + [c];
    forall k | Yields(part, cs, k, r) && k < |p|
      ensures Yields(part, p, k, r)
    {
      assert p[k] == cs[k];
    }
    forall k | Yields(part, p, k, r)
      ensures Yields(part, cs, k, r)
    {
      assert p[k] == cs[k];
    }
  }

  /** A test case's results are exactly its faithfulness assertions, each with the default
      rules applied. */
  lemma {:induction false} TestResultsMembers(part: string, cs: seq<ComponentResult>, r: EvaluationResult)
    ensures r in TestResults(part, cs) <==> exists k :: Yields(part, cs, k, r)
  {
    if cs != [] {
      var n := |cs| - 1;
      var p := cs[..n];
      var c := cs[n];
      var x := if IsFaithfulness(c) then [FromComponent(part, c)] else [];
      assert TestResults(part, cs) == TestResults(part, p) + x;
      assert r in x <==> Yields(part, cs, n, r);
      TestResultsMembers(part, p, r);
      assert cs == p + [c];
      YieldsSnoc(part, p, c, r);
    }
  }

  /** Components of another type contribute nothing, and the number of results is the number
      of faithfulness assertions. */
  function FaithfulnessCount(cs: seq<ComponentResult>): nat {
    if cs == [] then 0 else FaithfulnessCount(cs[..|cs| - 1]) + (if IsFaithfulness(cs[|cs| - 1]) then 1 else 0)
  }

  lemma {:induction false} TestResultsLength(part: string, cs: seq<ComponentResult>)
    ensures |TestResults(part, cs)| == FaithfulnessCount(cs)
  {
    if cs != [] {
      TestResultsLength(part, cs[..|cs| - 1]);
    }
  }

  /** Every extracted result is a promptfoo faithfulness verdict graded by the fixed model,
      with a score, a reason, no details, and the analysis part of the test case it comes from. */
  lemma {:induction false} ExtractedFields(tcs: seq<TestCaseResult>)
    ensures forall r :: r in Extracted(tcs) ==>
      && r.metricName == MetricName
      && r.llmModelName == Some(ProviderModel)
      && r.score.Some? && r.reason.Some? && r.details.None?
      && exists k :: 0 <= k < |tcs| && r.relatedAnalysis == Some(PartOf(tcs[k]))
  {
    if tcs != [] {
      var n := |tcs| - 1;
      var p, last := tcs[..n], tcs[n];
      ExtractedFields(p);
      forall r | r in Extracted(p)
        ensures exists k :: 0 <= k < |tcs| && r.relatedAnalysis == Some(PartOf(tcs[k]))
      {
        var k :| 0 <= k < |p| && r.relatedAnalysis == Some(PartOf(p[k]));
        assert p[k] == tcs[k];
      }
      forall r | r in TestResults(PartOf(last), last.components)
        ensures r.metricName == MetricName && r.llmModelName == Some(ProviderModel)
        ensures r.score.Some? && r.reason.Some? && r.details.None?
        ensures r.relatedAnalysis == Some(PartOf(tcs[n]))
      {
        TestResultsMembers(PartOf(last), last.components, r);
      }
    }
  }

  /** When promptfoo reports each test with a single faithfulness assertion, the results
      correspond one to one with the test cases, in order. */
  lemma {:induction false} ExtractedOnePerTest(tcs: seq<TestCaseResult>)
    requires forall i :: 0 <= i < |tcs| ==> |tcs[i].components| == 1 && IsFaithfulness(tcs[i].components[0])
    ensures |Extracted(tcs)| == |tcs|
    ensures forall i :: 0 <= i < |tcs| ==> Extracted(tcs)[i] == FromComponent(PartOf(tcs[i]), tcs[i].components[0])
  {
    if tcs != [] {
      var p := tcs[..|tcs| - 1];
      var last := tcs[|tcs| - 1];
      ExtractedOnePerTest(p);
      var cs := last.components;
      assert cs[..0] == [];
      var x := FromComponent(PartOf(last), cs[0]);
      assert TestResults(PartOf(last), cs) == [x];
      assert Extracted(tcs) == Extracted(p) + [x];
      forall i | 0 <= i < |tcs|
        ensures Extracted(tcs)[i] == FromComponent(PartOf(tcs[i]), tcs[i].components[0])
      {
        if i < |p| {
          assert tcs[i] == p[i];
        }
      }
    }
  }

  /** `related_analysis` traces back to the configuration: if promptfoo echoes every test's
      metadata and grades its one assertion, the results name "summary" and then each
      question, in order. */
  lemma EchoedParts(a: Analysis, noticeText: string, outputFilename: string, tcs: seq<TestCaseResult>)
    requires var c := PromptfooConfig(a, noticeText, ProviderModel, outputFilename);
      && |tcs| == |c.tests|
      && forall i :: 0 <= i < |tcs| ==>
           && tcs[i].relatedAnalysisPart == Some(c.tests[i].metadata.relatedAnalysisPart)
           && |tcs[i].components| == 1 && IsFaithfulness(tcs[i].components[0])
    ensures |Extracted(tcs)| == 1 + |a.questions|
    ensures Extracted(tcs)[0].relatedAnalysis == Some("summary")
    ensures forall i :: 0 <= i < |a.questions| ==> Extracted(tcs)[i + 1].relatedAnalysis == Some(a.questions[i].question)
  {
    ConfigTests(a, noticeText, ProviderModel, outputFilename);
    ExtractedOnePerTest(tcs);
  }

  // ---- One analysis ----

  /** What `run_eval` returns for a given outcome of the subprocess: exit code 0 and exit
      code 100 both lead to the parsed results (none when the output file is missing);
      any other exit code, a missing command or an unreadable output file is an error. */
  function Interpret(o: RunOutcome): (r: Result<seq<EvaluationResult>, EvalError>)
    ensures r.Success? <==> o.Exited? && (o.returnCode == 0 || o.returnCode == 100) && !o.outputFile.Unparsable?
    ensures o.Exited? && o.returnCode != 0 && o.returnCode != 100 ==> r == Failure(PromptfooExit(o.returnCode))
    ensures o.NotInstalled? ==> r == Failure(PromptfooNotFound)
    ensures r.Success? && o.outputFile.Missing? ==> r.value == []
    ensures r.Success? && o.outputFile.Parsed? ==> r.value == Extracted(o.outputFile.output.testResults)
  {
    match o
    case NotInstalled => Failure(PromptfooNotFound)
    case Exited(code, file) =>
      if code != 0 && code != 100 then Failure(PromptfooExit(code))
      else
        match file
        case Missing => Success([])
        case Unparsable => Failure(UnreadableOutput)
        case Parsed(out) => Success(Extracted(out.testResults))
  }

  /** Exit code 100 is read exactly as success. */
  lemma ExitCode100IsSuccess(file: OutputFile)
    ensures Interpret(Exited(100, file)) == Interpret(Exited(0, file))
  {
  }

  /** `run_eval` for one analysis: the config and output file names, the config, the run. */
  function Evaluation(a: Analysis, noticeText: string, runner: PromptfooRunner): Result<seq<EvaluationResult>, EvalError> {
    var outputFile := OutputFilename(a.llmModelName, a.promptName);
    var config := PromptfooConfig(a, noticeText, ProviderModel, outputFile);
    Interpret(runner(config, ConfigFilename(a.llmModelName, a.promptName), outputFile))
  }

  method RunEval(a: Analysis, noticeText: string, runner: PromptfooRunner) returns (r: Result<seq<EvaluationResult>, EvalError>)
    ensures r == Evaluation(a, noticeText, runner)
  {
    var configFile := ConfigFilename(a.llmModelName, a.promptName);
    var outputFile := OutputFilename(a.llmModelName, a.promptName);
    var config := GenerateConfig(a, noticeText, ProviderModel, outputFile);
    var outcome := runner(config, configFile, outputFile);
    match outcome {
      case NotInstalled =>
        r := Failure(PromptfooNotFound);
      case Exited(code, file) =>
        if code != 0 && code != 100 {
          r := Failure(PromptfooExit(code));
        } else {
          match file {
            case Missing =>
              r := Success([]);
            case Unparsable =>
              r := Failure(UnreadableOutput);
            case Parsed(out) =>
              var results := ExtractResults(out.testResults);
              r := Success(results);
          }
        }
    }
  }

  // ---- The driver over a manifest ----

  /** An analysis after its evaluation: the new results follow the existing ones; an
      evaluation that raised leaves the analysis as it was. */
  function EvaluatedAnalysis(a: Analysis, noticeText: string, runner: PromptfooRunner): Analysis {
    match Evaluation(a, noticeText, runner)
    case Success(results) => a.(evaluationResults := a.evaluationResults + results)
    case Failure(_) => a
  }

  /** A document whose first j analyses have been evaluated. */
  function PartlyEvaluated(d: Document, j: nat, runner: PromptfooRunner): (r: Document)
    ensures |r.noticeAnalysis| == |d.noticeAnalysis|
  {
    d.(noticeAnalysis := seq(|d.noticeAnalysis|, i requires 0 <= i < |d.noticeAnalysis| =>
      if i < j then EvaluatedAnalysis(d.noticeAnalysis[i], d.text, runner) else d.noticeAnalysis[i]))
  }

  function EvaluatedDocument(d: Document, runner: PromptfooRunner): Document {
    PartlyEvaluated(d, |d.noticeAnalysis|, runner)
  }

  function EvaluatedDocuments(docs: seq<Document>, runner: PromptfooRunner): (r: seq<Document>)
    ensures |r| == |docs|
  {
    seq(|docs|, k requires 0 <= k < |docs| => EvaluatedDocument(docs[k], runner))
  }

  /** The evaluation keeps every document and analysis in place: only the evaluation results
      of an analysis change, they gain that analysis's results after the existing ones, and an
      analysis whose evaluation raised is left unchanged. */
  lemma EvaluatedDocumentsShape(docs: seq<Document>, runner: PromptfooRunner, k: nat, j: nat)
    requires k < |docs| && j < |docs[k].noticeAnalysis|
    ensures var e := EvaluatedDocuments(docs, runner)[k];
      var a := docs[k].noticeAnalysis[j];
      var b := e.noticeAnalysis[j];
      && e.path == docs[k].path && e.text == docs[k].text && e.notes == docs[k].notes
      && |e.noticeAnalysis| == |docs[k].noticeAnalysis|
      && b.summary == a.summary && b.questions == a.questions
      && b.llmModelName == a.llmModelName && b.promptName == a.promptName
      && (Evaluation(a, docs[k].text, runner).Failure? ==> b == a)
      && (Evaluation(a, docs[k].text, runner).Success? ==>
            b.evaluationResults == a.evaluationResults + Evaluation(a, docs[k].text, runner).value)
  {
  }

  lemma PartlyEvaluatedNone(d: Document, runner: PromptfooRunner)
    ensures PartlyEvaluated(d, 0, runner) == d
  {
    assert PartlyEvaluated(d, 0, runner).noticeAnalysis == d.noticeAnalysis;
  }

  lemma PartlyEvaluatedStep(d: Document, j: nat, runner: PromptfooRunner)
    requires j < |d.noticeAnalysis|
    ensures var p := PartlyEvaluated(d, j, runner);
      PartlyEvaluated(d, j + 1, runner)
        == p.(noticeAnalysis := p.noticeAnalysis[j := EvaluatedAnalysis(d.noticeAnalysis[j], d.text, runner)])
  {
  }

  /** The inner loop: every analysis of document k, in order. */
  method EvaluateDocument(store: Store, k: nat, runner: PromptfooRunner)
    requires k < |store.documents|
    modifies store
    ensures |store.documents| == |old(store.documents)|
    ensures store.documents[k] == EvaluatedDocument(old(store.documents[k]), runner)
    ensures forall i :: 0 <= i < |store.documents| && i != k ==> store.documents[i] == old(store.documents[i])
  {
    ghost var docs := store.documents;
    ghost var d0 := store.documents[k];
    var m := |store.documents[k].noticeAnalysis|;
    PartlyEvaluatedNone(d0, runner);
    for j := 0 to m
      invariant |store.documents| == |docs|
      invariant forall i :: 0 <= i < |docs| && i != k ==> store.documents[i] == docs[i]
      invariant store.documents[k] == PartlyEvaluated(d0, j, runner)
    {
      var d := store.documents[k];
      var a := d.noticeAnalysis[j];
      assert a == d0.noticeAnalysis[j] && d.text == d0.text;
      var r := RunEval(a, d.text, runner);
      PartlyEvaluatedStep(d0, j, runner);
      if r.Success? {
        store.ExtendResults(k, j, r.value);
      } else {
        assert d.noticeAnalysis[j := a] == d.noticeAnalysis;
      }
    }
  }

  /** The `__main__` loop: every analysis of every document, in order, is evaluated against
      its document's text; a failure is logged and the loop goes on. */
  method EvaluateManifest(store: Store, runner: PromptfooRunner)
    modifies store
    ensures store.documents == EvaluatedDocuments(old(store.documents), runner)
  {
    ghost var docs := store.documents;
    var n := |store.documents|;
    for k := 0 to n
      invariant |store.documents| == n
      invariant forall i :: 0 <= i < k ==> store.documents[i] == EvaluatedDocument(docs[i], runner)
      invariant forall i :: k <= i < n ==> store.documents[i] == docs[i]
    {
      EvaluateDocument(store, k, runner);
    }
  }
}
