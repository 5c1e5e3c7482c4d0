/** `process_results` (process_results.py): every evaluation result of every analysis of every
    document of every manifest becomes one table row, labelled with its document's file name,
    its analysis and the value range of its metric; the table's related-analysis labels are
    then normalised to the four question categories and lower-cased. */
module ProcessResults {
  import opened Wrappers
  import opened Schema
  import opened Seqs
  import opened PyStr
  import opened PosixPath
  import opened FailFast
  import opened ManifestLoading

  /** The score a metric gives its best (`positive`) and its worst (`negative`) verdict. */
  datatype ValueRange = ValueRange(positive: int, negative: int)

  const OpikHallucination: string := "opik_eval_hallucination"

  /** `METRIC_VALUE_RANGE`. */
  const MetricValueRange: map<string, ValueRange> := map[
    "deep_eval_faithfulness" := ValueRange(1, 0),
    "deep_eval_answer_relevancy" := ValueRange(1, 0),
    "deep_eval_g_eval:clarity" := ValueRange(1, 0),
    "deep_eval_g_eval:bias" := ValueRange(1, 0),
    "deep_eval_g_eval:completeness" := ValueRange(1, 0),
    "deep_eval_g_eval:summarization_correctness" := ValueRange(1, 0),
    "mlflow_faithfulness" := ValueRange(5, 1),
    OpikHallucination := ValueRange(0, 1),
    "promptfoo_faithfulness" := ValueRange(1, 0),
    "ragas_faithfulness" := ValueRange(1, 0)]

  /** Every metric tells its best verdict from its worst. */
  lemma ValueRangesDistinct()
    ensures forall m :: m in MetricValueRange ==> MetricValueRange[m].positive != MetricValueRange[m].negative
  {
  }

  /** Opik's hallucination score is the one metric where lower is better. */
  lemma OnlyOpikInverted()
    ensures OpikHallucination in MetricValueRange
    ensures MetricValueRange[OpikHallucination].positive < MetricValueRange[OpikHallucination].negative
    ensures forall m :: m in MetricValueRange && MetricValueRange[m].positive < MetricValueRange[m].negative ==>
      m == OpikHallucination
  {
  }

  const RequiredActions: string := "Required Actions"
  const DocumentClassification: string := "Document Classification"
  const PlainLanguage: string := "Plain Language"
  const Effectiveness: string := "Effectiveness"

  /** The four question categories. */
  const Categories: set<string> := {RequiredActions, DocumentClassification, PlainLanguage, Effectiveness}

  /** `QUESTION_MAP`: the wordings the analysis prompts have used for each question. */
  const QuestionMap: map<string, string> := map[
    "Required Actions" := RequiredActions,
    "**Required Actions**" := RequiredActions,
    "What actions are required by the recipient?" := RequiredActions,
    "**Required Actions**: What specific actions, if any, must the recipient take after receiving this notice? Include deadlines and consequences of inaction." := RequiredActions,
    "Is the document primarily informational or is action required?" := DocumentClassification,
    "**Document Classification**: Determine whether this document is primarily informational (notifying the recipient of status or updates) or action-required (demanding a response to maintain benefits)." := DocumentClassification,
    "**Document Classification**" := DocumentClassification,
    "**Document Classification**: Determine whether this document is primarily informational (notifying the recipient of status or updates) or action-required (demanding a response to maintain benefits). Explain the potential consequences if the recipient does not respond to or act on this document." := DocumentClassification,
    "**Plain Language Assessment**: Evaluate whether this notice uses plain language appropriate for a 6th-grade reading level." := PlainLanguage,
    "**Plain Language Assessment**: Evaluate whether this notice uses plain language appropriate for a 6th-grade reading level. Consider vocabulary complexity, sentence structure, and use of jargon or technical terms." := PlainLanguage,
    "Is this notice written in plain language, at 6th-grade reading level or lower?" := PlainLanguage,
    "**Plain Language Assessment**" := PlainLanguage,
    "Plain Language Assessment" := PlainLanguage,
    "How could this document be more effective for the recipient?" := Effectiveness,
    "Effectiveness Improvements" := Effectiveness,
    "**Effectiveness Improvements**: Identify the most significant changes that would make this document more effective for the recipient, focusing on clarity, accessibility, and actionability." := Effectiveness,
    "**Effectiveness Improvements**" := Effectiveness]

  /** Every known wording maps to one of the four categories. */
  lemma QuestionMapCategories()
    ensures forall q :: q in QuestionMap ==> QuestionMap[q] in Categories
  {
  }

  /** The label the summary results carry. */
  const SummaryPart: string := "summary"

  /** `replace(QUESTION_MAP)` followed by `str.lower()` on one related-analysis label. */
  function NormaliseLabel(questions: map<string, string>, part: string): string {
    Lower(if part in questions then questions[part] else part)
  }

  /** A known wording becomes its lower-cased category; any other label is only lower-cased. */
  lemma NormaliseLabelCases(part: string)
    ensures part in QuestionMap ==>
      QuestionMap[part] in Categories && NormaliseLabel(QuestionMap, part) == Lower(QuestionMap[part])
    ensures part !in QuestionMap ==> NormaliseLabel(QuestionMap, part) == Lower(part)
  {
    QuestionMapCategories();
  }

  /** "summary" is not a question wording. */
  lemma SummaryUnmapped()
    ensures SummaryPart !in QuestionMap
  {
  }

  lemma SummaryLowercase()
    ensures Lower(SummaryPart) == SummaryPart
  {
    LowerOfLowercase(SummaryPart);
  }

  /** The summary results keep their label. */
  lemma SummaryLabelKept()
    ensures NormaliseLabel(QuestionMap, SummaryPart) == SummaryPart
  {
    SummaryUnmapped();
    SummaryLowercase();
  }

  /** One evaluation result together with what its row takes from the document and the
      analysis it belongs to. */
  datatype Entry = Entry(path: string, analysisLlm: string, analysisPrompt: string, result: EvaluationResult)

  /** A row as the loop builds it: the document columns, `evaluation_result.model_dump()`
      and the metric's value range. */
  datatype RawRow = RawRow(
    document: string, analysisLlm: string, analysisPrompt: string,
    metricName: string, score: Option<Score>, reason: Option<string>, details: Option<Details>,
    llmModelName: Option<string>, relatedAnalysis: Option<string>,
    positive: int, negative: int)

  /** A row of the returned table: `llm_model_name` renamed `evaluation_llm`, the label
      normalised, `details` dropped. */
  datatype Row = Row(
    document: string, analysisLlm: string, analysisPrompt: string,
    metricName: string, score: Option<Score>, reason: Option<string>,
    evaluationLlm: Option<string>, relatedAnalysis: Option<string>,
    positive: int, negative: int)

  /** `METRIC_VALUE_RANGE[...]` raises KeyError; `df["related_analysis"]` on the table built
      from no rows at all, which has no columns, raises KeyError too; and
      `hydrate_document_manifest` raises whatever hydrating a manifest raises. */
  datatype ProcessError =
    | UnknownMetric(metric: string)
    | MissingColumn(column: string)
    | HydrationFailed(error: HydrateError)

  const RelatedAnalysisColumn: string := "related_analysis"

  // ---- The rows, in the order of the four nested loops ----

  function AnalysisEntries(path: string, a: Analysis): seq<Entry> {
    seq(|a.evaluationResults|, i requires 0 <= i < |a.evaluationResults| =>
      Entry(path, a.llmModelName, a.promptName, a.evaluationResults[i]))
  }

  function AnalysisBlocks(path: string, analyses: seq<Analysis>): seq<seq<Entry>> {
    seq(|analyses|, j requires 0 <= j < |analyses| => AnalysisEntries(path, analyses[j]))
  }

  function DocumentEntries(d: Document): seq<Entry> {
    Concat(AnalysisBlocks(d.path, d.noticeAnalysis))
  }

  function DocumentBlocks(documents: seq<Document>): seq<seq<Entry>> {
    seq(|documents|, k requires 0 <= k < |documents| => DocumentEntries(documents[k]))
  }

  function ManifestEntries(m: Manifest): seq<Entry> {
    Concat(DocumentBlocks(m.documents))
  }

  function ManifestBlocks(manifests: seq<Manifest>): seq<seq<Entry>> {
    seq(|manifests|, k requires 0 <= k < |manifests| => ManifestEntries(manifests[k]))
  }

  /** Every result of every manifest, manifest by manifest, document by document, analysis by
      analysis. */
  function Entries(manifests: seq<Manifest>): seq<Entry> {
    Concat(ManifestBlocks(manifests))
  }

  /** The number of results, counted level by level. */
  function AnalysesResultCount(analyses: seq<Analysis>): nat {
    if analyses == [] then 0
    else AnalysesResultCount(analyses[..|analyses| - 1]) + |analyses[|analyses| - 1].evaluationResults|
  }

  function DocumentsResultCount(documents: seq<Document>): nat {
    if documents == [] then 0
    else DocumentsResultCount(documents[..|documents| - 1]) + AnalysesResultCount(documents[|documents| - 1].noticeAnalysis)
  }

  function ResultCount(manifests: seq<Manifest>): nat {
    if manifests == [] then 0
    else ResultCount(manifests[..|manifests| - 1]) + DocumentsResultCount(manifests[|manifests| - 1].documents)
  }

  lemma {:induction false} AnalysisBlocksLength(path: string, analyses: seq<Analysis>)
    ensures TotalLength(AnalysisBlocks(path, analyses)) == AnalysesResultCount(analyses)
  {
    if analyses != [] {
      var init := analyses[..|analyses| - 1];
      AnalysisBlocksLength(path, init);
      assert AnalysisBlocks(path, analyses)[..|analyses| - 1] == AnalysisBlocks(path, init);
    }
  }

  lemma {:induction false} DocumentBlocksLength(documents: seq<Document>)
    ensures TotalLength(DocumentBlocks(documents)) == DocumentsResultCount(documents)
  {
    if documents != [] {
      var init := documents[..|documents| - 1];
      var last := documents[|documents| - 1];
      DocumentBlocksLength(init);
      assert DocumentBlocks(documents)[..|documents| - 1] == DocumentBlocks(init);
      ConcatLength(AnalysisBlocks(last.path, last.noticeAnalysis));
      AnalysisBlocksLength(last.path, last.noticeAnalysis);
    }
  }

  lemma {:induction false} ManifestBlocksLength(manifests: seq<Manifest>)
    ensures TotalLength(ManifestBlocks(manifests)) == ResultCount(manifests)
  {
    if manifests != [] {
      var init := manifests[..|manifests| - 1];
      var last := manifests[|manifests| - 1];
      ManifestBlocksLength(init);
      assert ManifestBlocks(manifests)[..|manifests| - 1] == ManifestBlocks(init);
      ConcatLength(DocumentBlocks(last.documents));
      DocumentBlocksLength(last.documents);
    }
  }

  /** There is one entry per evaluation result. */
  lemma EntriesCount(manifests: seq<Manifest>)
    ensures |Entries(manifests)| == ResultCount(manifests)
  {
    ConcatLength(ManifestBlocks(manifests));
    ManifestBlocksLength(manifests);
  }

  // ---- Building the rows ----

  /** The row of one entry, or the KeyError of its metric's value range. */
  function RowOf(ranges: map<string, ValueRange>, e: Entry): Result<RawRow, ProcessError> {
    if e.result.metricName !in ranges then Failure(UnknownMetric(e.result.metricName))
    else
      var range := ranges[e.result.metricName];
      Success(RawRow(Basename(e.path), e.analysisLlm, e.analysisPrompt,
                     e.result.metricName, e.result.score, e.result.reason, e.result.details,
                     e.result.llmModelName, e.result.relatedAnalysis, range.positive, range.negative))
  }

  /** The row-building step of the innermost loop, as a function of the entry. */
  function RowFn(ranges: map<string, ValueRange>): Entry -> Result<RawRow, ProcessError> {
    e => RowOf(ranges, e)
  }

  /** The rows of the entries in order; the first unknown metric aborts the whole loop. */
  function Rows(ranges: map<string, ValueRange>, entries: seq<Entry>): Result<seq<RawRow>, ProcessError> {
    MapAll(RowFn(ranges), entries)
  }

  /** `for evaluation_result in analysis.evaluation_results: ... rows.append(...)`. */
  method AppendAnalysisRows(rows: seq<RawRow>, ranges: map<string, ValueRange>, path: string, a: Analysis)
    returns (r: Result<seq<RawRow>, ProcessError>)
    ensures r == Continue(rows, RowFn(ranges), AnalysisEntries(path, a))
  {
    var entries := AnalysisEntries(path, a);
    var acc := rows;
    ContinueEmpty(rows, RowFn(ranges), entries);
    for i := 0 to |a.evaluationResults|
      invariant Continue(rows, RowFn(ranges), entries[..i]) == Success(acc)
    {
      var result := a.evaluationResults[i];
      ContinueElement(rows, RowFn(ranges), entries, i, acc);
      if result.metricName !in ranges {
        return Failure(UnknownMetric(result.metricName));
      }
      var range := ranges[result.metricName];
      acc := acc + [RawRow(Basename(path), a.llmModelName, a.promptName,
                           result.metricName, result.score, result.reason, result.details,
                           result.llmModelName, result.relatedAnalysis, range.positive, range.negative)];
    }
    assert entries[..|a.evaluationResults|] == entries;
    return Success(acc);
  }

  /** `for analysis in document.notice_analysis: ...`. */
  method AppendDocumentRows(rows: seq<RawRow>, ranges: map<string, ValueRange>, d: Document)
    returns (r: Result<seq<RawRow>, ProcessError>)
    ensures r == Continue(rows, RowFn(ranges), DocumentEntries(d))
  {
    var blocks := AnalysisBlocks(d.path, d.noticeAnalysis);
    var acc := rows;
    ContinueBlocksEmpty(rows, RowFn(ranges), blocks);
    for j := 0 to |d.noticeAnalysis|
      invariant Continue(rows, RowFn(ranges), Concat(blocks[..j])) == Success(acc)
    {
      var next := AppendAnalysisRows(acc, ranges, d.path, d.noticeAnalysis[j]);
      ContinueBlock(rows, RowFn(ranges), blocks, j, acc, next);
      if next.Failure? {
        return next;
      }
      acc := next.value;
    }
    assert blocks[..|d.noticeAnalysis|] == blocks;
    return Success(acc);
  }

  /** `for document in manifest.documents: ...`. */
  method AppendManifestRows(rows: seq<RawRow>, ranges: map<string, ValueRange>, m: Manifest)
    returns (r: Result<seq<RawRow>, ProcessError>)
    ensures r == Continue(rows, RowFn(ranges), ManifestEntries(m))
  {
    var blocks := DocumentBlocks(m.documents);
    var acc := rows;
    ContinueBlocksEmpty(rows, RowFn(ranges), blocks);
    for k := 0 to |m.documents|
      invariant Continue(rows, RowFn(ranges), Concat(blocks[..k])) == Success(acc)
    {
      var next := AppendDocumentRows(acc, ranges, m.documents[k]);
      ContinueBlock(rows, RowFn(ranges), blocks, k, acc, next);
      if next.Failure? {
        return next;
      }
      acc := next.value;
    }
    assert blocks[..|m.documents|] == blocks;
    return Success(acc);
  }

  // ---- The table operations ----

  /** The rename, the label replacement and lower-casing, and the column drop, on one row. */
  function Finalise(questions: map<string, string>, row: RawRow): Row {
    Row(row.document, row.analysisLlm, row.analysisPrompt, row.metricName, row.score, row.reason,
        row.llmModelName,
        match row.relatedAnalysis
        case None => None
        case Some(part) => Some(NormaliseLabel(questions, part)),
        row.positive, row.negative)
  }

  /** The whole-table operations; a table without rows has no `related_analysis` column. */
  function Table(questions: map<string, string>, rows: seq<RawRow>): Result<seq<Row>, ProcessError> {
    if rows == [] then Failure(MissingColumn(RelatedAnalysisColumn))
    else Success(seq(|rows|, i requires 0 <= i < |rows| => Finalise(questions, rows[i])))
  }

  /** What `process_results` returns for the given manifests, with the given value-range and
      question tables. */
  function Processed(ranges: map<string, ValueRange>, questions: map<string, string>, manifests: seq<Manifest>): Result<seq<Row>, ProcessError> {
    var rows :- Rows(ranges, Entries(manifests));
    Table(questions, rows)
  }

  // ---- Hydrating the manifests inside the loop ----

  /** The rows once the loop has gone over the given manifest paths: each manifest is
      hydrated when the loop reaches it, and its rows follow those of the earlier ones. */
  function Collected(ranges: map<string, ValueRange>, load: string -> Result<Manifest, HydrateError>, paths: seq<string>): Result<seq<RawRow>, ProcessError> {
    if paths == [] then Success([])
    else
      var rows :- Collected(ranges, load, paths[..|paths| - 1]);
      match load(paths[|paths| - 1])
      case Failure(e) => Failure(HydrationFailed(e))
      case Success(m) => Continue(rows, RowFn(ranges), ManifestEntries(m))
  }

  /** What `process_results` returns for the given manifest paths. */
  function Loaded(ranges: map<string, ValueRange>, questions: map<string, string>,
                  load: string -> Result<Manifest, HydrateError>, paths: seq<string>): Result<seq<Row>, ProcessError> {
    var rows :- Collected(ranges, load, paths);
    Table(questions, rows)
  }

  /** Once the loop has failed, later manifests change nothing. */
  lemma {:induction false} CollectedPrefix(ranges: map<string, ValueRange>, load: string -> Result<Manifest, HydrateError>,
                                           paths: seq<string>, k: nat)
    requires k <= |paths| && Collected(ranges, load, paths[..k]).Failure?
    ensures Collected(ranges, load, paths) == Collected(ranges, load, paths[..k])
  {
    if k < |paths| {
      var init := paths[..|paths| - 1];
      assert init[..k] == paths[..k];
      CollectedPrefix(ranges, load, init, k);
    } else {
      assert paths[..k] == paths;
    }
  }

  lemma EntriesSnoc(ms: seq<Manifest>)
    requires ms != []
    ensures Entries(ms) == Entries(ms[..|ms| - 1]) + ManifestEntries(ms[|ms| - 1])
  {
    var blocks := ManifestBlocks(ms);
    assert blocks == ManifestBlocks(ms[..|ms| - 1]) + [ManifestEntries(ms[|ms| - 1])];
    ConcatSnoc(ManifestBlocks(ms[..|ms| - 1]), ManifestEntries(ms[|ms| - 1]));
  }

  /** When every manifest hydrates, the loop yields the rows of the hydrated manifests. */
  lemma {:induction false} CollectedAllLoaded(ranges: map<string, ValueRange>, load: string -> Result<Manifest, HydrateError>,
                                              paths: seq<string>, ms: seq<Manifest>)
    requires |ms| == |paths|
    requires forall j :: 0 <= j < |paths| ==> load(paths[j]) == Success(ms[j])
    ensures Collected(ranges, load, paths) == Rows(ranges, Entries(ms))
  {
    if paths == [] {
      assert Entries(ms) == [];
    } else {
      var n := |paths|;
      var init, ms' := paths[..n - 1], ms[..n - 1];
      assert forall j :: 0 <= j < n - 1 ==> load(init[j]) == Success(ms'[j]);
      CollectedAllLoaded(ranges, load, init, ms');
      assert load(paths[n - 1]) == Success(ms[n - 1]);
      RowsSnoc(ranges, ms);
    }
  }

  /** Hydration and row building interleave: when the first k manifests hydrate (to `ms`)
      and manifest k does not, the loop reports the first unknown metric among the rows of
      `ms` if there is one, and manifest k's hydration error otherwise. */
  lemma CollectedStopped(ranges: map<string, ValueRange>, load: string -> Result<Manifest, HydrateError>,
                         paths: seq<string>, ms: seq<Manifest>, k: nat)
    requires k < |paths| && |ms| == k
    requires forall j :: 0 <= j < k ==> load(paths[j]) == Success(ms[j])
    requires load(paths[k]).Failure?
    ensures Collected(ranges, load, paths) ==
      if Rows(ranges, Entries(ms)).Failure? then Failure(Rows(ranges, Entries(ms)).error)
      else Failure(HydrationFailed(load(paths[k]).error))
  {
    var prefix := paths[..k + 1];
    assert prefix[..k] == paths[..k];
    assert forall j :: 0 <= j < k ==> load(paths[..k][j]) == Success(ms[j]);
    CollectedAllLoaded(ranges, load, paths[..k], ms);
    assert prefix[k] == paths[k];
    CollectedPrefix(ranges, load, paths, k + 1);
  }

  /** The rows of one more manifest follow those of the manifests before it. */
  lemma RowsSnoc(ranges: map<string, ValueRange>, ms: seq<Manifest>)
    requires ms != []
    ensures Rows(ranges, Entries(ms)) ==
      match Rows(ranges, Entries(ms[..|ms| - 1]))
      case Failure(e) => Failure(e)
      case Success(rows) => Continue(rows, RowFn(ranges), ManifestEntries(ms[|ms| - 1]))
  {
    EntriesSnoc(ms);
    MapAllAppend(RowFn(ranges), Entries(ms[..|ms| - 1]), ManifestEntries(ms[|ms| - 1]));
  }

  /** When every manifest hydrates, `process_results` is the table of the hydrated manifests;
      otherwise it fails with the first error the loop meets. */
  lemma LoadedFacts(ranges: map<string, ValueRange>, questions: map<string, string>,
                    load: string -> Result<Manifest, HydrateError>, paths: seq<string>, ms: seq<Manifest>, k: nat)
    requires k <= |paths| && |ms| == k
    requires forall j :: 0 <= j < k ==> load(paths[j]) == Success(ms[j])
    requires k < |paths| ==> load(paths[k]).Failure?
    ensures k == |paths| ==> Loaded(ranges, questions, load, paths) == Processed(ranges, questions, ms)
    ensures k < |paths| ==>
      Loaded(ranges, questions, load, paths) ==
        if Rows(ranges, Entries(ms)).Failure? then Failure(Rows(ranges, Entries(ms)).error)
        else Failure(HydrationFailed(load(paths[k]).error))
  {
    if k == |paths| {
      CollectedAllLoaded(ranges, load, paths, ms);
    } else {
      CollectedStopped(ranges, load, paths, ms, k);
    }
  }

  /** The four nested loops of `process_results`, each manifest hydrated as the loop reaches
      it. */
  method CollectRows(ranges: map<string, ValueRange>, manifestFiles: map<string, Option<seq<JsonDocument>>>,
                     files: map<string, string>, paths: seq<string>)
    returns (r: Result<seq<RawRow>, ProcessError>)
    ensures r == Collected(ranges, LoadFn(manifestFiles, files), paths)
  {
    var rows := [];
    for k := 0 to |paths|
      invariant Collected(ranges, LoadFn(manifestFiles, files), paths[..k]) == Success(rows)
    {
      assert paths[..k + 1][..k] == paths[..k];
      var manifest := LoadManifest(manifestFiles, files, paths[k]);
      if manifest.Failure? {
        CollectedPrefix(ranges, LoadFn(manifestFiles, files), paths, k + 1);
        return Failure(HydrationFailed(manifest.error));
      }
      var next := AppendManifestRows(rows, ranges, manifest.value);
      if next.Failure? {
        CollectedPrefix(ranges, LoadFn(manifestFiles, files), paths, k + 1);
        return next;
      }
      rows := next.value;
    }
    assert paths[..|paths|] == paths;
    return Success(rows);
  }

  /** `process_results(manifests)`. */
  method ProcessManifests(paths: seq<string>, manifestFiles: map<string, Option<seq<JsonDocument>>>, files: map<string, string>)
    returns (r: Result<seq<Row>, ProcessError>)
    ensures r == Loaded(MetricValueRange, QuestionMap, LoadFn(manifestFiles, files), paths)
  {
    var rows := CollectRows(MetricValueRange, manifestFiles, files, paths);
    if rows.Failure? {
      return Failure(rows.error);
    }
    r := Table(QuestionMap, rows.value);
  }

  /** The table has one row per evaluation result, in nested loop order, each carrying its
      document's file name, its analysis's model and prompt, the result's fields with the
      label normalised, and its metric's value range. It fails exactly when some metric has no
      value range (the first such metric is reported) or there is no result at all. */
  lemma ProcessedRows(ranges: map<string, ValueRange>, questions: map<string, string>, manifests: seq<Manifest>)
    ensures var es := Entries(manifests);
      Processed(ranges, questions, manifests).Success? <==>
        (forall i :: 0 <= i < |es| ==> es[i].result.metricName in ranges) && ResultCount(manifests) > 0
    ensures var es := Entries(manifests);
      Processed(ranges, questions, manifests).Failure? ==>
        Processed(ranges, questions, manifests).error ==
          if FirstFailure(RowFn(ranges), es) < |es| then UnknownMetric(es[FirstFailure(RowFn(ranges), es)].result.metricName)
          else MissingColumn(RelatedAnalysisColumn)
    ensures Processed(ranges, questions, manifests).Success? ==>
      |Processed(ranges, questions, manifests).value| == |Entries(manifests)| == ResultCount(manifests)
    ensures var es := Entries(manifests);
      Processed(ranges, questions, manifests).Success? ==>
        forall i :: 0 <= i < |es| ==>
          var e := es[i];
          var row := Processed(ranges, questions, manifests).value[i];
          && row.document == Basename(e.path)
          && row.analysisLlm == e.analysisLlm && row.analysisPrompt == e.analysisPrompt
          && row.metricName == e.result.metricName && row.score == e.result.score && row.reason == e.result.reason
          && row.evaluationLlm == e.result.llmModelName
          && row.relatedAnalysis == (if e.result.relatedAnalysis.Some? then Some(NormaliseLabel(questions, e.result.relatedAnalysis.value)) else None)
          && row.positive == ranges[e.result.metricName].positive
          && row.negative == ranges[e.result.metricName].negative
  {
    EntriesCount(manifests);
    var es := Entries(manifests);
    MapAllFacts(RowFn(ranges), es);
  }

  /** An analysis contributes one entry per result, carrying its model and prompt. */
  lemma AnalysisEntriesMembers(path: string, a: Analysis, e: Entry)
    ensures e in AnalysisEntries(path, a) <==>
      e.path == path && e.analysisLlm == a.llmModelName && e.analysisPrompt == a.promptName && e.result in a.evaluationResults
  {
    if e.result in a.evaluationResults {
      var i :| 0 <= i < |a.evaluationResults| && a.evaluationResults[i] == e.result;
      assert AnalysisEntries(path, a)[i] == Entry(path, a.llmModelName, a.promptName, e.result);
    }
  }

  /** A document's entries are those of its analyses. */
  lemma DocumentEntriesMembers(d: Document, e: Entry)
    ensures e in DocumentEntries(d) <==>
      exists l :: 0 <= l < |d.noticeAnalysis| && e in AnalysisEntries(d.path, d.noticeAnalysis[l])
  {
    var blocks := AnalysisBlocks(d.path, d.noticeAnalysis);
    InConcat(blocks, e);
    assert forall l :: 0 <= l < |blocks| ==> blocks[l] == AnalysisEntries(d.path, d.noticeAnalysis[l]);
  }

  /** A manifest's entries are those of its documents. */
  lemma ManifestEntriesMembers(m: Manifest, e: Entry)
    ensures e in ManifestEntries(m) <==> exists j :: 0 <= j < |m.documents| && e in DocumentEntries(m.documents[j])
  {
    var blocks := DocumentBlocks(m.documents);
    InConcat(blocks, e);
    assert forall j :: 0 <= j < |blocks| ==> blocks[j] == DocumentEntries(m.documents[j]);
  }

  /** The entries of all manifests are those of each manifest. */
  lemma EntriesMembers(manifests: seq<Manifest>, e: Entry)
    ensures e in Entries(manifests) <==> exists k :: 0 <= k < |manifests| && e in ManifestEntries(manifests[k])
  {
    var blocks := ManifestBlocks(manifests);
    InConcat(blocks, e);
    assert forall k :: 0 <= k < |blocks| ==> blocks[k] == ManifestEntries(manifests[k]);
  }
}
