# eval_eval in Dafny

A Dafny model of the data handling inside `eval_eval`. `eval_eval` is a pipeline that:

- analyses benefit notices with LLMs;
- translates them;
- scores the analyses with several evaluation frameworks (promptfoo, Opik, ROUGE, MLflow, Ragas);
- flattens the verdicts into a results table.

Every language-model call, translator, scorer and subprocess is an uninterpreted parameter (an arrow-typed argument). The file system and the parsed JSON are input values. What remains is verified:

- the record types;
- the enumeration of the work items;
- the way results are built, appended and flattened.

One Dafny module per source file:

| module | source file | form |
|---|---|---|
| `Schema` | `se_eval_eval/schema.py` | datatypes, validation and dump functions |
| `PromptfooExperiment` | `experiments/promptfoo_experiment.py` | functions for the config and names; methods for the loops; a store class for the driver |
| `ProcessResults` | `process_results.py` | loop methods proved against `Rows`/`Processed` |
| `NoticeAnalysis` | `se_eval_eval/analysis.py` | task-scheduling and batch methods over a `DocumentStore.Store` |
| `LlmTranslation`, `GoogleTranslation` | `se_eval_eval/llm_translation.py`, `se_eval_eval/google_translation.py` | nested task-building loops; in-place `extend` on a `Translations.TranslatedManifest` |
| `Preprocess` | `se_eval_eval/preprocess.py` | the shared language list as a class (`SharedLanguages`) whose `remove` mutates it |
| `ExperimentDiscovery` | `se_eval_eval/utility.py` | module/member filters and the collection loop |
| `ManifestLoading` | `eval_eval/utility.py` | the parsed manifest as a class whose documents get their text in place |
| `Opik`, `Rouge`, `Mlflow`, `Ragas` | `experiments/*_experiment.py` | one module per adaptor |
| `TextExtraction` | `se_eval_eval/preprocess/text_extraction.py` | a file-system class; the page loop and the path derivation |

Shared helpers:

- `Wrappers`: Option and Result.
- `Seqs`: concatenation of nested lists.
- `FailFast`: a loop that stops at the first raising element.
- `PyStr`: Python's `replace`, `lower`, `strip` and `str(n)`.
- `PosixPath`: `os.path.basename`, `dirname` and `join`.

The model is also shaped by these features of the source:

- **Shared language list in `preprocess.py`.** `translate_document` removes "English" from the module-level list of supported languages itself, and does not copy it first. So each document uses up one occurrence of "English". The stage raises `ValueError` at the first document for which none is left, which is the second document when "English" is listed once. A reply that does not validate raises pydantic's ValidationError and stops the stage too, after that document's removal. `Preprocess.PreprocessManifest` and `Preprocess.SecondDocumentFails` state this. The LLM and Google stages copy the list first. Their models take the list as a value, with no shared state to change.
- **Fields from the other schema.** The adaptors import their records from `eval_eval/schema.py`, which is not part of this model. The adaptors read or write two fields that `se_eval_eval/schema.py` lacks: `EvaluationResult.related_analysis` and `AnalysisQuestion.context_chunks`. The shared `Schema` module carries both, as optional fields. `se_eval_eval/schema.py:15-17` declares `EvaluationResult.score` as required. The model makes it optional, on the assumption that eval_eval's schema allows a missing score, because the Ragas adaptor builds a result without one (under the se_eval_eval declaration that construction would raise a ValidationError).
- **Records the source imports but does not define.** The three translation stages import `Translation`, `SUPPORTED_LANGUAGES` and `Document` from `se_eval_eval/schema.py` (llm_translation.py:9, google_translation.py:9, preprocess.py:8), and `rouge_experiment.py:7` imports `Scenario` and `Result` from it. That file defines none of these names except `Document`. Its `Document` (`se_eval_eval/schema.py:52-60`) has no `translations`, `name`, `en_name` or `get_translation_by_language`, yet the stages read them (llm_translation.py:20-22, google_translation.py:22-24, preprocess.py:24-26). So the model assumes a translated-document record of its own (`Translations.TranslatedDocument`), holding a list of `Translation` records with the fields `text`, `language`, `author`, `prompt` and `part`. It keeps only the fields the modelled code reads or writes. `Scenario` and `Result` likewise keep only the fields they use.

## Model

| member | source | states |
|---|---|---|
| Schema.ValidateEvaluationResult | se_eval_eval/schema.py:11-28 | Validation succeeds exactly when metric_name and score are present. The result then has a score, and carries every raw field: dumping it gives back the raw object. |
| Schema.ValidateQuestion | se_eval_eval/schema.py:31-33 | A question validates exactly when both question and answer are present. It then carries the raw question, answer and chunks: dumping it gives back the raw object. |
| Schema.ValidateAnalysis | se_eval_eval/schema.py:36-49 | An analysis validates exactly when: the summary is present; there are exactly four questions and each validates; and every given evaluation result validates. A validated analysis has four questions and keeps its summary. Its model and prompt names are the given ones or "". Question i and result i are raw entry i validated; absent results give none. |
| Schema.ValidateDocument | se_eval_eval/schema.py:52-60 | Validation succeeds exactly when path and text are present and every given analysis validates. A validated document keeps the given path, text and notes. Its analyses are the given ones validated one by one, in order; an absent list gives none. Every analysis of a validated document has four questions. |
| Schema.ValidateManifest | se_eval_eval/schema.py:63-66 | Validation succeeds exactly when every given document validates. An absent documents key gives the empty manifest. Otherwise document i of the manifest is entry i validated. |
| Schema.Defaults | se_eval_eval/schema.py:18-66 | Absent optional fields take their declared defaults: None for reason, details, llm_model_name and notes; "" for the analysis model and prompt names; the empty list for evaluation_results, notice_analysis and documents. |
| Schema.AnalysisRoundTrip | se_eval_eval/schema.py:36-49 | Dumping an analysis with four questions and scored results, then validating it, gives back the same analysis. |
| Schema.DocumentRoundTrip | se_eval_eval/schema.py:52-60 | The same round trip for a document whose analyses all qualify. |
| Schema.ManifestRoundTrip | se_eval_eval/schema.py:63-66 | The same round trip for a whole manifest. |
| PromptfooExperiment.QuestionTests | experiments/promptfoo_experiment.py:51-71 | There is one test per question, in question order. |
| PromptfooExperiment.GenerateConfig | experiments/promptfoo_experiment.py:22-79 | The loop that appends the tests builds exactly the configuration `PromptfooConfig` describes. |
| PromptfooExperiment.ConfigTests | experiments/promptfoo_experiment.py:26-71 | The configuration holds 1 + (number of questions) tests: the summary test first, then question i at position i + 1. Each test has a single context-faithfulness assertion at threshold 0.5 with the given provider. Its context is the notice text. Its prompt and query are the summary and the fixed query, or the answer and the question. Its related part is "summary" or the question. Its description is "Summary" or "Question <i+1>", followed by " Faithfulness for <model> with <prompt>". |
| PromptfooExperiment.ValidAnalysisFiveTests | experiments/promptfoo_experiment.py:26-71 | A valid analysis, with its four questions, yields five tests. |
| PromptfooExperiment.QuestionDescriptionInjective | experiments/promptfoo_experiment.py:65 | Descriptions "Question {i+1} ..." with the same tail are equal only for the same i. |
| PromptfooExperiment.DescriptionsDistinct | experiments/promptfoo_experiment.py:42-65 | No two question tests share a description, and none shares the summary test's description. |
| PromptfooExperiment.Sanitize | experiments/promptfoo_experiment.py:93-94 | The name keeps its length. Each ':', '/' and '\\' becomes '_'; every other character is kept. |
| PromptfooExperiment.SanitizeClean | experiments/promptfoo_experiment.py:93-94 | A sanitised name has none of the three characters and no '/'. Sanitising twice is sanitising once. |
| PromptfooExperiment.SanitizeKeepsSafe | experiments/promptfoo_experiment.py:93-94 | A name without the three characters is unchanged. |
| PromptfooExperiment.SanitizeCollides | experiments/promptfoo_experiment.py:93-94 | Sanitising is not injective: replacing one unsafe character with '_' gives another name with the same sanitised form. |
| PromptfooExperiment.FileStem | experiments/promptfoo_experiment.py:96-99 | The stem `<base>_<model>_<prompt>` is non-empty and has no '/'. |
| PromptfooExperiment.StemInExperiments | experiments/promptfoo_experiment.py:96-99 | A file named by the stem sits directly in `experiments`, under that name. |
| PromptfooExperiment.ConfigFilenameParts | experiments/promptfoo_experiment.py:96-97 | The config file's directory is `experiments`. Its name is `promptfooconfig_<model>_<prompt>.yaml` with the names sanitised. |
| PromptfooExperiment.OutputFilenameParts | experiments/promptfoo_experiment.py:98-99 | The output file's directory is `experiments`. Its name is `promptfoo_output_<model>_<prompt>.json`. |
| PromptfooExperiment.FromComponent | experiments/promptfoo_experiment.py:142-158 | A result has metric promptfoo_faithfulness, model "openai:gpt-4.1", no details and the test's part. A missing score becomes 0 and a missing reason "No reason provided.". |
| PromptfooExperiment.AppendTestResults | experiments/promptfoo_experiment.py:141-158 | The inner loop appends exactly the test case's results after the existing ones. |
| PromptfooExperiment.ExtractResults | experiments/promptfoo_experiment.py:138-159 | The nested loop yields exactly `Extracted`: test case by test case, component by component. |
| PromptfooExperiment.TestResultsMembers | experiments/promptfoo_experiment.py:141-158 | A result belongs to a test case's results exactly when some component of type context-faithfulness yields it. |
| PromptfooExperiment.TestResultsLength | experiments/promptfoo_experiment.py:141-142 | There are as many results as components of type context-faithfulness. Components of other types contribute nothing. |
| PromptfooExperiment.ExtractedFields | experiments/promptfoo_experiment.py:147-157 | Every result has the promptfoo metric, the fixed model, a score, a reason and no details. Its part is the related part of one of the test cases, or "unknown" when that test's metadata lacks one. |
| PromptfooExperiment.ExtractedOnePerTest | experiments/promptfoo_experiment.py:138-159 | When every test reports one faithfulness component, there is one result per test, in order. |
| PromptfooExperiment.EchoedParts | experiments/promptfoo_experiment.py:44-67 | If promptfoo echoes each test's metadata with one faithfulness component, the results read "summary" and then question i at position i + 1. |
| PromptfooExperiment.Interpret | experiments/promptfoo_experiment.py:130-207 | The run succeeds exactly when its exit code is 0 or 100 and the output file is absent or parses. A missing file gives []. Any other exit code re-raises with that code. A missing `promptfoo` raises. |
| PromptfooExperiment.ExitCode100IsSuccess | experiments/promptfoo_experiment.py:161-198 | Exit code 100 is read exactly like exit code 0. |
| PromptfooExperiment.RunEval | experiments/promptfoo_experiment.py:82-210 | `run_eval` builds the file names and the config, runs promptfoo and interprets the outcome, exactly as `Evaluation` describes. |
| PromptfooExperiment.EvaluatedDocumentsShape | experiments/promptfoo_experiment.py:248-272 | After the driver, every document and analysis keeps its place and fields. An analysis whose evaluation succeeded gains its results after its existing ones. A failed one is unchanged. |
| PromptfooExperiment.EvaluateDocument | experiments/promptfoo_experiment.py:250-272 | The inner loop evaluates every analysis of one document in order and leaves the other documents alone. |
| PromptfooExperiment.EvaluateManifest | experiments/promptfoo_experiment.py:248-272 | The driver turns the store into `EvaluatedDocuments` of the old store: a failed analysis is skipped and the loop goes on. |
| ProcessResults.ValueRangesDistinct | process_results.py:10-51 | In every METRIC_VALUE_RANGE entry, positive differs from negative. |
| ProcessResults.OnlyOpikInverted | process_results.py:10-51 | opik_eval_hallucination is the only metric whose positive value is below its negative one. |
| ProcessResults.QuestionMapCategories | process_results.py:53-71 | Every QUESTION_MAP value is one of the four categories. |
| ProcessResults.NormaliseLabelCases | process_results.py:111-112 | A known wording becomes its lower-cased category. Any other label is only lower-cased. |
| ProcessResults.SummaryUnmapped | process_results.py:53-71 | "summary" is not one of QUESTION_MAP's wordings. |
| ProcessResults.SummaryLabelKept | process_results.py:111-112 | "summary" is not in QUESTION_MAP and stays "summary". |
| ProcessResults.EntriesCount | process_results.py:94-108 | There is one entry per evaluation result, over all manifests, documents and analyses. |
| ProcessResults.AppendAnalysisRows | process_results.py:97-108 | The innermost loop appends one row per result, in order, or stops at the first metric without a value range. |
| ProcessResults.AppendDocumentRows | process_results.py:96-108 | The analysis loop continues the rows over the document's entries in analysis order. |
| ProcessResults.AppendManifestRows | process_results.py:95-108 | The document loop continues the rows over the manifest's entries in document order. |
| ProcessResults.CollectRows | process_results.py:96-108 | The loop over manifest paths hydrates each manifest and appends its rows in nested-loop order. It computes `Collected`: it stops at the first manifest that fails to hydrate or the first result whose metric has no value range. |
| ProcessResults.CollectedAllLoaded | process_results.py:96-108 | When every manifest hydrates, the loop gives `Rows` over the entries of the hydrated manifests, just as for already-loaded manifests. |
| ProcessResults.CollectedStopped | process_results.py:96-108 | When the first k manifests hydrate and manifest k does not, the loop reports the first unknown metric among the rows of the first k manifests, or else manifest k's hydration error. |
| ProcessResults.CollectedPrefix | process_results.py:96-108 | Once the loop has raised, the later manifests change nothing. |
| ProcessResults.ProcessManifests | process_results.py:94-115 | `process_results` hydrates the manifests at the given paths and computes `Loaded` with the table constants. |
| ProcessResults.LoadedFacts | process_results.py:94-115 | When every path hydrates, the result is `Processed` of the hydrated manifests (see `ProcessedRows`). When manifest k is the first that fails, the result is the first unknown-metric error among the earlier manifests' rows, or else manifest k's hydration error. |
| ProcessResults.ProcessedRows | process_results.py:94-113 | The table succeeds exactly when every metric has a value range and there is at least one result. A failure names the first unknown metric, or the missing column. There is one row per result. Each row carries: the basename of the document path; the analysis model and prompt; the result's metric, score and reason; the evaluation model; the normalised label; and the metric's positive and negative values. |
| ProcessResults.AnalysisEntriesMembers | process_results.py:97-105 | An analysis's entries are exactly its results, each with the analysis's model and prompt. |
| ProcessResults.DocumentEntriesMembers | process_results.py:96 | A document's entries are exactly those of its analyses. |
| ProcessResults.ManifestEntriesMembers | process_results.py:95 | A manifest's entries are exactly those of its documents. |
| ProcessResults.EntriesMembers | process_results.py:94 | The entries of all manifests are exactly those of each manifest. |
| NoticeAnalysis.Distinct | se_eval_eval/analysis.py:28 | The keys of the task dictionary are the models, each once. |
| NoticeAnalysis.PerDocumentMembers | se_eval_eval/analysis.py:30-34 | Every call scheduled for a document and model names them and one of the two prompts. |
| NoticeAnalysis.ModelTasksMembers | se_eval_eval/analysis.py:29-34 | Every call in model m's list names a document of the manifest and m. |
| NoticeAnalysis.TasksOverMembers | se_eval_eval/analysis.py:36 | Every call over the given keys names a document, one of the keys and one of the prompts. |
| NoticeAnalysis.Batches | se_eval_eval/analysis.py:37-38 | Every batch is non-empty and holds at most BATCH_SIZE calls. |
| NoticeAnalysis.BatchesCover | se_eval_eval/analysis.py:13-40 | Concatenating the batches gives back the task list. Every batch but the last is full. |
| NoticeAnalysis.DistinctCounts | se_eval_eval/analysis.py:28-32 | Summed over the keys, each model is counted once per occurrence in the model list. |
| NoticeAnalysis.ScheduleLength | se_eval_eval/analysis.py:28-40 | There are (documents) x (models) x 2 calls, counting a repeated model once per occurrence. |
| NoticeAnalysis.ScheduleCoverage | se_eval_eval/analysis.py:28-40 | Each document is the subject of (models) x 2 calls. Every call names a document, a listed model and one of the two prompts. |
| NoticeAnalysis.Analyse | se_eval_eval/analysis.py:48-54 | The call succeeds exactly when the model's reply validates, and otherwise fails with the reply's validation error. A validated reply keeps its summary, questions and results, and is stamped with the model's name and the prompt's name. It has four questions. |
| NoticeAnalysis.EnrichedBy | se_eval_eval/analysis.py:55 | Enrichment keeps the documents, their paths, texts and notes. |
| NoticeAnalysis.Collect | se_eval_eval/analysis.py:39-41 | The output lists the document at each given position, in order. |
| NoticeAnalysis.EnrichedSnoc | se_eval_eval/analysis.py:55 | One more call appends its analysis to its own document and changes no other. |
| NoticeAnalysis.AnalysableEnriched | se_eval_eval/analysis.py:48 | Earlier analyses do not change which calls validate: the prompt reads only the text. |
| NoticeAnalysis.EnrichedAppend | se_eval_eval/analysis.py:36-40 | Running one list of calls after another is the same as running the joined list. |
| NoticeAnalysis.AttachAnalysis | se_eval_eval/analysis.py:44-56 | A reply that validates is appended, stamped, to its own document, leaving earlier analyses untouched. A reply that fails raises and changes nothing. |
| NoticeAnalysis.AnalysedSnoc | se_eval_eval/analysis.py:52-55 | A call whose reply validates appends exactly that reply to its own document. |
| NoticeAnalysis.RunBatch | se_eval_eval/analysis.py:39 | A batch succeeds exactly when all its calls validate. It then enriches the documents by the batch and returns their positions in call order. |
| NoticeAnalysis.RunModelTasks | se_eval_eval/analysis.py:37-40 | The slices the loop takes (returned as a ghost list) are always a prefix of `Batches(tasks, BATCH_SIZE)`, and on success exactly that list, in order. The batch loop over one model's list has the same effect as running the list in order, and returns the document of each call. |
| NoticeAnalysis.BatchProgress | se_eval_eval/analysis.py:37-38 | When the batches run so far make up the first i calls, the slice `model_tasks[i : i + BATCH_SIZE]` is the next batch. |
| NoticeAnalysis.AppendPrompts | se_eval_eval/analysis.py:31-34 | prompt_1 and then prompt_2 are appended to the list of one model. |
| NoticeAnalysis.ScheduleDocument | se_eval_eval/analysis.py:30-34 | One pass over the models appends each model's prompt pairs for the document. |
| NoticeAnalysis.ScheduleTasks | se_eval_eval/analysis.py:28-34 | The dictionary has one key per model. Each key's list is document-major, with prompt_1 before prompt_2. |
| NoticeAnalysis.RunAllModels | se_eval_eval/analysis.py:36-40 | The model lists run in key order. The output is the document of every call in that order. |
| NoticeAnalysis.GenerateAnalysis | se_eval_eval/analysis.py:27-41 | The run succeeds exactly when every call validates. Every document is then enriched by the whole schedule. The returned manifest lists the document of every call: (documents) x (models) x 2 entries. |
| LlmTranslation.PromptTasks | se_eval_eval/llm_translation.py:33-43 | There is one task per prompt, in prompt order. |
| LlmTranslation.TranslateText | se_eval_eval/llm_translation.py:47-58 | The call raises ValidationError exactly when the reply does not validate as a Translation. Otherwise the reply's text is kept, and language, part, author and prompt are set to what was asked, whatever the model returned. |
| LlmTranslation.TranslateAll | se_eval_eval/llm_translation.py:44-58 | The gather succeeds exactly when every task's reply validates, and otherwise raises ValidationError. On success there is one translation per task, in task order, each the task's own translation. |
| LlmTranslation.DocumentTasksShape | se_eval_eval/llm_translation.py:30-44 | There are (parts) x (targets) x (prompts) tasks, ordered English part, then language, then prompt. |
| LlmTranslation.NewTranslationsShape | se_eval_eval/llm_translation.py:26-58 | When the reply for English part i in language j does not validate, the document's translation raises ValidationError. On success there are (parts) x (targets) x (prompts) translations. Translation (i, j) has target language j, the part of English translation i, the model as author and the prompt's name. Its text is the model's reply. |
| LlmTranslation.AppendPromptTasks | se_eval_eval/llm_translation.py:33-43 | The prompt loop appends the prompt tasks. |
| LlmTranslation.AppendLanguageTasks | se_eval_eval/llm_translation.py:32-43 | The language loop appends the tasks for every language in order. |
| LlmTranslation.BuildTasks | se_eval_eval/llm_translation.py:30-43 | The outer loop builds the task list: English part, then language, then prompt. |
| LlmTranslation.TranslateDocument | se_eval_eval/llm_translation.py:26-44 | The nested loops and the gather give exactly `Translated`: ValueError without "English", otherwise the translations over the copied target list. |
| LlmTranslation.Translated | se_eval_eval/llm_translation.py:26-44 | Without "English" in the supported list the document raises ValueError. Otherwise its result is `NewTranslations` over the supported list minus its first "English". |
| LlmTranslation.AddTranslations | se_eval_eval/llm_translation.py:18-23 | The first document whose translation raises stops the stage with that error. The stage raises exactly when such a document exists. The documents before it gain their new translations after their existing ones. It and the later documents are left as they were. A missing "English" raises at the first document, before any change. |
| LlmTranslation.MissingEnglishStopsFirst | se_eval_eval/llm_translation.py:18-28 | Without "English" the very first document raises ValueError, so the stage stops there. |
| GoogleTranslation.Iso639Code | se_eval_eval/google_translation.py:12-17 | An unknown name, or a record without a two-letter code, gives "ISO 639-1 code not found". Otherwise the code is returned. |
| GoogleTranslation.TranslateText | se_eval_eval/google_translation.py:46-62 | A result has the target language, author "google_translate", no prompt, the source part and the translator's text for the two codes. |
| GoogleTranslation.TranslateAll | se_eval_eval/google_translation.py:43 | There is one translation per task, in task order. |
| GoogleTranslation.NewTranslationsShape | se_eval_eval/google_translation.py:28-62 | There are (parts) x (targets) translations. Translation (i, j) is part i in language j, by Google, translated from English. |
| GoogleTranslation.AppendLanguageTasks | se_eval_eval/google_translation.py:34-42 | The language loop appends one task per target language, in order, each from the English part's text and with its part. |
| GoogleTranslation.BuildTasks | se_eval_eval/google_translation.py:32-42 | The two nested loops build the task list: English part, then target language. |
| GoogleTranslation.TranslateDocument | se_eval_eval/google_translation.py:28-43 | The call fails exactly when "English" is not supported. Otherwise the gathered tasks yield `NewTranslations` over the copied target list. |
| GoogleTranslation.AddTranslations | se_eval_eval/google_translation.py:20-25 | Each document gains its Google translations after its existing ones. A missing "English" raises before any change. |
| Translations.RemoveFirst | se_eval_eval/llm_translation.py:27-28 | `remove` drops the first occurrence, and only that one. It raises ValueError when the element is absent. |
| Translations.RemoveOnlyOccurrence | se_eval_eval/preprocess.py:33 | Removing an element that occurs once succeeds, and a second removal fails. |
| Translations.TargetLanguages | se_eval_eval/llm_translation.py:27-28 | The targets are the supported languages in their order, with the first "English" dropped. They fail with ValueError exactly when "English" is missing. |
| Translations.TranslatedManifest.ExtendTranslations | se_eval_eval/llm_translation.py:22 | `extend` appends to one document's translations and changes no other document. |
| Preprocess.SharedLanguages.Remove | se_eval_eval/preprocess.py:33 | The shared list itself loses its first "English". Removing an absent element raises and leaves the list as it was. |
| Preprocess.RemoveEnglishTimesSucceeds | se_eval_eval/preprocess.py:31-33 | n successive removals succeed exactly when "English" occurs at least n times, and leave that many fewer. |
| Preprocess.TranslateText | se_eval_eval/preprocess.py:41-47 | The call raises ValidationError exactly when the reply does not validate as a Translation. Otherwise only the author is overwritten, with "aya-expanse:8b"; text, language, part and prompt are the model's. |
| Preprocess.TranslateInto | se_eval_eval/preprocess.py:36-47 | The gather succeeds exactly when the reply for every remaining language validates, and otherwise raises ValidationError. On success there is one translation per remaining language, in order, from the single English text. |
| Preprocess.Gather | se_eval_eval/preprocess.py:35-38 | The language loop and the gather give exactly `TranslateInto`. |
| Preprocess.TranslateDocument | se_eval_eval/preprocess.py:31-38 | Without "English" in the shared list the call raises ValueError and changes nothing. Otherwise the shared list itself loses its first "English", and the result is `TranslateInto` over the languages left, including its ValidationError. |
| Preprocess.PreprocessDocument | se_eval_eval/preprocess.py:23-27 | One iteration. On ValueError nothing changes. Otherwise the shared list loses an "English". Then a reply that does not validate raises ValidationError, with the manifest as it was. Or document i alone gains its translations into the list left. |
| Preprocess.PreprocessManifest | se_eval_eval/preprocess.py:18-28 | After hydration: the stage stops at the first document that does not go through, and raises exactly when there is one. It raises ValueError when no "English" was left for that document, and ValidationError when a reply failed. The shared list has lost one "English" per document processed, plus one for a ValidationError. Each earlier document gained its translations into the list its own removal left. It and the later documents are unchanged. |
| Preprocess.Through | se_eval_eval/preprocess.py:23-27 | The stopping point: every document before it goes through, and the document at it, if any, does not. |
| Preprocess.ThroughWhenRepliesValid | se_eval_eval/preprocess.py:23-33 | When every reply validates, the stage gets through min(documents, occurrences of "English") documents. |
| Preprocess.StopsAt | se_eval_eval/preprocess.py:23-38 | A document that raises is the stopping point. Its error is ValidationError when an "English" was left for it, and ValueError otherwise. The list has lost that many removals. |
| Preprocess.Progress | se_eval_eval/preprocess.py:23-27 | After i documents, those i are enriched and the rest are unchanged. |
| Preprocess.SecondDocumentFails | se_eval_eval/preprocess.py:23-33 | With "English" listed once and two or more documents, only the first goes through and the second removal fails. |
| ExperimentDiscovery.AppendModuleExperiments | se_eval_eval/utility.py:17-19 | The member loop appends the module's experiment classes in member order. |
| ExperimentDiscovery.GetExperiments | se_eval_eval/utility.py:11-20 | The collection is the experiments of every imported module, module by module. |
| ExperimentDiscovery.MemberExperimentsCount | se_eval_eval/utility.py:17-19 | A class is collected once per member holding it if it is a proper subclass of the base, and never otherwise. |
| ExperimentDiscovery.ExperimentsCount | se_eval_eval/utility.py:12-20 | Across modules, an experiment class is collected once per member of an imported module that holds it. Nothing is de-duplicated. |
| ExperimentDiscovery.CollectedAreExperiments | se_eval_eval/utility.py:18 | Everything collected subclasses the base and is not the base. |
| ExperimentDiscovery.ImportedTwiceCollectedTwice | se_eval_eval/utility.py:17-19 | A class that two imported modules hold is collected twice. |
| ExperimentDiscovery.TemplateImported | se_eval_eval/utility.py:15 | "template" is imported. A leading "_", or a name the utility module binds, keeps a module out. |
| ExperimentDiscovery.HydrateDocuments | se_eval_eval/utility.py:23-30 | The loop validates the top-level list element by element and stops at the first invalid element. |
| ExperimentDiscovery.HydrateOnePerEntry | se_eval_eval/utility.py:26-30 | Hydration succeeds exactly when every element validates. It then gives one Document per element, in order, with that element's path and text. |
| ManifestLoading.FillTextRule | eval_eval/utility.py:16-18 | The text is read from the file exactly when it is absent or null. A given text is kept, and nothing but the text changes. |
| ManifestLoading.FillDocument | eval_eval/utility.py:16-18 | One iteration's fill returns the filled document and writes it into the parsed manifest in place. |
| ManifestLoading.LoadManifest | eval_eval/utility.py:10-21 | Opening a path that is not in the file system raises FileNotFoundError. Otherwise the parsed file is hydrated (see `HydrateManifest`). |
| ManifestLoading.HydrateManifest | eval_eval/utility.py:10-21 | The result is `Hydrated` of the parsed object. The parsed documents end up filled up to the one that raised. |
| ManifestLoading.HydratedDocuments | eval_eval/utility.py:14-21 | Hydration succeeds exactly when every document does. It then holds one Document per entry, in order, with the entry's path and with the given text or the file's contents. A failure is the first failing document's error. |
| Opik.QuestionItemsFacts | experiments/opik_experiment.py:30-31 | There is one item per question, in order: its question and its answer. |
| Opik.ItemsFacts | experiments/opik_experiment.py:29-31 | The items are ("summary", summary) and then each (question, answer): 1 + (questions) in all. |
| Opik.TextToEvaluate | experiments/opik_experiment.py:29-31 | The loop builds exactly `Items`. |
| Opik.ResultsFacts | experiments/opik_experiment.py:34-47 | There is one result per item, in item order. |
| Opik.RunEval | experiments/opik_experiment.py:24-47 | `run_eval` yields the results of the items scored against the notice text. |
| Opik.RunEvalResults | experiments/opik_experiment.py:35-45 | Each result has metric opik_eval_hallucination and model deepseek-r1:8b. Its score is the scorer's value and its reason the scorer's reason, scored against [notice_text]. Its related part is the item's label. |
| Opik.RelatedParts | experiments/opik_experiment.py:44 | The related parts read "summary" and then the questions, in order. |
| Rouge.PlainValue | experiments/rouge_experiment.py:28-29 | A numpy float64 becomes the same plain float. Every other value is kept. |
| Rouge.NormaliseDetails | experiments/rouge_experiment.py:27-29 | The in-place loop over the items computes `Plain` of the metric output. |
| Rouge.PlainFacts | experiments/rouge_experiment.py:27-29 | The keys stay and no numpy float is left. Each float keeps its number; each other value is unchanged. |
| Rouge.PlainIdempotent | experiments/rouge_experiment.py:27-29 | Normalising twice is normalising once. |
| Rouge.MetricNameLabel | experiments/rouge_experiment.py:30 | The metric name is "rouge_experiment:" followed by the scenario label. |
| Rouge.MetricNameInjective | experiments/rouge_experiment.py:30 | Distinct labels give distinct metric names. |
| Rouge.RunEval | experiments/rouge_experiment.py:22-31 | The golden text is the reference and the AI text the prediction. The result is `Outcome` of the metric output. |
| Rouge.OutcomeFacts | experiments/rouge_experiment.py:30-31 | The run succeeds exactly when rougeLsum is reported; otherwise KeyError. The result has the named metric, the plain rougeLsum entry as score and the whole plain map as details. |
| Mlflow.TextsFacts | experiments/mlflow_experiment.py:32-35 | There is one question text and one answer text per question, in order. |
| Mlflow.BuildEvaluationData | experiments/mlflow_experiment.py:22-35 | The appends build inputs ["summary"] + questions, the notice text repeated, and outputs [summary] + answers. |
| Mlflow.EvaluationDataFacts | experiments/mlflow_experiment.py:22-35 | The three lists have 1 + (questions) entries each and line up position by position. |
| Mlflow.SimulatedLlmIgnoresInput | experiments/mlflow_experiment.py:37 | The simulated model returns the whole output list for any input. |
| Mlflow.CollectResults | experiments/mlflow_experiment.py:57-66 | The index loop computes `MapAll` of the body over 0 .. bound - 1 and stops at the first KeyError. |
| Mlflow.RunEvalAsWritten | experiments/mlflow_experiment.py:12-68 | As written, the loop bound is the number of table columns. |
| Mlflow.AsWrittenResults | experiments/mlflow_experiment.py:56-66 | As written, the loop succeeds exactly when there are no more columns than answerable rows, and then yields one result per column. Each result has the row's score and no related part. |
| Mlflow.RunEval | experiments/mlflow_experiment.py:12-68 | Corrected: the loop runs over the table's rows. |
| Mlflow.CorrectedResults | experiments/mlflow_experiment.py:56-66 | Corrected: the loop succeeds exactly when the table is empty or has both columns. It yields one result per row with the row's score and output, metric mlflow_faithfulness and model 'openai'. Otherwise it raises KeyError for the missing column. |
| Mlflow.SixColumnsFiveRows | experiments/mlflow_experiment.py:56-63 | A six-column, five-row table makes the as-written loop raise KeyError at index 5. The corrected loop yields five results. |
| Mlflow.TwoColumnsFiveRows | experiments/mlflow_experiment.py:56-58 | Illustration of `AsWrittenResults`: with two columns and five rows, the as-written loop yields only two results. |
| Ragas.DatasetFacts | experiments/ragas_experiment.py:48-55 | There is one row per question, in order, with its question, answer and chunks and ground truth "". |
| Ragas.BuildDataset | experiments/ragas_experiment.py:48-55 | The append loop builds exactly `Dataset`. |
| Ragas.RunEval | experiments/ragas_experiment.py:27-74 | `run_eval` computes `Outcome`. |
| Ragas.OutcomeFacts | experiments/ragas_experiment.py:39-74 | No questions raises IndexError. The result has metric ragas_faithfulness and model deepseek-r1:8b. It has no score exactly when the first question lacks chunks, and then the missing-context reason. Otherwise its score is Ragas' verdict on the whole dataset. |
| Ragas.OnlyFirstQuestionGuards | experiments/ragas_experiment.py:39 | Two analyses whose first questions carry the same chunks are both scored or both skipped. |
| Ragas.LaterQuestionsUnchecked | experiments/ragas_experiment.py:39-55 | Illustration of `OnlyFirstQuestionGuards`: an analysis with chunks only on its first question is scored, and the dataset row of the second question has no context. |
| TextExtraction.JoinPages | se_eval_eval/preprocess/text_extraction.py:11-14 | The page loop yields the pages' texts, concatenated in order and stripped. |
| TextExtraction.ExtractText | se_eval_eval/preprocess/text_extraction.py:8-20 | The directory `<dir>/text` is added only when nothing exists there. The stripped text is written at `<dir>/text/<name>` unless `open` raises. It returns nothing but that error. |
| TextExtraction.MakeDirs | se_eval_eval/preprocess/text_extraction.py:16-17 | The directory is created exactly when the path does not exist. Files are untouched. |
| TextExtraction.WriteFile | se_eval_eval/preprocess/text_extraction.py:19-20 | The file gets exactly the text. It raises when the directory is a file or the path is a directory. |
| TextExtraction.TextDirFacts | se_eval_eval/preprocess/text_extraction.py:9-15 | The output directory is named "text" and sits in the PDF's directory. |
| TextExtraction.OutputPathFacts | se_eval_eval/preprocess/text_extraction.py:15-19 | The output file lies directly in the output directory, under the derived name. |
| TextExtraction.NoPdfLeft | se_eval_eval/preprocess/text_extraction.py:18 | After the replacement no ".pdf" is left anywhere in the name. |
| TextExtraction.OutputNameFacts | se_eval_eval/preprocess/text_extraction.py:18 | The output name keeps the basename's length and contains no ".pdf". |
| TextExtraction.ReplaceExample | se_eval_eval/preprocess/text_extraction.py:18 | Illustration of `NoPdfLeft`: "a.pdf.pdf" becomes "a.txt.txt": an inner ".pdf" is replaced too. |
| TextExtraction.OutputNameExample | se_eval_eval/preprocess/text_extraction.py:18 | Illustration of `OutputNameFacts`: "docs/a.pdf.pdf" gives the output name "a.txt.txt". |
| PyStr.Strip | se_eval_eval/preprocess/text_extraction.py:14 | The result is the input with whitespace framing it removed, and it neither starts nor ends with whitespace. |
| PyStr.Lower | process_results.py:112 | Every ASCII capital becomes lower case and nothing else changes. |
| PyStr.LowerIdempotent | process_results.py:112 | Lower-casing twice is lower-casing once. |
| PyStr.NatToDecimal | experiments/promptfoo_experiment.py:65 | `str(i + 1)` is a non-empty string of digits with no leading zero. |
| PyStr.NatToDecimalInjective | experiments/promptfoo_experiment.py:65 | Distinct numbers render to distinct strings. |
| PyStr.DecimalRoundTrip | experiments/promptfoo_experiment.py:65 | The decimal rendering reads back to the same number. |
| PyStr.ReplaceAll | se_eval_eval/preprocess/text_extraction.py:18 | `replace` with a replacement of the same length keeps the length. |
| PyStr.ReplaceAllAbsent | se_eval_eval/preprocess/text_extraction.py:18 | A string without the pattern is unchanged. |
| PosixPath.Basename | process_results.py:103 | The basename is the slash-free tail after the last '/'. |
| PosixPath.BasenameOfJoin | se_eval_eval/preprocess/text_extraction.py:19 | The basename of `join(a, name)` is `name`. |
| PosixPath.DirnameOfJoin | se_eval_eval/preprocess/text_extraction.py:15-19 | The directory of `join(a, name)` is `a`. |
| DocumentStore.Store.AppendAnalysis | se_eval_eval/analysis.py:55 | `notice_analysis.append` adds the analysis to one document and changes no other. |
| DocumentStore.Store.ExtendResults | experiments/promptfoo_experiment.py:265-267 | `evaluation_results.extend` appends to one analysis of one document and changes nothing else. |

## Left out

- I/O generally: reading and writing files, YAML and JSON parsing, `glob`, logging, printing and the CLI. The parsed objects, the file contents and the directory listing are inputs.
- The promptfoo summary printing and the pandas `value_counts` and CSV writing are left out.
- External calls are uninterpreted parameters: Ollama and the LLM calls, googletrans, the pycountry lookup, the Opik scorer, `mlflow.evaluate`, Ragas' `evaluate`, the ROUGE computation and the promptfoo subprocess.
- Concurrency: `asyncio.gather` and `tqdm.gather` are modelled as running their tasks one after the other, in list order. The completion order within a batch is not modelled.
- Scores are opaque reals. There is no arithmetic or rounding on them, and pandas' type coercion is not modelled.
- JSON null is modelled in only two places: for the `text` and `path` keys of eval_eval's hydration. Elsewhere an absent optional field and an explicit `null` are the same.
- `ManifestLoading.LoadManifest`: a manifest file is given already parsed, as its `documents` list or its absence. `json.loads` errors on malformed text, and a top level that is not an object, are not modelled.
- `Preprocess.PreprocessManifest`: the `hydrate_document_manifest` call at the start (preprocess.py:20) is not modelled, and neither are its failures: a missing file, invalid JSON, a validation error. The loader itself is modelled, as `ExperimentDiscovery.HydrateDocuments`, but it validates entries as `se_eval_eval/schema.py`'s `Document`. That record lacks the `translations` list and `get_translation_by_language`, which the stage reads. So the stage starts from already hydrated records of the assumed translated-document type, with the assumed fields named under the schema bullet above.
- `ProcessResults.ProcessManifests`: hydration is modelled through `ManifestLoading.LoadManifest`, with the same limits on JSON parsing.
- `PyStr.Lower`: lower-cases ASCII letters only. Python's full Unicode case mapping is not modelled.
- `process_results` also drops a `duration` column. That column belongs to eval_eval's EvaluationResult, which is not part of this model, so the KeyError when it is absent is not modelled. The pandas DataFrame is a list of row records.
- The `notice_path` argument of the adaptors is unused by them, and the model does not take it.
- `Rouge.NormaliseDetails` visits the keys in an unspecified order. Python's insertion order is not modelled, and the result does not depend on it.
- `Mlflow`: the source file lacks the imports of `EvaluationResult` and `MetricExperimentBase`. The model takes the names as the other adaptors define them.
- `Ragas`: the module-level Ollama set-up and the printing of the analysis are left out. The `hasattr(..., "context_chunks")` test is always true in the model, where every question has the field.
- `TextExtraction.ExtractText`: the declared tuple return type is not modelled, because the function returns nothing. `PdfReader` is an input (the page texts). `os.makedirs` is modelled as creating the one directory; its missing parents are not modelled.
- `PyStr.ReplaceAll` requires a non-empty pattern. Python's `replace` with an empty pattern is never used by the source.
- `ExperimentDiscovery`: `import_module` and `inspect.getmembers` are inputs, given as the module list and each module's member list. The `globals()` test uses the names the utility module binds at its top.
- The evaluation base classes (`se_eval_eval/evaluation.py`, eval_eval's `MetricExperimentBase`) hold no logic. They appear only as the `isExperimentBase`/`subclassesExperimentBase` flags.
- Out of scope: `experiments/template.py` (commented out), `experiments/deepeval_experiment.py` (a constant), the prompt templates (string interpolation; they are renderer parameters), `snap_notice_prototype/` and `main.py`.
- `run_experiments_from_manifest` is not part of this model. `SUPPORTED_LANGUAGES` is imported from a schema file that does not define it, so it is a parameter (`supported`, or the initial `SharedLanguages` list).
- `LlmTranslation`, `GoogleTranslation`, `Preprocess`: `get_translation_by_language` is defined nowhere in the source, and the source uses it in two incompatible ways. llm_translation.py:29-31 and google_translation.py:31-33 iterate over its result as a list of translations. preprocess.py:34-37 reads `.text` off it as one translation. The model gives it two types so that every stage can run: `byLanguage` returns a sequence (LLM and Google stages), and `englishOf` returns one `Translation` (preprocessing). With a single definition, one of the two uses would raise (an AttributeError on `.text` of a list, or a TypeError iterating one record); the model does not capture that.

## Findings

| source | as written | input that shows it | evidently intended | confidence | as-written member | corrected member |
|---|---|---|---|---|---|---|
| experiments/mlflow_experiment.py:56-58 | `range(0, len(outputs))` where `outputs` is `to_dict()` of the results table, so the bound counts columns | assuming MLflow's results table has six columns (inputs, context, outputs, token_count, the faithfulness score and its justification; this layout is an assumption about MLflow that the source does not state), an analysis with four questions gives a table of six columns and five rows: index 5 raises KeyError; a two-column table of five rows gives only two results | one result per evaluated row | not executed | Mlflow.SixColumnsFiveRows | Mlflow.CorrectedResults |
| experiments/mlflow_experiment.py:63 | keyword `related_alanysis=` is misspelt, so the model ignores it and `related_analysis` stays None | any table with rows and both columns: every result has no related part | `related_analysis` set to the row's output | not executed | Mlflow.AsWrittenResults | Mlflow.CorrectedResults |
