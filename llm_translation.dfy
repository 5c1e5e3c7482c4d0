/** The LLM translation stage (se_eval_eval/llm_translation.py): for every English part of a
    document, every target language and every prompt, one model call whose reply is re-tagged
    with the language, part, model and prompt it was asked for. */
module LlmTranslation {
  import opened Wrappers
  import opened Seqs
  import opened Translations
  import opened FailFast

  /** The prompt tuple, by function name: `(translation.simple_translation_prompt,)`. */
  const Prompts: seq<string> := ["simple_translation_prompt"]

  /** Renders `prompt(from_language, to_language, text)` for the prompt of the given name. */
  type PromptRenderer = (string, string, string, string) -> string

  /** The model's reply to `(model_name, prompt_text)` as `Translation.model_validate_json`
      reads it: `None` when the reply is not a valid Translation and validation raises. */
  type TranslationModel = (string, string) -> Option<Translation>

  /** One pending `llm_translate_text(model_name, prompt_name, prompt_text, part, language)` call. */
  datatype TranslationTask = TranslationTask(
    modelName: string, promptName: string, promptText: string, part: Option<int>, language: string)

  function MakeTask(model: string, render: PromptRenderer, source: Translation, language: string, promptName: string): TranslationTask {
    TranslationTask(model, promptName, render(promptName, English, language, source.text), source.part, language)
  }

  /** The tasks for one English part and one language: one per prompt, in prompt order. */
  function PromptTasks(model: string, render: PromptRenderer, source: Translation, language: string, prompts: seq<string>): (r: seq<TranslationTask>)
    ensures |r| == |prompts|
    ensures forall k :: 0 <= k < |prompts| ==> r[k] == MakeTask(model, render, source, language, prompts[k])
  {
    if prompts == [] then []
    else PromptTasks(model, render, source, language, prompts[..|prompts| - 1]) + [MakeTask(model, render, source, language, prompts[|prompts| - 1])]
  }

  function LanguageBlocks(model: string, render: PromptRenderer, source: Translation, languages: seq<string>, prompts: seq<string>): seq<seq<TranslationTask>> {
    seq(|languages|, j requires 0 <= j < |languages| => PromptTasks(model, render, source, languages[j], prompts))
  }

  function PartBlocks(model: string, render: PromptRenderer, sources: seq<Translation>, languages: seq<string>, prompts: seq<string>): seq<seq<TranslationTask>> {
    seq(|sources|, i requires 0 <= i < |sources| => Concat(LanguageBlocks(model, render, sources[i], languages, prompts)))
  }

  /** The task list of `llm_translate_document`, English part-major, then language, then prompt. */
  function DocumentTasks(model: string, render: PromptRenderer, sources: seq<Translation>, languages: seq<string>, prompts: seq<string>): seq<TranslationTask> {
    Concat(PartBlocks(model, render, sources, languages, prompts))
  }

  /** `llm_translate_text`: a reply that does not validate raises; otherwise the reply's text is
      kept, and its language, part, author and prompt are overwritten with what was asked for,
      whatever the model returned. */
  function TranslateText(task: TranslationTask, llm: TranslationModel): (r: Result<Translation, TranslationError>)
    ensures r.Failure? <==> llm(task.modelName, task.promptText).None?
    ensures r.Failure? ==> r.error == InvalidReply
    ensures r.Success? ==>
      && r.value.language == task.language && r.value.part == task.part
      && r.value.author == task.modelName && r.value.prompt == Some(task.promptName)
      && r.value.text == llm(task.modelName, task.promptText).value.text
  {
    match llm(task.modelName, task.promptText)
    case None => Failure(InvalidReply)
    case Some(reply) =>
      Success(reply.(language := task.language, part := task.part, author := task.modelName, prompt := Some(task.promptName)))
  }

  function TranslateFn(llm: TranslationModel): TranslationTask -> Result<Translation, TranslationError> {
    (task: TranslationTask) => TranslateText(task, llm)
  }

  /** `gather` of the tasks: one translation per task, in task order, or the ValidationError
      of the first task whose reply does not validate. */
  function TranslateAll(tasks: seq<TranslationTask>, llm: TranslationModel): (r: Result<seq<Translation>, TranslationError>)
    ensures r.Success? <==> forall n :: 0 <= n < |tasks| ==> TranslateText(tasks[n], llm).Success?
    ensures r.Failure? ==> r.error == InvalidReply
    ensures r.Success? ==> |r.value| == |tasks| && forall n :: 0 <= n < |tasks| ==> TranslateText(tasks[n], llm) == Success(r.value[n])
  {
    MapAllFacts(TranslateFn(llm), tasks);
    MapAll(TranslateFn(llm), tasks)
  }

  /** The translations one document gains. */
  function NewTranslations(english: seq<Translation>, targets: seq<string>, model: string,
                           render: PromptRenderer, llm: TranslationModel): Result<seq<Translation>, TranslationError> {
    TranslateAll(DocumentTasks(model, render, english, targets, Prompts), llm)
  }

  /** There are |english| * |targets| * |prompts| tasks, and task (i, j, k) pairs English part
      i with language j and prompt k. */
  lemma DocumentTasksShape(model: string, render: PromptRenderer, sources: seq<Translation>, languages: seq<string>, prompts: seq<string>,
                           i: nat, j: nat, k: nat)
    requires i < |sources| && j < |languages| && k < |prompts|
    ensures |DocumentTasks(model, render, sources, languages, prompts)| == |sources| * |languages| * |prompts|
    ensures (i * |languages| + j) * |prompts| + k < |DocumentTasks(model, render, sources, languages, prompts)|
    ensures DocumentTasks(model, render, sources, languages, prompts)[(i * |languages| + j) * |prompts| + k]
         == MakeTask(model, render, sources[i], languages[j], prompts[k])
  {
    var parts := PartBlocks(model, render, sources, languages, prompts);
    forall i' | 0 <= i' < |parts|
      ensures |parts[i']| == |languages| * |prompts|
    {
      ConcatUniformLength(LanguageBlocks(model, render, sources[i'], languages, prompts), |prompts|);
    }
    ConcatNestedIndex(parts, LanguageBlocks(model, render, sources[i], languages, prompts), i, j, k, |prompts|);
  }

  /** Every new translation of a document carries a target language, the part of an English
      translation, the model as author and a prompt name; translation (i, j) is the model's
      text for part i in language j. A reply for (i, j) that does not validate makes the whole
      document fail. */
  lemma NewTranslationsShape(english: seq<Translation>, targets: seq<string>, model: string,
                             render: PromptRenderer, llm: TranslationModel, i: nat, j: nat)
    requires i < |english| && j < |targets|
    ensures var reply := llm(model, render(Prompts[0], English, targets[j], english[i].text));
      reply.None? ==> NewTranslations(english, targets, model, render, llm) == Failure(InvalidReply)
    ensures var r := NewTranslations(english, targets, model, render, llm);
      r.Success? ==>
        && |r.value| == |english| * |targets| * |Prompts|
        && i * |targets| + j < |r.value|
        && var t := r.value[i * |targets| + j];
           && t.language == targets[j] && t.part == english[i].part
           && t.author == model && t.prompt == Some(Prompts[0])
           && t.text == llm(model, render(Prompts[0], English, targets[j], english[i].text)).value.text
  {
    DocumentTasksShape(model, render, english, targets, Prompts, i, j, 0);
  }

  /** The innermost loop `for prompt in prompts`. */
  method AppendPromptTasks(tasks: seq<TranslationTask>, model: string, render: PromptRenderer, source: Translation, language: string)
    returns (out: seq<TranslationTask>)
    ensures out == tasks + PromptTasks(model, render, source, language, Prompts)
  {
    out := tasks;
    for k := 0 to |Prompts|
      invariant out == tasks + PromptTasks(model, render, source, language, Prompts[..k])
    {
      assert Prompts[..k + 1][..k] == Prompts[..k];
      out := out + [MakeTask(model, render, source, language, Prompts[k])];
    }
    assert Prompts[..|Prompts|] == Prompts;
  }

  /** The middle loop `for language in to_languages`. */
  method AppendLanguageTasks(tasks: seq<TranslationTask>, model: string, render: PromptRenderer, source: Translation, languages: seq<string>)
    returns (out: seq<TranslationTask>)
    ensures out == tasks + Concat(LanguageBlocks(model, render, source, languages, Prompts))
  {
    ghost var langs := LanguageBlocks(model, render, source, languages, Prompts);
    out := tasks;
    assert langs[..0] == [];
    for j := 0 to |languages|
      invariant out == tasks + Concat(langs[..j])
    {
      out := AppendPromptTasks(out, model, render, source, languages[j]);
      ConcatSnoc(langs[..j], langs[j]);
      assert langs[..j + 1] == langs[..j] + [langs[j]];
    }
    assert langs[..|languages|] == langs;
  }

  /** `llm_translate_document`: fails with ValueError when "English" is not a supported
      language; otherwise builds the task list with three nested loops and gathers it, which
      raises the ValidationError of a reply that does not validate. */
  method TranslateDocument(english: seq<Translation>, supported: seq<string>, model: string,
                           render: PromptRenderer, llm: TranslationModel)
    returns (r: Result<seq<Translation>, TranslationError>)
    ensures r == Translated(english, supported, model, render, llm)
  {
    var targets := TargetLanguages(supported);
    if targets.Failure? {
      return Failure(targets.error);
    }
    var tasks := BuildTasks(english, targets.value, model, render);
    return TranslateAll(tasks, llm);
  }

  /** What `llm_translate_document` yields for a document with the given English translations. */
  function Translated(english: seq<Translation>, supported: seq<string>, model: string,
                      render: PromptRenderer, llm: TranslationModel): (r: Result<seq<Translation>, TranslationError>)
    ensures English !in supported ==> r == Failure(ValueError(English))
    ensures English in supported ==> r == NewTranslations(english, TargetLanguages(supported).value, model, render, llm)
  {
    var targets :- TargetLanguages(supported);
    NewTranslations(english, targets, model, render, llm)
  }

  /** The outer loop over the English translations. */
  method BuildTasks(english: seq<Translation>, languages: seq<string>, model: string, render: PromptRenderer)
    returns (tasks: seq<TranslationTask>)
    ensures tasks == DocumentTasks(model, render, english, languages, Prompts)
  {
    ghost var parts := PartBlocks(model, render, english, languages, Prompts);
    tasks := [];
    assert parts[..0] == [];
    for i := 0 to |english|
      invariant tasks == Concat(parts[..i])
    {
      tasks := AppendLanguageTasks(tasks, model, render, english[i], languages);
      ConcatSnoc(parts[..i], parts[i]);
      assert parts[..i + 1] == parts[..i] + [parts[i]];
    }
    assert parts[..|english|] == parts;
  }

  /** What one document of the list yields: `llm_translate_document` of its English translations. */
  function DocumentFn(supported: seq<string>, model: string, byLanguage: (seq<Translation>, string) -> seq<Translation>,
                      render: PromptRenderer, llm: TranslationModel): TranslatedDocument -> Result<seq<Translation>, TranslationError> {
    (d: TranslatedDocument) => Translated(byLanguage(d.translations, English), supported, model, render, llm)
  }

  /** Without "English" every document raises ValueError, so the stage stops at the first one. */
  lemma MissingEnglishStopsFirst(supported: seq<string>, model: string, byLanguage: (seq<Translation>, string) -> seq<Translation>,
                                 render: PromptRenderer, llm: TranslationModel, docs: seq<TranslatedDocument>)
    requires English !in supported && docs != []
    ensures FirstFailure(DocumentFn(supported, model, byLanguage, render, llm), docs) == 0
    ensures DocumentFn(supported, model, byLanguage, render, llm)(docs[0]) == Failure(ValueError(English))
  {
    var f := DocumentFn(supported, model, byLanguage, render, llm);
    var english := byLanguage(docs[0].translations, English);
    assert f(docs[0]) == Translated(english, supported, model, render, llm);
    assert Translated(english, supported, model, render, llm) == Failure(ValueError(English));
  }

  /** `llm_add_translations`: each document of the list, in order, gains the translations
      built from its English translations (looked up by `byLanguage`), after the ones it
      already has. The first document whose translation raises stops the stage: it and the
      later documents are left as they were, the earlier ones keep their new translations.
      A missing "English" raises at the first document, before any change. */
  method AddTranslations(manifest: TranslatedManifest, supported: seq<string>, model: string,
                         byLanguage: (seq<Translation>, string) -> seq<Translation>,
                         render: PromptRenderer, llm: TranslationModel)
    returns (err: Option<TranslationError>)
    modifies manifest
    ensures var f, n := DocumentFn(supported, model, byLanguage, render, llm), FirstFailure(DocumentFn(supported, model, byLanguage, render, llm), old(manifest.documents));
      && (err.Some? <==> n < |old(manifest.documents)|)
      && (err.Some? ==> err.value == f(old(manifest.documents)[n]).error)
      && |manifest.documents| == |old(manifest.documents)|
      && (forall i :: n <= i < |manifest.documents| ==> manifest.documents[i] == old(manifest.documents[i]))
      && (forall i :: 0 <= i < n ==>
            var d := old(manifest.documents[i]);
            manifest.documents[i] == d.(translations := d.translations + f(d).value))
    ensures English !in supported && old(manifest.documents) != [] ==>
      err == Some(ValueError(English)) && manifest.documents == old(manifest.documents)
  {
    ghost var docs := manifest.documents;
    ghost var f := DocumentFn(supported, model, byLanguage, render, llm);
    ghost var n := FirstFailure(f, docs);
    if English !in supported && docs != [] {
      MissingEnglishStopsFirst(supported, model, byLanguage, render, llm, docs);
    }
    var i := 0;
    while i < |manifest.documents|
      invariant 0 <= i <= n && |manifest.documents| == |docs|
      invariant forall k :: i <= k < |docs| ==> manifest.documents[k] == docs[k]
      invariant forall k :: 0 <= k < i ==>
        manifest.documents[k] == docs[k].(translations := docs[k].translations + f(docs[k]).value)
    {
      var d := manifest.documents[i];
      var translations := TranslateDocument(byLanguage(d.translations, English), supported, model, render, llm);
      assert translations == f(docs[i]);
      if translations.Failure? {
        assert i == n;
        return Some(translations.error);
      }
      manifest.ExtendTranslations(i, translations.value);
      i := i + 1;
    }
    return None;
  }
}
