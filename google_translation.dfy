/** The Google Translate stage (se_eval_eval/google_translation.py): one machine translation
    per English part and target language, tagged with the service as author and no prompt. */
module GoogleTranslation {
  import opened Wrappers
  import opened Seqs
  import opened Translations

  /** What `get_iso639_1_code` returns when no two-letter code can be read. */
  const CodeNotFound: string := "ISO 639-1 code not found"

  /** The author tag of every Google translation. */
  const GoogleAuthor: string := "google_translate"

  /** A record of the language database; some languages have no two-letter code. */
  datatype LanguageRecord = LanguageRecord(alpha2: Option<string>)

  /** `pycountry.languages.get(name=...)`: the record, or None for an unknown name. */
  type LanguageLookup = string -> Option<LanguageRecord>

  /** `translator.translate(text, src=..., dest=...).text`. */
  type Translator = (string, string, string) -> string

  /** `get_iso639_1_code`: reading `alpha_2` off a missing record, or off a record without a
      two-letter code, raises AttributeError, which becomes the literal fallback. */
  function Iso639Code(lookup: LanguageLookup, name: string): (r: string)
    ensures lookup(name).None? || lookup(name).value.alpha2.None? ==> r == CodeNotFound
    ensures lookup(name).Some? && lookup(name).value.alpha2.Some? ==> r == lookup(name).value.alpha2.value
  {
    match lookup(name)
    case None => CodeNotFound
    case Some(record) => record.alpha2.GetOr(CodeNotFound)
  }

  /** One pending `google_translate_text(text, from_language, to_language, part)` call. */
  datatype GoogleTask = GoogleTask(text: string, fromLanguage: string, toLanguage: string, part: Option<int>)

  function LanguageTasks(source: Translation, languages: seq<string>): seq<GoogleTask> {
    seq(|languages|, j requires 0 <= j < |languages| => GoogleTask(source.text, English, languages[j], source.part))
  }

  function PartBlocks(sources: seq<Translation>, languages: seq<string>): seq<seq<GoogleTask>> {
    seq(|sources|, i requires 0 <= i < |sources| => LanguageTasks(sources[i], languages))
  }

  /** The task list of `google_translate_document`: English part-major, then language. */
  function DocumentTasks(sources: seq<Translation>, languages: seq<string>): seq<GoogleTask> {
    Concat(PartBlocks(sources, languages))
  }

  /** `google_translate_text`: the result is in the target language, authored by the
      service, with no prompt and the part of its source. */
  function TranslateText(task: GoogleTask, lookup: LanguageLookup, translate: Translator): (r: Translation)
    ensures r.language == task.toLanguage && r.author == GoogleAuthor
    ensures r.prompt.None? && r.part == task.part
    ensures r.text == translate(task.text, Iso639Code(lookup, task.fromLanguage), Iso639Code(lookup, task.toLanguage))
  {
    Translation(translate(task.text, Iso639Code(lookup, task.fromLanguage), Iso639Code(lookup, task.toLanguage)),
                task.toLanguage, GoogleAuthor, None, task.part)
  }

  function TranslateAll(tasks: seq<GoogleTask>, lookup: LanguageLookup, translate: Translator): (r: seq<Translation>)
    ensures |r| == |tasks| && forall n :: 0 <= n < |tasks| ==> r[n] == TranslateText(tasks[n], lookup, translate)
  {
    seq(|tasks|, n requires 0 <= n < |tasks| => TranslateText(tasks[n], lookup, translate))
  }

  function NewTranslations(english: seq<Translation>, targets: seq<string>, lookup: LanguageLookup, translate: Translator): seq<Translation> {
    TranslateAll(DocumentTasks(english, targets), lookup, translate)
  }

  /** One translation per (English part, target language), English part-major: translation
      i * |targets| + j is part i rendered in language j, translated from English. */
  lemma NewTranslationsShape(english: seq<Translation>, targets: seq<string>, lookup: LanguageLookup, translate: Translator, i: nat, j: nat)
    requires i < |english| && j < |targets|
    ensures |NewTranslations(english, targets, lookup, translate)| == |english| * |targets|
    ensures i * |targets| + j < |english| * |targets|
    ensures var t := NewTranslations(english, targets, lookup, translate)[i * |targets| + j];
      && t.language == targets[j] && t.part == english[i].part
      && t.author == GoogleAuthor && t.prompt.None?
      && t.text == translate(english[i].text, Iso639Code(lookup, English), Iso639Code(lookup, targets[j]))
  {
    var blocks := PartBlocks(english, targets);
    ConcatUniformLength(blocks, |targets|);
    ConcatUniformIndex(blocks, |targets|, i, j);
  }

  /** The inner loop over the target languages for one English part. */
  method AppendLanguageTasks(tasks: seq<GoogleTask>, source: Translation, languages: seq<string>)
    returns (out: seq<GoogleTask>)
    ensures out == tasks + LanguageTasks(source, languages)
  {
    out := tasks;
    for j := 0 to |languages|
      invariant out == tasks + LanguageTasks(source, languages[..j])
    {
      out := out + [GoogleTask(source.text, English, languages[j], source.part)];
    }
    assert languages[..|languages|] == languages;
  }

  /** The two nested loops of `google_translate_document` that build its task list. */
  method BuildTasks(english: seq<Translation>, languages: seq<string>) returns (tasks: seq<GoogleTask>)
    ensures tasks == DocumentTasks(english, languages)
  {
    ghost var parts := PartBlocks(english, languages);
    tasks := [];
    var i := 0;
    while i < |english|
      invariant 0 <= i <= |english|
      invariant tasks == Concat(parts[..i])
    {
      tasks := AppendLanguageTasks(tasks, english[i], languages);
      ConcatSnoc(parts[..i], parts[i]);
      assert parts[..i + 1] == parts[..i] + [parts[i]];
      i := i + 1;
    }
    assert parts[..i] == parts;
  }

  /** `google_translate_document`: fails with ValueError when "English" is not supported;
      otherwise builds the task list and gathers it. */
  method TranslateDocument(english: seq<Translation>, supported: seq<string>, lookup: LanguageLookup, translate: Translator)
    returns (r: Result<seq<Translation>, TranslationError>)
    ensures r.Failure? <==> English !in supported
    ensures r.Success? ==> r.value == NewTranslations(english, TargetLanguages(supported).value, lookup, translate)
  {
    var targets := TargetLanguages(supported);
    if targets.Failure? {
      return Failure(targets.error);
    }
    var tasks := BuildTasks(english, targets.value);
    return Success(TranslateAll(tasks, lookup, translate));
  }

  /** `google_add_translations`: each document, in order, gains its Google translations after
      the ones it has. A missing "English" raises at the first document, before any change. */
  method AddTranslations(manifest: TranslatedManifest, supported: seq<string>,
                         byLanguage: (seq<Translation>, string) -> seq<Translation>,
                         lookup: LanguageLookup, translate: Translator)
    returns (err: Option<TranslationError>)
    modifies manifest
    ensures err.Some? <==> English !in supported && old(manifest.documents) != []
    ensures err.Some? ==> manifest.documents == old(manifest.documents)
    ensures err.None? ==> |manifest.documents| == |old(manifest.documents)|
    ensures err.None? ==> forall i :: 0 <= i < |manifest.documents| ==>
      var d := old(manifest.documents[i]);
      manifest.documents[i] == d.(translations := d.translations +
        NewTranslations(byLanguage(d.translations, English), TargetLanguages(supported).value, lookup, translate))
  {
    var i := 0;
    while i < |manifest.documents|
      invariant 0 <= i <= |manifest.documents| == |old(manifest.documents)|
      invariant i > 0 ==> English in supported
      invariant forall k :: i <= k < |manifest.documents| ==> manifest.documents[k] == old(manifest.documents[k])
      invariant forall k :: 0 <= k < i ==>
        var d := old(manifest.documents[k]);
        manifest.documents[k] == d.(translations := d.translations +
          NewTranslations(byLanguage(d.translations, English), TargetLanguages(supported).value, lookup, translate))
    {
      var d := manifest.documents[i];
      var translations := TranslateDocument(byLanguage(d.translations, English), supported, lookup, translate);
      if translations.Failure? {
        return Some(translations.error);
      }
      manifest.ExtendTranslations(i, translations.value);
      i := i + 1;
    }
    return None;
  }
}
