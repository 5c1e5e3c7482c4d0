/** The baseline translation stage (se_eval_eval/preprocess.py). Unlike the other stages it
    removes "English" from the shared list of supported languages itself rather than from a
    copy, so each document consumes one occurrence of "English" and the stage fails at the
    first document for which none is left. */
module Preprocess {
  import opened Wrappers
  import opened Translations
  import opened FailFast

  /** The model every baseline translation is attributed to. */
  const TranslationModel: string := "aya-expanse:8b"

  /** `baseline_translation_prompt(from_language, to_language, text)`. */
  type BaselineRenderer = (string, string, string) -> string

  /** The model's reply to `(model_name, prompt)` as `Translation.model_validate_json` reads
      it: `None` when the reply is not a valid Translation and validation raises. */
  type BaselineModel = (string, string) -> Option<Translation>

  /** The module-level list of supported languages, shared by every caller. */
  class SharedLanguages {
    var items: seq<string>

    constructor (items: seq<string>)
      ensures this.items == items
    {
      this.items := items;
    }

    /** `list.remove(x)` on the shared list itself. */
    method Remove(x: string) returns (err: Option<TranslationError>)
      modifies this
      ensures err.Some? <==> x !in old(items)
      ensures err.Some? ==> err.value == ValueError(x) && items == old(items)
      ensures err.None? ==> items == RemoveFirst(old(items), x).value
    {
      var r := RemoveFirst(items, x);
      if r.Failure? {
        return Some(r.error);
      }
      items := r.value;
      return None;
    }
  }

  /** The shared list after `n` removals of "English", or the ValueError of the removal that
      found none left. */
  function RemoveEnglishTimes(languages: seq<string>, n: nat): Result<seq<string>, TranslationError> {
    if n == 0 then Success(languages)
    else
      match RemoveEnglishTimes(languages, n - 1)
      case Failure(e) => Failure(e)
      case Success(rest) => RemoveFirst(rest, English)
  }

  /** `n` removals succeed exactly when "English" occurs at least `n` times. */
  lemma {:induction false} RemoveEnglishTimesSucceeds(languages: seq<string>, n: nat)
    ensures RemoveEnglishTimes(languages, n).Success? <==> n <= multiset(languages)[English]
    ensures RemoveEnglishTimes(languages, n).Success? ==>
      multiset(RemoveEnglishTimes(languages, n).value)[English] == multiset(languages)[English] - n
  {
    if n > 0 {
      RemoveEnglishTimesSucceeds(languages, n - 1);
    }
  }

  /** `translate_text`: a reply that does not validate raises; otherwise only the author is
      overwritten, and language, part, prompt and text are whatever the model returned. */
  function TranslateText(text: string, fromLanguage: string, toLanguage: string,
                         render: BaselineRenderer, llm: BaselineModel): (r: Result<Translation, TranslationError>)
    ensures var reply := llm(TranslationModel, render(fromLanguage, toLanguage, text));
      && (r.Failure? <==> reply.None?)
      && (r.Failure? ==> r.error == InvalidReply)
      && (r.Success? ==>
            && r.value.author == TranslationModel
            && r.value.text == reply.value.text && r.value.language == reply.value.language
            && r.value.part == reply.value.part && r.value.prompt == reply.value.prompt)
  {
    match llm(TranslationModel, render(fromLanguage, toLanguage, text))
    case None => Failure(InvalidReply)
    case Some(reply) => Success(reply.(author := TranslationModel))
  }

  function TranslateFn(text: string, render: BaselineRenderer, llm: BaselineModel): string -> Result<Translation, TranslationError> {
    (language: string) => TranslateText(text, English, language, render, llm)
  }

  /** The gathered translations of one English text into each of the given languages, in
      order, or the ValidationError of the first reply that does not validate. */
  function TranslateInto(text: string, languages: seq<string>, render: BaselineRenderer, llm: BaselineModel): (r: Result<seq<Translation>, TranslationError>)
    ensures r.Success? <==> forall j :: 0 <= j < |languages| ==> TranslateText(text, English, languages[j], render, llm).Success?
    ensures r.Failure? ==> r.error == InvalidReply
    ensures r.Success? ==>
      && |r.value| == |languages|
      && forall j :: 0 <= j < |languages| ==> TranslateText(text, English, languages[j], render, llm) == Success(r.value[j])
  {
    MapAllFacts(TranslateFn(text, render, llm), languages);
    MapAll(TranslateFn(text, render, llm), languages)
  }

  /** `translate_document`: removes "English" from the shared list, then one task per remaining
      language, from the document's single English translation, gathered. The removal stays
      done when a reply then fails to validate. */
  method TranslateDocument(shared: SharedLanguages, english: Translation, render: BaselineRenderer, llm: BaselineModel)
    returns (r: Result<seq<Translation>, TranslationError>)
    modifies shared
    ensures English !in old(shared.items) ==>
      r == Failure(ValueError(English)) && shared.items == old(shared.items)
    ensures English in old(shared.items) ==>
      && shared.items == RemoveFirst(old(shared.items), English).value
      && r == TranslateInto(english.text, shared.items, render, llm)
  {
    var err := shared.Remove(English);
    if err.Some? {
      return Failure(err.value);
    }
    r := Gather(english.text, shared.items, render, llm);
  }

  /** The task loop `for language in to_languages` and the gather: the translations in
      language order, stopping at the first reply that does not validate. */
  method Gather(text: string, languages: seq<string>, render: BaselineRenderer, llm: BaselineModel)
    returns (r: Result<seq<Translation>, TranslationError>)
    ensures r == TranslateInto(text, languages, render, llm)
  {
    var translations: seq<Translation> := [];
    ghost var f := TranslateFn(text, render, llm);
    ContinueEmpty([], f, languages);
    for j := 0 to |languages|
      invariant Continue([], f, languages[..j]) == Success(translations)
    {
      ContinueElement([], f, languages, j, translations);
      var t := TranslateText(text, English, languages[j], render, llm);
      assert t == f(languages[j]);
      if t.Failure? {
        return Failure(t.error);
      }
      translations := translations + [t.value];
    }
    assert languages[..|languages|] == languages;
    assert TranslateInto(text, languages, render, llm) == MapAll(f, languages);
    assert [] + MapAll(f, languages).value == MapAll(f, languages).value;
    return Success(translations);
  }

  /** How many documents `preprocess_manifest` gets through when every reply validates: one
      per occurrence of "English". */
  function Processed(documentCount: nat, languages: seq<string>): nat {
    if documentCount <= multiset(languages)[English] then documentCount else multiset(languages)[English]
  }

  /** The shared list as document `i` sees it: after the (i+1)-th removal of "English". */
  function LanguagesFor(languages: seq<string>, i: nat): seq<string>
    requires i < multiset(languages)[English]
  {
    RemoveEnglishTimesSucceeds(languages, i + 1);
    RemoveEnglishTimes(languages, i + 1).value
  }

  /** The translations document `d` gets when the shared list holds `languages`. */
  function DocumentTranslations(d: TranslatedDocument, languages: seq<string>, englishOf: seq<Translation> -> Translation,
                                render: BaselineRenderer, llm: BaselineModel): Result<seq<Translation>, TranslationError> {
    TranslateInto(englishOf(d.translations).text, languages, render, llm)
  }

  /** A document after `extra` was appended to its translations. */
  function Enriched(d: TranslatedDocument, extra: seq<Translation>): TranslatedDocument {
    d.(translations := d.translations + extra)
  }

  /** What one iteration does, on values: the shared list goes from `before` to `after`, the
      manifest from `current` to `next`, and `err` is what it raised. Without "English" it
      raises ValueError and changes nothing; otherwise "English" is removed, and document i is
      enriched with its translations into the list left, or, when a reply does not validate,
      the manifest stays as it was. */
  predicate DocumentOutcome(before: seq<string>, after: seq<string>, current: seq<TranslatedDocument>,
                            next: seq<TranslatedDocument>, i: nat, err: Option<TranslationError>,
                            englishOf: seq<Translation> -> Translation, render: BaselineRenderer, llm: BaselineModel)
    requires i < |current|
  {
    && (English !in before ==> err == Some(ValueError(English)) && after == before && next == current)
    && (English in before ==>
      && after == RemoveFirst(before, English).value
      && var t := DocumentTranslations(current[i], after, englishOf, render, llm);
         && (err.Some? <==> t.Failure?)
         && (err.Some? ==> err.value == t.error && next == current)
         && (err.None? ==> next == current[i := Enriched(current[i], t.value)]))
  }

  /** One iteration of `preprocess_manifest`: document i is translated (which removes
      "English" from the shared list) and its translations extended. A ValueError leaves the
      manifest and the list as they were; a ValidationError leaves the manifest as it was,
      after the list lost its "English". */
  method PreprocessDocument(manifest: TranslatedManifest, shared: SharedLanguages, i: nat,
                            englishOf: seq<Translation> -> Translation,
                            render: BaselineRenderer, llm: BaselineModel)
    returns (err: Option<TranslationError>)
    requires i < |manifest.documents|
    modifies manifest, shared
    ensures DocumentOutcome(old(shared.items), shared.items, old(manifest.documents), manifest.documents, i, err,
                            englishOf, render, llm)
  {
    var d := manifest.documents[i];
    var translations := TranslateDocument(shared, englishOf(d.translations), render, llm);
    if translations.Failure? {
      return Some(translations.error);
    }
    manifest.ExtendTranslations(i, translations.value);
    assert manifest.documents == old(manifest.documents)[i := Enriched(d, translations.value)];
    return None;
  }

  /** Whether document k goes through: the (k+1)-th removal of "English" succeeds and every
      reply for it validates. */
  predicate GoesThrough(docs: seq<TranslatedDocument>, languages: seq<string>, k: nat,
                        englishOf: seq<Translation> -> Translation, render: BaselineRenderer, llm: BaselineModel)
    requires k < |docs|
  {
    k < multiset(languages)[English] &&
    DocumentTranslations(docs[k], LanguagesFor(languages, k), englishOf, render, llm).Success?
  }

  /** The translations document k gains when it goes through (and none otherwise). */
  function TranslationsFor(docs: seq<TranslatedDocument>, languages: seq<string>, k: nat,
                           englishOf: seq<Translation> -> Translation, render: BaselineRenderer, llm: BaselineModel): seq<Translation>
    requires k < |docs|
  {
    if k < multiset(languages)[English] then
      match DocumentTranslations(docs[k], LanguagesFor(languages, k), englishOf, render, llm)
      case Success(ts) => ts
      case Failure(_) => []
    else []
  }

  /** Where the stage stops, looking from document i on: the first document that does not go
      through, or |docs| when all do. */
  function Through(docs: seq<TranslatedDocument>, languages: seq<string>, englishOf: seq<Translation> -> Translation,
                   render: BaselineRenderer, llm: BaselineModel, i: nat): (n: nat)
    requires i <= |docs|
    ensures i <= n <= |docs|
    ensures forall k :: i <= k < n ==> GoesThrough(docs, languages, k, englishOf, render, llm)
    ensures n < |docs| ==> !GoesThrough(docs, languages, n, englishOf, render, llm)
    decreases |docs| - i
  {
    if i == |docs| || !GoesThrough(docs, languages, i, englishOf, render, llm) then i
    else Through(docs, languages, englishOf, render, llm, i + 1)
  }

  /** When every reply validates, the stage stops only for lack of "English": it gets through
      `Processed` documents. */
  lemma {:induction false} ThroughWhenRepliesValid(docs: seq<TranslatedDocument>, languages: seq<string>,
                                                   englishOf: seq<Translation> -> Translation,
                                                   render: BaselineRenderer, llm: BaselineModel, i: nat)
    requires i <= |docs|
    requires forall model, prompt :: llm(model, prompt).Some?
    ensures Through(docs, languages, englishOf, render, llm, i)
         == if i <= Processed(|docs|, languages) then Processed(|docs|, languages) else i
    decreases |docs| - i
  {
    if i < |docs| && i < multiset(languages)[English] {
      var text := englishOf(docs[i].translations).text;
      var ls := LanguagesFor(languages, i);
      assert forall j :: 0 <= j < |ls| ==> TranslateText(text, English, ls[j], render, llm).Success?;
      assert GoesThrough(docs, languages, i, englishOf, render, llm);
      ThroughWhenRepliesValid(docs, languages, englishOf, render, llm, i + 1);
    }
  }

  /** The manifest once the first `i` documents went through: each enriched with the
      translations into the list its own removal of "English" left, the rest untouched. */
  ghost function Progress(docs: seq<TranslatedDocument>, languages: seq<string>, i: nat,
                          englishOf: seq<Translation> -> Translation,
                          render: BaselineRenderer, llm: BaselineModel): (r: seq<TranslatedDocument>)
    ensures |r| == |docs|
    ensures forall k :: i <= k < |docs| ==> r[k] == docs[k]
    ensures forall k :: 0 <= k < i && k < |docs| ==> r[k] == Enriched(docs[k], TranslationsFor(docs, languages, k, englishOf, render, llm))
  {
    seq(|docs|, k requires 0 <= k < |docs| =>
      if k < i then Enriched(docs[k], TranslationsFor(docs, languages, k, englishOf, render, llm)) else docs[k])
  }

  /** Before the first document, nothing has changed. */
  lemma ProgressNone(docs: seq<TranslatedDocument>, languages: seq<string>,
                     englishOf: seq<Translation> -> Translation,
                     render: BaselineRenderer, llm: BaselineModel)
    ensures Progress(docs, languages, 0, englishOf, render, llm) == docs
  {
    var r := Progress(docs, languages, 0, englishOf, render, llm);
    assert forall k :: 0 <= k < |docs| ==> r[k] == docs[k];
  }

  lemma ProgressStep(docs: seq<TranslatedDocument>, languages: seq<string>, i: nat,
                     englishOf: seq<Translation> -> Translation,
                     render: BaselineRenderer, llm: BaselineModel)
    requires i < |docs|
    ensures Progress(docs, languages, i + 1, englishOf, render, llm)
         == Progress(docs, languages, i, englishOf, render, llm)[i :=
              Enriched(docs[i], TranslationsFor(docs, languages, i, englishOf, render, llm))]
  {
  }

  /** Document i, with its "English" removed from `before` (the list the first i removals
      left), translated into `after` successfully: it goes through and gains `ts`. */
  lemma GoesOn(docs: seq<TranslatedDocument>, languages: seq<string>, englishOf: seq<Translation> -> Translation,
               render: BaselineRenderer, llm: BaselineModel, i: nat, before: seq<string>, after: seq<string>, ts: seq<Translation>)
    requires i < |docs| && RemoveEnglishTimes(languages, i) == Success(before) && English in before
    requires after == RemoveFirst(before, English).value
    requires DocumentTranslations(docs[i], after, englishOf, render, llm) == Success(ts)
    ensures RemoveEnglishTimes(languages, i + 1) == Success(after)
    ensures GoesThrough(docs, languages, i, englishOf, render, llm)
    ensures TranslationsFor(docs, languages, i, englishOf, render, llm) == ts
  {
    RemoveEnglishTimesSucceeds(languages, i + 1);
  }

  /** Document i raised `e`, either at the removal (leaving `before` as it was) or at a reply
      (after the removal): the stage stops at i, with the error and removals stated. */
  lemma StopsAt(docs: seq<TranslatedDocument>, languages: seq<string>, englishOf: seq<Translation> -> Translation,
                render: BaselineRenderer, llm: BaselineModel, i: nat, before: seq<string>, after: seq<string>, e: TranslationError)
    requires i < |docs| && i <= Through(docs, languages, englishOf, render, llm, 0)
    requires RemoveEnglishTimes(languages, i) == Success(before)
    requires English !in before ==> e == ValueError(English) && after == before
    requires English in before ==>
      && after == RemoveFirst(before, English).value
      && DocumentTranslations(docs[i], after, englishOf, render, llm) == Failure(e)
    ensures Through(docs, languages, englishOf, render, llm, 0) == i
    ensures e == StopError(languages, i)
    ensures RemoveEnglishTimes(languages, Removals(|docs|, languages, i)) == Success(after)
  {
    RemoveEnglishTimesSucceeds(languages, i);
    RemoveEnglishTimesSucceeds(languages, i + 1);
    assert !GoesThrough(docs, languages, i, englishOf, render, llm);
  }

  /** Where the loop stands after i documents went through: the list has lost i "English"s,
      those documents are enriched and the rest untouched. */
  ghost predicate Midway(docs: seq<TranslatedDocument>, languages: seq<string>,
                         englishOf: seq<Translation> -> Translation, render: BaselineRenderer, llm: BaselineModel,
                         i: nat, list: seq<string>, manifest: seq<TranslatedDocument>)
  {
    && i <= Through(docs, languages, englishOf, render, llm, 0)
    && RemoveEnglishTimes(languages, i) == Success(list)
    && manifest == Progress(docs, languages, i, englishOf, render, llm)
  }

  /** One turn of the document loop, on values: from where the loop stands at document i,
      either the stage stops there with its `Outcome`, or document i goes through and the loop
      stands at i + 1. */
  lemma Advance(docs: seq<TranslatedDocument>, languages: seq<string>, englishOf: seq<Translation> -> Translation,
                render: BaselineRenderer, llm: BaselineModel, i: nat, before: seq<string>, after: seq<string>,
                current: seq<TranslatedDocument>, next: seq<TranslatedDocument>, err: Option<TranslationError>)
    requires i < |docs| == |current| && Midway(docs, languages, englishOf, render, llm, i, before, current)
    requires DocumentOutcome(before, after, current, next, i, err, englishOf, render, llm)
    ensures err.Some? ==> Outcome(docs, languages, englishOf, render, llm, err, after, next)
    ensures err.None? ==> Midway(docs, languages, englishOf, render, llm, i + 1, after, next)
  {
    assert current[i] == docs[i];
    if err.Some? {
      StopsAt(docs, languages, englishOf, render, llm, i, before, after, err.value);
    } else {
      var ts := DocumentTranslations(docs[i], after, englishOf, render, llm).value;
      GoesOn(docs, languages, englishOf, render, llm, i, before, after, ts);
      ProgressStep(docs, languages, i, englishOf, render, llm);
    }
  }

  /** What the stage raises when it stops at document n: ValidationError when the list still
      held an "English" for it (so a reply failed), ValueError when it did not. */
  function StopError(languages: seq<string>, n: nat): TranslationError {
    if n < multiset(languages)[English] then InvalidReply else ValueError(English)
  }

  /** How many removals of "English" the stage makes when it stops at document n: one more
      than n when document n lost its "English" and then a reply failed. */
  function Removals(documentCount: nat, languages: seq<string>, n: nat): nat {
    if n < documentCount && n < multiset(languages)[English] then n + 1 else n
  }

  /** What the stage leaves, starting from `docs` and `languages`: it raises exactly when some
      document does not go through, and then raises `StopError` for the first such document n;
      the shared list has lost `Removals` "English"s; the documents before n are enriched and
      the others untouched. */
  ghost predicate Outcome(docs: seq<TranslatedDocument>, languages: seq<string>,
                          englishOf: seq<Translation> -> Translation, render: BaselineRenderer, llm: BaselineModel,
                          err: Option<TranslationError>, finalLanguages: seq<string>, finalDocs: seq<TranslatedDocument>)
  {
    var n := Through(docs, languages, englishOf, render, llm, 0);
    && (err.Some? <==> n < |docs|)
    && (err.Some? ==> err.value == StopError(languages, n))
    && RemoveEnglishTimes(languages, Removals(|docs|, languages, n)) == Success(finalLanguages)
    && finalDocs == Progress(docs, languages, n, englishOf, render, llm)
  }

  /** Every document went through: the stage raises nothing. */
  lemma Finished(docs: seq<TranslatedDocument>, languages: seq<string>,
                 englishOf: seq<Translation> -> Translation, render: BaselineRenderer, llm: BaselineModel,
                 list: seq<string>, manifest: seq<TranslatedDocument>)
    requires Midway(docs, languages, englishOf, render, llm, |docs|, list, manifest)
    ensures Outcome(docs, languages, englishOf, render, llm, None, list, manifest)
  {
    assert Removals(|docs|, languages, |docs|) == |docs|;
  }

  /** `preprocess_manifest` after hydration: document i is translated into the list left after
      the (i+1)-th removal of "English" and its translations extended. The first document that
      does not go through raises: ValueError when "English" is gone, ValidationError when a
      reply does not validate. It and all later documents are left unchanged. */
  method PreprocessManifest(manifest: TranslatedManifest, shared: SharedLanguages,
                            englishOf: seq<Translation> -> Translation,
                            render: BaselineRenderer, llm: BaselineModel)
    returns (err: Option<TranslationError>)
    modifies manifest, shared
    ensures Outcome(old(manifest.documents), old(shared.items), englishOf, render, llm, err, shared.items, manifest.documents)
  {
    ghost var languages := shared.items;
    ghost var docs := manifest.documents;
    ProgressNone(docs, languages, englishOf, render, llm);
    var count := |manifest.documents|;
    var i := 0;
    while i < count
      invariant i <= count == |docs|
      invariant Midway(docs, languages, englishOf, render, llm, i, shared.items, manifest.documents)
    {
      ghost var before, current := shared.items, manifest.documents;
      err := PreprocessDocument(manifest, shared, i, englishOf, render, llm);
      Advance(docs, languages, englishOf, render, llm, i, before, shared.items, current, manifest.documents, err);
      if err.Some? {
        return;
      }
      i := i + 1;
    }
    Finished(docs, languages, englishOf, render, llm, shared.items, manifest.documents);
    err := None;
  }

  /** With "English" listed once, as the supported languages list it, a manifest of two or
      more documents fails at the second: the first removal took the only "English". */
  lemma SecondDocumentFails(documentCount: nat, languages: seq<string>)
    requires multiset(languages)[English] == 1 && documentCount >= 2
    ensures Processed(documentCount, languages) == 1 < documentCount
    ensures RemoveEnglishTimes(languages, 1).Success? && English !in RemoveEnglishTimes(languages, 1).value
    ensures RemoveEnglishTimes(languages, 2).Failure?
  {
    RemoveEnglishTimesSucceeds(languages, 1);
    RemoveEnglishTimesSucceeds(languages, 2);
  }
}
