/** The translation records the translation stages produce and the documents that hold them.
    Their schema is defined outside the files modelled here, so only the five fields the
    translation code reads or writes are kept. */
module Translations {
  import opened Wrappers

  datatype Translation = Translation(
    text: string,
    language: string,
    author: string,
    prompt: Option<string>,
    part: Option<int>)

  datatype TranslatedDocument = TranslatedDocument(name: string, translations: seq<Translation>)

  /** The source language every stage translates from. */
  const English: string := "English"

  /** What a translation stage raises: `list.remove` on a list that lacks the element raises
      ValueError, and `Translation.model_validate_json` on a reply that is not a Translation
      raises pydantic's ValidationError. */
  datatype TranslationError = ValueError(missing: string) | InvalidReply

  /** The position of the first occurrence of `x` in `s`. */
  function FirstIndex(s: seq<string>, x: string): (k: nat)
    requires x in s
    ensures k < |s| && s[k] == x && x !in s[..k]
  {
    if s[0] == x then 0 else 1 + FirstIndex(s[1..], x)
  }

  /** `s.remove(x)` on a copy of `s`: drops the first occurrence of `x`, fails when there is none. */
  function RemoveFirst(s: seq<string>, x: string): (r: Result<seq<string>, TranslationError>)
    ensures r.Failure? <==> x !in s
    ensures r.Failure? ==> r.error == ValueError(x)
    ensures r.Success? ==> |r.value| == |s| - 1 && multiset(r.value) + multiset{x} == multiset(s)
    ensures r.Success? ==> var k := FirstIndex(s, x); r.value[..k] == s[..k] && r.value[k..] == s[k + 1..]
  {
    if x !in s then Failure(ValueError(x))
    else
      var k := FirstIndex(s, x);
      assert s == s[..k] + [s[k]] + s[k + 1..];
      Success(s[..k] + s[k + 1..])
  }

  /** Removing an element that occurs only once leaves a list without it, so removing it a
      second time fails. */
  lemma RemoveOnlyOccurrence(s: seq<string>, x: string)
    requires multiset(s)[x] == 1
    ensures RemoveFirst(s, x).Success?
    ensures x !in RemoveFirst(s, x).value
    ensures RemoveFirst(RemoveFirst(s, x).value, x).Failure?
  {
    var r := RemoveFirst(s, x).value;
    assert multiset(r)[x] == 0;
  }

  /** `to_languages = SUPPORTED_LANGUAGES.copy(); to_languages.remove("English")`: every
      supported language but the first "English", in the supported order. */
  function TargetLanguages(supported: seq<string>): (r: Result<seq<string>, TranslationError>)
    ensures r.Failure? <==> English !in supported
    ensures r.Failure? ==> r.error == ValueError(English)
    ensures r.Success? ==> multiset(r.value) == multiset(supported) - multiset{English}
    ensures r.Success? ==>
      var k := FirstIndex(supported, English);
      English !in supported[..k] && r.value == supported[..k] + supported[k + 1..]
  {
    RemoveFirst(supported, English)
  }

  /** The list of documents a translation stage enriches in place. */
  class TranslatedManifest {
    var documents: seq<TranslatedDocument>

    constructor (documents: seq<TranslatedDocument>)
      ensures this.documents == documents
    {
      this.documents := documents;
    }

    /** `self.documents[k].translations.extend(extra)`. */
    method ExtendTranslations(k: nat, extra: seq<Translation>)
      requires k < |documents|
      modifies this
      ensures |documents| == |old(documents)|
      ensures documents[k] == old(documents[k]).(translations := old(documents[k]).translations + extra)
      ensures forall i :: 0 <= i < |documents| && i != k ==> documents[i] == old(documents[i])
    {
      documents := documents[k := documents[k].(translations := documents[k].translations + extra)];
    }
  }
}
