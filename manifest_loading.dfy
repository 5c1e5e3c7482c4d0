/** eval_eval/utility.py: `hydrate_document_manifest`, which reads a manifest's documents and
    fills in the text of each document that lacks one from the file at its path. The parsed
    JSON is an input, and so is the file system, as a map from path to file contents. */
module ManifestLoading {
  import opened Wrappers
  import opened Schema
  import opened FailFast

  /** A key of a parsed JSON object: absent, present with `null`, or present with a value. */
  datatype Field<T> = Absent | Null | Present(value: T)

  /** A document object as `json.loads` returns it; only `path` and `text` are inspected
      before validation. */
  datatype JsonDocument = JsonDocument(
    path: Field<string>,
    text: Field<string>,
    notes: Option<string>,
    noticeAnalysis: Option<seq<RawAnalysis>>)

  /** Why hydration raised: a missing `documents` or `path` key (KeyError), a `null` path
      given to `open` (TypeError), a path with no file behind it, or a document that does not
      validate. */
  datatype HydrateError =
    | MissingKey(key: string)
    | NullPath
    | FileNotFound(path: string)
    | Invalid(error: ValidationError)

  const DocumentsKey: string := "documents"
  const PathKey: string := "path"

  /** The parsed manifest object; the loop writes each document's text into it. */
  class ParsedManifest {
    var documents: Option<seq<JsonDocument>>

    constructor (documents: Option<seq<JsonDocument>>)
      ensures this.documents == documents
    {
      this.documents := documents;
    }
  }

  /** `if "text" not in document.keys() or document["text"] is None: document["text"] = fp.read()`. */
  function FillText(d: JsonDocument, files: map<string, string>): Result<JsonDocument, HydrateError> {
    if d.text.Present? then Success(d)
    else
      match d.path
      case Absent => Failure(MissingKey(PathKey))
      case Null => Failure(NullPath)
      case Present(p) => if p in files then Success(d.(text := Present(files[p]))) else Failure(FileNotFound(p))
  }

  function AsOption<T>(f: Field<T>): Option<T> {
    if f.Present? then Some(f.value) else None
  }

  /** The object `Document.model_validate` sees. */
  function ToRaw(d: JsonDocument): RawDocument {
    RawDocument(AsOption(d.path), AsOption(d.text), d.notes, d.noticeAnalysis)
  }

  /** One iteration: fill the text, then validate. */
  function HydrateDocument(d: JsonDocument, files: map<string, string>): Result<Document, HydrateError> {
    var filled :- FillText(d, files);
    match ValidateDocument(ToRaw(filled))
    case Failure(e) => Failure(Invalid(e))
    case Success(doc) => Success(doc)
  }

  function HydrateFn(files: map<string, string>): JsonDocument -> Result<Document, HydrateError> {
    d => HydrateDocument(d, files)
  }

  /** The text is read from the file exactly when it is absent or `null`; a given text is kept,
      and nothing but the text changes. */
  lemma FillTextRule(d: JsonDocument, files: map<string, string>)
    ensures d.text.Present? ==> FillText(d, files) == Success(d)
    ensures !d.text.Present? ==>
      (FillText(d, files).Success? <==> d.path.Present? && d.path.value in files)
    ensures !d.text.Present? && FillText(d, files).Success? ==>
      FillText(d, files).value == d.(text := Present(files[d.path.value]))
  {
  }

  /** The documents after the first `n` went through the fill. */
  function Filled(documents: seq<JsonDocument>, files: map<string, string>, n: nat): (r: seq<JsonDocument>)
    ensures |r| == |documents|
  {
    seq(|documents|, k requires 0 <= k < |documents| =>
      if k < n && FillText(documents[k], files).Success? then FillText(documents[k], files).value else documents[k])
  }

  /** How many documents the loop got to: all of them, or up to the one that raised. */
  function Reached(documents: seq<JsonDocument>, files: map<string, string>): nat {
    var k := FirstFailure(HydrateFn(files), documents);
    if k < |documents| then k + 1 else k
  }

  /** What `hydrate_document_manifest` returns once the manifest file is parsed. */
  function Hydrated(parsed: Option<seq<JsonDocument>>, files: map<string, string>): Result<Manifest, HydrateError> {
    if parsed.None? then Failure(MissingKey(DocumentsKey))
    else
      var documents :- MapAll(HydrateFn(files), parsed.value);
      Success(Manifest(documents))
  }

  /** The text fill of one iteration, written into the parsed document in place. */
  method FillDocument(manifest: ParsedManifest, ghost entries: seq<JsonDocument>, i: nat, files: map<string, string>)
    returns (filled: Result<JsonDocument, HydrateError>)
    requires i < |entries| && manifest.documents == Some(Filled(entries, files, i))
    modifies manifest
    ensures filled == FillText(entries[i], files)
    ensures manifest.documents == Some(Filled(entries, files, i + 1))
  {
    var document := manifest.documents.value[i];
    assert document == entries[i];
    if !document.text.Present? {
      if document.path.Absent? {
        assert Filled(entries, files, i + 1) == Filled(entries, files, i);
        return Failure(MissingKey(PathKey));
      }
      if document.path.Null? {
        assert Filled(entries, files, i + 1) == Filled(entries, files, i);
        return Failure(NullPath);
      }
      if document.path.value !in files {
        assert Filled(entries, files, i + 1) == Filled(entries, files, i);
        return Failure(FileNotFound(document.path.value));
      }
      document := document.(text := Present(files[document.path.value]));
      assert Filled(entries, files, i + 1) == Filled(entries, files, i)[i := document];
      manifest.documents := Some(manifest.documents.value[i := document]);
    } else {
      assert Filled(entries, files, i + 1) == Filled(entries, files, i);
    }
    return Success(document);
  }

  /** `hydrate_document_manifest` after `json.loads`. */
  method HydrateManifest(manifest: ParsedManifest, files: map<string, string>) returns (r: Result<Manifest, HydrateError>)
    modifies manifest
    ensures r == Hydrated(old(manifest.documents), files)
    ensures old(manifest.documents).None? ==> manifest.documents == old(manifest.documents)
    ensures old(manifest.documents).Some? ==>
      manifest.documents == Some(Filled(old(manifest.documents).value, files, Reached(old(manifest.documents).value, files)))
  {
    if manifest.documents.None? {
      return Failure(MissingKey(DocumentsKey));
    }
    ghost var entries := manifest.documents.value;
    var count := |manifest.documents.value|;
    var models := [];
    ContinueEmpty([], HydrateFn(files), entries);
    assert Filled(entries, files, 0) == entries;
    for i := 0 to count
      invariant manifest.documents == Some(Filled(entries, files, i))
      invariant Continue([], HydrateFn(files), entries[..i]) == Success(models)
      invariant FirstFailure(HydrateFn(files), entries) >= i
    {
      ContinueElement([], HydrateFn(files), entries, i, models);
      var filled := FillDocument(manifest, entries, i, files);
      if filled.Failure? {
        assert FirstFailure(HydrateFn(files), entries) == i;
        return Failure(filled.error);
      }
      var model := ValidateDocument(ToRaw(filled.value));
      if model.Failure? {
        assert FirstFailure(HydrateFn(files), entries) == i;
        return Failure(Invalid(model.error));
      }
      models := models + [model.value];
    }
    assert entries[..|entries|] == entries;
    assert [] + MapAll(HydrateFn(files), entries).value == MapAll(HydrateFn(files), entries).value;
    return Success(Manifest(models));
  }

  /** `hydrate_document_manifest(manifest_path)`: `open` raises when no file is at the path;
      otherwise the parsed object is hydrated. `manifestFiles` maps each manifest file to the
      `documents` entry of the object `json.loads` returns for it. */
  function Load(manifestFiles: map<string, Option<seq<JsonDocument>>>, files: map<string, string>, path: string): Result<Manifest, HydrateError> {
    if path !in manifestFiles then Failure(FileNotFound(path)) else Hydrated(manifestFiles[path], files)
  }

  function LoadFn(manifestFiles: map<string, Option<seq<JsonDocument>>>, files: map<string, string>): string -> Result<Manifest, HydrateError> {
    path => Load(manifestFiles, files, path)
  }

  /** The whole of `hydrate_document_manifest`: open and parse the manifest file, then fill
      and validate its documents. */
  method LoadManifest(manifestFiles: map<string, Option<seq<JsonDocument>>>, files: map<string, string>, path: string)
    returns (r: Result<Manifest, HydrateError>)
    ensures r == Load(manifestFiles, files, path)
  {
    if path !in manifestFiles {
      return Failure(FileNotFound(path));
    }
    var manifest := new ParsedManifest(manifestFiles[path]);
    r := HydrateManifest(manifest, files);
  }

  /** A hydrated manifest holds one Document per parsed document, in order, each with its own
      path and with its given text or, when that was absent or `null`, the contents of the
      file at its path. */
  lemma HydratedDocuments(parsed: seq<JsonDocument>, files: map<string, string>)
    ensures Hydrated(Some(parsed), files).Success? ==>
      var documents := Hydrated(Some(parsed), files).value.documents;
      && |documents| == |parsed|
      && forall i :: 0 <= i < |parsed| ==>
           && parsed[i].path == Present(documents[i].path)
           && (parsed[i].text.Present? ==> documents[i].text == parsed[i].text.value)
           && (!parsed[i].text.Present? ==>
                 parsed[i].path.value in files && documents[i].text == files[parsed[i].path.value])
    ensures Hydrated(Some(parsed), files).Success? <==>
      forall i :: 0 <= i < |parsed| ==> HydrateDocument(parsed[i], files).Success?
    ensures Hydrated(Some(parsed), files).Failure? ==>
      && FirstFailure(HydrateFn(files), parsed) < |parsed|
      && Hydrated(Some(parsed), files).error == HydrateDocument(parsed[FirstFailure(HydrateFn(files), parsed)], files).error
  {
    var f := HydrateFn(files);
    MapAllFacts(f, parsed);
    assert Hydrated(Some(parsed), files).Success? <==> MapAll(f, parsed).Success?;
    if MapAll(f, parsed).Success? {
      var documents := MapAll(f, parsed).value;
      assert Hydrated(Some(parsed), files).value.documents == documents;
      forall i | 0 <= i < |parsed|
        ensures && parsed[i].path == Present(documents[i].path)
                && (parsed[i].text.Present? ==> documents[i].text == parsed[i].text.value)
                && (!parsed[i].text.Present? ==>
                      parsed[i].path.value in files && documents[i].text == files[parsed[i].path.value])
      {
        assert f(parsed[i]) == Success(documents[i]);
        HydrateDocumentFacts(parsed[i], files);
      }
    }
  }

  /** One successfully hydrated document keeps its path, and its text is the given one or the
      file's contents. */
  lemma HydrateDocumentFacts(d: JsonDocument, files: map<string, string>)
    ensures HydrateDocument(d, files).Success? ==>
      var doc := HydrateDocument(d, files).value;
      && d.path == Present(doc.path)
      && (d.text.Present? ==> doc.text == d.text.value)
      && (!d.text.Present? ==> d.path.value in files && doc.text == files[d.path.value])
  {
    FillTextRule(d, files);
  }
}
