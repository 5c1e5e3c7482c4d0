/** se_eval_eval/utility.py: discovering the experiment classes of a package, and loading a
    document list. The file system and Python's import machinery are inputs: a package is the
    list of its modules in the order the directory listing gives them, and a module is the
    list of members `inspect.getmembers` reports for it. */
module ExperimentDiscovery {
  import opened Wrappers
  import opened Schema
  import opened FailFast

  /** A member's value: a class, known by its name and by whether it is the experiment base
      class itself and whether it derives from it (`issubclass` holds of the base class too),
      or anything else. */
  datatype PyObject =
    | ClassObject(name: string, isExperimentBase: bool, subclassesExperimentBase: bool)
    | OtherObject

  datatype Member = Member(name: string, obj: PyObject)

  datatype PyModule = PyModule(stem: string, members: seq<Member>)

  /** The names bound at the top of se_eval_eval/utility.py, which `globals()` holds; a module
      file with one of these stems is not imported. The dunder names start with "_". */
  const UtilityGlobals: set<string> :=
    {"List", "Path", "import_module", "inspect", "json", "EvalExperimentBase", "Document",
     "get_experiments", "hydrate_document_manifest"}

  /** `module_name.startswith("_") or module_name in globals()`. */
  predicate Skipped(stem: string) {
    (|stem| > 0 && stem[0] == '_') || stem in UtilityGlobals
  }

  /** `inspect.isclass(obj) and issubclass(obj, EvalExperimentBase) and obj != EvalExperimentBase`. */
  predicate IsExperiment(o: PyObject) {
    o.ClassObject? && o.subclassesExperimentBase && !o.isExperimentBase
  }

  /** The experiment classes among the members, in member order, repeats kept. */
  function MemberExperiments(members: seq<Member>): seq<PyObject> {
    if members == [] then []
    else
      var last := members[|members| - 1];
      MemberExperiments(members[..|members| - 1]) + (if IsExperiment(last.obj) then [last.obj] else [])
  }

  /** What one module contributes. */
  function ModuleExperiments(m: PyModule): seq<PyObject> {
    if Skipped(m.stem) then [] else MemberExperiments(m.members)
  }

  /** What `get_experiments` returns: the modules' contributions in module order. */
  function Experiments(modules: seq<PyModule>): seq<PyObject> {
    if modules == [] then []
    else Experiments(modules[..|modules| - 1]) + ModuleExperiments(modules[|modules| - 1])
  }

  /** The inner loop over one imported module's members. */
  method AppendModuleExperiments(experiments: seq<PyObject>, m: PyModule) returns (out: seq<PyObject>)
    requires !Skipped(m.stem)
    ensures out == experiments + ModuleExperiments(m)
  {
    out := experiments;
    for j := 0 to |m.members|
      invariant out == experiments + MemberExperiments(m.members[..j])
    {
      assert m.members[..j + 1][..j] == m.members[..j];
      var obj := m.members[j].obj;
      if IsExperiment(obj) {
        out := out + [obj];
      }
    }
    assert m.members[..|m.members|] == m.members;
  }

  /** `get_experiments`. */
  method GetExperiments(modules: seq<PyModule>) returns (experiments: seq<PyObject>)
    ensures experiments == Experiments(modules)
  {
    experiments := [];
    for i := 0 to |modules|
      invariant experiments == Experiments(modules[..i])
    {
      assert modules[..i + 1][..i] == modules[..i];
      var m := modules[i];
      if !Skipped(m.stem) {
        experiments := AppendModuleExperiments(experiments, m);
      }
    }
    assert modules[..|modules|] == modules;
  }

  // ---- What is collected ----

  /** How many members hold `o`. */
  function CountIn(members: seq<Member>, o: PyObject): nat {
    if members == [] then 0
    else CountIn(members[..|members| - 1], o) + (if members[|members| - 1].obj == o then 1 else 0)
  }

  /** How many members of imported modules hold `o`. */
  function Occurrences(modules: seq<PyModule>, o: PyObject): nat {
    if modules == [] then 0
    else
      var last := modules[|modules| - 1];
      Occurrences(modules[..|modules| - 1], o) + (if Skipped(last.stem) then 0 else CountIn(last.members, o))
  }

  lemma {:induction false} MemberExperimentsCount(members: seq<Member>, o: PyObject)
    ensures multiset(MemberExperiments(members))[o] == if IsExperiment(o) then CountIn(members, o) else 0
  {
    if members != [] {
      MemberExperimentsCount(members[..|members| - 1], o);
    }
  }

  /** An experiment class is collected once for every member of an imported module that holds
      it (the list is never de-duplicated), and nothing else is collected. */
  lemma {:induction false} ExperimentsCount(modules: seq<PyModule>, o: PyObject)
    ensures multiset(Experiments(modules))[o] == if IsExperiment(o) then Occurrences(modules, o) else 0
  {
    if modules != [] {
      var last := modules[|modules| - 1];
      ExperimentsCount(modules[..|modules| - 1], o);
      if !Skipped(last.stem) {
        MemberExperimentsCount(last.members, o);
      }
    }
  }

  /** Everything collected is a proper subclass of the experiment base, never the base. */
  lemma CollectedAreExperiments(modules: seq<PyModule>, o: PyObject)
    requires o in Experiments(modules)
    ensures o.ClassObject? && o.subclassesExperimentBase && !o.isExperimentBase
  {
    ExperimentsCount(modules, o);
    assert o in multiset(Experiments(modules));
  }

  /** A class imported by two modules that are both loaded is collected twice. */
  lemma ImportedTwiceCollectedTwice(a: PyModule, b: PyModule, o: PyObject)
    requires IsExperiment(o) && !Skipped(a.stem) && !Skipped(b.stem)
    requires CountIn(a.members, o) >= 1 && CountIn(b.members, o) >= 1
    ensures multiset(Experiments([a, b]))[o] >= 2
  {
    ExperimentsCount([a, b], o);
    assert [a, b][..1] == [a];
    assert [a][..0] == [];
  }

  /** The commented-out experiments/template.py is still imported: only a leading "_" or a
      name the utility module itself binds keeps a module out. */
  lemma TemplateImported()
    ensures !Skipped("template") && Skipped("_private") && Skipped("json")
  {
  }

  // ---- hydrate_document_manifest ----

  /** se_eval_eval's `hydrate_document_manifest` after `json.loads`: the top-level list's
      elements validated as Documents, in order; the first invalid one raises. */
  method HydrateDocuments(entries: seq<RawDocument>) returns (r: Result<seq<Document>, ValidationError>)
    ensures r == MapAll(ValidateDocument, entries)
  {
    var documents := [];
    ContinueEmpty([], ValidateDocument, entries);
    for i := 0 to |entries|
      invariant Continue([], ValidateDocument, entries[..i]) == Success(documents)
    {
      ContinueElement([], ValidateDocument, entries, i, documents);
      var d := ValidateDocument(entries[i]);
      if d.Failure? {
        return Failure(d.error);
      }
      documents := documents + [d.value];
    }
    assert entries[..|entries|] == entries;
    assert [] + MapAll(ValidateDocument, entries).value == MapAll(ValidateDocument, entries).value;
    return Success(documents);
  }

  /** Hydration gives exactly one Document per element, in order, with that element's path
      and text; it fails exactly when some element does not validate. */
  lemma HydrateOnePerEntry(entries: seq<RawDocument>)
    ensures MapAll(ValidateDocument, entries).Success? <==>
      forall i :: 0 <= i < |entries| ==> ValidateDocument(entries[i]).Success?
    ensures MapAll(ValidateDocument, entries).Success? ==>
      var documents := MapAll(ValidateDocument, entries).value;
      && |documents| == |entries|
      && forall i :: 0 <= i < |entries| ==>
           entries[i].path == Some(documents[i].path) && entries[i].text == Some(documents[i].text)
  {
    MapAllFacts(ValidateDocument, entries);
  }
}
