/** LLM analysis of the notices (se_eval_eval/analysis.py). Every document is analysed by
    every model with both analysis prompts. The work is grouped per model, in the order the
    models are first named, and each model's list runs in consecutive batches of two. Each
    analysis is appended to its document, and the resulting manifest lists the document once
    per analysis, in the order the analyses ran. */
module NoticeAnalysis {
  import opened Wrappers
  import opened Schema
  import opened DocumentStore
  import Seqs

  /** At most this many analyses of one model run concurrently. */
  const BatchSize: nat := 2

  /** The two analysis prompt functions of se_eval_eval/prompts/analysis.py. */
  datatype AnalysisPrompt = Prompt1 | Prompt2

  /** `prompt.__name__`, recorded on every analysis the prompt produced. */
  function PromptName(p: AnalysisPrompt): string {
    match p
    case Prompt1 => "prompt_1"
    case Prompt2 => "prompt_2"
  }

  /** The prompts in the order they are tried: `(prompt_1, prompt_2)`. */
  const Prompts: seq<AnalysisPrompt> := [Prompt1, Prompt2]

  /** `prompt(text)`: the prompt text the model is sent. */
  type PromptRenderer = (AnalysisPrompt, string) -> string

  /** The Ollama call: model name and prompt text to the JSON object of the reply. */
  type AnalysisModel = (string, string) -> RawAnalysis

  /** One pending call of `attach_analysis_to_document`: document `document` of the manifest,
      analysed by `modelName` with `prompt`. */
  datatype AnalysisTask = AnalysisTask(document: nat, modelName: string, prompt: AnalysisPrompt)

  /** The keys of `{model: [] for model in models}`: each model once, in first-occurrence order. */
  function Distinct(ms: seq<string>): (r: seq<string>)
    ensures forall m :: m in r <==> m in ms
    ensures forall i, j :: 0 <= i < j < |r| ==> r[i] != r[j]
  {
    if ms == [] then []
    else
      var p := Distinct(ms[..|ms| - 1]);
      if ms[|ms| - 1] in ms[..|ms| - 1] then p else p + [ms[|ms| - 1]]
  }

  /** The calls for document d and one model: one per prompt, in prompt order. */
  function PromptPair(d: nat, m: string): (r: seq<AnalysisTask>)
    ensures |r| == |Prompts|
  {
    [AnalysisTask(d, m, Prompt1), AnalysisTask(d, m, Prompt2)]
  }

  /** What the pass over document d appends to the list of model m: a prompt pair for every
      position of `ms` that names m. */
  function PerDocument(d: nat, ms: seq<string>, m: string): seq<AnalysisTask> {
    if ms == [] then []
    else PerDocument(d, ms[..|ms| - 1], m) + (if ms[|ms| - 1] == m then PromptPair(d, m) else [])
  }

  lemma PerDocumentSnoc(d: nat, ms: seq<string>, j: nat, m: string)
    requires j < |ms|
    ensures PerDocument(d, ms[..j + 1], m) == PerDocument(d, ms[..j], m) + (if ms[j] == m then PromptPair(d, m) else [])
  {
    assert ms[..j + 1][..j] == ms[..j];
  }

  /** The list of model m after the first n documents have been scheduled. */
  function ModelTasks(n: nat, ms: seq<string>, m: string): seq<AnalysisTask> {
    if n == 0 then [] else ModelTasks(n - 1, ms, m) + PerDocument(n - 1, ms, m)
  }

  /** The lists of the given model keys, one after the other. */
  function TasksOver(keys: seq<string>, n: nat, ms: seq<string>): seq<AnalysisTask> {
    if keys == [] then []
    else TasksOver(keys[..|keys| - 1], n, ms) + ModelTasks(n, ms, keys[|keys| - 1])
  }

  /** The calls an element of the triple loop schedules for one document all name that
      document, the model and one of the two prompts. */
  predicate Names(t: AnalysisTask, d: nat, m: string) {
    t.document == d && t.modelName == m && t.prompt in Prompts
  }

  lemma {:induction false} PerDocumentMembers(d: nat, ms: seq<string>, m: string)
    ensures forall t :: t in PerDocument(d, ms, m) ==> Names(t, d, m)
  {
    if ms != [] {
      var a := PerDocument(d, ms[..|ms| - 1], m);
      var b := if ms[|ms| - 1] == m then PromptPair(d, m) else [];
      assert PerDocument(d, ms, m) == a + b;
      PerDocumentMembers(d, ms[..|ms| - 1], m);
      forall t: AnalysisTask | t in a + b
        ensures Names(t, d, m)
      {
        if t in a {} else {}
      }
    }
  }

  lemma {:induction false} ModelTasksMembers(n: nat, ms: seq<string>, m: string)
    ensures forall t :: t in ModelTasks(n, ms, m) ==> t.document < n && Names(t, t.document, m)
  {
    if n > 0 {
      var a := ModelTasks(n - 1, ms, m);
      var b := PerDocument(n - 1, ms, m);
      assert ModelTasks(n, ms, m) == a + b;
      ModelTasksMembers(n - 1, ms, m);
      PerDocumentMembers(n - 1, ms, m);
      forall t: AnalysisTask | t in a + b
        ensures t.document < n && Names(t, t.document, m)
      {
        if t in a {} else {}
      }
    }
  }

  lemma {:induction false} TasksOverMembers(keys: seq<string>, n: nat, ms: seq<string>)
    ensures forall t :: t in TasksOver(keys, n, ms) ==> t.document < n && t.modelName in keys && t.prompt in Prompts
  {
    if keys != [] {
      var p := keys[..|keys| - 1];
      var a := TasksOver(p, n, ms);
      var b := ModelTasks(n, ms, keys[|keys| - 1]);
      assert TasksOver(keys, n, ms) == a + b;
      TasksOverMembers(p, n, ms);
      ModelTasksMembers(n, ms, keys[|keys| - 1]);
      forall t: AnalysisTask | t in a + b
        ensures t.document < n && t.modelName in keys && t.prompt in Prompts
      {
        if t in a {
          assert t.modelName in p;
        } else {
          assert Names(t, t.document, keys[|keys| - 1]);
        }
      }
    }
  }

  /** Every call, in the order the analyses run: model list by model list, in key order. */
  function Schedule(n: nat, ms: seq<string>): seq<AnalysisTask> {
    TasksOver(Distinct(ms), n, ms)
  }

  /** The slices `tasks[i : i + size]` for i = 0, size, 2*size, ... */
  function Batches(tasks: seq<AnalysisTask>, size: nat): (r: seq<seq<AnalysisTask>>)
    requires size > 0
    ensures forall i :: 0 <= i < |r| ==> 0 < |r[i]| <= size
    decreases |tasks|
  {
    if |tasks| <= size then (if tasks == [] then [] else [tasks])
    else [tasks[..size]] + Batches(tasks[size..], size)
  }

  /** The first batch is the leading slice of at most `size` calls; the rest are the batches
      of what follows it. */
  lemma BatchesStep(tasks: seq<AnalysisTask>, size: nat)
    requires size > 0 && tasks != []
    ensures var hi := if size <= |tasks| then size else |tasks|;
      Batches(tasks, size) == [tasks[..hi]] + Batches(tasks[hi..], size)
  {
    if |tasks| <= size {
      assert tasks[..|tasks|] == tasks;
      assert Batches(tasks[|tasks|..], size) == [];
    }
  }

  /** The batch loop's bookkeeping: when the batches run so far make up `tasks[..i]`, the
      slice `tasks[i..hi]` it takes next is the next batch. */
  lemma BatchProgress(tasks: seq<AnalysisTask>, size: nat, done: seq<seq<AnalysisTask>>, i: nat, hi: nat)
    requires size > 0 && i < |tasks| && hi == (if i + size <= |tasks| then i + size else |tasks|)
    requires Batches(tasks, size) == done + Batches(tasks[i..], size) && tasks[..i] == Seqs.Concat(done)
    ensures Batches(tasks, size) == (done + [tasks[i..hi]]) + Batches(tasks[hi..], size)
    ensures tasks[..hi] == Seqs.Concat(done + [tasks[i..hi]])
  {
    var rest, batch := tasks[i..], tasks[i..hi];
    BatchesStep(rest, size);
    assert rest[..hi - i] == batch;
    assert rest[hi - i..] == tasks[hi..];
    var later := Batches(tasks[hi..], size);
    assert Batches(rest, size) == [batch] + later;
    assert done + ([batch] + later) == (done + [batch]) + later;
    Seqs.ConcatSnoc(done, batch);
    assert tasks[..hi] == tasks[..i] + batch;
  }

  /** Running the batches one after the other runs every call exactly once, in list order. */
  lemma {:induction false} BatchesCover(tasks: seq<AnalysisTask>, size: nat)
    requires size > 0
    ensures Seqs.Concat(Batches(tasks, size)) == tasks
    ensures forall i :: 0 <= i < |Batches(tasks, size)| - 1 ==> |Batches(tasks, size)[i]| == size
    decreases |tasks|
  {
    var bs := Batches(tasks, size);
    if |tasks| <= size {
      if tasks != [] {
        assert bs == [] + [tasks];
        Seqs.ConcatSnoc([], tasks);
      }
    } else {
      var rest := Batches(tasks[size..], size);
      BatchesCover(tasks[size..], size);
      assert bs == [tasks[..size]] + rest;
      Seqs.ConcatAppend([tasks[..size]], rest);
      assert [tasks[..size]] == [] + [tasks[..size]];
      Seqs.ConcatSnoc([], tasks[..size]);
      assert tasks[..size] + tasks[size..] == tasks;
      forall i | 0 <= i < |bs| - 1
        ensures |bs[i]| == size
      {
        if i > 0 {
          assert bs[i] == rest[i - 1];
        }
      }
    }
  }

  // ---- Counting the calls ----

  /** Occurrences in ms of the given keys, summed. */
  function SumCounts(keys: seq<string>, ms: seq<string>): nat {
    if keys == [] then 0 else SumCounts(keys[..|keys| - 1], ms) + multiset(ms)[keys[|keys| - 1]]
  }

  lemma {:induction false} SumCountsSnoc(keys: seq<string>, ms: seq<string>, x: string)
    requires forall i, j :: 0 <= i < j < |keys| ==> keys[i] != keys[j]
    ensures SumCounts(keys, ms + [x]) == SumCounts(keys, ms) + (if x in keys then 1 else 0)
  {
    if keys != [] {
      var p := keys[..|keys| - 1];
      SumCountsSnoc(p, ms, x);
      assert keys == p + [keys[|keys| - 1]];
      assert multiset(ms + [x]) == multiset(ms) + multiset{x};
    }
  }

  /** Every model name, repeated or not, is counted once per occurrence under its key. */
  lemma {:induction false} DistinctCounts(ms: seq<string>)
    ensures SumCounts(Distinct(ms), ms) == |ms|
  {
    if ms != [] {
      var p := ms[..|ms| - 1];
      var x := ms[|ms| - 1];
      assert ms == p + [x];
      DistinctCounts(p);
      SumCountsSnoc(Distinct(p), p, x);
      if x !in p {
        assert multiset(p)[x] == 0;
        assert multiset(ms)[x] == 1;
        assert Distinct(ms)[..|Distinct(ms)| - 1] == Distinct(p);
      }
    }
  }

  lemma {:induction false} PerDocumentLength(d: nat, ms: seq<string>, m: string)
    ensures |PerDocument(d, ms, m)| == |Prompts| * multiset(ms)[m]
  {
    if ms != [] {
      var p := ms[..|ms| - 1];
      PerDocumentLength(d, p, m);
      assert ms == p + [ms[|ms| - 1]];
      assert multiset(ms) == multiset(p) + multiset{ms[|ms| - 1]};
    }
  }

  lemma {:induction false} ModelTasksLength(n: nat, ms: seq<string>, m: string)
    ensures |ModelTasks(n, ms, m)| == n * (|Prompts| * multiset(ms)[m])
  {
    if n > 0 {
      var c := |Prompts| * multiset(ms)[m];
      assert |ModelTasks(n - 1, ms, m)| == (n - 1) * c by { ModelTasksLength(n - 1, ms, m); }
      assert |PerDocument(n - 1, ms, m)| == c by { PerDocumentLength(n - 1, ms, m); }
      MulSucc(n - 1, c);
    }
  }

  lemma {:induction false} TasksOverLength(keys: seq<string>, n: nat, ms: seq<string>)
    ensures |TasksOver(keys, n, ms)| == n * (|Prompts| * SumCounts(keys, ms))
  {
    if keys != [] {
      var p := keys[..|keys| - 1];
      var m := keys[|keys| - 1];
      var a := SumCounts(p, ms);
      var b := multiset(ms)[m];
      var c := |Prompts|;
      assert |TasksOver(p, n, ms)| == n * (c * a) by { TasksOverLength(p, n, ms); }
      assert |ModelTasks(n, ms, m)| == n * (c * b) by { ModelTasksLength(n, ms, m); }
      assert |TasksOver(keys, n, ms)| == |TasksOver(p, n, ms)| + |ModelTasks(n, ms, m)|;
      assert SumCounts(keys, ms) == a + b;
      Distribute(n, |Prompts|, a, b);
    }
  }

  // Arithmetic helpers for the length lemmas above: they keep the nonlinear steps out of
  // the inductive proofs, and state nothing about the model.

  lemma MulSucc(k: nat, c: nat)
    ensures k * c + c == (k + 1) * c
  {
  }

  lemma Distribute(n: nat, c: nat, a: nat, b: nat)
    ensures n * (c * a) + n * (c * b) == n * (c * (a + b))
  {
    calc {
      n * (c * a) + n * (c * b);
      n * (c * a + c * b);
      n * (c * (a + b));
    }
  }

  lemma Reassociate(n: nat, m: nat, c: nat)
    ensures n * (c * m) == n * m * c
  {
    calc {
      n * (c * m);
      n * (m * c);
      n * m * c;
    }
  }

  /** The manifest that comes back holds |documents| * |models| * 2 entries, counting a
      repeated model name once per occurrence. */
  lemma ScheduleLength(n: nat, ms: seq<string>)
    ensures |Schedule(n, ms)| == n * |ms| * |Prompts|
  {
    TasksOverLength(Distinct(ms), n, ms);
    DistinctCounts(ms);
    Reassociate(n, |ms|, |Prompts|);
  }

  // ---- The calls that concern one document ----

  /** The calls of `tasks` on document d, in order. */
  function OnDocument(tasks: seq<AnalysisTask>, d: nat): seq<AnalysisTask> {
    if tasks == [] then []
    else OnDocument(tasks[..|tasks| - 1], d) + (if tasks[|tasks| - 1].document == d then [tasks[|tasks| - 1]] else [])
  }

  lemma {:induction false} OnDocumentAppend(a: seq<AnalysisTask>, b: seq<AnalysisTask>, d: nat)
    ensures OnDocument(a + b, d) == OnDocument(a, d) + OnDocument(b, d)
  {
    if b != [] {
      var p := b[..|b| - 1];
      var last := b[|b| - 1];
      var x := if last.document == d then [last] else [];
      OnDocumentAppend(a, p, d);
      assert (a + b)[..|a + b| - 1] == a + p;
      assert (a + b)[|a + b| - 1] == last;
      assert OnDocument(a + b, d) == OnDocument(a + p, d) + x;
      assert OnDocument(b, d) == OnDocument(p, d) + x;
    } else {
      assert a + b == a;
    }
  }

  lemma {:induction false} OnDocumentUniform(tasks: seq<AnalysisTask>, e: nat, d: nat)
    requires forall t :: t in tasks ==> t.document == e
    ensures OnDocument(tasks, d) == if d == e then tasks else []
  {
    if tasks != [] {
      var p := tasks[..|tasks| - 1];
      var last := tasks[|tasks| - 1];
      assert tasks == p + [last];
      assert forall t :: t in p ==> t in tasks;
      OnDocumentUniform(p, e, d);
      assert last.document == e;
    }
  }

  /** Block `i` of the schedule of one model: the calls on document `i`. */
  function DocumentBlocks(n: nat, ms: seq<string>, m: string): (r: seq<seq<AnalysisTask>>)
    ensures |r| == n
  {
    seq(n, i requires 0 <= i => PerDocument(i, ms, m))
  }

  lemma {:induction false} ModelTasksBlocks(n: nat, ms: seq<string>, m: string)
    ensures ModelTasks(n, ms, m) == Seqs.Concat(DocumentBlocks(n, ms, m))
  {
    if n > 0 {
      ModelTasksBlocks(n - 1, ms, m);
      var bs := DocumentBlocks(n, ms, m);
      assert bs[..n - 1] == DocumentBlocks(n - 1, ms, m);
    }
  }

  lemma {:induction false} OnDocumentBlocks(bs: seq<seq<AnalysisTask>>, d: nat)
    requires forall i: int, t: AnalysisTask :: 0 <= i < |bs| && t in bs[i] ==> t.document == i
    ensures OnDocument(Seqs.Concat(bs), d) == if d < |bs| then bs[d] else []
  {
    if bs != [] {
      var k := |bs| - 1;
      var init := bs[..k];
      assert forall i: int, t: AnalysisTask :: 0 <= i < |init| && t in init[i] ==> t.document == i by {
        forall i: int, t: AnalysisTask | 0 <= i < |init| && t in init[i] ensures t.document == i {
          assert init[i] == bs[i];
        }
      }
      OnDocumentBlocks(init, d);
      OnDocumentAppend(Seqs.Concat(init), bs[k], d);
      OnDocumentUniform(bs[k], k, d);
      if d < k {
        assert init[d] == bs[d];
        assert OnDocument(Seqs.Concat(bs), d) == bs[d] + [];
      } else if d == k {
        assert OnDocument(Seqs.Concat(bs), d) == [] + bs[k];
      } else {
        assert OnDocument(Seqs.Concat(bs), d) == [] + [];
      }
    }
  }

  lemma OnDocumentModelTasks(n: nat, ms: seq<string>, m: string, d: nat)
    ensures OnDocument(ModelTasks(n, ms, m), d) == if d < n then PerDocument(d, ms, m) else []
  {
    var bs := DocumentBlocks(n, ms, m);
    forall i: int, t: AnalysisTask | 0 <= i < |bs| && t in bs[i] ensures t.document == i {
      PerDocumentMembers(i, ms, m);
    }
    ModelTasksBlocks(n, ms, m);
    OnDocumentBlocks(bs, d);
  }

  lemma {:induction false} OnDocumentTasksOverLength(keys: seq<string>, n: nat, ms: seq<string>, d: nat)
    requires d < n
    ensures |OnDocument(TasksOver(keys, n, ms), d)| == |Prompts| * SumCounts(keys, ms)
  {
    if keys != [] {
      var p := keys[..|keys| - 1];
      var m := keys[|keys| - 1];
      OnDocumentTasksOverLength(p, n, ms, d);
      OnDocumentAppend(TasksOver(p, n, ms), ModelTasks(n, ms, m), d);
      OnDocumentModelTasks(n, ms, m, d);
      PerDocumentLength(d, ms, m);
    }
  }

  /** Each document is analysed once per model occurrence and prompt, and every call names a
      document of the manifest, one of the models and one of the two prompts. */
  lemma ScheduleCoverage(n: nat, ms: seq<string>, d: nat)
    requires d < n
    ensures |OnDocument(Schedule(n, ms), d)| == |ms| * |Prompts|
    ensures forall t :: t in Schedule(n, ms) ==> t.document < n && t.modelName in ms && t.prompt in Prompts
  {
    OnDocumentTasksOverLength(Distinct(ms), n, ms, d);
    DistinctCounts(ms);
    TasksOverMembers(Distinct(ms), n, ms);
  }

  lemma TasksOverSnoc(keys: seq<string>, k: nat, n: nat, ms: seq<string>)
    requires k < |keys|
    ensures TasksOver(keys[..k + 1], n, ms) == TasksOver(keys[..k], n, ms) + ModelTasks(n, ms, keys[k])
  {
    assert keys[..k + 1][..k] == keys[..k];
  }

  /** Every call of model m lies in the task list of any key sequence that contains m. */
  lemma {:induction false} InTasksOver(keys: seq<string>, n: nat, ms: seq<string>, k: nat)
    requires k < |keys|
    ensures forall t :: t in ModelTasks(n, ms, keys[k]) ==> t in TasksOver(keys, n, ms)
  {
    var p := keys[..|keys| - 1];
    if k < |keys| - 1 {
      InTasksOver(p, n, ms, k);
      assert p[k] == keys[k];
    }
  }

  // ---- One call, and what a run of calls does to the documents ----

  /** `attach_analysis_to_document` without its side effect: the reply to the rendered prompt,
      validated, then stamped with the model's and the prompt's names. */
  function Analyse(text: string, t: AnalysisTask, render: PromptRenderer, llm: AnalysisModel): (r: Result<Analysis, ValidationError>)
    ensures var reply := ValidateAnalysis(llm(t.modelName, render(t.prompt, text)));
      && (r.Success? <==> reply.Success?)
      && (r.Failure? ==> r.error == reply.error)
      && (r.Success? ==>
            && r.value.summary == reply.value.summary
            && r.value.questions == reply.value.questions
            && r.value.evaluationResults == reply.value.evaluationResults)
    ensures r.Success? ==> ValidAnalysis(r.value) && r.value.llmModelName == t.modelName && r.value.promptName == PromptName(t.prompt)
  {
    var a :- ValidateAnalysis(llm(t.modelName, render(t.prompt, text)));
    Success(a.(llmModelName := t.modelName, promptName := PromptName(t.prompt)))
  }

  /** Every call names a document of `docs` and gets a valid reply. */
  predicate Analysable(docs: seq<Document>, tasks: seq<AnalysisTask>, render: PromptRenderer, llm: AnalysisModel) {
    forall t :: t in tasks ==> t.document < |docs| && Analyse(docs[t.document].text, t, render, llm).Success?
  }

  /** The analysis a call appends. Only calls whose reply validates append anything; the
      empty analysis for the others is never used where it matters. */
  function Reply(text: string, t: AnalysisTask, render: PromptRenderer, llm: AnalysisModel): Analysis {
    match Analyse(text, t, render, llm)
    case Success(a) => a
    case Failure(_) => Analysis("", [], t.modelName, PromptName(t.prompt), [])
  }

  /** `Reply` as a value, so that the bookkeeping below holds for any way of answering. */
  function ReplyFn(render: PromptRenderer, llm: AnalysisModel): (string, AnalysisTask) -> Analysis {
    (text: string, t: AnalysisTask) => Reply(text, t, render, llm)
  }

  lemma ReplyOfSuccess(text: string, t: AnalysisTask, render: PromptRenderer, llm: AnalysisModel)
    requires Analyse(text, t, render, llm).Success?
    ensures ReplyFn(render, llm)(text, t) == Analyse(text, t, render, llm).value
  {
  }

  function AnalysesOf(text: string, tasks: seq<AnalysisTask>, reply: (string, AnalysisTask) -> Analysis): (r: seq<Analysis>)
    ensures |r| == |tasks|
  {
    seq(|tasks|, i requires 0 <= i < |tasks| => reply(text, tasks[i]))
  }

  /** The documents after the calls have run: each document keeps its fields and gains, after
      its earlier analyses, the analyses of the calls on it, in call order. */
  function EnrichedBy(docs: seq<Document>, tasks: seq<AnalysisTask>, reply: (string, AnalysisTask) -> Analysis): (r: seq<Document>)
    ensures |r| == |docs|
    ensures forall d :: 0 <= d < |docs| ==> r[d].path == docs[d].path && r[d].text == docs[d].text && r[d].notes == docs[d].notes
  {
    seq(|docs|, d requires 0 <= d < |docs| =>
      docs[d].(noticeAnalysis := docs[d].noticeAnalysis + AnalysesOf(docs[d].text, OnDocument(tasks, d), reply)))
  }

  function Enriched(docs: seq<Document>, tasks: seq<AnalysisTask>, render: PromptRenderer, llm: AnalysisModel): seq<Document> {
    EnrichedBy(docs, tasks, ReplyFn(render, llm))
  }

  /** The position of the document each call returns. */
  function DocumentsOf(tasks: seq<AnalysisTask>): (r: seq<nat>)
    ensures |r| == |tasks| && forall i :: 0 <= i < |tasks| ==> r[i] == tasks[i].document
  {
    seq(|tasks|, i requires 0 <= i < |tasks| => tasks[i].document)
  }

  lemma DocumentsOfAppend(a: seq<AnalysisTask>, b: seq<AnalysisTask>)
    ensures DocumentsOf(a + b) == DocumentsOf(a) + DocumentsOf(b)
  {
  }

  /** The documents at the given positions: `output`, the list the calls returned. */
  function Collect(docs: seq<Document>, positions: seq<nat>): (r: seq<Document>)
    requires forall i :: 0 <= i < |positions| ==> positions[i] < |docs|
    ensures |r| == |positions| && forall i :: 0 <= i < |positions| ==> r[i] == docs[positions[i]]
  {
    seq(|positions|, i requires 0 <= i < |positions| => docs[positions[i]])
  }

  /** One more call appends its analysis to its own document and changes no other. */
  lemma EnrichedSnoc(docs: seq<Document>, tasks: seq<AnalysisTask>, t: AnalysisTask, reply: (string, AnalysisTask) -> Analysis)
    requires t.document < |docs|
    ensures var e := EnrichedBy(docs, tasks, reply);
      EnrichedBy(docs, tasks + [t], reply)
        == e[t.document := e[t.document].(noticeAnalysis := e[t.document].noticeAnalysis + [reply(docs[t.document].text, t)])]
  {
    assert (tasks + [t])[..|tasks|] == tasks;
    var e := EnrichedBy(docs, tasks, reply);
    var f := EnrichedBy(docs, tasks + [t], reply);
    var d := t.document;
    var text := docs[d].text;
    assert OnDocument(tasks + [t], d) == OnDocument(tasks, d) + [t];
    assert AnalysesOf(text, OnDocument(tasks, d) + [t], reply)
        == AnalysesOf(text, OnDocument(tasks, d), reply) + [reply(text, t)];
    var g := e[d := e[d].(noticeAnalysis := e[d].noticeAnalysis + [reply(text, t)])];
    forall k | 0 <= k < |docs|
      ensures f[k] == g[k]
    {
      if k != d {
        assert OnDocument(tasks + [t], k) == OnDocument(tasks, k);
      }
    }
  }

  lemma EnrichedNone(docs: seq<Document>, reply: (string, AnalysisTask) -> Analysis)
    ensures EnrichedBy(docs, [], reply) == docs
  {
    var e := EnrichedBy(docs, [], reply);
    forall d | 0 <= d < |docs|
      ensures e[d] == docs[d]
    {
      assert docs[d].noticeAnalysis + [] == docs[d].noticeAnalysis;
    }
  }

  lemma AnalysesOfAppend(text: string, a: seq<AnalysisTask>, b: seq<AnalysisTask>, reply: (string, AnalysisTask) -> Analysis)
    ensures AnalysesOf(text, a + b, reply) == AnalysesOf(text, a, reply) + AnalysesOf(text, b, reply)
  {
  }

  /** Earlier analyses do not change which calls succeed: the prompts read only the text. */
  lemma AnalysableEnriched(docs: seq<Document>, a: seq<AnalysisTask>, b: seq<AnalysisTask>, render: PromptRenderer, llm: AnalysisModel)
    ensures Analysable(Enriched(docs, a, render, llm), b, render, llm) <==> Analysable(docs, b, render, llm)
  {
    var e := Enriched(docs, a, render, llm);
    assert forall k :: 0 <= k < |docs| ==> e[k].text == docs[k].text;
  }

  lemma AnalysableSubset(docs: seq<Document>, a: seq<AnalysisTask>, b: seq<AnalysisTask>, render: PromptRenderer, llm: AnalysisModel)
    requires forall t :: t in a ==> t in b
    ensures Analysable(docs, b, render, llm) ==> Analysable(docs, a, render, llm)
  {
  }

  lemma AnalysableAppend(docs: seq<Document>, a: seq<AnalysisTask>, b: seq<AnalysisTask>, render: PromptRenderer, llm: AnalysisModel)
    ensures Analysable(docs, a + b, render, llm) <==> Analysable(docs, a, render, llm) && Analysable(docs, b, render, llm)
  {
    assert forall t :: t in a + b <==> t in a || t in b;
  }

  lemma EnrichedAppendAt(docs: seq<Document>, a: seq<AnalysisTask>, b: seq<AnalysisTask>, reply: (string, AnalysisTask) -> Analysis, d: nat)
    requires d < |docs|
    ensures EnrichedBy(EnrichedBy(docs, a, reply), b, reply)[d] == EnrichedBy(docs, a + b, reply)[d]
  {
    var text := docs[d].text;
    var xa := AnalysesOf(text, OnDocument(a, d), reply);
    var xb := AnalysesOf(text, OnDocument(b, d), reply);
    assert AnalysesOf(text, OnDocument(a + b, d), reply) == xa + xb by {
      OnDocumentAppend(a, b, d);
      AnalysesOfAppend(text, OnDocument(a, d), OnDocument(b, d), reply);
    }
    var e := EnrichedBy(docs, a, reply);
    assert e[d] == docs[d].(noticeAnalysis := docs[d].noticeAnalysis + xa);
    assert docs[d].noticeAnalysis + xa + xb == docs[d].noticeAnalysis + (xa + xb);
  }

  /** Running one list of calls after another is running the two lists joined. */
  lemma EnrichedAppend(docs: seq<Document>, a: seq<AnalysisTask>, b: seq<AnalysisTask>, reply: (string, AnalysisTask) -> Analysis)
    ensures EnrichedBy(EnrichedBy(docs, a, reply), b, reply) == EnrichedBy(docs, a + b, reply)
  {
    var f := EnrichedBy(EnrichedBy(docs, a, reply), b, reply);
    var g := EnrichedBy(docs, a + b, reply);
    forall d | 0 <= d < |docs|
      ensures f[d] == g[d]
    {
      EnrichedAppendAt(docs, a, b, reply, d);
    }
  }

  // ---- The calls as the program makes them ----

  /** `attach_analysis_to_document`: a failed validation raises and leaves the document alone. */
  method AttachAnalysis(store: Store, t: AnalysisTask, render: PromptRenderer, llm: AnalysisModel) returns (err: Option<ValidationError>)
    requires t.document < |store.documents|
    modifies store
    ensures var r := Analyse(old(store.documents[t.document]).text, t, render, llm);
      && (err.Some? <==> r.Failure?)
      && (err.Some? ==> err.value == r.error && store.documents == old(store.documents))
      && (err.None? ==> store.documents == old(store.documents)[t.document :=
            old(store.documents[t.document]).(noticeAnalysis := old(store.documents[t.document]).noticeAnalysis + [r.value])])
  {
    var r := Analyse(store.documents[t.document].text, t, render, llm);
    if r.Failure? {
      return Some(r.error);
    }
    store.AppendAnalysis(t.document, r.value);
    err := None;
  }

  /** A call whose reply validates appends that reply to its own document. */
  lemma AnalysedSnoc(docs: seq<Document>, tasks: seq<AnalysisTask>, t: AnalysisTask, render: PromptRenderer, llm: AnalysisModel)
    requires t.document < |docs|
    requires Analyse(docs[t.document].text, t, render, llm).Success?
    ensures var e := Enriched(docs, tasks, render, llm);
      Enriched(docs, tasks + [t], render, llm)
        == e[t.document := e[t.document].(noticeAnalysis := e[t.document].noticeAnalysis + [Analyse(docs[t.document].text, t, render, llm).value])]
    ensures Analysable(docs, tasks + [t], render, llm) <==> Analysable(docs, tasks, render, llm)
  {
    EnrichedSnoc(docs, tasks, t, ReplyFn(render, llm));
    ReplyOfSuccess(docs[t.document].text, t, render, llm);
    AnalysableAppend(docs, tasks, [t], render, llm);
  }

  /** One call of a batch, on the documents enriched by the calls before it: a reply that fails
      makes the batch unanalysable, and one that validates extends the enrichment by the call. */
  lemma BatchStep(docs: seq<Document>, batch: seq<AnalysisTask>, j: nat, before: seq<Document>,
                  render: PromptRenderer, llm: AnalysisModel)
    requires j < |batch| && batch[j].document < |docs|
    requires before == Enriched(docs, batch[..j], render, llm)
    ensures before[batch[j].document].text == docs[batch[j].document].text
    ensures var t := batch[j];
      Analyse(docs[t.document].text, t, render, llm).Failure? ==> !Analysable(docs, batch, render, llm)
    ensures var t := batch[j];
      Analyse(docs[t.document].text, t, render, llm).Success? ==>
        && before[t.document := before[t.document].(noticeAnalysis := before[t.document].noticeAnalysis
              + [Analyse(docs[t.document].text, t, render, llm).value])] == Enriched(docs, batch[..j + 1], render, llm)
        && (Analysable(docs, batch[..j + 1], render, llm) <==> Analysable(docs, batch[..j], render, llm))
  {
    var t := batch[j];
    assert t in batch;
    assert batch[..j + 1] == batch[..j] + [t];
    if Analyse(docs[t.document].text, t, render, llm).Success? {
      AnalysedSnoc(docs, batch[..j], t, render, llm);
    }
  }

  /** `await asyncio.gather(*batch)`: the calls of one batch, taken in order. */
  method RunBatch(store: Store, batch: seq<AnalysisTask>, render: PromptRenderer, llm: AnalysisModel)
    returns (results: seq<nat>, err: Option<ValidationError>)
    requires forall t :: t in batch ==> t.document < |store.documents|
    modifies store
    ensures err.None? <==> Analysable(old(store.documents), batch, render, llm)
    ensures err.None? ==> store.documents == Enriched(old(store.documents), batch, render, llm) && results == DocumentsOf(batch)
  {
    ghost var docs := store.documents;
    results := [];
    assert batch[..0] == [];
    EnrichedNone(docs, ReplyFn(render, llm));
    for j := 0 to |batch|
      invariant Analysable(docs, batch[..j], render, llm)
      invariant store.documents == Enriched(docs, batch[..j], render, llm)
      invariant results == DocumentsOf(batch[..j])
    {
      var t := batch[j];
      assert t in batch;
      ghost var before := store.documents;
      err := AttachAnalysis(store, t, render, llm);
      BatchStep(docs, batch, j, before, render, llm);
      if err.Some? {
        return;
      }
      assert batch[..j + 1] == batch[..j] + [t];
      DocumentsOfAppend(batch[..j], [t]);
      results := results + [t.document];
    }
    assert batch[..|batch|] == batch;
    err := None;
  }

  /** The batch loop over one model's calls: `model_tasks[i : i + BATCH_SIZE]` for
      i = 0, 2, 4, ..., each batch gathered before the next starts, the returned documents
      appended to the output. */
  method RunModelTasks(store: Store, tasks: seq<AnalysisTask>, render: PromptRenderer, llm: AnalysisModel)
    returns (out: seq<nat>, err: Option<ValidationError>, ghost done: seq<seq<AnalysisTask>>)
    requires forall t :: t in tasks ==> t.document < |store.documents|
    modifies store
    ensures err.None? <==> Analysable(old(store.documents), tasks, render, llm)
    ensures err.None? ==> store.documents == Enriched(old(store.documents), tasks, render, llm) && out == DocumentsOf(tasks)
    ensures done <= Batches(tasks, BatchSize)
    ensures err.None? ==> done == Batches(tasks, BatchSize)
  {
    ghost var docs := store.documents;
    done := [];
    out := [];
    var i := 0;
    assert tasks[..0] == [];
    assert tasks[0..] == tasks;
    EnrichedNone(docs, ReplyFn(render, llm));
    while i < |tasks|
      invariant 0 <= i <= |tasks|
      invariant Batches(tasks, BatchSize) == done + Batches(tasks[i..], BatchSize)
      invariant tasks[..i] == Seqs.Concat(done)
      invariant Analysable(docs, tasks[..i], render, llm)
      invariant store.documents == Enriched(docs, tasks[..i], render, llm)
      invariant out == DocumentsOf(tasks[..i])
      decreases |tasks| - i
    {
      var hi := if i + BatchSize <= |tasks| then i + BatchSize else |tasks|;
      var batch := tasks[i..hi];
      assert tasks[..hi] == tasks[..i] + batch;
      BatchProgress(tasks, BatchSize, done, i, hi);
      assert forall t :: t in batch ==> t in tasks;
      var results;
      results, err := RunBatch(store, batch, render, llm);
      AnalysableEnriched(docs, tasks[..i], batch, render, llm);
      AnalysableAppend(docs, tasks[..i], batch, render, llm);
      if err.Some? {
        AnalysableSubset(docs, batch, tasks, render, llm);
        return;
      }
      EnrichedAppend(docs, tasks[..i], batch, ReplyFn(render, llm));
      DocumentsOfAppend(tasks[..i], batch);
      out := out + results;
      done := done + [batch];
      i := hi;
    }
    assert tasks[..i] == tasks;
    assert Batches(tasks[i..], BatchSize) == [];
    err := None;
  }

  /** The innermost loop `for prompt in (prompt_1, prompt_2)`, appending to the list of one model. */
  method AppendPrompts(tasks: map<string, seq<AnalysisTask>>, d: nat, name: string) returns (r: map<string, seq<AnalysisTask>>)
    requires name in tasks
    ensures r == tasks[name := tasks[name] + PromptPair(d, name)]
  {
    r := tasks;
    assert tasks[name] + PromptPair(d, name)[..0] == tasks[name];
    for k := 0 to |Prompts|
      invariant r == tasks[name := tasks[name] + PromptPair(d, name)[..k]]
    {
      var t := AnalysisTask(d, name, Prompts[k]);
      assert PromptPair(d, name)[..k + 1] == PromptPair(d, name)[..k] + [t];
      assert (tasks[name] + PromptPair(d, name)[..k]) + [t] == tasks[name] + PromptPair(d, name)[..k + 1];
      r := r[name := r[name] + [t]];
    }
    assert PromptPair(d, name)[..|Prompts|] == PromptPair(d, name);
  }

  /** `tasks = {model: [] for model in models}` followed by the triple loop over documents,
      models and prompts that fills it. */
  method ScheduleTasks(n: nat, models: seq<string>) returns (keys: seq<string>, tasks: map<string, seq<AnalysisTask>>)
    ensures keys == Distinct(models)
    ensures forall m :: m in tasks <==> m in models
    ensures forall m :: m in tasks ==> tasks[m] == ModelTasks(n, models, m)
  {
    keys := Distinct(models);
    tasks := map m | m in models :: [];
    for d := 0 to n
      invariant forall m :: m in tasks <==> m in models
      invariant forall m :: m in tasks ==> tasks[m] == ModelTasks(d, models, m)
    {
      tasks := ScheduleDocument(tasks, d, models);
    }
  }

  /** One model of the pass over document d: only that model's list grows, by a prompt pair. */
  lemma ScheduleStep(tasks: map<string, seq<AnalysisTask>>, prev: map<string, seq<AnalysisTask>>,
                     r: map<string, seq<AnalysisTask>>, d: nat, models: seq<string>, j: nat)
    requires j < |models| && models[j] in prev && prev.Keys == tasks.Keys
    requires forall m :: m in prev ==> prev[m] == tasks[m] + PerDocument(d, models[..j], m)
    requires r == prev[models[j] := prev[models[j]] + PromptPair(d, models[j])]
    ensures r.Keys == tasks.Keys
    ensures forall m :: m in r ==> r[m] == tasks[m] + PerDocument(d, models[..j + 1], m)
  {
    forall m | m in r
      ensures r[m] == tasks[m] + PerDocument(d, models[..j + 1], m)
    {
      PerDocumentSnoc(d, models, j, m);
      if m == models[j] {
        assert r[m] == prev[m] + PromptPair(d, m);
      } else {
        assert r[m] == prev[m];
      }
    }
  }

  /** The pass over one document: `for model_name in models` with the prompt loop inside. */
  method ScheduleDocument(tasks: map<string, seq<AnalysisTask>>, d: nat, models: seq<string>) returns (r: map<string, seq<AnalysisTask>>)
    requires forall m :: m in models ==> m in tasks
    ensures r.Keys == tasks.Keys
    ensures forall m :: m in r ==> r[m] == tasks[m] + PerDocument(d, models, m)
  {
    r := tasks;
    for j := 0 to |models|
      invariant r.Keys == tasks.Keys
      invariant forall m :: m in r ==> r[m] == tasks[m] + PerDocument(d, models[..j], m)
    {
      ghost var prev := r;
      r := AppendPrompts(r, d, models[j]);
      ScheduleStep(tasks, prev, r, d, models, j);
    }
    assert models[..|models|] == models;
  }

  /** The loop `for model_tasks in tasks.values()` with its batches: the model lists in key
      order, each run to the end before the next starts. */
  method RunAllModels(store: Store, keys: seq<string>, tasks: map<string, seq<AnalysisTask>>, n: nat, models: seq<string>,
                      render: PromptRenderer, llm: AnalysisModel)
    returns (out: seq<nat>, err: Option<ValidationError>)
    requires |store.documents| == n
    requires forall m :: m in keys ==> m in tasks && tasks[m] == ModelTasks(n, models, m)
    modifies store
    ensures err.None? <==> Analysable(old(store.documents), TasksOver(keys, n, models), render, llm)
    ensures err.None? ==> store.documents == Enriched(old(store.documents), TasksOver(keys, n, models), render, llm)
    ensures err.None? ==> out == DocumentsOf(TasksOver(keys, n, models))
  {
    ghost var docs := store.documents;
    ghost var done: seq<AnalysisTask> := [];
    out := [];
    assert keys[..0] == [];
    EnrichedNone(docs, ReplyFn(render, llm));
    for k := 0 to |keys|
      invariant |store.documents| == n
      invariant done == TasksOver(keys[..k], n, models)
      invariant Analysable(docs, done, render, llm)
      invariant store.documents == Enriched(docs, done, render, llm)
      invariant out == DocumentsOf(done)
    {
      var m := keys[k];
      TasksOverSnoc(keys, k, n, models);
      var o;
      ModelTasksMembers(n, models, m);
      ghost var slices;
      o, err, slices := RunModelTasks(store, tasks[m], render, llm);
      AnalysableEnriched(docs, done, tasks[m], render, llm);
      if err.Some? {
        InTasksOver(keys, n, models, k);
        AnalysableSubset(docs, tasks[m], TasksOver(keys, n, models), render, llm);
        return;
      }
      AnalysableAppend(docs, done, tasks[m], render, llm);
      EnrichedAppend(docs, done, tasks[m], ReplyFn(render, llm));
      DocumentsOfAppend(done, tasks[m]);
      out := out + o;
      done := done + tasks[m];
    }
    assert keys[..|keys|] == keys;
    err := None;
  }

  /** `a_generate_analysis_from_manifest`: every document analysed by every model with both
      prompts, each analysis appended to its document; the manifest returned lists the
      document of every call, in the order the calls ran. A reply that fails validation stops
      the run. */
  method GenerateAnalysis(store: Store, models: seq<string>, render: PromptRenderer, llm: AnalysisModel)
    returns (r: Result<Manifest, ValidationError>)
    modifies store
    ensures var s := Schedule(|old(store.documents)|, models);
      && (r.Success? <==> Analysable(old(store.documents), s, render, llm))
      && (r.Success? ==>
            && store.documents == Enriched(old(store.documents), s, render, llm)
            && r.value.documents == Collect(store.documents, DocumentsOf(s))
            && |r.value.documents| == |old(store.documents)| * |models| * |Prompts|)
  {
    var n := |store.documents|;
    var keys, tasks := ScheduleTasks(n, models);
    var out, err := RunAllModels(store, keys, tasks, n, models, render, llm);
    if err.Some? {
      return Failure(err.value);
    }
    ScheduleLength(n, models);
    r := Success(Manifest(Collect(store.documents, out)));
  }
}
