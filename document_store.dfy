/** The documents of a manifest as the pipeline holds them in memory: a list whose documents
    and analyses the stages enrich in place. Document k of the store is the k-th object of
    the list; the stages refer to a document by that position. */
module DocumentStore {
  import opened Schema

  class Store {
    var documents: seq<Document>

    constructor (documents: seq<Document>)
      ensures this.documents == documents
    {
      this.documents := documents;
    }

    /** `document.notice_analysis.append(analysis)` on document k. */
    method AppendAnalysis(k: nat, a: Analysis)
      requires k < |documents|
      modifies this
      ensures |documents| == |old(documents)|
      ensures documents[k] == old(documents[k]).(noticeAnalysis := old(documents[k]).noticeAnalysis + [a])
      ensures forall i :: 0 <= i < |documents| && i != k ==> documents[i] == old(documents[i])
    {
      documents := documents[k := documents[k].(noticeAnalysis := documents[k].noticeAnalysis + [a])];
    }

    /** `analysis.evaluation_results.extend(results)` on analysis j of document k. */
    method ExtendResults(k: nat, j: nat, results: seq<EvaluationResult>)
      requires k < |documents| && j < |documents[k].noticeAnalysis|
      modifies this
      ensures |documents| == |old(documents)|
      ensures documents[k] == old(documents[k]).(noticeAnalysis := old(documents[k]).noticeAnalysis[j :=
                old(documents[k]).noticeAnalysis[j].(evaluationResults := old(documents[k]).noticeAnalysis[j].evaluationResults + results)])
      ensures forall i :: 0 <= i < |documents| && i != k ==> documents[i] == old(documents[i])
    {
      var d := documents[k];
      var a := d.noticeAnalysis[j];
      documents := documents[k := d.(noticeAnalysis := d.noticeAnalysis[j := a.(evaluationResults := a.evaluationResults + results)])];
    }
  }
}
