/**
 * The `document` tool card: when the tool's result arrives, it creates or
 * updates a document in the store, once per card.
 */
module DocumentToolUi {
  import opened Opt
  import opened JsText
  import DocumentStore

  /** The tool's arguments, which its result echoes back. */
  datatype DocumentArgs = DocumentArgs(action: string, title: string, content: string,
                                       description: Option<string>, documentId: Option<string>)

  /**
   * Which store call a result leads to: "create" creates; "update" with an
   * id updates that id; "update" without one updates the most recent
   * document, or creates one when there is none; any other action does
   * nothing.
   */
  function Dispatch(result: DocumentArgs, docs: seq<DocumentStore.Document>): (call: DocumentStore.StoreCall)
    ensures result.action == "create" ==>
              call == DocumentStore.CreateCall(result.title, result.content, result.description)
    ensures result.action == "update" && Truthy(result.documentId) ==>
              call == DocumentStore.UpdateCall(result.documentId.value, result.content, result.description)
    ensures result.action == "update" && !Truthy(result.documentId) && docs != [] ==>
              call == DocumentStore.UpdateCall(docs[|docs| - 1].id, result.content, result.description)
    ensures result.action == "update" && !Truthy(result.documentId) && docs == [] ==>
              call == DocumentStore.CreateCall(result.title, result.content, result.description)
    ensures result.action != "create" && result.action != "update" ==> call == DocumentStore.NoCall
  {
    if result.action == "create" then
      DocumentStore.CreateCall(result.title, result.content, result.description)
    else if result.action == "update" && Truthy(result.documentId) then
      DocumentStore.UpdateCall(result.documentId.value, result.content, result.description)
    else if result.action == "update" then
      if |docs| > 0 then DocumentStore.UpdateCall(docs[|docs| - 1].id, result.content, result.description)
      else DocumentStore.CreateCall(result.title, result.content, result.description)
    else
      DocumentStore.NoCall
  }

  /**
   * An "update" without an id is never lost: in a coherent store it either
   * lands on the most recent document, which exists, or creates one.
   */
  lemma UpdateWithoutIdLands(result: DocumentArgs, s: DocumentStore.AppState)
    requires DocumentStore.Coherent(s)
    requires result.action == "update" && !Truthy(result.documentId)
    ensures var call := Dispatch(result, s.documents);
      || call.CreateCall?
      || (call.UpdateCall? && DocumentStore.FindDocument(s.documents, call.docId) == Some(|s.documents| - 1))
  {
    if s.documents != [] {
      DocumentStore.FindInCoherent(s, |s.documents| - 1);
    }
  }

  /** One mounted card. */
  class DocumentToolRenderer {
    /** `processedRef`. */
    var processed: bool

    constructor ()
      ensures !processed
    {
      processed := false;
    }

    /**
     * The effect on `result`: the first time a result is there, its store
     * call is made, reading the documents through the store reference (no
     * documents when nothing is mounted). Every other run does nothing.
     */
    method Effect(result: Option<DocumentArgs>, ref: DocumentStore.DocumentProvider?, now: DocumentStore.Time)
      returns (call: DocumentStore.StoreCall)
      requires ref != null ==> ref.Valid()
      modifies this`processed, if ref == null then {} else {ref, ref.ids}
      ensures ref != null ==> ref.Valid()
      ensures result.None? || old(processed) ==>
                call == DocumentStore.NoCall && processed == old(processed)
                && (ref != null ==> ref.state == old(ref.state))
      ensures result.Some? && !old(processed) ==>
                && processed
                && call == Dispatch(result.value, if ref == null then [] else old(ref.state.documents))
      ensures ref != null && result.Some? && !old(processed) ==>
                DocumentStore.CallApplied(old(ref.state), old(ref.ids.issued), call, now, ref.state)
    {
      call := DocumentStore.NoCall;
      if result.None? || processed {
        return;
      }
      var docs := if ref == null then [] else ref.Documents();
      call := Dispatch(result.value, docs);
      DocumentStore.CallStore(ref, call, now);
      // The source raises the flag just before the call; nothing between reads it.
      processed := true;
    }
  }
}
