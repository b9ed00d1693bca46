/**
 * The browser's document store: documents with numbered versions, the
 * active document and version, and whether the panel is open. Each
 * operation is a `prev -> next` state update; the provider applies them
 * and draws the ids.
 */
module DocumentStore {
  import opened Opt
  import opened JsText
  import opened Decimal
  import opened FreshIds

  /** A moment, in milliseconds (the `Date` objects are not modelled further). */
  type Time = int

  datatype DocumentVersion = DocumentVersion(
    id: string, version: int, title: string, content: string, createdAt: Time, description: string)

  datatype Document = Document(
    id: string, title: string, versions: seq<DocumentVersion>, currentVersionId: string,
    createdAt: Time, updatedAt: Time)

  datatype AppState = AppState(
    documents: seq<Document>, activeDocumentId: Option<string>, isDocumentPanelOpen: bool,
    activeVersionId: Option<string>)

  const InitialState: AppState := AppState([], None, false, None)

  /** `documents.find(d => d.id === id)`, as the index of the first match. */
  function FindDocument(docs: seq<Document>, id: string): (r: Option<nat>)
    ensures r.Some? ==> r.value < |docs| && docs[r.value].id == id
    ensures r.Some? ==> forall k :: 0 <= k < r.value ==> docs[k].id != id
    ensures r.None? ==> forall k :: 0 <= k < |docs| ==> docs[k].id != id
  {
    if docs == [] then None
    else if docs[0].id == id then Some(0)
    else match FindDocument(docs[1..], id)
      case None => None
      case Some(i) => Some(i + 1)
  }

  /** `versions.find(v => v.id === id)`, as the index of the first match. */
  function FindVersion(versions: seq<DocumentVersion>, id: string): (r: Option<nat>)
    ensures r.Some? ==> r.value < |versions| && versions[r.value].id == id
    ensures r.Some? ==> forall k :: 0 <= k < r.value ==> versions[k].id != id
    ensures r.None? ==> forall k :: 0 <= k < |versions| ==> versions[k].id != id
  {
    if versions == [] then None
    else if versions[0].id == id then Some(0)
    else match FindVersion(versions[1..], id)
      case None => None
      case Some(i) => Some(i + 1)
  }

  /**
   * A document's versions are numbered 1..n in order, all carry the
   * document's title and distinct ids, and the current one is the last.
   */
  predicate WellNumbered(d: Document) {
    && |d.versions| >= 1
    && (forall i :: 0 <= i < |d.versions| ==> d.versions[i].version == i + 1 && d.versions[i].title == d.title)
    && (forall i, j :: 0 <= i < j < |d.versions| ==> d.versions[i].id != d.versions[j].id)
    && d.currentVersionId == d.versions[|d.versions| - 1].id
  }

  /** Every document is well numbered and no two share an id. */
  predicate Coherent(s: AppState) {
    && (forall i :: 0 <= i < |s.documents| ==> WellNumbered(s.documents[i]))
    && (forall i, j :: 0 <= i < j < |s.documents| ==> s.documents[i].id != s.documents[j].id)
  }

  /** Whether an id is used by some version of some document. */
  predicate IsVersionId(s: AppState, id: string) {
    exists i, j :: 0 <= i < |s.documents| && 0 <= j < |s.documents[i].versions| && s.documents[i].versions[j].id == id
  }

  /** `createDocument`'s new document: one version, numbered 1, described "Initial version" by default. */
  function NewDocument(docId: string, versionId: string, now: Time, title: string, content: string,
                       description: Option<string>): (d: Document)
    ensures WellNumbered(d) && d.id == docId && d.title == title && d.currentVersionId == versionId
    ensures d.versions == [DocumentVersion(versionId, 1, title, content, now,
                                           if Truthy(description) then description.value else "Initial version")]
  {
    var version := DocumentVersion(versionId, 1, title, content, now,
                                   if Truthy(description) then description.value else "Initial version");
    Document(docId, title, [version], versionId, now, now)
  }

  /** `createDocument`'s update: the document goes last and becomes active, with the panel open. */
  function Create(prev: AppState, doc: Document): (next: AppState)
    ensures next.documents == prev.documents + [doc]
    ensures next.activeDocumentId == Some(doc.id) && next.activeVersionId == Some(doc.currentVersionId)
    ensures next.isDocumentPanelOpen
  {
    AppState(prev.documents + [doc], Some(doc.id), true, Some(doc.currentVersionId))
  }

  /** What `updateDocument` leaves behind: the next state, and the new version if one was made. */
  datatype Update = Update(next: AppState, newVersion: Option<DocumentVersion>)

  /** The description of version `n` when the caller gives none. */
  function DefaultVersionDescription(n: nat): string {
    "Version " + NatToString(n)
  }

  /** `map(d => d.id === docId ? updated : d)`. */
  function ReplaceById(docs: seq<Document>, docId: string, updated: Document): (r: seq<Document>)
    ensures |r| == |docs|
    ensures forall k :: 0 <= k < |docs| ==> r[k] == if docs[k].id == docId then updated else docs[k]
  {
    seq(|docs|, k requires 0 <= k < |docs| => if docs[k].id == docId then updated else docs[k])
  }

  /**
   * `updateDocument`'s update. An unknown id changes nothing and makes no
   * version. Otherwise the first document with the id gets a version
   * numbered one past its count, carrying its title; that version becomes
   * current and active, the document active and the panel open.
   */
  function UpdateDoc(prev: AppState, docId: string, content: string, description: Option<string>,
                     versionId: string, now: Time): (u: Update)
    ensures FindDocument(prev.documents, docId).None? ==> u == Update(prev, None)
    ensures FindDocument(prev.documents, docId).Some? ==>
              var doc := prev.documents[FindDocument(prev.documents, docId).value];
              var n := |doc.versions| + 1;
              && u.newVersion == Some(DocumentVersion(versionId, n, doc.title, content, now,
                                        if Truthy(description) then description.value else DefaultVersionDescription(n)))
              && var updated := doc.(versions := doc.versions + [u.newVersion.value],
                                     currentVersionId := versionId, updatedAt := now);
                 && |u.next.documents| == |prev.documents|
                 && (forall k :: 0 <= k < |prev.documents| ==>
                       u.next.documents[k] == if prev.documents[k].id == docId then updated else prev.documents[k])
                 && u.next.activeDocumentId == Some(docId) && u.next.activeVersionId == Some(versionId)
                 && u.next.isDocumentPanelOpen
  {
    match FindDocument(prev.documents, docId)
    case None => Update(prev, None)
    case Some(i) =>
      var doc := prev.documents[i];
      var n := |doc.versions| + 1;
      var version := DocumentVersion(versionId, n, doc.title, content, now,
                                     if Truthy(description) then description.value else DefaultVersionDescription(n));
      var updated := doc.(versions := doc.versions + [version], currentVersionId := versionId, updatedAt := now);
      Update(AppState(ReplaceById(prev.documents, docId, updated), Some(docId), true, Some(versionId)), Some(version))
  }

  /**
   * `openDocument`'s update: an unknown id changes nothing; otherwise the
   * document is active, showing the given version (when truthy) or its
   * current one, with the panel open.
   */
  function Open(prev: AppState, docId: string, versionId: Option<string>): (next: AppState)
    ensures FindDocument(prev.documents, docId).None? ==> next == prev
    ensures FindDocument(prev.documents, docId).Some? ==>
              && next.documents == prev.documents && next.isDocumentPanelOpen
              && next.activeDocumentId == Some(docId)
              && next.activeVersionId == Some(if Truthy(versionId) then versionId.value
                                              else prev.documents[FindDocument(prev.documents, docId).value].currentVersionId)
  {
    match FindDocument(prev.documents, docId)
    case None => prev
    case Some(i) =>
      prev.(activeDocumentId := Some(docId),
            activeVersionId := Some(if Truthy(versionId) then versionId.value else prev.documents[i].currentVersionId),
            isDocumentPanelOpen := true)
  }

  /** `closeDocument`'s update: only the panel flag changes. */
  function Close(prev: AppState): (next: AppState)
    ensures !next.isDocumentPanelOpen
    ensures next.documents == prev.documents && next.activeDocumentId == prev.activeDocumentId
    ensures next.activeVersionId == prev.activeVersionId
  {
    prev.(isDocumentPanelOpen := false)
  }

  /** `setActiveVersion`'s update: only the active version changes, and the id is not checked. */
  function SetActiveVersion(prev: AppState, versionId: string): (next: AppState)
    ensures next.activeVersionId == Some(versionId)
    ensures next.documents == prev.documents && next.activeDocumentId == prev.activeDocumentId
    ensures next.isDocumentPanelOpen == prev.isDocumentPanelOpen
  {
    prev.(activeVersionId := Some(versionId))
  }

  /** `getActiveDocument`: the first document with the active id, if there is one. */
  function ActiveDocument(s: AppState): (r: Option<Document>)
    ensures r.Some? ==> r.value in s.documents && Some(r.value.id) == s.activeDocumentId
    ensures r.None? ==> forall k :: 0 <= k < |s.documents| ==> Some(s.documents[k].id) != s.activeDocumentId
  {
    if s.activeDocumentId.None? then None
    else match FindDocument(s.documents, s.activeDocumentId.value)
      case None => None
      case Some(i) => Some(s.documents[i])
  }

  /**
   * `getActiveVersion`: the active document's first version with the
   * active version id; none without an active document or such a version.
   */
  function ActiveVersion(s: AppState): (r: Option<DocumentVersion>)
    ensures ActiveDocument(s).None? ==> r.None?
    ensures r.Some? ==> r.value in ActiveDocument(s).value.versions && Some(r.value.id) == s.activeVersionId
    ensures ActiveDocument(s).Some? && r.None? ==>
              forall k :: 0 <= k < |ActiveDocument(s).value.versions| ==>
                Some(ActiveDocument(s).value.versions[k].id) != s.activeVersionId
  {
    match ActiveDocument(s)
    case None => None
    case Some(doc) =>
      if s.activeVersionId.None? then None
      else match FindVersion(doc.versions, s.activeVersionId.value)
        case None => None
        case Some(j) => Some(doc.versions[j])
  }

  /** In a coherent state a document is found at its own position. */
  lemma FindInCoherent(s: AppState, i: nat)
    requires Coherent(s) && i < |s.documents|
    ensures FindDocument(s.documents, s.documents[i].id) == Some(i)
  {
  }

  /** Its versions being distinct, a document's version is found at its own position. */
  lemma FindInWellNumbered(d: Document, j: nat)
    requires WellNumbered(d) && j < |d.versions|
    ensures FindVersion(d.versions, d.versions[j].id) == Some(j)
  {
  }

  /**
   * Creating a document under a new id keeps the state coherent, and the
   * new document and its only version are what the getters return.
   */
  lemma CreateKeepsCoherent(prev: AppState, docId: string, versionId: string, now: Time, title: string,
                            content: string, description: Option<string>)
    requires Coherent(prev)
    requires FindDocument(prev.documents, docId).None?
    ensures var doc := NewDocument(docId, versionId, now, title, content, description);
      && Coherent(Create(prev, doc))
      && ActiveDocument(Create(prev, doc)) == Some(doc)
      && ActiveVersion(Create(prev, doc)) == Some(doc.versions[0])
  {
    var doc := NewDocument(docId, versionId, now, title, content, description);
    var next := Create(prev, doc);
    FindInCoherent(next, |prev.documents|);
    FindInWellNumbered(doc, 0);
  }

  /** A created document brings one new version id, the one it was given, and no other. */
  lemma CreateVersionIds(prev: AppState, docId: string, versionId: string, now: Time, title: string,
                         content: string, description: Option<string>)
    ensures var next := Create(prev, NewDocument(docId, versionId, now, title, content, description));
      forall v :: IsVersionId(next, v) ==> IsVersionId(prev, v) || v == versionId
  {
    var next := Create(prev, NewDocument(docId, versionId, now, title, content, description));
    forall v | IsVersionId(next, v)
      ensures IsVersionId(prev, v) || v == versionId
    {
      var i, j :| 0 <= i < |next.documents| && 0 <= j < |next.documents[i].versions|
                  && next.documents[i].versions[j].id == v;
      if i < |prev.documents| {
        assert prev.documents[i] == next.documents[i];
      }
    }
  }

  /** An update's only new version id is the one it was given, and its document ids are the old ones. */
  lemma UpdateVersionIds(prev: AppState, docId: string, content: string, description: Option<string>,
                         versionId: string, now: Time)
    ensures var u := UpdateDoc(prev, docId, content, description, versionId, now);
      && (forall k :: 0 <= k < |u.next.documents| ==> u.next.documents[k].id == prev.documents[k].id)
      && (forall v :: IsVersionId(u.next, v) ==> IsVersionId(prev, v) || v == versionId)
  {
    var u := UpdateDoc(prev, docId, content, description, versionId, now);
    var found := FindDocument(prev.documents, docId);
    if found.Some? {
      forall v | IsVersionId(u.next, v)
        ensures IsVersionId(prev, v) || v == versionId
      {
        var i, j :| 0 <= i < |u.next.documents| && 0 <= j < |u.next.documents[i].versions|
                    && u.next.documents[i].versions[j].id == v;
        var doc := prev.documents[found.value];
        if prev.documents[i].id != docId {
          assert prev.documents[i].versions[j] == u.next.documents[i].versions[j];
        } else if j < |doc.versions| {
          assert doc.versions[j] == u.next.documents[i].versions[j];
          assert IsVersionId(prev, v) by {
            assert prev.documents[found.value].versions[j].id == v;
          }
        }
      }
    }
  }

  /**
   * Updating keeps the state coherent when the new version id is not in
   * use, and the new version is then the active one.
   */
  lemma UpdateKeepsCoherent(prev: AppState, docId: string, content: string, description: Option<string>,
                            versionId: string, now: Time)
    requires Coherent(prev)
    requires !IsVersionId(prev, versionId)
    ensures var u := UpdateDoc(prev, docId, content, description, versionId, now);
      && Coherent(u.next)
      && (u.newVersion.Some? ==> ActiveVersion(u.next) == u.newVersion)
  {
    var u := UpdateDoc(prev, docId, content, description, versionId, now);
    var found := FindDocument(prev.documents, docId);
    if found.Some? {
      var i := found.value;
      var doc := prev.documents[i];
      var updated := doc.(versions := doc.versions + [u.newVersion.value], currentVersionId := versionId, updatedAt := now);
      assert forall k :: 0 <= k < |doc.versions| ==> doc.versions[k].id != versionId by {
        forall k | 0 <= k < |doc.versions| ensures doc.versions[k].id != versionId {
          assert prev.documents[i].versions[k] == doc.versions[k];
        }
      }
      assert WellNumbered(updated);
      assert u.next.documents[i] == updated;
      FindInCoherent(u.next, i);
      FindInWellNumbered(updated, |updated.versions| - 1);
    }
  }

  /** Opening a document without a version shows its latest one. */
  lemma OpenShowsLatest(prev: AppState, i: nat)
    requires Coherent(prev) && i < |prev.documents|
    ensures var d := prev.documents[i];
      ActiveVersion(Open(prev, d.id, None)) == Some(d.versions[|d.versions| - 1])
  {
    var d := prev.documents[i];
    FindInCoherent(prev, i);
    FindInCoherent(Open(prev, d.id, None), i);
    FindInWellNumbered(d, |d.versions| - 1);
  }

  /**
   * The provider: the current state (applied at once, as if each update
   * ran when it was scheduled) and the id source both operations draw
   * from.
   */
  class DocumentProvider {
    var state: AppState
    const ids: IdSource

    /** The state is coherent and every id in it came from the id source. */
    ghost predicate Valid()
      reads this, ids
    {
      && ids.Valid()
      && Coherent(state)
      && (forall i :: 0 <= i < |state.documents| ==> state.documents[i].id in ids.issued)
      && (forall v :: IsVersionId(state, v) ==> v in ids.issued)
    }

    constructor (ids: IdSource)
      requires ids.Valid()
      ensures Valid() && state == InitialState && this.ids == ids
    {
      state := InitialState;
      this.ids := ids;
    }

    /**
     * `createDocument`: draws the version id, then the document id, and
     * returns the new document, which is then the active one.
     */
    method CreateDocument(title: string, content: string, description: Option<string>, now: Time)
      returns (doc: Document)
      requires Valid()
      modifies this, ids
      ensures Valid()
      ensures doc.id !in old(ids.issued) && doc.currentVersionId !in old(ids.issued)
      ensures doc == NewDocument(doc.id, doc.currentVersionId, now, title, content, description)
      ensures state == Create(old(state), doc)
      ensures ActiveDocument(state) == Some(doc) && ActiveVersion(state) == Some(doc.versions[0])
    {
      var versionId := ids.Fresh();
      var docId := ids.Fresh();
      doc := NewDocument(docId, versionId, now, title, content, description);
      CreateKeepsCoherent(state, docId, versionId, now, title, content, description);
      CreateVersionIds(state, docId, versionId, now, title, content, description);
      state := Create(state, doc);
    }

    /**
     * `updateDocument`: when the document exists, a version id is drawn
     * and the new version returned; otherwise nothing changes and nothing
     * is returned.
     */
    method UpdateDocument(docId: string, content: string, description: Option<string>, now: Time)
      returns (newVersion: Option<DocumentVersion>)
      requires Valid()
      modifies this, ids
      ensures Valid()
      ensures FindDocument(old(state).documents, docId).None? ==> state == old(state) && newVersion.None?
      ensures FindDocument(old(state).documents, docId).Some? ==>
                && newVersion.Some? && newVersion.value.id !in old(ids.issued)
                && UpdateDoc(old(state), docId, content, description, newVersion.value.id, now)
                   == Update(state, newVersion)
                && ActiveVersion(state) == newVersion
    {
      if FindDocument(state.documents, docId).None? {
        return None;
      }
      var versionId := ids.Fresh();
      UpdateKeepsCoherent(state, docId, content, description, versionId, now);
      UpdateVersionIds(state, docId, content, description, versionId, now);
      var u := UpdateDoc(state, docId, content, description, versionId, now);
      state := u.next;
      newVersion := u.newVersion;
    }

    /** `openDocument`. */
    method OpenDocument(docId: string, versionId: Option<string>)
      requires Valid()
      modifies this
      ensures Valid() && state == Open(old(state), docId, versionId)
    {
      state := Open(state, docId, versionId);
    }

    /** `closeDocument`. */
    method CloseDocument()
      requires Valid()
      modifies this
      ensures Valid() && state == Close(old(state))
    {
      state := Close(state);
    }

    /** `setActiveVersion`. */
    method SetActiveVersionId(versionId: string)
      requires Valid()
      modifies this
      ensures Valid() && state == SetActiveVersion(old(state), versionId)
    {
      state := SetActiveVersion(state, versionId);
    }

    /** `documentStoreRef.getDocuments`. */
    function Documents(): (r: seq<Document>)
      reads this
      ensures r == state.documents
    {
      state.documents
    }
  }

  /** A call made through the global store reference by the tool renderers. */
  datatype StoreCall =
    | NoCall
    | CreateCall(title: string, content: string, description: Option<string>)
    | UpdateCall(docId: string, content: string, description: Option<string>)

  /**
   * What a store call does to the state, given the ids drawn before it: a
   * create appends a new document under two ids not drawn before; an update
   * of a stored document adds a version under an id not drawn before; an
   * update of an unknown id, and no call, change nothing.
   */
  ghost predicate CallApplied(prev: AppState, issued: set<string>, call: StoreCall, now: Time, next: AppState) {
    match call
    case NoCall => next == prev
    case CreateCall(title, content, description) =>
      exists docId, versionId :: docId !in issued && versionId !in issued
        && next == Create(prev, NewDocument(docId, versionId, now, title, content, description))
    case UpdateCall(docId, content, description) =>
      if FindDocument(prev.documents, docId).None? then next == prev
      else
        exists versionId ::
          versionId !in issued && next == UpdateDoc(prev, docId, content, description, versionId, now).next
  }

  /**
   * `documentStoreRef.createDocument?.(...)` / `updateDocument?.(...)`:
   * with no provider mounted the reference is empty and nothing happens;
   * otherwise the call is applied to the provider's state, and the created
   * or updated version is the one left active.
   */
  method CallStore(ref: DocumentProvider?, call: StoreCall, now: Time)
    requires ref != null ==> ref.Valid()
    modifies if ref == null then {} else {ref, ref.ids}
    ensures ref != null ==> ref.Valid()
    ensures ref != null ==> CallApplied(old(ref.state), old(ref.ids.issued), call, now, ref.state)
    ensures ref != null && call.NoCall? ==> ref.state == old(ref.state)
    ensures ref != null && call.CreateCall? ==>
              && |ref.state.documents| == |old(ref.state.documents)| + 1
              && ref.state.documents[..|old(ref.state.documents)|] == old(ref.state.documents)
              && ActiveDocument(ref.state).Some? && ActiveDocument(ref.state).value.title == call.title
              && ActiveVersion(ref.state).Some? && ActiveVersion(ref.state).value.content == call.content
    ensures ref != null && call.UpdateCall? && FindDocument(old(ref.state).documents, call.docId).None? ==>
              ref.state == old(ref.state)
    ensures ref != null && call.UpdateCall? && FindDocument(old(ref.state).documents, call.docId).Some? ==>
              && ActiveVersion(ref.state).Some? && ActiveVersion(ref.state).value.content == call.content
              && ActiveVersion(ref.state).value.version
                 == |old(ref.state).documents[FindDocument(old(ref.state).documents, call.docId).value].versions| + 1
  {
    if ref == null {
      return;
    }
    match call
    case NoCall =>
    case CreateCall(title, content, description) =>
      var doc := ref.CreateDocument(title, content, description, now);
      assert ref.state == Create(old(ref.state), NewDocument(doc.id, doc.currentVersionId, now, title, content, description));
    case UpdateCall(docId, content, description) =>
      var version := ref.UpdateDocument(docId, content, description, now);
      if version.Some? {
        assert ref.state == UpdateDoc(old(ref.state), docId, content, description, version.value.id, now).next;
      }
  }
}
