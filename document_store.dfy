/**
 * The document store: documents newest first and the id of the open
 * document. Deleting the last document replaces it by a fresh one, so the
 * list is never empty.
 */
module Documents {
  import opened Wrappers
  import opened Text
  import Seqs

  datatype DocumentItem = DocumentItem(
    id: string,
    classId: Option<string>,
    title: string,
    content: string,
    createdAt: string,
    updatedAt: string)

  /** The fields an `updateDocument` patch may carry; an absent field is left as it is. */
  datatype DocumentPatch = DocumentPatch(title: Option<string>, content: Option<string>)

  const DefaultTitle: string := "새 문서"
  const SeedTitle: string := "환영 문서"
  const SeedContent: string := "# UniMate 문서\n\nAI로 초안을 만들어보세요."

  /**
   * `buildDocument`: the trimmed title or the default when it is absent or
   * blank, the content or '' when absent; `id` is the `uid()` result.
   */
  function BuildDocument(classId: Option<string>, title: Option<string>, content: Option<string>, id: string, now: string): (r: DocumentItem)
    ensures r.id == id && r.classId == classId && r.createdAt == now && r.updatedAt == now
    ensures r.title == if title.Some? && !IsBlank(title.value) then Trim(title.value) else DefaultTitle
    ensures r.title != []
    ensures r.content == if content.Some? then content.value else []
  {
    var t := if title.Some? then (TrimEmptyIffBlank(title.value); Trim(title.value)) else [];
    DocumentItem(id, classId, if t != [] then t else DefaultTitle, if content.Some? then content.value else [], now, now)
  }

  predicate HasDocument(documents: seq<DocumentItem>, id: string) {
    exists i :: 0 <= i < |documents| && documents[i].id == id
  }

  /** The documents left by `deleteDocument(id)` before the fallback is considered. */
  function OtherDocuments(documents: seq<DocumentItem>, id: string): seq<DocumentItem> {
    Seqs.Filter(documents, (d: DocumentItem) => d.id != id)
  }

  /** The active id after deleting `id` when other documents remain. */
  function ActiveAfterDelete(remaining: seq<DocumentItem>, active: Option<string>, id: string): Option<string>
    requires remaining != []
  {
    if active == Some(id) then Some(remaining[0].id) else active
  }

  /** `{ ...item, ...patch, updatedAt: now }` */
  function PatchDocument(d: DocumentItem, patch: DocumentPatch, now: string): DocumentItem {
    d.(title := if patch.title.Some? then patch.title.value else d.title,
       content := if patch.content.Some? then patch.content.value else d.content,
       updatedAt := now)
  }

  /** The documents after `updateDocument(id, patch)` at `now`. */
  function UpdatedDocuments(documents: seq<DocumentItem>, id: string, patch: DocumentPatch, now: string): seq<DocumentItem> {
    Seqs.Update(documents, (d: DocumentItem) => d.id == id, (d: DocumentItem) => PatchDocument(d, patch, now))
  }

  /** `getActiveDocument`: none for a missing or empty active id, else the first document with that id. */
  function ActiveDocumentOf(documents: seq<DocumentItem>, active: Option<string>): (r: Option<DocumentItem>)
    ensures r.Some? <==> active.Some? && active.value != [] && HasDocument(documents, active.value)
    ensures r.Some? ==> r.value in documents && r.value.id == active.value
  {
    if active.None? || active.value == [] then None
    else Seqs.Find(documents, (d: DocumentItem) => d.id == active.value)
  }

  /**
   * Deleting a document that is not the last one keeps the others in order;
   * the active id moves to the new head only when the deleted document was
   * active, so an active id naming a document still names one afterwards.
   */
  lemma DeleteKeepsActive(documents: seq<DocumentItem>, active: Option<string>, id: string)
    requires OtherDocuments(documents, id) != []
    requires active.Some? ==> HasDocument(documents, active.value)
    ensures var remaining := OtherDocuments(documents, id);
      var next := ActiveAfterDelete(remaining, active, id);
      (active != Some(id) ==> next == active)
      && (active == Some(id) ==> next == Some(remaining[0].id))
      && (next.Some? ==> HasDocument(remaining, next.value))
  {
    var remaining := OtherDocuments(documents, id);
    if active.Some? && active != Some(id) {
      var i :| 0 <= i < |documents| && documents[i].id == active.value;
      assert documents[i] in remaining;
    }
  }

  /**
   * Deleting an unknown id from a non-empty list keeps the documents; it keeps
   * the active id too, unless that very unknown id had been made active, in
   * which case the head becomes active.
   */
  lemma DeleteUnknown(documents: seq<DocumentItem>, active: Option<string>, id: string)
    requires documents != [] && !HasDocument(documents, id)
    ensures OtherDocuments(documents, id) == documents
    ensures active != Some(id) ==> ActiveAfterDelete(OtherDocuments(documents, id), active, id) == active
    ensures active == Some(id) ==> ActiveAfterDelete(OtherDocuments(documents, id), active, id) == Some(documents[0].id)
  {
    Seqs.FilterKeepsAll(documents, (d: DocumentItem) => d.id != id);
  }

  /**
   * An update changes only the title, content and update time of the
   * matching document; its id, class and creation time, every other document
   * and the number of documents stay as they were.
   */
  lemma UpdateOnlyTarget(documents: seq<DocumentItem>, id: string, patch: DocumentPatch, now: string)
    ensures var r := UpdatedDocuments(documents, id, patch, now);
      |r| == |documents|
      && forall i :: 0 <= i < |documents| ==>
        (documents[i].id != id ==> r[i] == documents[i])
        && (documents[i].id == id ==>
          r[i].id == id && r[i].classId == documents[i].classId && r[i].createdAt == documents[i].createdAt
          && r[i].updatedAt == now
          && r[i].title == (if patch.title.Some? then patch.title.value else documents[i].title)
          && r[i].content == (if patch.content.Some? then patch.content.value else documents[i].content))
  {
  }

  /** The document store. */
  class DocumentStore {
    var documents: seq<DocumentItem>
    var activeDocumentId: Option<string>

    /** The store's invariant: there is always at least one document. */
    predicate Valid()
      reads this
    {
      documents != []
    }

    /** The seed state: one welcome document, open. */
    constructor(seedId: string, now: string)
      ensures documents == [BuildDocument(None, Some(SeedTitle), Some(SeedContent), seedId, now)]
      ensures activeDocumentId == Some(seedId)
      ensures Valid()
    {
      documents := [BuildDocument(None, Some(SeedTitle), Some(SeedContent), seedId, now)];
      activeDocumentId := Some(seedId);
    }

    /** `createDocument`: prepends the new document and opens it. */
    method CreateDocument(classId: Option<string>, title: Option<string>, content: Option<string>, id: string, now: string)
      returns (newId: string)
      modifies this
      ensures newId == id
      ensures documents == [BuildDocument(classId, title, content, id, now)] + old(documents)
      ensures activeDocumentId == Some(id)
      ensures Valid()
    {
      var item := BuildDocument(classId, title, content, id, now);
      documents := [item] + documents;
      activeDocumentId := Some(id);
      newId := id;
    }

    /** `deleteDocument`: when no document remains, a fresh default document (`fallbackId`, `now`) replaces the list. */
    method DeleteDocument(id: string, fallbackId: string, now: string)
      modifies this
      ensures var remaining := OtherDocuments(old(documents), id);
        if remaining == [] then
          documents == [BuildDocument(None, None, None, fallbackId, now)] && activeDocumentId == Some(fallbackId)
        else
          documents == remaining && activeDocumentId == ActiveAfterDelete(remaining, old(activeDocumentId), id)
      ensures Valid()
    {
      var next := OtherDocuments(documents, id);
      if next == [] {
        var fallback := BuildDocument(None, None, None, fallbackId, now);
        documents := [fallback];
        activeDocumentId := Some(fallbackId);
        return;
      }
      var nextActive := if activeDocumentId == Some(id) then Some(next[0].id) else activeDocumentId;
      documents := next;
      activeDocumentId := nextActive;
    }

    /** `setActiveDocument`: any id is accepted. */
    method SetActiveDocument(id: string)
      modifies this
      ensures activeDocumentId == Some(id) && documents == old(documents)
    {
      activeDocumentId := Some(id);
    }

    /** `updateDocument` */
    method UpdateDocument(id: string, patch: DocumentPatch, now: string)
      requires Valid()
      modifies this
      ensures documents == UpdatedDocuments(old(documents), id, patch, now)
      ensures activeDocumentId == old(activeDocumentId)
      ensures Valid()
    {
      documents := UpdatedDocuments(documents, id, patch, now);
    }

    /** `getActiveDocument` */
    function ActiveDocument(): (r: Option<DocumentItem>)
      reads this
      ensures r.Some? ==> r.value in documents && activeDocumentId == Some(r.value.id)
      ensures r.None? <==> activeDocumentId.None? || activeDocumentId.value == [] || !HasDocument(documents, activeDocumentId.value)
    {
      ActiveDocumentOf(documents, activeDocumentId)
    }
  }
}
