/** The admin's reference list editor of src/components/admin/reference-management.tsx:
    an in-memory list of references mirrored into the `references` store entry, a
    draft being edited, and a draft image list capped at four. */
module ReferenceManagement {
  import opened Wrappers
  import opened Seqs
  import StorageManager

  /** One portfolio entry. `id` is the `Date.now()` value taken when the draft was made. */
  datatype Reference = Reference(
    id: int,
    title: string,
    category: string,
    location: string,
    year: string,
    description: string,
    image: string,
    images: seq<string>)

  /** The list the editor starts from when nothing is stored. */
  const InitialReferences: seq<Reference> := [
    Reference(
      1,
      "Rodinný dům Karlovy Vary",
      "newConstruction",
      "Karlovy Vary, Dvory",
      "2023",
      "Kompletní výstavba moderního rodinného domu s energeticky úsporným řešením.",
      "https://images.unsplash.com/photo-1564013799919-ab600027ffc6?w=600&h=400&fit=crop",
      [ "https://images.unsplash.com/photo-1564013799919-ab600027ffc6?w=800&h=600&fit=crop",
        "https://images.unsplash.com/photo-1493809842364-78817add7ffb?w=800&h=600&fit=crop",
        "https://images.unsplash.com/photo-1554995207-c18c203602cb?w=800&h=600&fit=crop" ]),
    Reference(
      2,
      "Rekonstrukce lázeňského domu",
      "reconstruction",
      "Karlovy Vary, centrum",
      "2023",
      "Celková rekonstrukce historického lázeňského domu s moderním designem.",
      "https://images.unsplash.com/photo-1581858726788-75bc0f6a952d?w=600&h=400&fit=crop",
      [ "https://images.unsplash.com/photo-1581858726788-75bc0f6a952d?w=800&h=600&fit=crop",
        "https://images.unsplash.com/photo-1586023492125-27b2c045efd7?w=800&h=600&fit=crop" ])
  ]

  /** The store key the list is mirrored under. */
  const ReferencesKey: string := "references"

  /** The category a new draft gets. */
  const DefaultCategory: string := "newConstruction"

  /** The most images a draft may hold. */
  const MaxImages: nat := 4

  // ---------------------------------------------------------------------------
  // List operations on values
  // ---------------------------------------------------------------------------

  /** `references.find(r => r.id === id)` finds something. */
  predicate HasId(refs: seq<Reference>, id: int)
  {
    exists i :: 0 <= i < |refs| && refs[i].id == id
  }

  /** No two entries share an id. */
  predicate UniqueIds(refs: seq<Reference>)
  {
    forall i, j :: 0 <= i < j < |refs| ==> refs[i].id != refs[j].id
  }

  /** `references.map(r => r.id === id ? u : r)`. */
  function ReplaceById(refs: seq<Reference>, id: int, u: Reference): (r: seq<Reference>)
    ensures |r| == |refs|
    ensures forall i :: 0 <= i < |refs| && refs[i].id == id ==> r[i] == u
    ensures forall i :: 0 <= i < |refs| && refs[i].id != id ==> r[i] == refs[i]
    decreases |refs|
  {
    if refs == [] then []
    else [if refs[0].id == id then u else refs[0]] + ReplaceById(refs[1..], id, u)
  }

  /** The list `handleSave` saves: the saved record replaces every entry with its id,
      or is appended when there is none. */
  function Upsert(refs: seq<Reference>, u: Reference): seq<Reference>
  {
    if HasId(refs, u.id) then ReplaceById(refs, u.id, u) else refs + [u]
  }

  function IdIsNot(id: int): Reference -> bool
  {
    (r: Reference) => r.id != id
  }

  /** `references.filter(r => r.id !== id)`. */
  function RemoveById(refs: seq<Reference>, id: int): seq<Reference>
  {
    Filter(refs, IdIsNot(id))
  }

  /** The record `handleSave` builds: the draft's images, the first of them as the
      cover when it is non-empty (else the old cover), every other field as edited. */
  function SavedRecord(editing: Reference, draft: seq<string>): Reference
  {
    editing.(images := draft, image := if |draft| > 0 && draft[0] != "" then draft[0] else editing.image)
  }

  /** `handleImageAdd` with the prompt's answer (None when cancelled). */
  function AddImage(draft: seq<string>, url: Option<string>): seq<string>
  {
    if url.Some? && url.value != "" && |draft| < MaxImages then draft + [url.value] else draft
  }

  /** `newImages.filter((_, i) => i !== index)`: drops position `index` if it exists. */
  function RemoveImageAt(draft: seq<string>, index: int): (r: seq<string>)
    ensures 0 <= index < |draft| ==> |r| == |draft| - 1
    ensures 0 <= index < |draft| ==> forall i :: 0 <= i < index ==> r[i] == draft[i]
    ensures 0 <= index < |draft| ==> forall i :: index <= i < |r| ==> r[i] == draft[i + 1]
    ensures !(0 <= index < |draft|) ==> r == draft
  {
    if 0 <= index < |draft| then draft[..index] + draft[index + 1..] else draft
  }

  /** The draft `handleAdd` opens. */
  function NewDraft(now: int, year: string): Reference
  {
    Reference(now, "", DefaultCategory, "", year, "", "", [])
  }

  /** The save button is enabled only when title, location and description are filled in. */
  predicate CanSave(r: Reference)
  {
    r.title != "" && r.location != "" && r.description != ""
  }

  // ---------------------------------------------------------------------------
  // What the list operations promise
  // ---------------------------------------------------------------------------

  /** Update path: same length, every entry with the id becomes the saved record, all
      others keep their value and position. */
  lemma UpsertUpdates(refs: seq<Reference>, u: Reference)
    requires HasId(refs, u.id)
    ensures |Upsert(refs, u)| == |refs|
    ensures forall i :: 0 <= i < |refs| ==>
              Upsert(refs, u)[i] == if refs[i].id == u.id then u else refs[i]
  {
  }

  /** Append path: the saved record goes at the end and the prefix is unchanged. */
  lemma UpsertAppends(refs: seq<Reference>, u: Reference)
    requires !HasId(refs, u.id)
    ensures |Upsert(refs, u)| == |refs| + 1
    ensures Upsert(refs, u)[..|refs|] == refs && Upsert(refs, u)[|refs|] == u
  {
  }

  /** After a save the record is in the list, and saving it again changes nothing. */
  lemma UpsertIdempotent(refs: seq<Reference>, u: Reference)
    ensures u in Upsert(refs, u) && HasId(Upsert(refs, u), u.id)
    ensures Upsert(Upsert(refs, u), u) == Upsert(refs, u)
  {
  }

  /** Saving keeps ids unique. */
  lemma UpsertKeepsUniqueIds(refs: seq<Reference>, u: Reference)
    requires UniqueIds(refs)
    ensures UniqueIds(Upsert(refs, u))
  {
  }

  /** Deleting leaves no entry with the id and keeps every other entry. */
  lemma RemoveByIdRemoves(refs: seq<Reference>, id: int)
    ensures !HasId(RemoveById(refs, id), id)
    ensures forall r :: r in refs && r.id != id ==> r in RemoveById(refs, id)
    ensures IsSubsequence(RemoveById(refs, id), refs)
    ensures !HasId(refs, id) ==> RemoveById(refs, id) == refs
  {
    var r := RemoveById(refs, id);
    forall i | 0 <= i < |r|
      ensures r[i].id != id
    {
      assert r[i] in r;
    }
    FilterIsSubsequence(refs, IdIsNot(id));
    if !HasId(refs, id) {
      forall x | x in refs
        ensures IdIsNot(id)(x)
      {
        var i :| 0 <= i < |refs| && refs[i] == x;
      }
      FilterKeepsAll(refs, IdIsNot(id));
    }
  }

  /** Deleting keeps the survivors' relative order: the list splits at any point and
      each part is filtered on its own. */
  lemma RemoveByIdKeepsOrder(a: seq<Reference>, b: seq<Reference>, id: int)
    ensures RemoveById(a + b, id) == RemoveById(a, id) + RemoveById(b, id)
  {
    FilterConcat(a, b, IdIsNot(id));
  }

  /** Deleting keeps ids unique. */
  lemma {:induction false} RemoveByIdKeepsUniqueIds(refs: seq<Reference>, id: int)
    requires UniqueIds(refs)
    ensures UniqueIds(RemoveById(refs, id))
    decreases |refs|
  {
    if refs != [] {
      var tail := refs[1..];
      assert UniqueIds(tail) by {
        forall i, j | 0 <= i < j < |tail| ensures tail[i].id != tail[j].id {
          assert tail[i] == refs[i + 1] && tail[j] == refs[j + 1];
        }
      }
      RemoveByIdKeepsUniqueIds(tail, id);
      var rest := RemoveById(tail, id);
      assert RemoveById(refs, id) == (if refs[0].id != id then [refs[0]] else []) + rest;
      if refs[0].id != id {
        forall x | x in rest ensures x.id != refs[0].id {
          var k :| 0 <= k < |tail| && tail[k] == x;
          assert refs[k + 1] == x;
        }
        var r := [refs[0]] + rest;
        forall i, j | 0 <= i < j < |r| ensures r[i].id != r[j].id {
          if i == 0 {
            assert r[j] == rest[j - 1] && r[j] in rest;
          } else {
            assert r[i] == rest[i - 1] && r[j] == rest[j - 1];
          }
        }
      }
    }
  }

  /** The saved record takes the draft's images; its cover is the first draft image
      when that is non-empty and otherwise the previous cover; nothing else changes. */
  lemma SavedRecordFields(editing: Reference, draft: seq<string>)
    ensures SavedRecord(editing, draft).images == draft
    ensures |draft| > 0 && draft[0] != "" ==> SavedRecord(editing, draft).image == SavedRecord(editing, draft).images[0]
    ensures |draft| == 0 || draft[0] == "" ==> SavedRecord(editing, draft).image == editing.image
    ensures SavedRecord(editing, draft).(image := editing.image, images := editing.images) == editing
  {
  }

  /** Adding an image appends it exactly when the answer is a non-empty URL and the
      draft holds fewer than four; a draft within the cap stays within it. */
  lemma AddImageRespectsCap(draft: seq<string>, url: Option<string>)
    ensures url.Some? ==> (AddImage(draft, url) == draft + [url.value] <==> url.value != "" && |draft| < MaxImages)
    ensures url.None? ==> AddImage(draft, url) == draft
    ensures AddImage(draft, url) == draft || (url.Some? && AddImage(draft, url) == draft + [url.value])
    ensures |draft| <= MaxImages ==> |AddImage(draft, url)| <= MaxImages
  {
  }

  /** A fresh draft has no images and cannot be saved until its texts are filled in. */
  lemma NewDraftNotSaveable(now: int, year: string)
    ensures !CanSave(NewDraft(now, year))
    ensures NewDraft(now, year).images == [] && NewDraft(now, year).image == ""
    ensures NewDraft(now, year).category == DefaultCategory
  {
  }

  /** The initial list has unique ids and drafts within the image cap. */
  lemma InitialReferencesWellFormed()
    ensures UniqueIds(InitialReferences)
    ensures forall r :: r in InitialReferences ==> |r.images| <= MaxImages
  {
  }

  /** Neither cleanup tier keeps the `references` entry, so the next time the editor
      mounts after one it starts again from the initial list. */
  lemma CleanupDiscardsStoredReferences(local: map<string, string>)
    ensures ReferencesKey !in StorageManager.SoftRetain(local)
    ensures ReferencesKey !in StorageManager.SoftRetainAsWritten(local)
    ensures ReferencesKey !in StorageManager.EmergencyRetain(local)
    ensures ReferencesKey !in StorageManager.EmergencyRetainAsWritten(local)
  {
  }

  // ---------------------------------------------------------------------------
  // The editor component and its state
  // ---------------------------------------------------------------------------

  /** The component's state fields, and `stored`: the (decoded) `references` entry of
      the key-value store. */
  class ReferenceManager {
    var references: seq<Reference>
    var editingRef: Option<Reference>
    var isModalOpen: bool
    var newImages: seq<string>
    var stored: Option<seq<Reference>>

    /** The in-memory list and the stored entry agree. */
    predicate Mirrored()
      reads this
    {
      stored == Some(references)
    }

    /** The save button's guard (the button shows only while a draft is open). */
    predicate SaveEnabled()
      reads this
    {
      editingRef.Some? && CanSave(editingRef.value)
    }

    /** Mounting and the load effect: a stored list becomes the list; otherwise the
        initial list is used and written to the store. */
    constructor (saved: Option<seq<Reference>>)
      ensures references == (if saved.Some? then saved.value else InitialReferences)
      ensures Mirrored()
      ensures editingRef == None && !isModalOpen && newImages == []
    {
      editingRef := None;
      isModalOpen := false;
      newImages := [];
      if saved.Some? {
        references := saved.value;
        stored := saved;
      } else {
        references := InitialReferences;
        stored := Some(InitialReferences);
      }
    }

    /** `saveReferences`: sets the list and writes it to the store. */
    method SaveReferences(newRefs: seq<Reference>)
      modifies this`references, this`stored
      ensures references == newRefs && Mirrored()
    {
      references := newRefs;
      stored := Some(newRefs);
    }

    /** `handleEdit`: opens a copy of an entry with its images as the draft. */
    method HandleEdit(r: Reference)
      modifies this`editingRef, this`newImages, this`isModalOpen
      ensures editingRef == Some(r) && newImages == r.images && isModalOpen
    {
      editingRef := Some(r);
      newImages := r.images;
      isModalOpen := true;
    }

    /** `handleAdd`: opens an empty draft whose id is the current time. */
    method HandleAdd(now: int, year: string)
      modifies this`editingRef, this`newImages, this`isModalOpen
      ensures editingRef == Some(NewDraft(now, year)) && newImages == [] && isModalOpen
      ensures !SaveEnabled()
    {
      editingRef := Some(NewDraft(now, year));
      newImages := [];
      isModalOpen := true;
    }

    /** The form's `onChange` handlers: they change the draft's texts and category and
        keep its id, cover and images. The form is shown only while a draft is open. */
    method EditDraft(title: string, category: string, location: string, year: string, description: string)
      requires editingRef.Some?
      modifies this`editingRef
      ensures editingRef == Some(old(editingRef).value.(title := title, category := category,
                                   location := location, year := year, description := description))
    {
      editingRef := Some(editingRef.value.(title := title, category := category,
                         location := location, year := year, description := description));
    }

    /** `handleSave`: does nothing without a draft; otherwise saves the record built
        from the draft (replacing by id or appending) and closes the form. */
    method HandleSave()
      modifies this
      ensures old(editingRef).None? ==>
                references == old(references) && stored == old(stored) && editingRef == None &&
                isModalOpen == old(isModalOpen) && newImages == old(newImages)
      ensures old(editingRef).Some? ==>
                references == Upsert(old(references), SavedRecord(old(editingRef).value, old(newImages))) &&
                Mirrored() && !isModalOpen && editingRef == None && newImages == []
    {
      if editingRef.None? {
        return;
      }
      var updatedRef := SavedRecord(editingRef.value, newImages);
      if HasId(references, editingRef.value.id) {
        SaveReferences(ReplaceById(references, editingRef.value.id, updatedRef));
      } else {
        SaveReferences(references + [updatedRef]);
      }
      isModalOpen := false;
      editingRef := None;
      newImages := [];
    }

    /** `handleDelete`: when the confirmation is accepted, removes every entry with the
        id and saves; otherwise nothing changes. */
    method HandleDelete(id: int, confirmed: bool)
      modifies this`references, this`stored
      ensures confirmed ==> references == RemoveById(old(references), id) && Mirrored()
      ensures !confirmed ==> references == old(references) && stored == old(stored)
    {
      if confirmed {
        SaveReferences(RemoveById(references, id));
      }
    }

    /** `handleImageAdd` with the prompt's answer. */
    method HandleImageAdd(url: Option<string>)
      modifies this`newImages
      ensures newImages == AddImage(old(newImages), url)
      ensures old(|newImages|) <= MaxImages ==> |newImages| <= MaxImages
    {
      AddImageRespectsCap(newImages, url);
      if url.Some? && url.value != "" && |newImages| < MaxImages {
        newImages := newImages + [url.value];
      }
    }

    /** `handleImageRemove`. */
    method HandleImageRemove(index: int)
      modifies this`newImages
      ensures newImages == RemoveImageAt(old(newImages), index)
      ensures |newImages| <= old(|newImages|)
    {
      newImages := RemoveImageAt(newImages, index);
    }

    /** The close and cancel buttons: hide the form, keeping the draft. */
    method CloseModal()
      modifies this`isModalOpen
      ensures !isModalOpen
    {
      isModalOpen := false;
    }
  }

  /** A session of the editor: after mounting, saving an edited entry and deleting
      another, the list and the stored entry still agree and ids stay unique. */
  method EditSession(saved: Option<seq<Reference>>, now: int, keep: Reference, gone: int)
    returns (editor: ReferenceManager)
    requires saved.Some? ==> UniqueIds(saved.value)
    ensures editor.Mirrored() && UniqueIds(editor.references)
    ensures !HasId(editor.references, gone)
  {
    editor := new ReferenceManager(saved);
    InitialReferencesWellFormed();
    editor.HandleEdit(keep);
    editor.HandleImageAdd(Some("https://example.org/photo.jpg"));
    var before := editor.references;
    var record := SavedRecord(keep, editor.newImages);
    editor.HandleSave();
    UpsertKeepsUniqueIds(before, record);
    var saved2 := editor.references;
    editor.HandleDelete(gone, true);
    RemoveByIdKeepsUniqueIds(saved2, gone);
    RemoveByIdRemoves(saved2, gone);
  }
}
