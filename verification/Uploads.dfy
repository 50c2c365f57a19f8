/**
 Upload, deletion and outbox transactions over the tables and the object store. Object writes happen inside
 the transaction that references them; deletions are only ever enqueued by a transaction and executed later.
 */
module Uploads {
  import opened Wrappers
  import opened Entities
  import opened Processor
  import opened Requests

  // The bucket, the outbox of pending deletions, and keys whose compensating delete is still to come.
  datatype Store = Store(objects: map<Key, seq<Byte>>, outbox: multiset<Key>, unwinding: multiset<Key>)

  // What one handler works on.
  datatype Site = Site(db: Tables, store: Store)

  // ---------- quota ----------

  function StoredBytes(document: Document): nat {
    if document.key.Some? then document.byteSize else 0
  }

  /** The sum of `byte_size` over the documents that hold a key. */
  ghost function UsedBytes(documents: map<DocumentId, Document>): nat {
    if documents == map[] then 0
    else
      var d :| d in documents;
      StoredBytes(documents[d]) + UsedBytes(documents - {d})
  }

  /** The sum does not depend on the order in which documents are taken. */
  lemma {:induction false} UsedBytesSplit(documents: map<DocumentId, Document>, d: DocumentId)
    requires d in documents
    ensures UsedBytes(documents) == StoredBytes(documents[d]) + UsedBytes(documents - {d})
    decreases |documents|
  {
    var e :| e in documents && UsedBytes(documents) == StoredBytes(documents[e]) + UsedBytes(documents - {e});
    if e != d {
      UsedBytesSplit(documents - {e}, d);
      UsedBytesSplit(documents - {d}, e);
      assert documents - {e} - {d} == documents - {d} - {e};
    }
  }

  // ---------- keys ----------

  function Pair(key: Key): Key {
    Originals(key.opaqueId)
  }

  function Enqueued(store: Store, key: Key): Store {
    store.(outbox := store.outbox + multiset{key})
  }

  // ---------- create, complete, cancel, discard, expire ----------

  ghost predicate CanCreateUpload(db: Tables, cfg: Settings, d: DocumentId, byteSize: nat) {
    && d !in db.documents
    && 0 < byteSize <= cfg.uploadMaxBytes
    && UsedBytes(db.documents) + byteSize <= cfg.quotaBytes
  }

  function CreateUpload(
    db: Tables, cfg: Settings, now: int, d: DocumentId, workspace: WorkspaceId, byteSize: nat, opaqueId: nat): Tables
  {
    var document := Document(workspace, byteSize, None, Some(Incoming(opaqueId)), UploadPending,
                             Some(now + cfg.uploadTtlSeconds), None, now);
    db.(documents := db.documents[d := document])
  }

  predicate PendingUpload(db: Tables, d: DocumentId) {
    && d in db.documents
    && db.documents[d].status == UploadPending
    && db.documents[d].key.Some?
    && db.documents[d].key.value.Incoming?
  }

  predicate IsDuplicateOf(db: Tables, d: DocumentId, e: DocumentId, digest: Digest) {
    && e in db.documents
    && e != d
    && d in db.documents
    && db.documents[e].workspace == db.documents[d].workspace
    && db.documents[e].sha256 == Some(digest)
  }

  predicate HasDuplicate(db: Tables, d: DocumentId, digest: Digest) {
    exists e :: e in db.documents && IsDuplicateOf(db, d, e, digest)
  }

  /** No stored document has this content: the upload becomes an original with its first queued run. */
  function CompleteFresh(s: Site, now: int, d: DocumentId, body: seq<Byte>, r: RunId, config: RunConfig): Site
    requires PendingUpload(s.db, d)
  {
    var incoming := s.db.documents[d].key.value;
    var document := s.db.documents[d].(
      key := Some(Pair(incoming)), sha256 := Some(Sha256(body)), status := DocumentStatus.Uploaded, uploadExpiresAt := None);
    var run := QueuedRun(d, config, false, None, now);
    Site(s.db.(documents := s.db.documents[d := document], runs := s.db.runs[r := run]),
         Enqueued(s.store.(objects := s.store.objects[Pair(incoming) := body]), incoming))
  }

  /**
   Document `e` already has this content. The upload's row disappears; if `e` lost its original, it regains it
   from this upload.
   */
  function CompleteDuplicate(s: Site, d: DocumentId, e: DocumentId, body: seq<Byte>): Site
    requires PendingUpload(s.db, d) && e in s.db.documents && e != d
  {
    var incoming := s.db.documents[d].key.value;
    if s.db.documents[e].key.None? then
      var restored := s.db.documents[e].(key := Some(Pair(incoming)), originalDeletedAt := None);
      var db := DeleteDocument(s.db, d);
      Site(db.(documents := db.documents[e := restored]),
           Enqueued(s.store.(objects := s.store.objects[Pair(incoming) := body]), incoming))
    else
      Site(DeleteDocument(s.db, d), Enqueued(s.store, incoming))
  }

  /** The object was written but the transaction rolled back; the compensating delete is still to come. */
  function CompletionAborted(s: Site, d: DocumentId, body: seq<Byte>): Site
    requires PendingUpload(s.db, d)
  {
    var pair := Pair(s.db.documents[d].key.value);
    s.(store := s.store.(objects := s.store.objects[pair := body], unwinding := s.store.unwinding + multiset{pair}))
  }

  /** The compensating delete runs outside any transaction; a storage error is swallowed. */
  function Compensated(store: Store, key: Key, deleted: bool): Store {
    var rest := store.(unwinding := store.unwinding - multiset{key});
    if deleted then rest.(objects := rest.objects - {key}) else rest
  }

  function DiscardInvalidUpload(s: Site, d: DocumentId): Site
    requires PendingUpload(s.db, d)
  {
    Site(DeleteDocument(s.db, d), Enqueued(s.store, s.db.documents[d].key.value))
  }

  predicate CompletedButUnclaimed(db: Tables, d: DocumentId) {
    && d in db.documents
    && db.documents[d].status == DocumentStatus.Uploaded
    && (exists r :: r in db.runs && db.runs[r].document == d)
    && (forall r :: r in db.runs && db.runs[r].document == d ==> db.runs[r].status == Queued)
  }

  predicate CanCancelUpload(db: Tables, d: DocumentId) {
    d in db.documents && (db.documents[d].status == UploadPending || CompletedButUnclaimed(db, d))
  }

  /** Cancelling a pending upload also enqueues the final key a racing completion may have written. */
  function CancelUpload(s: Site, d: DocumentId): Site
    requires d in s.db.documents
  {
    var document := s.db.documents[d];
    var store := match document.key
      case None => s.store
      case Some(key) =>
        if document.status == UploadPending then Enqueued(Enqueued(s.store, key), Pair(key)) else Enqueued(s.store, key);
    Site(DeleteDocument(s.db, d), store)
  }

  predicate UploadExpired(db: Tables, now: int, d: DocumentId) {
    && d in db.documents
    && db.documents[d].status == UploadPending
    && db.documents[d].uploadExpiresAt.Some?
    && db.documents[d].uploadExpiresAt.value < now
  }

  // ---------- deletion and the outbox ----------

  predicate CanDeleteOriginal(db: Tables, d: DocumentId) {
    && d in db.documents
    && !HasLiveRun(db, d)
    && OriginalAvailable(db.documents[d])
  }

  function DeleteOriginal(s: Site, now: int, d: DocumentId): Site
    requires CanDeleteOriginal(s.db, d)
  {
    var document := s.db.documents[d].(key := None, originalDeletedAt := Some(now));
    Site(s.db.(documents := s.db.documents[d := document]), Enqueued(s.store, s.db.documents[d].key.value))
  }

  predicate CanDeletePermanently(db: Tables, d: DocumentId) {
    d in db.documents && !HasLiveRun(db, d)
  }

  function DeletePermanently(s: Site, d: DocumentId): Site
    requires d in s.db.documents
  {
    Site(DeleteDocument(s.db, d),
         match s.db.documents[d].key case None => s.store case Some(key) => Enqueued(s.store, key))
  }

  /** One outbox row: a storage error keeps it for a later attempt. */
  function ProcessObjectDeletion(store: Store, key: Key, deleted: bool): Store {
    if deleted then store.(objects := store.objects - {key}, outbox := store.outbox - multiset{key}) else store
  }
}
