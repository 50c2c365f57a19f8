/** Quota, content uniqueness, and the agreement of documents, outbox and object store. */
module StorageTheorems {
  import opened Wrappers
  import opened Entities
  import opened Processor
  import opened Uploads
  import opened Protocol
  import opened RunInvariants
  import opened RunTheorems

  // ---------- what is kept in every reachable state ----------

  predicate References(document: Document, key: Key) {
    document.key == Some(key)
  }

  /** The document's key, or the final key its pending upload will get. */
  predicate Claims(document: Document, key: Key) {
    document.key.Some? && (document.key.value == key || Pair(document.key.value) == key)
  }

  predicate KeysIssued(s: World) {
    && (forall d :: d in s.db.documents && s.db.documents[d].key.Some? ==>
          s.db.documents[d].key.value.opaqueId in s.issuedKeys)
    && (forall k :: k in s.store.outbox ==> k.opaqueId in s.issuedKeys)
    && (forall k :: k in s.store.unwinding ==> k.opaqueId in s.issuedKeys && k.Originals?)
    && (forall k :: k in s.store.objects ==> k.opaqueId in s.issuedKeys)
  }

  predicate KeysDistinct(documents: map<DocumentId, Document>) {
    forall d, e :: d in documents && e in documents && d != e && documents[d].key.Some? && documents[e].key.Some? ==>
      documents[d].key.value.opaqueId != documents[e].key.value.opaqueId
  }

  /** No key awaiting deletion is referenced, nor will the pending upload it is paired with ever claim it. */
  predicate OutboxUnclaimed(documents: map<DocumentId, Document>, outbox: multiset<Key>) {
    forall d, k :: d in documents && k in outbox ==> !Claims(documents[d], k)
  }

  predicate SameContent(d: Document, e: Document) {
    d.workspace == e.workspace && d.sha256.Some? && d.sha256 == e.sha256
  }

  /** Within a workspace one content belongs to one document. */
  predicate ContentUnique(documents: map<DocumentId, Document>) {
    forall d, e :: d in documents && e in documents && SameContent(documents[d], documents[e]) ==> d == e
  }

  ghost predicate WithinQuota(s: World) {
    UsedBytes(s.db.documents) <= s.cfg.quotaBytes
  }

  ghost predicate StorageInv(s: World) {
    && KeysIssued(s)
    && KeysDistinct(s.db.documents)
    && OutboxUnclaimed(s.db.documents, s.store.outbox)
    && ContentUnique(s.db.documents)
    && WithinQuota(s)
  }

  // ---------- the byte sum ----------

  lemma {:induction false} UsedBytesSame(before: map<DocumentId, Document>, after: map<DocumentId, Document>)
    requires before.Keys == after.Keys
    requires forall d :: d in before ==> StoredBytes(before[d]) == StoredBytes(after[d])
    ensures UsedBytes(before) == UsedBytes(after)
    decreases |before|
  {
    if before == map[] {
      assert after.Keys == {};
    } else {
      var d :| d in before;
      UsedBytesSplit(before, d);
      UsedBytesSplit(after, d);
      UsedBytesSame(before - {d}, after - {d});
    }
  }

  lemma UsedBytesUpdate(documents: map<DocumentId, Document>, d: DocumentId, document: Document)
    ensures UsedBytes(documents[d := document]) == UsedBytes(documents - {d}) + StoredBytes(document)
  {
    var updated := documents[d := document];
    UsedBytesSplit(updated, d);
    assert updated - {d} == documents - {d};
  }

  lemma UsedBytesRemove(documents: map<DocumentId, Document>, d: DocumentId)
    ensures UsedBytes(documents - {d}) + (if d in documents then StoredBytes(documents[d]) else 0) == UsedBytes(documents)
  {
    if d in documents {
      UsedBytesSplit(documents, d);
    } else {
      assert documents - {d} == documents;
    }
  }

  /** A restored original takes exactly the bytes its upload gives up. */
  lemma DedupConservesBytes(s: World, d: DocumentId, e: DocumentId, body: seq<Byte>)
    requires RunInv(s) && CanStore(s, FinishDuplicate(d, e, body))
    ensures var after := Stored(s, FinishDuplicate(d, e, body)).db.documents;
            if s.db.documents[e].key.None? then UsedBytes(after) == UsedBytes(s.db.documents)
            else UsedBytes(after) + |body| == UsedBytes(s.db.documents)
  {
    var documents := s.db.documents;
    assert DocumentOk(documents[d]) && DocumentOk(documents[e]);
    UsedBytesRemove(documents, d);
    UsedBytesRemove(documents - {d}, e);
    if documents[e].key.None? {
      UsedBytesUpdate(documents - {d}, e, Stored(s, FinishDuplicate(d, e, body)).db.documents[e]);
    }
  }

  /** The bytes a document gives up with its key. */
  function Held(s: World, d: DocumentId): nat
    requires d in s.db.documents
  {
    if s.db.documents[d].key.Some? then s.db.documents[d].byteSize else 0
  }

  /** What an event frees: the bytes of the upload or original it removes, unless another document takes them over. */
  function BytesFreed(s: World, event: StorageEvent): nat
    requires RunInv(s) && CanStore(s, event)
  {
    match event
    case FinishDuplicate(d, e, _) => if s.db.documents[e].key.None? then 0 else Held(s, d)
    case Discard(d) => Held(s, d)
    case CancelPending(d) => Held(s, d)
    case Expire(d) => Held(s, d)
    case RemoveOriginal(d) => Held(s, d)
    case RemoveDocument(d) => Held(s, d)
    case _ => 0
  }

  /** The stored bytes are accounted for exactly: reserved once, and freed when the key is given up. */
  lemma BytesFollowEvents(s: World, event: StorageEvent)
    requires RunInv(s) && CanStore(s, event)
    ensures UsedBytes(Stored(s, event).db.documents) + BytesFreed(s, event)
              == UsedBytes(s.db.documents) + (if event.Reserve? then event.byteSize else 0)
  {
    var documents := s.db.documents;
    match event
    case Reserve(d, _, _, _) =>
      UsedBytesRemove(documents, d);
      UsedBytesUpdate(documents, d, Stored(s, event).db.documents[d]);
    case Finish(d, _, _, _) =>
      UsedBytesRemove(documents, d);
      UsedBytesUpdate(documents, d, Stored(s, event).db.documents[d]);
    case FinishDuplicate(d, e, body) => DedupConservesBytes(s, d, e, body);
    case Discard(d) => UsedBytesRemove(documents, d);
    case CancelPending(d) => UsedBytesRemove(documents, d);
    case Expire(d) => UsedBytesRemove(documents, d);
    case RemoveDocument(d) => UsedBytesRemove(documents, d);
    case RemoveOriginal(d) =>
      UsedBytesRemove(documents, d);
      UsedBytesUpdate(documents, d, Stored(s, event).db.documents[d]);
    case _ =>
  }

  lemma StorageKeepsQuota(s: World, event: StorageEvent)
    requires RunInv(s) && WithinQuota(s) && CanStore(s, event)
    ensures UsedBytes(Stored(s, event).db.documents) <= s.cfg.quotaBytes
  {
    BytesFollowEvents(s, event);
  }

  /** A reservation is granted exactly when the size is within the limit and the quota still holds with it. */
  lemma ReservedWithinQuotaExactly(
    db: Tables, cfg: Settings, now: int, d: DocumentId, workspace: WorkspaceId, byteSize: nat, opaqueId: nat)
    requires d !in db.documents
    ensures CanCreateUpload(db, cfg, d, byteSize) <==>
              && 0 < byteSize <= cfg.uploadMaxBytes
              && UsedBytes(CreateUpload(db, cfg, now, d, workspace, byteSize, opaqueId).documents) <= cfg.quotaBytes
  {
    var after := CreateUpload(db, cfg, now, d, workspace, byteSize, opaqueId).documents;
    UsedBytesRemove(db.documents, d);
    UsedBytesUpdate(db.documents, d, after[d]);
  }

  /** A reservation is a pending upload, and expires exactly when its time has passed. */
  lemma ReservationsExpire(s: World, d: DocumentId, workspace: WorkspaceId, byteSize: nat, opaqueId: nat, later: int)
    requires RunInv(s) && Enabled(s, Storage(Reserve(d, workspace, byteSize, opaqueId)))
    ensures var t := Apply(s, Storage(Reserve(d, workspace, byteSize, opaqueId)));
            && PendingUpload(t.db, d) && t.db.documents[d].workspace == workspace
            && t.db.documents[d].key == Some(Incoming(opaqueId))
            && (forall body :: CanFinish(t, d, body) <==> |body| == byteSize)
            && (UploadExpired(t.db, later, d) <==> s.now + s.cfg.uploadTtlSeconds < later)
  {
  }

  // ---------- keys and contents ----------

  lemma StorageKeepsContentUnique(s: World, event: StorageEvent)
    requires RunInv(s) && ContentUnique(s.db.documents) && CanStore(s, event)
    ensures ContentUnique(Stored(s, event).db.documents)
  {
    var before, after := s.db.documents, Stored(s, event).db.documents;
    forall d, e | d in after && e in after && SameContent(after[d], after[e])
      ensures d == e
    {
      ContentFlow(s, event, d);
      ContentFlow(s, event, e);
    }
  }

  lemma ContentFlow(s: World, event: StorageEvent, x: DocumentId)
    requires CanStore(s, event) && x in Stored(s, event).db.documents
    ensures var after := Stored(s, event).db.documents;
            if event.Finish? && x == event.d then after[x].sha256 == Some(Sha256(event.body))
                                                  && x in s.db.documents && after[x].workspace == s.db.documents[x].workspace
            else if x in s.db.documents then
              after[x].sha256 == s.db.documents[x].sha256 && after[x].workspace == s.db.documents[x].workspace
            else after[x].sha256.None?
  {
  }

  /** The document whose upload gave `x` the key it has after the event. */
  function Source(s: World, event: StorageEvent, x: DocumentId): DocumentId {
    if event.FinishDuplicate? && x == event.e && x in s.db.documents && s.db.documents[x].key.None? then event.d else x
  }

  /** Keys only travel: each key after the event has the opaque id of its source's key, or is freshly issued. */
  lemma KeyFlow(s: World, event: StorageEvent, x: DocumentId)
    requires RunInv(s) && CanStore(s, event)
    requires x in Stored(s, event).db.documents && Stored(s, event).db.documents[x].key.Some?
    ensures var key := Stored(s, event).db.documents[x].key.value;
            if event.Reserve? && x == event.d then key == Incoming(event.opaqueId)
            else
              var y := Source(s, event, x);
              && y in s.db.documents && s.db.documents[y].key.Some?
              && (key == s.db.documents[y].key.value || key == Pair(s.db.documents[y].key.value))
              && (y != x ==> y !in Stored(s, event).db.documents)
  {
    if x in s.db.documents {
      assert DocumentOk(s.db.documents[x]);
    }
  }

  lemma EnqueuedOnly(store: Store, key: Key, k: Key)
    ensures k in Enqueued(store, key).outbox <==> k in store.outbox || k == key
  {
  }

  lemma CompletionFlow(s: World, event: StorageEvent, k: Key)
    requires (event.Finish? || event.FinishDuplicate?) && CanStore(s, event) && k in Stored(s, event).store.outbox
    ensures k in s.store.outbox || k == s.db.documents[event.d].key.value
  {
  }

  lemma CancellationFlow(s: World, d: DocumentId, k: Key)
    requires d in s.db.documents && k in CancelUpload(Site(s.db, s.store), d).store.outbox
    ensures k in s.store.outbox || Claims(s.db.documents[d], k)
  {
    if s.db.documents[d].key.Some? {
      var key := s.db.documents[d].key.value;
      EnqueuedOnly(s.store, key, k);
      EnqueuedOnly(Enqueued(s.store, key), Pair(key), k);
    }
  }

  /** What an event adds to the outbox is the key of a document that no longer claims it. */
  lemma OutboxFlow(s: World, event: StorageEvent, k: Key)
    requires RunInv(s) && CanStore(s, event) && k in Stored(s, event).store.outbox
    ensures k in s.store.outbox || Gives(s, event, k)
  {
    match event
    case Finish(_, _, _, _) => CompletionFlow(s, event, k);
    case FinishDuplicate(_, _, _) => CompletionFlow(s, event, k);
    case Discard(d) => EnqueuedOnly(s.store, s.db.documents[d].key.value, k);
    case CancelPending(d) => CancellationFlow(s, d, k);
    case Expire(d) => CancellationFlow(s, d, k);
    case RemoveOriginal(d) => EnqueuedOnly(s.store, s.db.documents[d].key.value, k);
    case RemoveDocument(d) =>
      if s.db.documents[d].key.Some? {
        EnqueuedOnly(s.store, s.db.documents[d].key.value, k);
      }
    case _ =>
  }

  predicate Gives(s: World, event: StorageEvent, k: Key) {
    && (event.Finish? || event.FinishDuplicate? || event.Discard? || event.CancelPending? || event.Expire?
        || event.RemoveOriginal? || event.RemoveDocument?)
    && event.d in s.db.documents
    && Claims(s.db.documents[event.d], k)
    && (event.Finish? || event.FinishDuplicate? ==> k.Incoming?)
  }

  /** Some document refers to the object. */
  predicate Referenced(documents: map<DocumentId, Document>, key: Key) {
    exists d :: d in documents && References(documents[d], key)
  }

  /** No key is dropped silently: once no document refers to it any more, its deletion is pending. */
  lemma GivenUpKeysAreEnqueued(s: World, event: StorageEvent, key: Key)
    requires RunInv(s) && CanStore(s, event)
    requires Referenced(s.db.documents, key) && !Referenced(Stored(s, event).db.documents, key)
    ensures key in Stored(s, event).store.outbox
  {
    var d :| d in s.db.documents && References(s.db.documents[d], key);
    assert DocumentOk(s.db.documents[d]);
    if d in Stored(s, event).db.documents {
      assert !References(Stored(s, event).db.documents[d], key);
    }
  }

  /** Some other document of the upload's workspace already has the content. */
  predicate KnownContent(s: World, d: DocumentId, body: seq<Byte>)
    requires d in s.db.documents
  {
    exists e :: e in s.db.documents && e != d && s.db.documents[e].workspace == s.db.documents[d].workspace
             && s.db.documents[e].sha256 == Some(Sha256(body))
  }

  /** An upload is absorbed exactly when its own workspace knows the content, and only by a document that has it. */
  lemma KnownContentIsAbsorbed(s: World, d: DocumentId, body: seq<Byte>, r: RunId, config: RunConfig)
    requires CanFinish(s, d, body) && r !in s.issuedRuns
    ensures CanStore(s, Finish(d, body, r, config)) <==> !KnownContent(s, d, body)
    ensures (exists e :: CanStore(s, FinishDuplicate(d, e, body))) <==> KnownContent(s, d, body)
    ensures forall e :: CanStore(s, FinishDuplicate(d, e, body)) ==>
              && s.db.documents[e].workspace == s.db.documents[d].workspace
              && s.db.documents[e].sha256 == Some(Sha256(body))
              && var after := Stored(s, FinishDuplicate(d, e, body)).db.documents;
                 d !in after && after[e].key.Some? && after[e].sha256 == Some(Sha256(body))
  {
    if KnownContent(s, d, body) {
      var e :| e in s.db.documents && e != d && s.db.documents[e].workspace == s.db.documents[d].workspace
               && s.db.documents[e].sha256 == Some(Sha256(body));
      assert IsDuplicateOf(s.db, d, e, Sha256(body)) && CanStore(s, FinishDuplicate(d, e, body));
    }
    if HasDuplicate(s.db, d, Sha256(body)) {
      var e :| e in s.db.documents && IsDuplicateOf(s.db, d, e, Sha256(body));
    }
  }

  /** Fresh content becomes an available original with a run that anybody can claim at once. */
  lemma FreshUploadsAreClaimable(s: World, d: DocumentId, body: seq<Byte>, r: RunId, config: RunConfig)
    requires RunInv(s) && Enabled(s, Storage(Finish(d, body, r, config)))
    ensures var t := Apply(s, Storage(Finish(d, body, r, config)));
            && d in t.db.documents && OriginalAvailable(t.db.documents[d])
            && t.db.documents[d].sha256 == Some(Sha256(body)) && t.db.documents[d].uploadExpiresAt.None?
            && r in t.db.runs && t.db.runs[r].document == d && t.db.runs[r].config == config
            && !t.db.runs[r].classificationOverride
            && forall now: int :: Claimable(t.db, now, r) <==> s.now <= now
  {
  }

  /** Cancelling an upload destroys no result and no worker's run. */
  lemma CancelledUploadsLoseNothing(s: World, d: DocumentId, r: RunId)
    requires RunInv(s) && CanStore(s, CancelPending(d)) && r in s.db.runs && s.db.runs[r].document == d
    ensures r !in s.db.results && s.db.runs[r].workerId.None?
    ensures d !in Stored(s, CancelPending(d)).db.documents && r !in Stored(s, CancelPending(d)).db.runs
  {
    assert RunOk(s.db, s.cfg, s.now, r);
  }

  /** Pending uploads can always be cancelled. */
  lemma PendingUploadsCanBeCancelled(s: World, d: DocumentId)
    requires PendingUpload(s.db, d)
    ensures CanStore(s, CancelPending(d)) && CanStore(s, Discard(d))
  {
  }

  lemma StorageKeepsDistinct(s: World, event: StorageEvent)
    requires RunInv(s) && KeysIssued(s) && KeysDistinct(s.db.documents) && CanStore(s, event)
    ensures KeysDistinct(Stored(s, event).db.documents)
  {
    var after := Stored(s, event).db.documents;
    forall d, e | d in after && e in after && d != e && after[d].key.Some? && after[e].key.Some?
      ensures after[d].key.value.opaqueId != after[e].key.value.opaqueId
    {
      KeyFlow(s, event, d);
      KeyFlow(s, event, e);
    }
  }

  lemma StorageKeepsIssued(s: World, event: StorageEvent)
    requires RunInv(s) && KeysIssued(s) && CanStore(s, event)
    ensures KeysIssued(Apply(s, Storage(event)))
  {
    var t := Apply(s, Storage(event));
    forall d | d in t.db.documents && t.db.documents[d].key.Some?
      ensures t.db.documents[d].key.value.opaqueId in t.issuedKeys
    {
      KeyFlow(s, event, d);
    }
    forall k | k in t.store.outbox
      ensures k.opaqueId in t.issuedKeys
    {
      OutboxFlow(s, event, k);
    }
    ObjectsIssued(s, event);
  }

  lemma ObjectsIssued(s: World, event: StorageEvent)
    requires KeysIssued(s) && CanStore(s, event)
    ensures forall k :: k in Stored(s, event).store.objects ==> k.opaqueId in s.issuedKeys
    ensures forall k :: k in Stored(s, event).store.unwinding ==> k.opaqueId in s.issuedKeys && k.Originals?
  {
  }

  lemma StorageKeepsOutbox(s: World, event: StorageEvent)
    requires RunInv(s) && KeysIssued(s) && KeysDistinct(s.db.documents) && CanStore(s, event)
    requires OutboxUnclaimed(s.db.documents, s.store.outbox)
    ensures OutboxUnclaimed(Stored(s, event).db.documents, Stored(s, event).store.outbox)
  {
    var after := Stored(s, event);
    forall d, k | d in after.db.documents && k in after.store.outbox
      ensures !Claims(after.db.documents[d], k)
    {
      OutboxKeyStaysUnclaimed(s, event, d, k);
    }
  }

  lemma OutboxKeyStaysUnclaimed(s: World, event: StorageEvent, d: DocumentId, k: Key)
    requires RunInv(s) && KeysIssued(s) && KeysDistinct(s.db.documents) && CanStore(s, event)
    requires OutboxUnclaimed(s.db.documents, s.store.outbox)
    requires d in Stored(s, event).db.documents && k in Stored(s, event).store.outbox
    ensures !Claims(Stored(s, event).db.documents[d], k)
  {
    OutboxFlow(s, event, k);
    if Stored(s, event).db.documents[d].key.Some? {
      KeyFlow(s, event, d);
      Settled(s, event, d);
    }
  }

  /** After the event its document is gone, holds no key, or holds a final key. */
  lemma Settled(s: World, event: StorageEvent, x: DocumentId)
    requires RunInv(s) && CanStore(s, event) && x in Stored(s, event).db.documents
    ensures event.Discard? || event.CancelPending? || event.Expire? || event.RemoveDocument? || event.FinishDuplicate? ==>
              x != event.d
    ensures event.RemoveOriginal? && x == event.d ==> Stored(s, event).db.documents[x].key.None?
    ensures event.Finish? && x == event.d ==>
              Stored(s, event).db.documents[x].key == Some(Pair(s.db.documents[x].key.value))
    ensures Source(s, event, x) != x ==>
              Stored(s, event).db.documents[x].key == Some(Pair(s.db.documents[event.d].key.value))
  {
  }

  lemma StorageEventKeepsInv(s: World, event: StorageEvent)
    requires RunInv(s) && StorageInv(s) && CanStore(s, event)
    ensures StorageInv(Apply(s, Storage(event)))
  {
    StorageKeepsQuota(s, event);
    StorageKeepsContentUnique(s, event);
    StorageKeepsDistinct(s, event);
    StorageKeepsIssued(s, event);
    StorageKeepsOutbox(s, event);
    InvOfParts(Apply(s, Storage(event)), Stored(s, event));
  }

  lemma InvOfParts(t: World, site: Site)
    requires t.db == site.db && t.store == site.store && KeysIssued(t)
    requires KeysDistinct(site.db.documents) && ContentUnique(site.db.documents)
    requires OutboxUnclaimed(site.db.documents, site.store.outbox)
    requires UsedBytes(site.db.documents) <= t.cfg.quotaBytes
    ensures StorageInv(t)
  {
  }

  lemma StorageInvStep(s: World, step: Step)
    requires RunInv(s) && StorageInv(s) && Enabled(s, step)
    ensures StorageInv(Apply(s, step))
  {
    if step.Storage? {
      StorageEventKeepsInv(s, step.event);
    } else {
      OriginalsKept(s, step);
      UsedBytesSame(s.db.documents, Apply(s, step).db.documents);
      SameOriginalsKeepStorageInv(s, Apply(s, step));
    }
  }

  lemma SameOriginalsKeepStorageInv(s: World, t: World)
    requires StorageInv(s) && SameOriginals(s.db.documents, t.db.documents)
    requires t.store == s.store && t.issuedKeys == s.issuedKeys && t.cfg == s.cfg
    requires UsedBytes(s.db.documents) == UsedBytes(t.db.documents)
    ensures StorageInv(t)
  {
  }

  lemma {:induction false} StorageInvAlways(s: World, history: seq<Step>)
    requires RunInv(s) && StorageInv(s) && Possible(s, history)
    ensures StorageInv(After(s, history)) && RunInv(After(s, history))
    decreases |history|
  {
    if history != [] {
      StorageInvStep(s, history[0]);
      RunInvStep(s, history[0]);
      StorageInvAlways(Apply(s, history[0]), history[1..]);
    }
  }

  /** The stored bytes never exceed the quota, and one content never belongs to two documents of a workspace. */
  lemma QuotaHolds(s: World, history: seq<Step>)
    requires Initial(s) && Possible(s, history)
    ensures UsedBytes(After(s, history).db.documents) <= s.cfg.quotaBytes
    ensures ContentUnique(After(s, history).db.documents)
  {
    StorageInvAlways(s, history);
    SettingsFixed(s, history);
  }

  /** No pending deletion ever names an object that a document references. */
  lemma OutboxNeverReferenced(s: World, history: seq<Step>, d: DocumentId, key: Key)
    requires Initial(s) && Possible(s, history)
    requires d in After(s, history).db.documents && key in After(s, history).store.outbox
    ensures !References(After(s, history).db.documents[d], key)
  {
    StorageInvAlways(s, history);
  }
}
