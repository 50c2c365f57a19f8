/**
 Objects and documents agree: what is available exists with the right content, and what exists is accounted for.
 Both are true except for two identifiable steps, and the exceptions are stated exactly.
 */
module ObjectTheorems {
  import opened Wrappers
  import opened Entities
  import opened Uploads
  import opened Protocol
  import opened RunInvariants
  import opened StorageTheorems

  /** Every original a document holds is stored, and its bytes hash to the document's digest. */
  predicate OriginalsStored(db: Tables, store: Store) {
    forall d :: d in db.documents && OriginalAvailable(db.documents[d]) ==> ContentStored(db.documents[d], store)
  }

  predicate ContentStored(document: Document, store: Store)
    requires OriginalAvailable(document)
  {
    document.key.value in store.objects && store.objects[document.key.value] == document.sha256.value.preimage
  }

  /** A final object is referenced, about to be deleted, or the pair of an upload still pending. */
  predicate Accounted(db: Tables, store: Store, key: Key) {
    key in store.outbox || exists d :: d in db.documents && Claims(db.documents[d], key)
  }

  predicate NoOrphans(db: Tables, store: Store) {
    forall k :: k in store.objects && k.Originals? ==> Accounted(db, store, k)
  }

  // ---------- the two exceptions ----------

  /** A late compensating delete hits a key that a document references by now. */
  predicate DeletesReferenced(s: World, event: StorageEvent) {
    event.Compensate? && event.deleted && exists d :: d in s.db.documents && References(s.db.documents[d], event.key)
  }

  /** A pending upload is dropped, without its final key, while an aborted completion has left that object behind. */
  predicate DropsUploadedPair(s: World, event: StorageEvent) {
    && (event.Discard? || event.RemoveDocument?
        || (event.FinishDuplicate? && event.e in s.db.documents && s.db.documents[event.e].key.Some?))
    && event.d in s.db.documents
    && s.db.documents[event.d].status == UploadPending
    && s.db.documents[event.d].key.Some?
    && Pair(s.db.documents[event.d].key.value) in s.store.objects
  }

  /** Where the bytes under a final key come from after the event. */
  lemma ObjectFlow(s: World, event: StorageEvent, k: Key)
    requires RunInv(s) && CanStore(s, event) && k.Originals? && k in Stored(s, event).store.objects
    ensures || (k in s.store.objects && Stored(s, event).store.objects[k] == s.store.objects[k])
            || (&& (event.Finish? || event.FinishDuplicate? || event.Abort?)
                && PendingUpload(s.db, event.d)
                && k == Pair(s.db.documents[event.d].key.value)
                && Stored(s, event).store.objects[k] == event.body)
  {
  }

  /** Only an executed deletion removes a final object. */
  lemma ObjectRemoved(s: World, event: StorageEvent, k: Key)
    requires CanStore(s, event) && k in s.store.objects && k !in Stored(s, event).store.objects
    ensures event.InterruptDeletion? || ((event.Compensate? || event.RunDeletion?) && event.deleted)
    ensures k == event.key
  {
  }

  lemma UnwindingFlow(s: World, event: StorageEvent, k: Key)
    requires CanStore(s, event) && k in Stored(s, event).store.unwinding
    ensures k in s.store.unwinding ||
            (event.Abort? && PendingUpload(s.db, event.d) && k == Pair(s.db.documents[event.d].key.value))
  {
  }

  /** An available original is one the document had before, or the content this event completes. */
  lemma AvailableFlow(s: World, event: StorageEvent, x: DocumentId)
    requires RunInv(s) && CanStore(s, event)
    requires x in Stored(s, event).db.documents && OriginalAvailable(Stored(s, event).db.documents[x])
    ensures var after := Stored(s, event);
            var document := after.db.documents[x];
            && document.key.value.Originals?
            && x in s.db.documents
            && (|| (s.db.documents[x].key == document.key && s.db.documents[x].sha256 == document.sha256
                    && OriginalAvailable(s.db.documents[x]))
                || (&& (event.Finish? || event.FinishDuplicate?)
                    && PendingUpload(s.db, event.d)
                    && document.key.value == Pair(s.db.documents[event.d].key.value)
                    && document.sha256 == Some(Sha256(event.body))
                    && document.key.value in after.store.objects
                    && after.store.objects[document.key.value] == event.body))
  {
    if x in s.db.documents {
      assert DocumentOk(s.db.documents[x]);
    }
  }

  /** How one document's object can be affected. */
  lemma ContentKept(s: World, event: StorageEvent, x: DocumentId)
    requires RunInv(s) && StorageInv(s) && CanStore(s, event) && OriginalsStored(s.db, s.store)
    requires x in Stored(s, event).db.documents && OriginalAvailable(Stored(s, event).db.documents[x])
    requires event.Compensate? && event.deleted && x in s.db.documents ==> !References(s.db.documents[x], event.key)
    ensures ContentStored(Stored(s, event).db.documents[x], Stored(s, event).store)
  {
    var after := Stored(s, event);
    var key := after.db.documents[x].key.value;
    AvailableFlow(s, event, x);
    if s.db.documents[x].key == after.db.documents[x].key && OriginalAvailable(s.db.documents[x]) {
      assert ContentStored(s.db.documents[x], s.store);
      if key in after.store.objects {
        ObjectFlow(s, event, key);
      } else {
        ObjectRemoved(s, event, key);
        assert Claims(s.db.documents[x], key);
      }
    }
  }

  /** A storage event keeps all available originals if and only if it is not a compensation of a referenced key. */
  lemma OriginalsKeptExactly(s: World, event: StorageEvent)
    requires RunInv(s) && StorageInv(s) && CanStore(s, event) && OriginalsStored(s.db, s.store)
    ensures OriginalsStored(Stored(s, event).db, Stored(s, event).store) <==> !DeletesReferenced(s, event)
  {
    var after := Stored(s, event);
    if DeletesReferenced(s, event) {
      var d :| d in s.db.documents && References(s.db.documents[d], event.key);
      assert DocumentOk(s.db.documents[d]);
      assert event.key in s.store.unwinding;
      assert OriginalAvailable(after.db.documents[d]);
    } else {
      forall x | x in after.db.documents && OriginalAvailable(after.db.documents[x])
        ensures ContentStored(after.db.documents[x], after.store)
      {
        ContentKept(s, event, x);
      }
    }
  }

  /** Who accounts for a stored final object after the event. */
  lemma AccountKept(s: World, event: StorageEvent, k: Key)
    requires RunInv(s) && StorageInv(s) && CanStore(s, event) && NoOrphans(s.db, s.store)
    requires k in Stored(s, event).store.objects && k.Originals?
    requires !(DropsUploadedPair(s, event) && k == Pair(s.db.documents[event.d].key.value))
    ensures Accounted(Stored(s, event).db, Stored(s, event).store, k)
  {
    var after := Stored(s, event);
    if k in s.store.outbox && !event.RunDeletion? {
      assert k in after.store.outbox;
    } else if k in s.store.objects && k !in s.store.outbox {
      var d :| d in s.db.documents && Claims(s.db.documents[d], k);
      assert DocumentOk(s.db.documents[d]);
      ClaimMoves(s, event, d, k);
    } else if k !in s.store.objects {
      NewObjectClaimed(s, event, k);
    }
  }

  lemma NewObjectClaimed(s: World, event: StorageEvent, k: Key)
    requires RunInv(s) && CanStore(s, event)
    requires k in Stored(s, event).store.objects && k.Originals? && k !in s.store.objects
    ensures Accounted(Stored(s, event).db, Stored(s, event).store, k)
  {
    var after := Stored(s, event);
    var x := if event.FinishDuplicate? then event.e else if event.Finish? || event.Abort? then event.d else 0;
    assert x in after.db.documents && Claims(after.db.documents[x], k);
  }

  /** The document that claims `k` keeps it, hands it on, or enqueues it. */
  lemma ClaimMoves(s: World, event: StorageEvent, d: DocumentId, k: Key)
    requires RunInv(s) && CanStore(s, event) && d in s.db.documents && Claims(s.db.documents[d], k) && k.Originals?
    requires k in s.store.objects
    requires !(DropsUploadedPair(s, event) && k == Pair(s.db.documents[event.d].key.value))
    ensures Accounted(Stored(s, event).db, Stored(s, event).store, k)
  {
    var after := Stored(s, event);
    assert DocumentOk(s.db.documents[d]);
    if event.FinishDuplicate? && d == event.d {
      assert Claims(after.db.documents[event.e], k);
    } else if d in after.db.documents && Claims(after.db.documents[d], k) {
    } else {
      assert k in after.store.outbox;
    }
  }

  /** An event keeps every final object accounted for if and only if it does not drop an uploaded pair. */
  lemma OrphansExactly(s: World, event: StorageEvent)
    requires RunInv(s) && StorageInv(s) && CanStore(s, event) && NoOrphans(s.db, s.store)
    ensures NoOrphans(Stored(s, event).db, Stored(s, event).store) <==> !DropsUploadedPair(s, event)
  {
    var after := Stored(s, event);
    if DropsUploadedPair(s, event) {
      var k := Pair(s.db.documents[event.d].key.value);
      assert DocumentOk(s.db.documents[event.d]);
      assert Claims(s.db.documents[event.d], k);
      assert k !in after.store.outbox;
      forall x | x in after.db.documents
        ensures !Claims(after.db.documents[x], k)
      {
        assert x in s.db.documents && x != event.d && after.db.documents[x] == s.db.documents[x];
      }
      assert k in after.store.objects;
    } else {
      forall k | k in after.store.objects && k.Originals?
        ensures Accounted(after.db, after.store, k)
      {
        AccountKept(s, event, k);
      }
    }
  }

  // ---------- whole histories ----------

  /** The step commits no final key that an earlier, aborted completion is still to delete. */
  predicate CompletesAlone(s: World, step: Step) {
    step.Storage? ==>
      var event := step.event;
      event.Finish? || (event.FinishDuplicate? && event.e in s.db.documents && s.db.documents[event.e].key.None?) ==>
        event.d in s.db.documents && s.db.documents[event.d].key.Some? ==>
          Pair(s.db.documents[event.d].key.value) !in s.store.unwinding
  }

  ghost predicate AlwaysCompletesAlone(s: World, history: seq<Step>)
    requires Possible(s, history)
    decreases |history|
  {
    history == [] || (CompletesAlone(s, history[0]) && AlwaysCompletesAlone(Apply(s, history[0]), history[1..]))
  }

  /** No document references a key that is still to be compensated. */
  predicate UnwindingUnreferenced(s: World) {
    forall d, k :: d in s.db.documents && k in s.store.unwinding ==> !References(s.db.documents[d], k)
  }

  lemma UnwindingStaysUnreferenced(s: World, event: StorageEvent, d: DocumentId, k: Key)
    requires RunInv(s) && StorageInv(s) && UnwindingUnreferenced(s)
    requires CanStore(s, event) && CompletesAlone(s, Storage(event))
    requires d in Stored(s, event).db.documents && k in Stored(s, event).store.unwinding
    ensures !References(Stored(s, event).db.documents[d], k)
  {
    var after := Stored(s, event);
    UnwindingFlow(s, event, k);
    if References(after.db.documents[d], k) {
      KeyFlow(s, event, d);
      Settled(s, event, d);
      FinalKeyFlow(s, event, d);
    }
  }

  /** A document's key changes only by completing an upload, and then to that upload's final key. */
  lemma FinalKeyFlow(s: World, event: StorageEvent, x: DocumentId)
    requires RunInv(s) && CanStore(s, event)
    requires x in Stored(s, event).db.documents && Stored(s, event).db.documents[x].key.Some?
    ensures var key := Stored(s, event).db.documents[x].key;
            || (x in s.db.documents && key == s.db.documents[x].key)
            || (event.Reserve? && x == event.d && key == Some(Incoming(event.opaqueId)))
            || ((event.Finish? || event.FinishDuplicate?) && PendingUpload(s.db, event.d)
                && key == Some(Pair(s.db.documents[event.d].key.value)))
  {
  }

  lemma UnwindingStep(s: World, event: StorageEvent)
    requires RunInv(s) && StorageInv(s) && UnwindingUnreferenced(s)
    requires CanStore(s, event) && CompletesAlone(s, Storage(event))
    ensures UnwindingUnreferenced(Apply(s, Storage(event)))
  {
    var t := Apply(s, Storage(event));
    forall d, k | d in t.db.documents && k in t.store.unwinding ensures !References(t.db.documents[d], k) {
      UnwindingStaysUnreferenced(s, event, d, k);
    }
  }

  lemma NothingReferencedIsDeleted(s: World, event: StorageEvent)
    requires UnwindingUnreferenced(s) && CanStore(s, event)
    ensures !DeletesReferenced(s, event)
  {
  }

  lemma SameOriginalsStayStored(s: World, t: World)
    requires OriginalsStored(s.db, s.store) && UnwindingUnreferenced(s)
    requires SameOriginals(s.db.documents, t.db.documents) && t.store == s.store
    ensures OriginalsStored(t.db, t.store) && UnwindingUnreferenced(t)
  {
  }

  lemma OriginalsStoredStep(s: World, step: Step)
    requires RunInv(s) && StorageInv(s) && Enabled(s, step) && CompletesAlone(s, step)
    requires OriginalsStored(s.db, s.store) && UnwindingUnreferenced(s)
    ensures OriginalsStored(Apply(s, step).db, Apply(s, step).store) && UnwindingUnreferenced(Apply(s, step))
  {
    if step.Storage? {
      NothingReferencedIsDeleted(s, step.event);
      OriginalsKeptExactly(s, step.event);
      UnwindingStep(s, step.event);
    } else {
      OriginalsKept(s, step);
      SameOriginalsStayStored(s, Apply(s, step));
    }
  }

  lemma {:induction false} OriginalsStayStored(s: World, history: seq<Step>)
    requires RunInv(s) && StorageInv(s) && Possible(s, history) && AlwaysCompletesAlone(s, history)
    requires OriginalsStored(s.db, s.store) && UnwindingUnreferenced(s)
    ensures OriginalsStored(After(s, history).db, After(s, history).store)
    decreases |history|
  {
    if history != [] {
      OriginalsStoredStep(s, history[0]);
      StorageInvStep(s, history[0]);
      RunInvStep(s, history[0]);
      OriginalsStayStored(Apply(s, history[0]), history[1..]);
    }
  }

  /**
   Every available original is stored, whatever else happens, as long as no completion commits a key that an
   aborted one is still to delete.
   */
  lemma AvailableOriginalsExist(s: World, history: seq<Step>)
    requires Initial(s) && Possible(s, history) && AlwaysCompletesAlone(s, history)
    ensures OriginalsStored(After(s, history).db, After(s, history).store)
  {
    OriginalsStayStored(s, history);
  }

  ghost predicate NeverDropsUploadedPairs(s: World, history: seq<Step>)
    requires Possible(s, history)
    decreases |history|
  {
    history == [] || (&& !(history[0].Storage? && DropsUploadedPair(s, history[0].event))
                      && NeverDropsUploadedPairs(Apply(s, history[0]), history[1..]))
  }

  lemma NoOrphansStep(s: World, step: Step)
    requires RunInv(s) && StorageInv(s) && Enabled(s, step) && NoOrphans(s.db, s.store)
    requires !(step.Storage? && DropsUploadedPair(s, step.event))
    ensures NoOrphans(Apply(s, step).db, Apply(s, step).store)
  {
    if step.Storage? {
      OrphansExactly(s, step.event);
    } else {
      OriginalsKept(s, step);
      SameOriginalsKeepAccounts(s, Apply(s, step));
    }
  }

  lemma SameOriginalsKeepAccounts(s: World, t: World)
    requires NoOrphans(s.db, s.store) && SameOriginals(s.db.documents, t.db.documents) && t.store == s.store
    ensures NoOrphans(t.db, t.store)
  {
    forall k | k in t.store.objects && k.Originals? ensures Accounted(t.db, t.store, k) {
      assert Accounted(s.db, s.store, k);
      if k !in s.store.outbox {
        var d :| d in s.db.documents && Claims(s.db.documents[d], k);
        assert Claims(t.db.documents[d], k);
      }
    }
  }

  lemma {:induction false} AccountsAreKept(s: World, history: seq<Step>)
    requires RunInv(s) && StorageInv(s) && NoOrphans(s.db, s.store)
    requires Possible(s, history) && NeverDropsUploadedPairs(s, history)
    ensures NoOrphans(After(s, history).db, After(s, history).store)
    decreases |history|
  {
    if history != [] {
      NoOrphansStep(s, history[0]);
      StorageInvStep(s, history[0]);
      RunInvStep(s, history[0]);
      AccountsAreKept(Apply(s, history[0]), history[1..]);
    }
  }

  /**
   No final object is ever an orphan, failed compensations included, as long as no pending upload is dropped
   without the final object that an aborted completion has already written for it.
   */
  lemma NoObjectIsOrphaned(s: World, history: seq<Step>)
    requires Initial(s) && Possible(s, history) && NeverDropsUploadedPairs(s, history)
    ensures NoOrphans(After(s, history).db, After(s, history).store)
  {
    AccountsAreKept(s, history);
  }

  // ---------- the exceptions happen ----------

  /** One reservation whose first completion wrote its object and rolled back. */
  ghost function AbortedUpload(s: World, body: seq<Byte>): (t: World)
    requires Initial(s) && 1 <= |body| <= s.cfg.quotaBytes && |body| <= s.cfg.uploadMaxBytes
    ensures Enabled(s, Storage(Reserve(0, 0, |body|, 7)))
    ensures Enabled(Apply(s, Storage(Reserve(0, 0, |body|, 7))), Storage(Abort(0, body)))
    ensures t == Apply(Apply(s, Storage(Reserve(0, 0, |body|, 7))), Storage(Abort(0, body)))
    ensures t.db.documents.Keys == {0} && PendingUpload(t.db, 0) && t.db.documents[0].byteSize == |body|
    ensures t.db.documents[0].key == Some(Incoming(7)) && t.db.documents[0].originalDeletedAt.None?
    ensures t.store == Store(map[Originals(7) := body], multiset{}, multiset{Originals(7)}) && t.issuedRuns == {}
  {
    Apply(Apply(s, Storage(Reserve(0, 0, |body|, 7))), Storage(Abort(0, body)))
  }

  /**
   Two completions of one upload: the first aborts after writing the object, the second commits, and only then
   the first one's compensating delete runs. The committed original is gone.
   */
  lemma LateCompensationLosesTheOriginal(s: World, body: seq<Byte>, config: RunConfig)
    requires Initial(s) && 1 <= |body| <= s.cfg.quotaBytes && |body| <= s.cfg.uploadMaxBytes
    ensures var history := [Storage(Reserve(0, 0, |body|, 7)), Storage(Abort(0, body)),
                            Storage(Finish(0, body, 0, config)), Storage(Compensate(Originals(7), true))];
            Possible(s, history) && !OriginalsStored(After(s, history).db, After(s, history).store)
  {
    var s2 := AbortedUpload(s, body);
    var s3 := Apply(s2, Storage(Finish(0, body, 0, config)));
    assert s3.store.unwinding == multiset{Originals(7)};
    var s4 := Apply(s3, Storage(Compensate(Originals(7), true)));
    FourSteps(s, Storage(Reserve(0, 0, |body|, 7)), Storage(Abort(0, body)),
              Storage(Finish(0, body, 0, config)), Storage(Compensate(Originals(7), true)));
    assert OriginalAvailable(s4.db.documents[0]) && !ContentStored(s4.db.documents[0], s4.store);
  }

  /** A swallowed storage error in the compensating delete, followed by a rejection, leaves an object nobody owns. */
  lemma SwallowedErrorLeavesAnOrphan(s: World, body: seq<Byte>)
    requires Initial(s) && 1 <= |body| <= s.cfg.quotaBytes && |body| <= s.cfg.uploadMaxBytes
    ensures var history := [Storage(Reserve(0, 0, |body|, 7)), Storage(Abort(0, body)),
                            Storage(Compensate(Originals(7), false)), Storage(Discard(0))];
            Possible(s, history) && !NoOrphans(After(s, history).db, After(s, history).store)
  {
    var s2 := AbortedUpload(s, body);
    var s3 := Apply(s2, Storage(Compensate(Originals(7), false)));
    var s4 := Apply(s3, Storage(Discard(0)));
    FourSteps(s, Storage(Reserve(0, 0, |body|, 7)), Storage(Abort(0, body)),
              Storage(Compensate(Originals(7), false)), Storage(Discard(0)));
    assert s4.store.outbox == multiset{Incoming(7)} && s4.db.documents == map[];
    assert Originals(7) in s4.store.objects && !Accounted(s4.db, s4.store, Originals(7));
  }
}
