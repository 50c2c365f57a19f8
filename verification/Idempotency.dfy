/** The idempotency records, and the transactions of one gated request against them. */
module Idempotency {
  import opened Wrappers
  import opened Sequences

  type Byte = bv8
  type RecordId = nat

  /** The unique columns: session, method, target with query, and the client's key. */
  datatype Key = Key(session: nat, httpMethod: string, target: string, clientKey: string)

  datatype Response = Response(status: nat, body: seq<Byte>)

  /** `body` stands for the request hash: under one key, equal hashes mean equal bodies. */
  datatype Entry = Entry(key: Key, body: seq<Byte>, createdAt: int, expiresAt: int, response: Option<Response>)

  datatype Settings = Settings(ttl: nat, inProgress: nat, maxRequestBytes: nat, maxResponseBytes: nat)

  datatype Answer = DifferentRequest | AlreadyInProgress | Replayed(response: Response)

  type Table = map<RecordId, Entry>

  predicate UniqueKeys(table: Table) {
    forall i, j :: i in table && j in table && table[i].key == table[j].key ==> i == j
  }

  predicate Taken(table: Table, key: Key) {
    exists i :: i in table && table[i].key == key
  }

  function Expired(table: Table, now: int): set<RecordId> {
    set i | i in table && table[i].expiresAt <= now
  }

  function WithoutExpired(table: Table, now: int): Table {
    table - Expired(table, now)
  }

  /** An unfinished record old enough for another request to take over. */
  predicate Stale(cfg: Settings, entry: Entry, now: int) {
    entry.response.None? && entry.createdAt <= now - cfg.inProgress
  }

  function AnswerFor(entry: Entry, body: seq<Byte>): Answer {
    if entry.body != body then DifferentRequest
    else match entry.response case None => AlreadyInProgress case Some(response) => Replayed(response)
  }

  predicate Replayable(cfg: Settings, response: Response) {
    response.status < 500 && |response.body| <= cfg.maxResponseBytes
  }

  // ---------- what each transaction does ----------

  /**
   What a lookup decides: answer from a record, remove a stale one, or go on to insert; `pending` are the deletions
   that commit with the next write.
   */
  datatype Lookup =
    | Answered(answer: Answer)
    | MustTakeOver(victim: RecordId, pending: set<RecordId>)
    | MayInsert(pending: set<RecordId>)

  ghost function Find(table: Table, key: Key): (i: RecordId)
    requires Taken(table, key)
    ensures i in table && table[i].key == key
  {
    var i :| i in table && table[i].key == key;
    i
  }

  /** Deleting what expired and reading the record, without locking it. */
  ghost function LookedUp(cfg: Settings, table: Table, key: Key, body: seq<Byte>, now: int): (Table, Lookup) {
    var live := WithoutExpired(table, now);
    if !Taken(live, key) then (table, MayInsert(Expired(table, now)))
    else
      var i := Find(live, key);
      if Stale(cfg, live[i], now) then (table, MustTakeOver(i, Expired(table, now)))
      else (live, Answered(AnswerFor(live[i], body)))
  }

  /** The record read as stale is deleted by its id, whatever it has become by then. */
  function TakenOver(table: Table, pending: set<RecordId>, victim: RecordId): Table {
    table - pending - {victim}
  }

  function NewEntry(cfg: Settings, key: Key, body: seq<Byte>, now: int, createdAt: int): Entry {
    Entry(key, body, createdAt, now + cfg.ttl, None)
  }

  /** The insert commits together with the pending deletions, or fails on the unique key and rolls both back. */
  function Inserted(cfg: Settings, table: Table, pending: set<RecordId>, id: RecordId, entry: Entry): (Table, bool) {
    var rest := table - pending;
    if Taken(rest, entry.key) then (table, false) else (rest[id := entry], true)
  }

  /** The finalizer: a finished, replayable response is kept, anything else frees the key; a missing record stays so. */
  function Finalized(cfg: Settings, table: Table, id: RecordId, response: Response, finished: bool): Table {
    if id !in table then table
    else if !finished || !Replayable(cfg, response) then table - {id}
    else table[id := table[id].(response := Some(response))]
  }

  // ---------- the code ----------

  class Records {
    var table: Table

    constructor ()
      ensures table == map[]
    {
      table := map[];
    }

    method LookUp(cfg: Settings, key: Key, body: seq<Byte>, now: int) returns (found: Lookup)
      requires UniqueKeys(table)
      modifies this
      ensures (table, found) == LookedUp(cfg, old(table), key, body, now)
      ensures UniqueKeys(table)
      ensures found.MayInsert? <==> forall i :: i in old(table) && old(table)[i].key == key ==> old(table)[i].expiresAt <= now
      ensures found.MustTakeOver? ==>
                && found.victim in old(table)
                && var e := old(table)[found.victim];
                   e.key == key && now < e.expiresAt && e.response.None? && e.createdAt + cfg.inProgress <= now
      ensures found.Answered? ==>
                exists i :: i in old(table)
                  && var e := old(table)[i];
                     && e.key == key && now < e.expiresAt && (e.response.None? ==> now < e.createdAt + cfg.inProgress)
                     && found.answer == if e.body != body then DifferentRequest
                                        else if e.response.None? then AlreadyInProgress else Replayed(e.response.value)
    {
      var live := WithoutExpired(table, now);
      var matching := set i | i in live && live[i].key == key;
      if matching == {} {
        forall i | i in table && table[i].key == key ensures table[i].expiresAt <= now {
          assert i !in matching;
        }
        return MayInsert(Expired(table, now));
      }
      var i :| i in matching;
      assert i == Find(live, key);
      if Stale(cfg, live[i], now) {
        return MustTakeOver(i, Expired(table, now));
      }
      table := live;
      return Answered(AnswerFor(live[i], body));
    }

    /** `session.delete(record)` and the commit that follows it. */
    method TakeOver(pending: set<RecordId>, victim: RecordId)
      requires UniqueKeys(table)
      modifies this
      ensures table == TakenOver(old(table), pending, victim) && UniqueKeys(table)
    {
      table := table - pending;
      table := table - {victim};
    }

    method Insert(cfg: Settings, pending: set<RecordId>, id: RecordId, entry: Entry) returns (won: bool)
      requires UniqueKeys(table) && id !in table
      modifies this
      ensures (table, won) == Inserted(cfg, old(table), pending, id, entry)
      ensures UniqueKeys(table)
    {
      var rest := table - pending;
      if exists i :: i in rest && rest[i].key == entry.key {
        return false;
      }
      table := rest[id := entry];
      return true;
    }

    /** The handler raised: its record is deleted by id. */
    method Release(id: RecordId)
      modifies this
      ensures table == old(table) - {id}
    {
      table := table - {id};
    }

    method Finish(cfg: Settings, id: RecordId, response: Response, finished: bool)
      modifies this
      ensures table == Finalized(cfg, old(table), id, response, finished)
      ensures id in table ==> finished && response.status < 500 && |response.body| <= cfg.maxResponseBytes
      ensures finished && response.status < 500 && |response.body| <= cfg.maxResponseBytes && id in old(table) ==>
                id in table && table[id] == old(table)[id].(response := Some(response))
    {
      if id in table {
        if !finished || !Replayable(cfg, response) {
          table := table - {id};
        } else {
          table := table[id := table[id].(response := Some(response))];
        }
      }
    }
  }

  // ---------- bounded bodies ----------

  /** What the Content-Length header says, if it is there: a number, or nothing that parses. */
  datatype DeclaredLength = Undeclared | Unparsable | Declared(length: int)

  predicate DeclarationFits(declared: DeclaredLength, limit: nat) {
    declared.Undeclared? || (declared.Declared? && declared.length <= limit)
  }

  /** The whole body, exactly when neither its declaration nor its chunks exceed the limit. */
  method ReadBoundedBody(declared: DeclaredLength, chunks: seq<seq<Byte>>, limit: nat) returns (body: Option<seq<Byte>>)
    ensures body.Some? <==> DeclarationFits(declared, limit) && |Flat(chunks)| <= limit
    ensures body.Some? ==> body.value == Flat(chunks)
  {
    if declared.Unparsable? || (declared.Declared? && declared.length > limit) {
      return None;
    }
    var read: seq<Byte> := [];
    for i := 0 to |chunks|
      invariant read == Flat(chunks[..i]) && |read| <= limit
    {
      FlatNext(chunks, i);
      if |read| + |chunks[i]| > limit {
        FlatGrows(chunks, i + 1);
        return None;
      }
      read := read + chunks[i];
    }
    assert chunks[..|chunks|] == chunks;
    return Some(read);
  }

  /** Every chunk is passed on; the body is kept for replay exactly when the response is replayable. */
  method StreamBody(cfg: Settings, status: nat, chunks: seq<seq<Byte>>)
    returns (passed: seq<seq<Byte>>, replayable: bool, kept: seq<Byte>)
    ensures passed == chunks
    ensures replayable <==> status < 500 && |Flat(chunks)| <= cfg.maxResponseBytes
    ensures replayable ==> kept == Flat(chunks)
  {
    passed, kept := [], [];
    replayable := status < 500;
    for i := 0 to |chunks|
      invariant passed == chunks[..i]
      invariant replayable <==> status < 500 && |Flat(chunks[..i])| <= cfg.maxResponseBytes
      invariant replayable ==> kept == Flat(chunks[..i])
    {
      FlatNext(chunks, i);
      if replayable && |kept| + |chunks[i]| <= cfg.maxResponseBytes {
        kept := kept + chunks[i];
      } else {
        replayable := false;
      }
      passed := passed + [chunks[i]];
    }
    assert chunks[..|chunks|] == chunks;
  }
}
