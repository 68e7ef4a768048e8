/**
 * The SQL ledger as the program runs it: a host that owns the tables and executes each
 * batch atomically, and the client operations over it. Other clients act between the
 * batches of an operation; `others(n)` is what they commit at its n-th opportunity.
 */
module SqlLedger {
  import opened Common
  import opened Races
  import opened Records
  import opened Chain
  import opened SqlTables
  import opened SqlRuns
  import JsonlLedger

  datatype LedgerError = StorageError | HeadChanged | IdempotencyConflict | ImportRefused

  /** `entries` and `rows` as an accepted snapshot returns them. */
  datatype Snapshot = Snapshot(head: Head, entries: seq<Entry>, rows: seq<EntryRow>)

  const RETRIES: nat := 16

  type Schedule = nat -> seq<Action>

  ghost predicate LegalSchedule(others: Schedule) {
    forall n :: AllLegal(others(n))
  }

  lemma SmallestKey(keys: set<(StreamId, nat)>) returns (k: (StreamId, nat))
    requires keys != {}
    ensures k in keys && forall m :: m in keys ==> k.1 <= m.1
  {
    k :| k in keys;
    if keys != {k} {
      var j := SmallestKey(keys - {k});
      if j.1 < k.1 { k := j; }
      assert forall m :: m in keys ==> m == k || m in keys - {k} || k.1 <= m.1;
    }
  }

  /** Row number `i` of a snapshot is the one stored at sequence `i + 1`. */
  ghost predicate RowsNumbered(t: Tables, s: StreamId, rows: seq<EntryRow>) {
    forall i :: 0 <= i < |rows| ==> StoredRow(t, s, i + 1, rows[i])
  }

  ghost predicate StoredRow(t: Tables, s: StreamId, n: nat, row: EntryRow) {
    (s, n) in t.entries && t.entries[(s, n)] == row
  }

  /** The rows selected so far, all before those that remain. */
  ghost predicate PartlySelected(t: Tables, s: StreamId, rows: seq<EntryRow>, sequences: seq<nat>, remaining: set<(StreamId, nat)>) {
    && |rows| == |sequences|
    && (forall k :: k in remaining ==> k in t.entries && k.0 == s)
    && (forall i :: 0 <= i < |rows| ==> (s, sequences[i]) in t.entries && t.entries[(s, sequences[i])] == rows[i])
    && (forall i, j :: 0 <= i < j < |rows| ==> sequences[i] < sequences[j])
    && (forall i, k :: 0 <= i < |rows| && k in remaining ==> sequences[i] < k.1)
    && (forall n: nat :: (s, n) in t.entries ==> (s, n) in remaining || n in sequences)
  }

  lemma NothingSelected(t: Tables, s: StreamId)
    ensures PartlySelected(t, s, [], [], set k | k in t.entries && k.0 == s)
  {
  }

  lemma NextSelected(t: Tables, s: StreamId, rows: seq<EntryRow>, sequences: seq<nat>, remaining: set<(StreamId, nat)>,
                     k: (StreamId, nat))
    requires PartlySelected(t, s, rows, sequences, remaining)
    requires k in remaining && forall m :: m in remaining ==> k.1 <= m.1
    ensures k in t.entries && PartlySelected(t, s, rows + [t.entries[k]], sequences + [k.1], remaining - {k})
  {
    assert k == (s, k.1);
    forall m | m in remaining - {k}
      ensures k.1 < m.1
    {
      assert m == (s, m.1);
    }
  }

  lemma AllSelected(t: Tables, s: StreamId, rows: seq<EntryRow>, sequences: seq<nat>)
    requires PartlySelected(t, s, rows, sequences, {})
    ensures Selected(t, s, rows, sequences)
  {
  }

  lemma SelectionOfValid(t: Tables, s: StreamId, rows: seq<EntryRow>, sequences: seq<nat>)
    requires s in t.streams && StreamOk(t, s) && Selected(t, s, rows, sequences)
    ensures RowsNumbered(t, s, rows)
  {
    SelectedIsNumbered(t, s, rows, sequences);
    forall i | 0 <= i < |rows|
      ensures StoredRow(t, s, i + 1, rows[i])
    {
      assert (s, sequences[i]) in t.entries;
    }
  }

  /** What the rows of an accepted snapshot of a valid database are. */
  lemma AcceptedShows(t: Tables, s: StreamId, rows: seq<EntryRow>, sequences: seq<nat>)
    requires Valid(t) && Selected(t, s, rows, sequences) && Accepts(t, s, rows)
    ensures s in t.streams && t.streams[s] == HeadOf(Log(t, s)) && RecordsOf(rows) == Log(t, s)
    ensures RowsNumbered(t, s, rows)
  {
    hide StreamOk, Log, Selected, RowAccepted;
    StreamFacts(t, s);
    StreamHead(t, s);
    assert RowsNumbered(t, s, rows) by { SelectionOfValid(t, s, rows, sequences); }
    ReachedIsAccepted(t, s, rows, sequences);
  }

  lemma {:induction false} ImportFails(t: Tables, s: StreamId, records: seq<Entry>, n: nat, m: nat)
    requires n <= m <= |records| && ImportSteps(t, s, records, n).None?
    ensures ImportSteps(t, s, records, m).None?
    decreases m - n
  {
    if n < m {
      ImportFails(t, s, records, n + 1, m);
    }
  }

  lemma LaterValid(t: Tables, u: Tables)
    requires Later(t, u)
    ensures Valid(u)
  {
  }

  lemma LaterReflexive(t: Tables)
    requires Valid(t)
    ensures Later(t, t)
  {
  }

  /** The stored answer to `request`: its entry, its draft, and the head it asked for. */
  ghost predicate Answered(t: Tables, s: StreamId, key: OperationId, request: Request, e: Entry) {
    && (s, key) in t.receipts && t.receipts[(s, key)].requestDigest == Sha256(request)
    && Stored(t, s, key) == Some(e)
    && s in t.streams && e in Log(t, s)
    && (request.AppendRequest? ==>
          e.draft == request.draft && (request.expected.Some? ==> e.previous == request.expected.value))
  }

  /** The receipt under a key answers the request it is for. */
  lemma ReceiptAnswers(t: Tables, s: StreamId, k: OperationId)
    requires Valid(t) && (s, k) in t.receipts
    ensures s in t.streams && Stored(t, s, k).Some?
    ensures t.receipts[(s, k)].requestDigest == Sha256(t.receipts[(s, k)].request)
    ensures Answered(t, s, k, t.receipts[(s, k)].request, Stored(t, s, k).value)
  {
    hide Valid, Log;
    StoredInLog(t, s, k);
  }

  lemma RowAnswers(t: Tables, s: StreamId, n: nat)
    requires Valid(t) && s in t.streams && (s, n) in t.entries
    ensures (s, t.entries[(s, n)].key) in t.receipts
    ensures t.receipts[(s, t.entries[(s, n)].key)].requestDigest == t.entries[(s, n)].requestDigest
    ensures Stored(t, s, t.entries[(s, n)].key) == Some(t.entries[(s, n)].record)
  {
    StreamFacts(t, s);
    RowFacts(t, s, n);
  }

  lemma RowFacts(t: Tables, s: StreamId, n: nat)
    requires s in t.streams && RowsOk(t, s) && (s, n) in t.entries
    ensures var row := t.entries[(s, n)];
            && RowAccepted(t, s, row) && (s, row.key) in t.byKey && t.byKey[(s, row.key)] == n
  {
  }

  /** A key with a receipt is the key of one of the rows. */
  lemma ReceiptHasRow(t: Tables, s: StreamId, k: OperationId, rows: seq<EntryRow>)
    requires Valid(t) && s in t.streams && (s, k) in t.receipts
    requires |rows| == t.streams[s].sequence
    requires RowsNumbered(t, s, rows)
    ensures exists i :: 0 <= i < |rows| && rows[i].key == k
  {
    hide Valid, Log, RowAccepted, Stored;
    StoredInLog(t, s, k);
    LogLength(t, s);
    var n := t.receipts[(s, k)].sequence;
    assert StoredRow(t, s, n - 1 + 1, rows[n - 1]);
  }

  lemma LogLength(t: Tables, s: StreamId)
    ensures |Log(t, s)| == if s in t.streams then t.streams[s].sequence else 0
  {
  }

  /** What a client learns from the reply of its batch. */
  lemma BatchAnswer(t: Tables, p: Plan)
    requires Valid(t) && Compiled(p)
    ensures RunBatch(t, p).Some?
    ensures var u, row := RunBatch(t, p).value.0, RunBatch(t, p).value.1;
            && u == Apply(t, Commit(p)) && Later(t, u)
            && (row.None? <==> (p.stream, p.key) !in u.receipts)
            && (row.Some? ==>
                  && row.value.requestDigest == u.receipts[(p.stream, p.key)].requestDigest
                  && (row.value.requestDigest == Sha256(p.request) ==>
                        Answered(u, p.stream, p.key, p.request, row.value.record)))
  {
    hide Valid, Log, RunBatch, Answered, Stored, RowAccepted;
    CommitOk(t, p);
    BatchExact(t, p);
    var u := Apply(t, Commit(p));
    if (p.stream, p.key) in u.receipts {
      ReceiptAnswers(u, p.stream, p.key);
      TakenKeyReadsBack(u, p);
      BatchExact(u, p);
      assert u == RunBatch(t, p).value.0;
    }
  }

  /** What is known of a key that had a receipt at the start. */
  lemma ReceiptKept(t: Tables, u: Tables, s: StreamId, k: OperationId)
    requires Later(t, u)
    ensures (s, k) in t.receipts ==>
              && s in u.streams && (s, k) in u.receipts && u.receipts[(s, k)] == t.receipts[(s, k)]
              && Stored(u, s, k) == Stored(t, s, k)
    ensures (s, k) in u.receipts ==>
              && s in u.streams && Stored(u, s, k).Some?
              && u.receipts[(s, k)].requestDigest == Sha256(u.receipts[(s, k)].request)
              && Answered(u, s, k, u.receipts[(s, k)].request, Stored(u, s, k).value)
  {
    hide Valid, Log, Answered, Stored;
    if (s, k) in t.receipts {
      StoredForever(t, u, s, k);
    }
    if (s, k) in u.receipts {
      ReceiptAnswers(u, s, k);
    }
  }

  /** A batch that neither appended nor found its key lost a race: the ledger had moved on to another head. */
  lemma RaceLost(t: Tables, u: Tables, p: Plan)
    requires Later(t, u) && Compiled(p) && p.stream in t.streams && p.head == t.streams[p.stream]
    requires (p.stream, p.key) !in Apply(u, Commit(p)).receipts
    ensures Apply(u, Commit(p)) == u && t != u
    ensures p.stream in u.streams && HeadDigest(Log(u, p.stream)) != p.head.digest
  {
    hide StreamOk, Log, RunBatch, NoOrphans;
    BatchExact(u, p);
    StreamFacts(t, p.stream);
    StreamHead(t, p.stream);
    StreamFacts(u, p.stream);
    StreamHead(u, p.stream);
    assert (p.stream, p.key) in Appended(u, p).receipts;
    if !Extends(u, p) {
      UnusedKey(u, p.stream, p.key);
      if HeadDigest(Log(u, p.stream)) == HeadDigest(Log(t, p.stream)) {
        SameHeadSameLog(Log(u, p.stream), Log(t, p.stream));
      }
    }
  }

  /** The tables after others used their first `n` opportunities. */
  function JoinedBy(t: Tables, others: Schedule, n: nat): Tables {
    if n == 0 then t else Run(JoinedBy(t, others, n - 1), others(n - 1))
  }

  /** Only others changed the tables. */
  ghost predicate OnlyOthers(before: Tables, others: Schedule, after: Tables) {
    exists n :: after == JoinedBy(before, others, n)
  }

  /** One effective append of the batch `p`. */
  ghost predicate OwnAppend(before: Tables, after: Tables, p: Plan) {
    Compiled(p) && Extends(before, p) && after == Appended(before, p)
  }

  /** Others changed the tables, and then the one append of `record` for `request`. */
  ghost predicate AppendedOnce(before: Tables, others: Schedule, after: Tables, request: Request, record: Entry) {
    exists n: nat, p: Plan :: p.request == request && p.record == record && OwnAppend(JoinedBy(before, others, n), after, p)
  }

  /** What an answer or an error says about the tables. */
  ghost predicate Explains(t: Tables, s: StreamId, key: OperationId, request: Request, expected: Option<Digest>, r: Result<Entry, LedgerError>) {
    match r
    case Ok(e) => Answered(t, s, key, request, e)
    case Err(IdempotencyConflict) => (s, key) in t.receipts && t.receipts[(s, key)].requestDigest != Sha256(request)
    case Err(HeadChanged) => (s, key) !in t.receipts && expected.Some? && HeadDigest(Log(t, s)) != expected.value
    case Err(StorageError) => (s, key) !in t.receipts && (s !in t.streams || |Log(t, s)| == MAX_SEQUENCE)
    case Err(ImportRefused) => false
  }

  /** The same in terms of what was stored before. */
  lemma Explained(start: Tables, t: Tables, s: StreamId, key: OperationId, request: Request, expected: Option<Digest>, r: Result<Entry, LedgerError>)
    requires Later(start, t) && Explains(t, s, key, request, expected, r)
    ensures r.Ok? ==> Answered(t, s, key, request, r.value)
    ensures r == Err(IdempotencyConflict) ==> (s, key) in t.receipts && t.receipts[(s, key)].requestDigest != Sha256(request)
    ensures r == Err(HeadChanged) ==> (s, key) !in t.receipts && expected.Some? && HeadDigest(Log(t, s)) != expected.value
    ensures r.Err? && r.error != IdempotencyConflict && r.error != HeadChanged ==>
              r.error == StorageError && (s !in t.streams || |Log(t, s)| == MAX_SEQUENCE)
    ensures (s, key) in start.receipts ==>
              if start.receipts[(s, key)].requestDigest == Sha256(request)
              then r.Ok? && Stored(start, s, key) == Some(r.value)
              else r == Err(IdempotencyConflict)
  {
    hide Valid, Log, Stored;
    ReceiptKept(start, t, s, key);
  }

  lemma NeverKnown(start: Tables, t: Tables, s: StreamId, key: OperationId)
    requires Later(start, t) && (s, key) !in t.receipts
    ensures (s, key) !in start.receipts
  {
    hide Valid, Log;
  }

  lemma ReceiptsHaveStreams(t: Tables)
    requires Valid(t)
    ensures forall k :: k in t.receipts ==> k.0 in t.streams
  {
    hide StreamOk;
  }

  lemma BatchWrites(t: Tables, p: Plan)
    requires Valid(t) && Compiled(p)
    ensures RunBatch(t, p).Some?
    ensures if Extends(t, p) then RunBatch(t, p).value == (Appended(t, p), Some(ReadRow(Sha256(p.request), p.record)))
            else RunBatch(t, p).value.0 == t
  {
    hide Valid, RunBatch;
    BatchExact(t, p);
  }

  lemma RecordOfRow(t: Tables, s: StreamId, i: nat)
    requires s in t.streams && i < t.streams[s].sequence && (s, i + 1) in t.entries
    ensures i < |Log(t, s)| && Log(t, s)[i] == t.entries[(s, i + 1)].record
  {
  }

  lemma LogBounded(t: Tables, s: StreamId)
    requires Valid(t) && s in t.streams
    ensures |Log(t, s)| == t.streams[s].sequence <= MAX_SEQUENCE
  {
    StreamFacts(t, s);
  }

  class Host {
    var streams: map<StreamId, Head>
    var entries: map<(StreamId, nat), EntryRow>
    var byKey: map<(StreamId, OperationId), nat>
    var receipts: map<(StreamId, OperationId), ReceiptRow>

    constructor ()
      ensures Contents() == EMPTY
    {
      streams, entries, byKey, receipts := map[], map[], map[], map[];
    }

    function Contents(): Tables
      reads this
    {
      Tables(streams, entries, byKey, receipts)
    }

    method Restore(t: Tables)
      modifies this
      ensures Contents() == t
    {
      streams, entries, byKey, receipts := t.streams, t.entries, t.byKey, t.receipts;
    }

    // ----- the statements of one batch

    /** Answers whether the statement aborted. */
    method ExecuteInsertEntry(p: Plan) returns (aborted: bool)
      modifies this
      ensures aborted <==> SqlTables.InsertEntry(old(Contents()), p).None?
      ensures aborted ==> Contents() == old(Contents())
      ensures !aborted ==> SqlTables.InsertEntry(old(Contents()), p) == Some(Contents())
    {
      if !(p.stream in streams && streams[p.stream] == p.head) || (p.stream, p.key) in byKey {
        return false;
      }
      if p.record.sequence != p.head.sequence + 1 || p.record.previous != p.head.digest {
        return true;
      }
      if !(1 <= p.record.sequence <= MAX_SEQUENCE) || (p.stream, p.record.sequence) in entries {
        return true;
      }
      entries := entries[(p.stream, p.record.sequence) := NewRow(p)];
      byKey := byKey[(p.stream, p.key) := p.record.sequence];
      return false;
    }

    method ExecuteInsertReceipt(p: Plan)
      modifies this
      ensures Contents() == SqlTables.InsertReceipt(old(Contents()), p)
    {
      var row := KeyedRow(Contents(), p);
      if row.Some? && row.value.requestDigest == Sha256(p.request) && (p.stream, p.key) !in receipts {
        receipts := receipts[(p.stream, p.key) :=
          ReceiptRow(row.value.requestDigest, row.value.sequence, p.request.principal, p.request)];
      }
    }

    method ExecuteUpdateHead(p: Plan) returns (aborted: bool)
      modifies this
      ensures aborted <==> SqlTables.UpdateHead(old(Contents()), p).None?
      ensures aborted ==> Contents() == old(Contents())
      ensures !aborted ==> SqlTables.UpdateHead(old(Contents()), p) == Some(Contents())
    {
      var t := Contents();
      var row := KeyedRow(t, p);
      if row.None? || !HeadMatches(t, p) || row.value.requestDigest != Sha256(p.request)
         || row.value.sequence != p.record.sequence || row.value.digest != p.record.digest
         || !ReceiptMatches(t, p.stream, row.value) {
        return false;
      }
      if p.record.sequence != p.head.sequence + 1 || p.record.sequence > MAX_SEQUENCE
         || (p.stream, p.record.sequence) !in entries {
        return true;
      }
      var e := entries[(p.stream, p.record.sequence)];
      if e.digest != p.record.digest || e.previous != p.head.digest || !ReceiptMatches(t, p.stream, e)
         || receipts[(p.stream, e.key)].sequence != e.sequence {
        return true;
      }
      streams := streams[p.stream := Head(p.record.sequence, p.record.digest)];
      return false;
    }

    /** The four statements in order, all or nothing; `None` is an aborted, rolled back batch. */
    method Batch(p: Plan) returns (r: Option<Option<ReadRow>>)
      modifies this
      ensures match RunBatch(old(Contents()), p)
              case None => r == None && Contents() == old(Contents())
              case Some((u, row)) => r == Some(row) && Contents() == u
    {
      var saved := Contents();
      var aborted := ExecuteInsertEntry(p);
      if aborted {
        return None;
      }
      ExecuteInsertReceipt(p);
      aborted := ExecuteUpdateHead(p);
      if aborted {
        Restore(saved);
        return None;
      }
      return Some(ReadBack(Contents(), p));
    }

    // ----- snapshots

    /** SELECT ... ORDER BY e.sequence */
    method SelectRows(s: StreamId) returns (rows: seq<EntryRow>, ghost sequences: seq<nat>)
      ensures Selected(Contents(), s, rows, sequences)
    {
      hide PartlySelected;
      var remaining := set k | k in entries && k.0 == s;
      rows, sequences := [], [];
      NothingSelected(Contents(), s);
      while remaining != {}
        invariant remaining <= entries.Keys && PartlySelected(Contents(), s, rows, sequences, remaining)
        decreases |remaining|
      {
        ghost var smallest := SmallestKey(remaining);
        var k :| k in remaining && forall m :: m in remaining ==> k.1 <= m.1;
        NextSelected(Contents(), s, rows, sequences, remaining, k);
        rows := rows + [entries[k]];
        sequences := sequences + [k.1];
        remaining := remaining - {k};
      }
      AllSelected(Contents(), s, rows, sequences);
    }

    /** `verify_records` on the stored records. */
    method VerifyRecords(rows: seq<EntryRow>) returns (r: Option<seq<Entry>>)
      ensures r == if ValidChain(RecordsOf(rows)) then Some(RecordsOf(rows)) else None
    {
      var log: seq<Entry> := [];
      var previous := Genesis;
      while |log| < |rows|
        invariant |log| <= |rows| && log == RecordsOf(rows)[..|log|]
        invariant previous == HeadDigest(log)
        invariant forall i :: 0 <= i < |log| ==> Links(RecordsOf(rows), i)
      {
        var e := rows[|log|].record;
        assert RecordsOf(rows)[|log|] == e;
        if e != MakeEntry(|log| + 1, previous, e.draft) {
          assert !Links(RecordsOf(rows), |log|);
          return None;
        }
        assert Links(RecordsOf(rows), |log|);
        log := log + [e];
        previous := e.digest;
      }
      assert log == RecordsOf(rows);
      return Some(log);
    }

    /** `_snapshot_checked`: answers exactly when every stored fact of the stream agrees. */
    method TakeSnapshot(s: StreamId) returns (r: Result<Snapshot, LedgerError>, ghost sequences: seq<nat>)
      ensures r.Ok? ==> Selected(Contents(), s, r.value.rows, sequences) && Accepts(Contents(), s, r.value.rows)
      ensures r.Ok? ==> r.value.head == streams[s] && r.value.entries == RecordsOf(r.value.rows)
      ensures r.Err? ==> r.error == StorageError
      ensures r.Err? ==> exists rows :: Selected(Contents(), s, rows, sequences) && !Accepts(Contents(), s, rows)
    {
      var rows;
      rows, sequences := SelectRows(s);
      if s !in streams {
        assert !Accepts(Contents(), s, rows);
        return Err(StorageError), sequences;
      }
      var head := streams[s];
      var verified := VerifyRecords(rows);
      if verified.None? {
        assert !Accepts(Contents(), s, rows);
        return Err(StorageError), sequences;
      }
      var log := verified.value;
      var actual := if log == [] then Genesis else log[|log| - 1].digest;
      if head.sequence != |log| || head.digest != actual || |ReceiptKeys(Contents(), s)| != |log| {
        assert !Accepts(Contents(), s, rows);
        return Err(StorageError), sequences;
      }
      var i := 0;
      while i < |rows|
        invariant 0 <= i <= |rows|
        invariant forall j :: 0 <= j < i ==> RowAccepted(Contents(), s, rows[j])
      {
        if !RowAccepted(Contents(), s, rows[i]) {
          assert !Accepts(Contents(), s, rows);
          return Err(StorageError), sequences;
        }
        i := i + 1;
      }
      return Ok(Snapshot(head, log, rows)), sequences;
    }

    /** A snapshot of a reachable database fails only for a stream that was never created. */
    method SnapshotOfValid(s: StreamId) returns (r: Result<Snapshot, LedgerError>)
      requires Valid(Contents())
      ensures r.Ok? <==> s in streams
      ensures r.Err? ==> r.error == StorageError
      ensures r.Ok? ==> r.value.head == streams[s] == HeadOf(Log(Contents(), s))
      ensures r.Ok? ==> r.value.entries == Log(Contents(), s) && |r.value.rows| == |r.value.entries|
      ensures r.Ok? ==> RowsNumbered(Contents(), s, r.value.rows)
    {
      hide Valid, Log, Accepts, Selected;
      ghost var sequences;
      r, sequences := TakeSnapshot(s);
      if r.Ok? {
        AcceptedShows(Contents(), s, r.value.rows, sequences);
      } else {
        ghost var rows :| Selected(Contents(), s, rows, sequences) && !Accepts(Contents(), s, rows);
        if s in streams {
          ReachedIsAccepted(Contents(), s, rows, sequences);
        }
      }
    }

    // ----- client operations

    method CreateStream(s: StreamId)
      modifies this
      ensures Contents() == Created(old(Contents()), s)
    {
      if s !in streams {
        streams := streams[s := Head(0, Genesis)];
      }
    }

    /** Other clients get a turn. */
    method RunActions(actions: seq<Action>)
      modifies this
      ensures Contents() == Run(old(Contents()), actions)
    {
      var i := 0;
      while i < |actions|
        invariant 0 <= i <= |actions|
        invariant Contents() == Run(old(Contents()), actions[..i])
      {
        match actions[i] {
          case CreateStream(s) => CreateStream(s);
          case Commit(p) => var _ := Batch(p);
          case Import(s, records) => var _ := ImportRecords(s, records);
        }
        assert actions[..i + 1][..i] == actions[..i];
        i := i + 1;
      }
      assert actions[..i] == actions;
    }

    /** The transaction of `import_jsonl` on a validated source: all records or none. */
    method ImportRecords(s: StreamId, records: seq<Entry>) returns (r: Result<Head, LedgerError>)
      modifies this
      ensures Contents() == Imported(old(Contents()), s, records)
      ensures r.Err? ==> r.error == ImportRefused && Contents() == old(Contents())
      ensures r.Err? && Importable(records) && EmptyStream(old(Contents()), s) ==>
                ImportSteps(old(Contents()), s, records, |records|).None?
      ensures r.Ok? ==> Importable(records) && EmptyStream(old(Contents()), s) && r.value == HeadOf(records)
    {
      var saved := Contents();
      if !Importable(records) || !EmptyStream(saved, s) {
        return Err(ImportRefused);
      }
      var head := Head(0, Genesis);
      var i := 0;
      while i < |records|
        invariant 0 <= i <= |records|
        invariant head == HeadOf(records[..i])
        invariant ImportSteps(saved, s, records, i) == Some(Contents())
      {
        var entry := records[i];
        var answer := Batch(ImportPlan(s, head, entry));
        if answer.None? || answer.value.None? {
          ImportFails(saved, s, records, i + 1, |records|);
          Restore(saved);
          return Err(ImportRefused);
        }
        assert Links(records, i);
        assert records[..i + 1][i] == entry;
        head := Head(entry.sequence, entry.digest);
        i := i + 1;
      }
      assert records[..i] == records;
      return Ok(head);
    }

    /**
     * Import a JSONL source, checking all of it before anything is written: it succeeds exactly
     * on the lines of a valid ledger and an empty stream, and then the stream holds those lines.
     */
    method ImportJsonl(s: StreamId, lines: seq<JsonlLedger.Line>) returns (r: Result<Head, LedgerError>)
      requires Valid(Contents())
      modifies this
      ensures Later(old(Contents()), Contents())
      ensures r.Err? ==> Contents() == old(Contents())
      ensures r.Err? ==> !EmptyStream(old(Contents()), s)
                         || forall log :: Importable(log) ==> lines != JsonlLedger.EncodeAll(log)
      ensures r.Ok? ==> && lines == JsonlLedger.EncodeAll(Log(Contents(), s)) && r.value == HeadOf(Log(Contents(), s))
                        && EmptyStream(old(Contents()), s)
    {
      hide Valid, Log, EmptyStream, Imported;
      ghost var before := Contents();
      LaterReflexive(before);
      var records: seq<Entry> := [];
      while |records| < |lines|
        invariant |records| <= |lines| && lines[..|records|] == JsonlLedger.EncodeAll(records)
      {
        if !lines[|records|].Record? {
          JsonlLedger.NonRecordUnreadable(lines, |records|);
          return Err(StorageError);
        }
        records := records + [lines[|records|].entry];
      }
      assert lines == JsonlLedger.EncodeAll(records);
      forall log | lines == JsonlLedger.EncodeAll(log)
        ensures log == records
      {
        if log != records {
          JsonlLedger.EncodeDiffers(log, records);
        }
      }
      if !Importable(records) {
        return Err(StorageError);
      }
      ImportReproduces(before, s, records);
      r := ImportRecords(s, records);
      if EmptyStream(before, s) {
        ImportStepsOk(before, s, records, |records|);
      }
    }

    /** The entry rows as canonical record lines, in order. */
    method ExportJsonl(s: StreamId) returns (r: Result<seq<Entry>, LedgerError>)
      requires Valid(Contents())
      ensures s in streams ==> r == Ok(Log(Contents(), s))
      ensures s !in streams ==> r == Err(StorageError)
    {
      hide Valid, Log;
      var snapshot := SnapshotOfValid(s);
      if snapshot.Err? {
        return Err(snapshot.error);
      }
      return Ok(snapshot.value.entries);
    }

    method VerifyCheckpoint(s: StreamId, trusted: TrustedHead) returns (r: Result<Head, CheckpointError>)
      requires Valid(Contents())
      ensures r == if s in streams then SqlRuns.VerifyCheckpoint(s, Log(Contents(), s), trusted) else Err(NoSnapshot)
    {
      hide Valid, Log;
      var snapshot := SnapshotOfValid(s);
      if snapshot.Err? {
        return Err(NoSnapshot);
      }
      var log := snapshot.value.entries;
      if trusted.stream != s {
        return Err(OtherLedger);
      }
      if snapshot.value.head.sequence < trusted.head.sequence {
        return Err(OlderThanCheckpoint);
      }
      var actual := if trusted.head.sequence == 0 then Genesis else log[trusted.head.sequence - 1].digest;
      if actual != trusted.head.digest {
        return Err(Disagrees);
      }
      return Ok(snapshot.value.head);
    }

    /** The scan of a snapshot for an earlier receipt of this operation. */
    method FindOperation(s: StreamId, key: OperationId, snapshot: Snapshot) returns (found: Option<nat>)
      requires |snapshot.rows| == |snapshot.entries|
      ensures found.Some? ==> found.value < |snapshot.rows| && snapshot.rows[found.value].key == key
      ensures found.None? ==> forall i :: 0 <= i < |snapshot.rows| ==> snapshot.rows[i].key != key
    {
      var i := 0;
      while i < |snapshot.rows|
        invariant 0 <= i <= |snapshot.rows|
        invariant forall j :: 0 <= j < i ==> snapshot.rows[j].key != key
      {
        if snapshot.rows[i].key == key {
          return Some(i);
        }
        i := i + 1;
      }
      return None;
    }

    /**
     * The first half of a try: a snapshot, the scan for an earlier receipt and the checks of the
     * head. `None` lets the try go on to its batch.
     */
    method ReadOnce(s: StreamId, key: OperationId, request: Request, expected: Option<Digest>) returns (r: Option<Result<Entry, LedgerError>>)
      requires Valid(Contents())
      ensures r.Some? ==> Explains(Contents(), s, key, request, expected, r.value)
      ensures r.None? ==> s in streams && (s, key) !in receipts && streams[s].sequence < MAX_SEQUENCE
                          && (expected.Some? ==> streams[s].digest == expected.value)
    {
      hide Valid, Log, Answered, RowAccepted, RunBatch, Stored;
      ReceiptsHaveStreams(Contents());
      var taken := SnapshotOfValid(s);
      if taken.Err? {
        return Some(Err(StorageError));
      }
      var snapshot := taken.value;
      var found := FindOperation(s, key, snapshot);
      if found.Some? {
        assert StoredRow(Contents(), s, found.value + 1, snapshot.rows[found.value]);
        RowAnswers(Contents(), s, found.value + 1);
        if snapshot.rows[found.value].requestDigest != Sha256(request) {
          return Some(Err(IdempotencyConflict));
        }
        RecordOfRow(Contents(), s, found.value);
        ReceiptAnswers(Contents(), s, key);
        return Some(Ok(snapshot.entries[found.value]));
      }
      if (s, key) in receipts {
        ReceiptHasRow(Contents(), s, key, snapshot.rows);
      }
      if expected.Some? && snapshot.head.digest != expected.value {
        return Some(Err(HeadChanged));
      }
      if snapshot.head.sequence >= MAX_SEQUENCE {
        LogBounded(Contents(), s);
        return Some(Err(StorageError));
      }
      return None;
    }

    /**
     * The second half: the batch compiled for the head read in `seen`. It appends its own record, and
     * then answers it, or leaves the tables alone; `None` is a lost race.
     */
    method SubmitOnce(ghost seen: Tables, plan: Plan, expected: Option<Digest>) returns (r: Option<Result<Entry, LedgerError>>)
      requires Later(seen, Contents()) && Compiled(plan) && plan.stream in seen.streams && plan.head == seen.streams[plan.stream]
      requires expected.Some? ==> plan.head.digest == expected.value
      modifies this
      ensures Later(old(Contents()), Contents())
      ensures Contents() == old(Contents())
              || (r == Some(Ok(plan.record)) && Extends(old(Contents()), plan) && Contents() == Appended(old(Contents()), plan))
      ensures r.Some? ==> Explains(Contents(), plan.stream, plan.key, plan.request, expected, r.value)
      ensures r.None? ==> expected.None? && old(Contents()) != seen && (plan.stream, plan.key) !in receipts
    {
      hide Valid, Log, Answered, RowAccepted, RunBatch, Stored, Later;
      ghost var before := Contents();
      LaterValid(seen, before);
      BatchAnswer(before, plan);
      BatchWrites(before, plan);
      var answer := Batch(plan);
      if answer.value.Some? {
        if answer.value.value.requestDigest != Sha256(plan.request) {
          return Some(Err(IdempotencyConflict));
        }
        return Some(Ok(answer.value.value.record));
      }
      RaceLost(seen, before, plan);
      if expected.Some? {
        return Some(Err(HeadChanged));
      }
      return None;
    }

    /**
     * Append at most once for one operation id. On any schedule of other clients: an answer is
     * the entry stored under the key, for this very request; the conflict error means the key
     * belongs to another request; the head error means the key is still unused and the head is
     * not the expected one or, if none is expected, that others acted in each of the sixteen tries.
     * What it changes itself is at most the one append it answers.
     */
    method AppendIdempotent(s: StreamId, draft: Draft, key: OperationId, expected: Option<Digest>, principal: Id,
                            others: Schedule)
      returns (r: Result<Entry, LedgerError>)
      requires Valid(Contents()) && LegalSchedule(others)
      modifies this
      ensures Later(old(Contents()), Contents())
      ensures r.Err? ==> OnlyOthers(old(Contents()), others, Contents())
      ensures r.Ok? ==> OnlyOthers(old(Contents()), others, Contents())
                        || AppendedOnce(old(Contents()), others, Contents(), AppendRequest(s, key, principal, expected, draft), r.value)
      ensures r.Ok? ==> Answered(Contents(), s, key, AppendRequest(s, key, principal, expected, draft), r.value)
      ensures r == Err(IdempotencyConflict) ==>
                (s, key) in receipts && receipts[(s, key)].requestDigest != Sha256(AppendRequest(s, key, principal, expected, draft))
      ensures r == Err(HeadChanged) ==>
                && (s, key) !in receipts
                && if expected.Some? then HeadDigest(Log(Contents(), s)) != expected.value else LostRaces(others, RETRIES)
      ensures (s, key) in old(receipts) ==>
                if old(receipts[(s, key)]).requestDigest == Sha256(AppendRequest(s, key, principal, expected, draft))
                then r.Ok? && Stored(old(Contents()), s, key) == Some(r.value)
                else r == Err(IdempotencyConflict)
      ensures r.Err? && r.error != IdempotencyConflict && r.error != HeadChanged ==>
                r.error == StorageError && (s !in streams || |Log(Contents(), s)| == MAX_SEQUENCE)
    {
      hide Valid, Log, Answered, RowAccepted, RunBatch, Stored, Run, Apply, Later, LostRaces, Explains;
      var request := AppendRequest(s, key, principal, expected, draft);
      ghost var start := Contents();
      LaterReflexive(start);
      NoRaceYet(others);
      var attempt := 0;
      while attempt < RETRIES
        invariant 0 <= attempt <= RETRIES
        invariant Later(start, Contents()) && Contents() == JoinedBy(start, others, 2 * attempt)
        invariant attempt > 0 ==> (s, key) !in receipts
        invariant expected.Some? ==> attempt == 0
        invariant LostRaces(others, attempt)
      {
        Interfere(start, others, 2 * attempt);
        LaterValid(start, Contents());
        assert Contents() == JoinedBy(start, others, 2 * attempt + 1);
        var known := ReadOnce(s, key, request, expected);
        if known.Some? {
          Explained(start, Contents(), s, key, request, expected, known.value);
          return known.value;
        }
        ghost var seen := Contents();
        var head := streams[s];
        var record := MakeEntry(head.sequence + 1, head.digest, draft);
        var plan := AppendPlan(s, head, record, key, request).value;
        LaterReflexive(seen);
        Interfere(seen, others, 2 * attempt + 1);
        assert Contents() == JoinedBy(start, others, 2 * attempt + 2);
        ghost var before := Contents();
        LaterTransitive(start, seen, before);
        var answer := SubmitOnce(seen, plan, expected);
        LaterTransitive(start, before, Contents());
        if answer.Some? {
          Explained(start, Contents(), s, key, request, expected, answer.value);
          assert Contents() != before ==> OwnAppend(JoinedBy(start, others, 2 * attempt + 2), Contents(), plan);
          return answer.value;
        }
        LostAnother(others, attempt);
        attempt := attempt + 1;
      }
      NeverKnown(start, Contents(), s, key);
      return Err(HeadChanged);
    }

    method Interfere(ghost start: Tables, others: Schedule, n: nat)
      requires Later(start, Contents()) && LegalSchedule(others)
      modifies this
      ensures Later(start, Contents())
      ensures Contents() == Run(old(Contents()), others(n))
      ensures others(n) == [] ==> Contents() == old(Contents())
    {
      hide Valid, Log;
      ghost var before := Contents();
      RunOk(before, others(n));
      RunActions(others(n));
      LaterTransitive(start, before, Contents());
    }
  }
}
