/**
 * The SQLite-family tables and the statements of one append batch (adapters/sql_ledger.py,
 * adapters/sql/001_ledger.sql), as functions on table contents. `None` is the ABORT of a
 * trigger, a CHECK or a unique key, after which the host rolls the batch back. An operation
 * key is a hash of an operation id in the source and that id itself here; a request digest
 * is the request it covers.
 */
module SqlTables {
  import opened Common
  import opened Records
  import opened Chain

  const MAX_SEQUENCE: nat := 9007199254740991

  datatype StreamId = StreamId(workspace: Id, ledger: Id)

  /** Importing numbers its operations; nothing stops a client from choosing such an id too. */
  datatype OperationId = ClientId(text: string) | ImportId(sequence: nat, digest: Digest)

  datatype Request =
    | AppendRequest(stream: StreamId, key: OperationId, principal: Id, expected: Option<Digest>, draft: Draft)
    | ImportRequest(stream: StreamId, key: OperationId, principal: Id, recordDigest: Digest)

  datatype RequestDigest = Sha256(request: Request)

  datatype EntryRow = EntryRow(sequence: nat, previous: Digest, digest: Digest, kind: Kind, entity: Entity, recordedAt: Time,
                               record: Entry, key: OperationId, requestDigest: RequestDigest)

  datatype ReceiptRow = ReceiptRow(requestDigest: RequestDigest, sequence: nat, principal: Id, request: Request)

  /** `byKey` is the index of UNIQUE(workspace_id, ledger_id, operation_key). */
  datatype Tables = Tables(streams: map<StreamId, Head>,
                           entries: map<(StreamId, nat), EntryRow>,
                           byKey: map<(StreamId, OperationId), nat>,
                           receipts: map<(StreamId, OperationId), ReceiptRow>)

  const EMPTY := Tables(map[], map[], map[], map[])

  /** The parameters bound into the four statements. */
  datatype Plan = Plan(stream: StreamId, head: Head, record: Entry, key: OperationId, request: Request)

  datatype ReadRow = ReadRow(requestDigest: RequestDigest, record: Entry)

  /** `append_plan`; `None` stands for its ValueError. */
  function AppendPlan(s: StreamId, head: Head, record: Entry, key: OperationId, request: Request): Option<Plan> {
    if !(1 <= record.sequence <= MAX_SEQUENCE) then None
    else if record.digest != Of(record.sequence, record.previous, record.draft) then None
    else if record.sequence != head.sequence + 1 || record.previous != head.digest then None
    else Some(Plan(s, head, record, key, request))
  }

  function NewRow(p: Plan): EntryRow {
    EntryRow(p.record.sequence, p.record.previous, p.record.digest, p.record.draft.kind, p.record.draft.entity,
             p.record.draft.recordedAt, p.record, p.key, Sha256(p.request))
  }

  predicate HeadMatches(t: Tables, p: Plan) {
    p.stream in t.streams && t.streams[p.stream] == p.head
  }

  /** Statement 1 with its BEFORE INSERT trigger, CHECK and keys. */
  function InsertEntry(t: Tables, p: Plan): Option<Tables> {
    if !HeadMatches(t, p) || (p.stream, p.key) in t.byKey then Some(t)
    else if p.record.sequence != p.head.sequence + 1 || p.record.previous != p.head.digest then None
    else if !(1 <= p.record.sequence <= MAX_SEQUENCE) then None
    else if (p.stream, p.record.sequence) in t.entries then None
    else Some(t.(entries := t.entries[(p.stream, p.record.sequence) := NewRow(p)],
                 byKey := t.byKey[(p.stream, p.key) := p.record.sequence]))
  }

  /** The entry row with the plan's operation key, if any. */
  function KeyedRow(t: Tables, p: Plan): Option<EntryRow> {
    if (p.stream, p.key) in t.byKey && (p.stream, t.byKey[(p.stream, p.key)]) in t.entries
    then Some(t.entries[(p.stream, t.byKey[(p.stream, p.key)])])
    else None
  }

  /** Statement 2. */
  function InsertReceipt(t: Tables, p: Plan): Tables {
    match KeyedRow(t, p)
    case None => t
    case Some(row) =>
      if row.requestDigest != Sha256(p.request) || (p.stream, p.key) in t.receipts then t
      else t.(receipts := t.receipts[(p.stream, p.key) :=
                ReceiptRow(row.requestDigest, row.sequence, p.request.principal, p.request)])
  }

  predicate ReceiptMatches(t: Tables, s: StreamId, row: EntryRow) {
    (s, row.key) in t.receipts && t.receipts[(s, row.key)].requestDigest == row.requestDigest
  }

  /** Statement 3 with its BEFORE UPDATE trigger. */
  function UpdateHead(t: Tables, p: Plan): Option<Tables> {
    match KeyedRow(t, p)
    case None => Some(t)
    case Some(row) =>
      if !(HeadMatches(t, p) && row.requestDigest == Sha256(p.request) && row.sequence == p.record.sequence
           && row.digest == p.record.digest && ReceiptMatches(t, p.stream, row)) then Some(t)
      else if p.record.sequence != p.head.sequence + 1 || p.record.sequence > MAX_SEQUENCE
              || (p.stream, p.record.sequence) !in t.entries then None
      else
        var e := t.entries[(p.stream, p.record.sequence)];
        if e.digest == p.record.digest && e.previous == p.head.digest && ReceiptMatches(t, p.stream, e)
           && t.receipts[(p.stream, e.key)].sequence == e.sequence
        then Some(t.(streams := t.streams[p.stream := Head(p.record.sequence, p.record.digest)]))
        else None
  }

  /** Statement 4. */
  function ReadBack(t: Tables, p: Plan): Option<ReadRow> {
    if (p.stream, p.key) !in t.receipts then None
    else
      var r := t.receipts[(p.stream, p.key)];
      if (p.stream, r.sequence) in t.entries
      then Some(ReadRow(r.requestDigest, t.entries[(p.stream, r.sequence)].record))
      else None
  }

  /** The whole batch; `None` when a statement aborts and everything is rolled back. */
  function RunBatch(t: Tables, p: Plan): Option<(Tables, Option<ReadRow>)> {
    match InsertEntry(t, p)
    case None => None
    case Some(t1) =>
      var t2 := InsertReceipt(t1, p);
      match UpdateHead(t2, p)
      case None => None
      case Some(t3) => Some((t3, ReadBack(t3, p)))
  }

  // ----- what a snapshot checks

  function RecordsOf(rows: seq<EntryRow>): (log: seq<Entry>)
    ensures |log| == |rows|
  {
    seq(|rows|, i requires 0 <= i < |rows| => rows[i].record)
  }

  /** The checks of `_snapshot_checked` on one joined row. */
  predicate RowAccepted(t: Tables, s: StreamId, row: EntryRow) {
    && row.sequence == row.record.sequence && row.previous == row.record.previous && row.digest == row.record.digest
    && row.kind == row.record.draft.kind && row.entity == row.record.draft.entity
    && row.recordedAt == row.record.draft.recordedAt
    && (s, row.key) in t.receipts
    && var r := t.receipts[(s, row.key)];
       && row.requestDigest == Sha256(r.request)
       && r.requestDigest == row.requestDigest && r.sequence == row.record.sequence
       && r.request.stream == s && r.request.key == row.key && r.request.principal == r.principal
       && Binds(r.request, row.record)
  }

  /** An append receipt repeats the draft and the head it expected, an import receipt the digest. */
  predicate Binds(request: Request, record: Entry) {
    match request
    case AppendRequest(_, _, _, expected, draft) => draft == record.draft && (expected.Some? ==> expected.value == record.previous)
    case ImportRequest(_, _, _, digest) => digest == record.digest
  }

  function ReceiptKeys(t: Tables, s: StreamId): set<(StreamId, OperationId)> {
    set k | k in t.receipts && k.0 == s
  }

  /** `rows` are the entry rows of the stream, ORDER BY sequence. */
  ghost predicate Selected(t: Tables, s: StreamId, rows: seq<EntryRow>, sequences: seq<nat>) {
    && |rows| == |sequences|
    && (forall i :: 0 <= i < |rows| ==> (s, sequences[i]) in t.entries && t.entries[(s, sequences[i])] == rows[i])
    && (forall i, j :: 0 <= i < j < |rows| ==> sequences[i] < sequences[j])
    && (forall n: nat :: (s, n) in t.entries ==> n in sequences)
  }

  /** What `_snapshot_checked` requires of the selected rows. */
  ghost predicate Accepts(t: Tables, s: StreamId, rows: seq<EntryRow>) {
    && s in t.streams
    && ValidChain(RecordsOf(rows))
    && t.streams[s] == HeadOf(RecordsOf(rows))
    && |ReceiptKeys(t, s)| == |rows|
    && forall i :: 0 <= i < |rows| ==> RowAccepted(t, s, rows[i])
  }

  // ----- the invariant

  const NO_ENTRY := Entry(0, Genesis, Genesis, Draft(OtherKind(""), Named(""), OpaquePayload(""), 0))

  function RecordAt(t: Tables, s: StreamId, n: nat): Entry {
    if (s, n) in t.entries then t.entries[(s, n)].record else NO_ENTRY
  }

  /** The records numbered 1..head of a stream. */
  function Log(t: Tables, s: StreamId): seq<Entry> {
    seq(if s in t.streams then t.streams[s].sequence else 0, i requires 0 <= i => RecordAt(t, s, i + 1))
  }

  ghost predicate Numbered(t: Tables, s: StreamId)
    requires s in t.streams
  {
    forall i: nat :: (s, i) in t.entries <==> 1 <= i <= t.streams[s].sequence
  }

  ghost predicate RowsOk(t: Tables, s: StreamId)
    requires s in t.streams
  {
    forall i: nat :: (s, i) in t.entries ==>
      var row := t.entries[(s, i)];
      && row.sequence == i && RowAccepted(t, s, row)
      && (s, row.key) in t.byKey && t.byKey[(s, row.key)] == i
  }

  ghost predicate KeysOk(t: Tables, s: StreamId) {
    && (forall k :: (s, k) in t.byKey ==> (s, t.byKey[(s, k)]) in t.entries && t.entries[(s, t.byKey[(s, k)])].key == k)
    && (forall k :: (s, k) in t.byKey <==> (s, k) in t.receipts)
  }

  ghost predicate ChainOk(t: Tables, s: StreamId)
    requires s in t.streams
  {
    && t.streams[s].sequence <= MAX_SEQUENCE
    && Numbered(t, s)
    && ValidChain(Log(t, s))
    && t.streams[s].digest == HeadDigest(Log(t, s))
  }

  ghost predicate StreamOk(t: Tables, s: StreamId)
    requires s in t.streams
  {
    && ChainOk(t, s) && RowsOk(t, s) && KeysOk(t, s)
    && |ReceiptKeys(t, s)| == t.streams[s].sequence
  }

  /** Foreign keys: nothing is stored for a stream that does not exist. */
  ghost predicate NoOrphans(t: Tables) {
    && (forall k :: k in t.entries ==> k.0 in t.streams)
    && (forall k :: k in t.byKey ==> k.0 in t.streams)
    && (forall k :: k in t.receipts ==> k.0 in t.streams)
  }

  ghost predicate Valid(t: Tables) {
    NoOrphans(t) && forall s :: s in t.streams ==> StreamOk(t, s)
  }

  /** A plan the client code compiles: from any head at all, however stale. */
  predicate Compiled(p: Plan) {
    && 1 <= p.record.sequence <= MAX_SEQUENCE
    && p.record == MakeEntry(p.head.sequence + 1, p.head.digest, p.record.draft)
    && p.request.stream == p.stream && p.request.key == p.key
    && Binds(p.request, p.record)
  }

  /** The one case in which a batch changes the tables. */
  predicate Extends(t: Tables, p: Plan) {
    HeadMatches(t, p) && (p.stream, p.key) !in t.byKey
  }

  function Appended(t: Tables, p: Plan): Tables {
    Tables(t.streams[p.stream := Head(p.record.sequence, p.record.digest)],
           t.entries[(p.stream, p.record.sequence) := NewRow(p)],
           t.byKey[(p.stream, p.key) := p.record.sequence],
           t.receipts[(p.stream, p.key) :=
             ReceiptRow(Sha256(p.request), p.record.sequence, p.request.principal, p.request)])
  }

  lemma BatchAppends(t: Tables, p: Plan)
    requires Compiled(p) && Extends(t, p)
    requires (p.stream, p.record.sequence) !in t.entries && (p.stream, p.key) !in t.receipts
    ensures RunBatch(t, p) == Some((Appended(t, p), Some(ReadRow(Sha256(p.request), p.record))))
  {
  }

  lemma BatchChangesNothing(t: Tables, p: Plan)
    requires Compiled(p) && !Extends(t, p)
    requires (p.stream, p.key) in t.byKey ==>
               && (p.stream, p.key) in t.receipts
               && KeyedRow(t, p).Some?
               && p.stream in t.streams && KeyedRow(t, p).value.sequence <= t.streams[p.stream].sequence
    ensures RunBatch(t, p) == Some((t, ReadBack(t, p)))
  {
  }

  /**
   * On valid tables a compiled batch never aborts: it either appends its record, receipt and
   * head together or changes nothing, and reads back the receipt now stored under its key.
   */
  lemma BatchExact(t: Tables, p: Plan)
    requires Valid(t) && Compiled(p)
    ensures Extends(t, p) ==> RunBatch(t, p) == Some((Appended(t, p), Some(ReadRow(Sha256(p.request), p.record))))
    ensures !Extends(t, p) ==> RunBatch(t, p) == Some((t, ReadBack(t, p)))
  {
    if Extends(t, p) {
      StreamFacts(t, p.stream);
      FreshFacts(t, p.stream, p.record.sequence, p.key);
      BatchAppends(t, p);
    } else {
      if (p.stream, p.key) in t.byKey {
        assert (p.stream, p.key).0 in t.streams;
        StreamFacts(t, p.stream);
        KeyedFacts(t, p.stream, p.key);
      }
      BatchChangesNothing(t, p);
    }
  }

  lemma StreamFacts(t: Tables, s: StreamId)
    requires Valid(t) && s in t.streams
    ensures StreamOk(t, s)
  {
  }

  /** The stream row is the head of the chain its entries form. */
  lemma StreamHead(t: Tables, s: StreamId)
    requires s in t.streams && StreamOk(t, s)
    ensures ValidChain(Log(t, s)) && t.streams[s] == HeadOf(Log(t, s)) && |Log(t, s)| <= MAX_SEQUENCE
  {
  }

  lemma FreshFacts(t: Tables, s: StreamId, n: nat, k: OperationId)
    requires s in t.streams && Numbered(t, s) && KeysOk(t, s)
    requires n == t.streams[s].sequence + 1 && (s, k) !in t.byKey
    ensures (s, n) !in t.entries && (s, k) !in t.receipts
  {
  }

  /** An operation key leads to one entry and to its receipt. */
  lemma KeyedFacts(t: Tables, s: StreamId, k: OperationId)
    requires s in t.streams && Numbered(t, s) && RowsOk(t, s) && KeysOk(t, s)
    requires (s, k) in t.byKey
    ensures (s, k) in t.receipts
    ensures var i := t.byKey[(s, k)];
            && 1 <= i <= t.streams[s].sequence
            && (s, i) in t.entries && t.entries[(s, i)].sequence == i && t.entries[(s, i)].key == k
            && RowAccepted(t, s, t.entries[(s, i)])
  {
    var i := t.byKey[(s, k)];
    assert (s, i) in t.entries;
  }

  lemma AppendedLog(t: Tables, p: Plan)
    requires Compiled(p) && HeadMatches(t, p)
    requires Numbered(t, p.stream) && t.streams[p.stream].digest == HeadDigest(Log(t, p.stream))
    ensures Numbered(Appended(t, p), p.stream)
    ensures Log(Appended(t, p), p.stream) == Log(t, p.stream) + [p.record]
    ensures p.record == NextEntry(Log(t, p.stream), p.record.draft)
  {
    var u, s := Appended(t, p), p.stream;
    var n := t.streams[s].sequence;
    forall i: nat
      ensures (s, i) in u.entries <==> 1 <= i <= n + 1
    {
      assert (s, i) in t.entries <==> 1 <= i <= n;
    }
    forall i | 0 <= i < n
      ensures Log(u, s)[i] == Log(t, s)[i]
    {
      assert (s, i + 1) in t.entries;
    }
  }

  lemma AppendedRows(t: Tables, p: Plan)
    requires Compiled(p) && Extends(t, p)
    requires Numbered(t, p.stream) && RowsOk(t, p.stream)
    requires (p.stream, p.key) !in t.receipts
    ensures RowsOk(Appended(t, p), p.stream)
  {
    var u, s := Appended(t, p), p.stream;
    forall i: nat | (s, i) in u.entries
      ensures var row := u.entries[(s, i)];
              && row.sequence == i && RowAccepted(u, s, row)
              && (s, row.key) in u.byKey && u.byKey[(s, row.key)] == i
    {
      if i != p.record.sequence {
        assert (s, i) in t.entries;
        assert RowAccepted(t, s, t.entries[(s, i)]);
      }
    }
  }

  lemma AppendedKeys(t: Tables, p: Plan)
    requires Compiled(p) && Extends(t, p)
    requires Numbered(t, p.stream) && KeysOk(t, p.stream)
    ensures KeysOk(Appended(t, p), p.stream)
  {
    var u, s := Appended(t, p), p.stream;
    forall k | (s, k) in u.byKey
      ensures (s, u.byKey[(s, k)]) in u.entries && u.entries[(s, u.byKey[(s, k)])].key == k
    {
      if k != p.key {
        assert (s, k) in t.byKey && (s, t.byKey[(s, k)]) in t.entries;
      }
    }
  }

  lemma AppendedChain(t: Tables, p: Plan)
    requires Compiled(p) && HeadMatches(t, p) && ChainOk(t, p.stream)
    ensures ChainOk(Appended(t, p), p.stream)
  {
    AppendedLog(t, p);
    AppendValid(Log(t, p.stream), p.record.draft);
  }

  lemma AppendedCount(t: Tables, p: Plan)
    requires (p.stream, p.key) !in t.receipts
    ensures |ReceiptKeys(Appended(t, p), p.stream)| == |ReceiptKeys(t, p.stream)| + 1
  {
    assert ReceiptKeys(Appended(t, p), p.stream) == ReceiptKeys(t, p.stream) + {(p.stream, p.key)};
  }

  lemma AppendedStream(t: Tables, p: Plan)
    requires Compiled(p) && Extends(t, p) && StreamOk(t, p.stream)
    ensures StreamOk(Appended(t, p), p.stream)
    ensures Log(Appended(t, p), p.stream) == Log(t, p.stream) + [p.record]
    ensures p.record == NextEntry(Log(t, p.stream), p.record.draft)
    ensures (p.stream, p.key) !in t.receipts
  {
    AppendedLog(t, p);
    FreshFacts(t, p.stream, p.record.sequence, p.key);
    assert ChainOk(Appended(t, p), p.stream) by { AppendedChain(t, p); }
    assert RowsOk(Appended(t, p), p.stream) by { AppendedRows(t, p); }
    assert KeysOk(Appended(t, p), p.stream) by { AppendedKeys(t, p); }
    AppendedCount(t, p);
  }

  lemma OtherChain(t: Tables, p: Plan, s: StreamId)
    requires s != p.stream && s in t.streams && ChainOk(t, s)
    ensures ChainOk(Appended(t, p), s) && Log(Appended(t, p), s) == Log(t, s)
  {
    var u := Appended(t, p);
    forall i: nat
      ensures (s, i) in u.entries <==> (s, i) in t.entries
      ensures (s, i) in u.entries ==> u.entries[(s, i)] == t.entries[(s, i)]
    {
    }
    assert Log(u, s) == Log(t, s);
  }

  lemma OtherStream(t: Tables, p: Plan, s: StreamId)
    requires s != p.stream && s in t.streams && StreamOk(t, s)
    ensures StreamOk(Appended(t, p), s) && Log(Appended(t, p), s) == Log(t, s)
  {
    assert ReceiptKeys(Appended(t, p), s) == ReceiptKeys(t, s);
    OtherChain(t, p, s);
    assert RowsOk(Appended(t, p), s) by { OtherRows(t, p, s); }
  }

  lemma OtherRows(t: Tables, p: Plan, s: StreamId)
    requires s != p.stream && s in t.streams && RowsOk(t, s)
    ensures RowsOk(Appended(t, p), s)
  {
    var u := Appended(t, p);
    forall i: nat | (s, i) in u.entries
      ensures RowAccepted(u, s, u.entries[(s, i)])
    {
      assert (s, i) in t.entries;
      assert RowAccepted(t, s, t.entries[(s, i)]);
    }
  }

  lemma AppendedValid(t: Tables, p: Plan)
    requires Valid(t) && Compiled(p) && Extends(t, p)
    ensures Valid(Appended(t, p))
  {
    forall s | s in Appended(t, p).streams
      ensures StreamOk(Appended(t, p), s)
    {
      StreamFacts(t, s);
      if s == p.stream { AppendedStream(t, p); } else { OtherStream(t, p, s); }
    }
  }

  lemma {:induction false} SelectionFits(t: Tables, s: StreamId, rows: seq<EntryRow>, sequences: seq<nat>, k: nat)
    requires s in t.streams && Numbered(t, s) && Selected(t, s, rows, sequences)
    requires k <= |rows|
    ensures k <= t.streams[s].sequence
    ensures k > 0 ==> k <= sequences[k - 1] <= t.streams[s].sequence
  {
    if k > 0 {
      SelectionFits(t, s, rows, sequences, k - 1);
      assert (s, sequences[k - 1]) in t.entries;
    }
  }

  lemma {:induction false} SequencesCount(t: Tables, s: StreamId, rows: seq<EntryRow>, sequences: seq<nat>, k: nat)
    requires s in t.streams && Numbered(t, s) && Selected(t, s, rows, sequences)
    requires k <= |rows|
    ensures forall i :: 0 <= i < k ==> sequences[i] == i + 1
  {
    if k > 0 {
      SequencesCount(t, s, rows, sequences, k - 1);
      SelectionFits(t, s, rows, sequences, k);
      assert (s, k) in t.entries;
      var j :| 0 <= j < |sequences| && sequences[j] == k;
    }
  }

  /** In a valid stream the selection is the rows numbered 1..head, whatever the engine does. */
  lemma SelectedIsNumbered(t: Tables, s: StreamId, rows: seq<EntryRow>, sequences: seq<nat>)
    requires s in t.streams && Numbered(t, s) && Selected(t, s, rows, sequences)
    ensures |rows| == t.streams[s].sequence
    ensures forall i :: 0 <= i < |rows| ==> sequences[i] == i + 1
    ensures RecordsOf(rows) == Log(t, s)
  {
    var n := t.streams[s].sequence;
    SequencesCount(t, s, rows, sequences, |rows|);
    SelectionFits(t, s, rows, sequences, |rows|);
    if n > 0 {
      assert (s, n) in t.entries;
      var j :| 0 <= j < |sequences| && sequences[j] == n;
      assert n == j + 1;
    }
    forall i | 0 <= i < n
      ensures RecordsOf(rows)[i] == Log(t, s)[i]
    {
      assert rows[i] == t.entries[(s, sequences[i])];
    }
  }

  /** Every snapshot of a valid stream is accepted and shows exactly its log. */
  lemma ValidIsAccepted(t: Tables, s: StreamId, rows: seq<EntryRow>, sequences: seq<nat>)
    requires Valid(t) && s in t.streams && Selected(t, s, rows, sequences)
    ensures Accepts(t, s, rows) && RecordsOf(rows) == Log(t, s)
  {
    StreamFacts(t, s);
    SelectedIsNumbered(t, s, rows, sequences);
    forall i | 0 <= i < |rows|
      ensures RowAccepted(t, s, rows[i])
    {
      assert (s, sequences[i]) in t.entries;
    }
  }
}
