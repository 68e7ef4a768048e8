/**
 * Runs of the SQL ledger: any interleaving of stream creation, import and append batches.
 * A lost reply changes nothing here, because a batch is an action whether or not its client
 * learns the outcome; a retry is another action with the same request.
 */
module SqlRuns {
  import opened Common
  import opened Records
  import opened Chain
  import opened SqlTables

  datatype Action =
    | CreateStream(stream: StreamId)
    | Commit(plan: Plan)
    | Import(stream: StreamId, records: seq<Entry>)

  function Created(t: Tables, s: StreamId): Tables {
    if s in t.streams then t else t.(streams := t.streams[s := Head(0, Genesis)])
  }

  /** The plan `import_locked` compiles for one source record. */
  function ImportPlan(s: StreamId, head: Head, e: Entry): Plan {
    var key := ImportId(e.sequence, e.digest);
    Plan(s, head, e, key, ImportRequest(s, key, "import", e.digest))
  }

  /** The tables after the first `n` records, unless some append was not accepted. */
  function ImportSteps(t: Tables, s: StreamId, records: seq<Entry>, n: nat): Option<Tables>
    requires n <= |records|
  {
    if n == 0 then Some(t)
    else
      match ImportSteps(t, s, records, n - 1)
      case None => None
      case Some(u) =>
        match RunBatch(u, ImportPlan(s, HeadOf(records[..n - 1]), records[n - 1]))
        case Some((v, Some(_))) => Some(v)
        case _ => None
  }

  predicate Importable(records: seq<Entry>) {
    ValidChain(records) && |records| <= MAX_SEQUENCE
  }

  /** The emptiness check of `import_locked`. */
  predicate EmptyStream(t: Tables, s: StreamId) {
    && s in t.streams && t.streams[s] == Head(0, Genesis)
    && (forall k :: k in t.entries ==> k.0 != s)
    && ReceiptKeys(t, s) == {}
  }

  /** All or nothing: a refused import leaves the tables alone. */
  function Imported(t: Tables, s: StreamId, records: seq<Entry>): Tables {
    if !Importable(records) || !EmptyStream(t, s) then t
    else
      match ImportSteps(t, s, records, |records|)
      case None => t
      case Some(u) => u
  }

  function Apply(t: Tables, a: Action): Tables {
    match a
    case CreateStream(s) => Created(t, s)
    case Commit(p) =>
      (match RunBatch(t, p)
       case None => t
       case Some((u, _)) => u)
    case Import(s, records) => Imported(t, s, records)
  }

  predicate Legal(a: Action) {
    a.Commit? ==> Compiled(a.plan)
  }

  predicate AllLegal(actions: seq<Action>) {
    forall i :: 0 <= i < |actions| ==> Legal(actions[i])
  }

  function Run(t: Tables, actions: seq<Action>): Tables {
    if actions == [] then t else Apply(Run(t, actions[..|actions| - 1]), actions[|actions| - 1])
  }

  // ----- what later states keep

  /** Ledgers only grow, and a receipt once written stays as it is. */
  ghost predicate Later(t: Tables, u: Tables) {
    && Valid(t) && Valid(u)
    && (forall s :: s in t.streams ==> s in u.streams && Log(t, s) <= Log(u, s))
    && (forall k :: k in t.receipts ==> k in u.receipts && u.receipts[k] == t.receipts[k])
  }

  lemma LaterStreams(t: Tables, u: Tables, s: StreamId)
    requires Later(t, u)
    ensures Valid(u) && (s in t.streams ==> s in u.streams)
  {
  }

  lemma LaterTransitive(t: Tables, u: Tables, v: Tables)
    requires Later(t, u) && Later(u, v)
    ensures Later(t, v)
  {
    hide Valid, Log;
    forall s | s in t.streams
      ensures s in v.streams && Log(t, s) <= Log(v, s)
    {
      assert Log(t, s) <= Log(u, s) && Log(u, s) <= Log(v, s);
    }
  }

  lemma CreatedOther(t: Tables, s: StreamId, r: StreamId)
    requires r in t.streams && StreamOk(t, r)
    ensures StreamOk(Created(t, s), r) && Log(t, r) == Log(Created(t, s), r)
  {
    hide RowAccepted, ValidChain;
    assert ReceiptKeys(Created(t, s), r) == ReceiptKeys(t, r);
    assert Log(t, r) == Log(Created(t, s), r);
    assert RowsOk(Created(t, s), r) by { CreatedRows(t, s, r); }
  }

  lemma CreatedRows(t: Tables, s: StreamId, r: StreamId)
    requires r in t.streams && RowsOk(t, r)
    ensures RowsOk(Created(t, s), r)
  {
    forall i: nat | (r, i) in t.entries
      ensures RowAccepted(Created(t, s), r, t.entries[(r, i)])
    {
      assert RowAccepted(t, r, t.entries[(r, i)]);
    }
  }

  lemma CreatedNew(t: Tables, s: StreamId)
    requires NoOrphans(t) && s !in t.streams
    ensures StreamOk(Created(t, s), s)
  {
    var u := Created(t, s);
    forall i: nat
      ensures (s, i) !in u.entries
    {
      assert (s, i) in t.entries ==> (s, i).0 in t.streams;
    }
    forall k
      ensures (s, k) !in u.byKey && (s, k) !in u.receipts
    {
      assert (s, k) in t.byKey ==> (s, k).0 in t.streams;
      assert (s, k) in t.receipts ==> (s, k).0 in t.streams;
    }
    assert ReceiptKeys(u, s) == {};
  }

  lemma CreatedOk(t: Tables, s: StreamId)
    requires Valid(t)
    ensures Later(t, Created(t, s))
  {
    hide StreamOk, Log;
    var u := Created(t, s);
    forall r | r in u.streams
      ensures StreamOk(u, r)
      ensures r in t.streams ==> Log(t, r) == Log(u, r)
    {
      if r in t.streams {
        StreamFacts(t, r);
        CreatedOther(t, s, r);
      } else {
        CreatedNew(t, s);
      }
    }
  }

  /** A batch that appends adds its record to its own ledger and leaves the others alone. */
  lemma AppendedLater(t: Tables, p: Plan)
    requires Valid(t) && Compiled(p) && Extends(t, p)
    ensures Later(t, Appended(t, p))
    ensures Log(Appended(t, p), p.stream) == Log(t, p.stream) + [p.record]
    ensures p.record == NextEntry(Log(t, p.stream), p.record.draft)
    ensures forall s :: s in t.streams && s != p.stream ==> Log(Appended(t, p), s) == Log(t, s)
  {
    hide StreamOk, Log;
    AppendedValid(t, p);
    StreamFacts(t, p.stream);
    AppendedStream(t, p);
    forall s | s in t.streams && s != p.stream
      ensures Log(Appended(t, p), s) == Log(t, s)
    {
      StreamFacts(t, s);
      OtherStream(t, p, s);
    }
  }

  lemma CommitOk(t: Tables, p: Plan)
    requires Valid(t) && Compiled(p)
    ensures Later(t, Apply(t, Commit(p)))
  {
    hide StreamOk, Log, RunBatch;
    BatchExact(t, p);
    if Extends(t, p) {
      AppendedLater(t, p);
    }
  }

  /** The operation keys the first `n` imported records use. */
  ghost predicate OnlyImportKeys(u: Tables, s: StreamId, records: seq<Entry>, n: nat)
    requires n <= |records|
  {
    forall k :: (s, k) in u.byKey ==> exists j :: 0 <= j < n && k == ImportId(records[j].sequence, records[j].digest)
  }

  /** After `n` imported records the stream holds exactly those records. */
  ghost predicate ImportedSoFar(t: Tables, s: StreamId, records: seq<Entry>, n: nat, u: Tables)
    requires n <= |records|
  {
    && Later(t, u)
    && s in u.streams && Log(u, s) == records[..n]
    && (forall r :: r in t.streams && r != s ==> Log(u, r) == Log(t, r))
    && OnlyImportKeys(u, s, records, n)
  }

  lemma ImportPlanCompiled(s: StreamId, records: seq<Entry>, n: nat)
    requires n < |records| && Importable(records)
    ensures Compiled(ImportPlan(s, HeadOf(records[..n]), records[n]))
  {
    assert Links(records, n);
  }

  lemma ImportKeyUnused(u: Tables, s: StreamId, records: seq<Entry>, n: nat)
    requires n < |records| && Importable(records) && OnlyImportKeys(u, s, records, n)
    ensures (s, ImportPlan(s, HeadOf(records[..n]), records[n]).key) !in u.byKey
  {
    assert Links(records, n);
    forall j | 0 <= j < n
      ensures records[j].sequence != records[n].sequence
    {
      assert Links(records, j);
    }
  }

  lemma ImportKeysGrow(u: Tables, s: StreamId, records: seq<Entry>, n: nat)
    requires n < |records| && OnlyImportKeys(u, s, records, n)
    ensures OnlyImportKeys(Appended(u, ImportPlan(s, HeadOf(records[..n]), records[n])), s, records, n + 1)
  {
    var p := ImportPlan(s, HeadOf(records[..n]), records[n]);
    forall k | (s, k) in Appended(u, p).byKey
      ensures exists j :: 0 <= j < n + 1 && k == ImportId(records[j].sequence, records[j].digest)
    {
      if k == p.key {
        assert k == ImportId(records[n].sequence, records[n].digest);
      } else {
        assert (s, k) in u.byKey;
      }
    }
  }

  lemma ImportOne(t: Tables, s: StreamId, records: seq<Entry>, n: nat, u: Tables)
    requires s in t.streams && n < |records| && Importable(records)
    requires ImportedSoFar(t, s, records, n, u)
    ensures var p := ImportPlan(s, HeadOf(records[..n]), records[n]);
            Extends(u, p) && ImportedSoFar(t, s, records, n + 1, Appended(u, p))
  {
    hide StreamOk, Log;
    var p := ImportPlan(s, HeadOf(records[..n]), records[n]);
    ImportPlanCompiled(s, records, n);
    StreamFacts(u, s);
    StreamHead(u, s);
    ImportKeyUnused(u, s, records, n);
    ImportKeysGrow(u, s, records, n);
    AppendedLater(u, p);
    LaterTransitive(t, u, Appended(u, p));
    assert records[..n + 1] == records[..n] + [records[n]];
  }

  lemma ImportNone(t: Tables, s: StreamId, records: seq<Entry>)
    requires Valid(t) && EmptyStream(t, s)
    ensures ImportedSoFar(t, s, records, 0, t)
  {
    hide StreamOk, Log;
    StreamFacts(t, s);
    EmptyFacts(t, s, records);
  }

  lemma EmptyFacts(t: Tables, s: StreamId, records: seq<Entry>)
    requires EmptyStream(t, s) && StreamOk(t, s)
    ensures Log(t, s) == [] && OnlyImportKeys(t, s, records, 0)
  {
    forall k
      ensures (s, k) !in t.byKey
    {
      assert (s, k) in t.receipts ==> (s, k) in ReceiptKeys(t, s);
    }
  }

  lemma {:induction false} ImportStepsOk(t: Tables, s: StreamId, records: seq<Entry>, n: nat)
    requires Valid(t) && EmptyStream(t, s) && Importable(records) && n <= |records|
    ensures ImportSteps(t, s, records, n).Some?
    ensures ImportedSoFar(t, s, records, n, ImportSteps(t, s, records, n).value)
  {
    hide Valid, Log, RunBatch;
    if n == 0 {
      ImportNone(t, s, records);
    } else {
      ImportStepsOk(t, s, records, n - 1);
      var u := ImportSteps(t, s, records, n - 1).value;
      ImportOne(t, s, records, n - 1, u);
      ImportPlanCompiled(s, records, n - 1);
      BatchExact(u, ImportPlan(s, HeadOf(records[..n - 1]), records[n - 1]));
    }
  }

  /** Import reproduces every source entry with its digest, or changes nothing. */
  lemma ImportReproduces(t: Tables, s: StreamId, records: seq<Entry>)
    requires Valid(t)
    ensures Later(t, Imported(t, s, records))
    ensures Importable(records) && EmptyStream(t, s) ==>
              && s in Imported(t, s, records).streams && Log(Imported(t, s, records), s) == records
              && (forall r :: r in t.streams && r != s ==> Log(Imported(t, s, records), r) == Log(t, r))
    ensures !(Importable(records) && EmptyStream(t, s)) ==> Imported(t, s, records) == t
  {
    hide StreamOk, Log, RunBatch;
    if Importable(records) && EmptyStream(t, s) {
      ImportStepsOk(t, s, records, |records|);
      assert records[..|records|] == records;
    }
  }

  lemma ApplyOk(t: Tables, a: Action)
    requires Valid(t) && Legal(a)
    ensures Later(t, Apply(t, a))
  {
    hide StreamOk, Log, RunBatch, Imported;
    match a
    case CreateStream(s) => CreatedOk(t, s);
    case Commit(p) => CommitOk(t, p);
    case Import(s, records) => ImportReproduces(t, s, records);
  }

  lemma {:induction false} RunOk(t: Tables, actions: seq<Action>)
    requires Valid(t) && AllLegal(actions)
    ensures Later(t, Run(t, actions))
  {
    hide Valid, Log, Apply;
    if actions != [] {
      var n := |actions| - 1;
      RunOk(t, actions[..n]);
      ApplyOk(Run(t, actions[..n]), actions[n]);
      LaterTransitive(t, Run(t, actions[..n]), Run(t, actions));
    }
  }

  lemma EmptyValid()
    ensures Valid(EMPTY)
  {
  }

  /**
   * Whatever the clients did, every stream of a reachable database is a gap-free chain whose
   * head names its last entry, with one matching receipt an entry, and its snapshot is accepted.
   */
  lemma ReachableIsAccepted(actions: seq<Action>, s: StreamId, rows: seq<EntryRow>, sequences: seq<nat>)
    requires AllLegal(actions)
    requires s in Run(EMPTY, actions).streams && Selected(Run(EMPTY, actions), s, rows, sequences)
    ensures Valid(Run(EMPTY, actions))
    ensures Accepts(Run(EMPTY, actions), s, rows)
    ensures RecordsOf(rows) == Log(Run(EMPTY, actions), s) && ValidChain(RecordsOf(rows))
  {
    hide Valid, Log, Accepts, Selected, Apply;
    EmptyValid();
    RunOk(EMPTY, actions);
    ReachedIsAccepted(Run(EMPTY, actions), s, rows, sequences);
  }

  lemma ReachedIsAccepted(t: Tables, s: StreamId, rows: seq<EntryRow>, sequences: seq<nat>)
    requires Valid(t) && s in t.streams && Selected(t, s, rows, sequences)
    ensures Accepts(t, s, rows) && RecordsOf(rows) == Log(t, s) && ValidChain(RecordsOf(rows))
  {
    hide StreamOk, Log, Selected, RowAccepted;
    ValidIsAccepted(t, s, rows, sequences);
  }

  // ----- exactly once

  /** The entry an operation key leads to. */
  ghost function Stored(t: Tables, s: StreamId, k: OperationId): Option<Entry> {
    if (s, k) in t.byKey && (s, t.byKey[(s, k)]) in t.entries then Some(t.entries[(s, t.byKey[(s, k)])].record) else None
  }

  /** No two entries share an operation key. */
  lemma OneEntryPerKey(t: Tables, s: StreamId, i: nat, j: nat)
    requires Valid(t) && s in t.streams
    requires (s, i) in t.entries && (s, j) in t.entries && t.entries[(s, i)].key == t.entries[(s, j)].key
    ensures i == j
  {
    StreamFacts(t, s);
  }

  lemma ReceiptLeadsToEntry(t: Tables, s: StreamId, k: OperationId)
    requires s in t.streams && StreamOk(t, s) && (s, k) in t.receipts
    ensures var n := t.receipts[(s, k)].sequence;
            && (s, k) in t.byKey && t.byKey[(s, k)] == n
            && 1 <= n <= |Log(t, s)|
            && Stored(t, s, k) == Some(Log(t, s)[n - 1])
            && (s, n) in t.entries && t.entries[(s, n)].record == Log(t, s)[n - 1] && t.entries[(s, n)].sequence == n
            && RowAccepted(t, s, t.entries[(s, n)]) && t.entries[(s, n)].key == k
  {
    KeyedFacts(t, s, k);
  }

  lemma StoredInLog(t: Tables, s: StreamId, k: OperationId)
    requires Valid(t) && (s, k) in t.receipts
    ensures s in t.streams
    ensures var n := t.receipts[(s, k)].sequence;
            && (s, k) in t.byKey && t.byKey[(s, k)] == n
            && 1 <= n <= |Log(t, s)|
            && Stored(t, s, k) == Some(Log(t, s)[n - 1])
            && (s, n) in t.entries && t.entries[(s, n)].record == Log(t, s)[n - 1] && t.entries[(s, n)].sequence == n
            && RowAccepted(t, s, t.entries[(s, n)]) && t.entries[(s, n)].key == k
  {
    hide StreamOk, Log, RowAccepted;
    assert (s, k).0 in t.streams;
    StreamFacts(t, s);
    ReceiptLeadsToEntry(t, s, k);
  }

  /** An operation's entry never changes once it is there. */
  lemma StoredForever(t: Tables, u: Tables, s: StreamId, k: OperationId)
    requires Later(t, u) && (s, k) in t.receipts
    ensures (s, k) in u.receipts && Stored(u, s, k) == Stored(t, s, k) && Stored(t, s, k).Some?
  {
    hide Valid, Log, RowAccepted, Stored;
    StoredInLog(t, s, k);
    StoredInLog(u, s, k);
    assert Log(t, s) <= Log(u, s);
  }

  /** A batch whose key is taken changes nothing and reads back the entry stored under it. */
  lemma TakenKeyReadsBack(u: Tables, q: Plan)
    requires Valid(u) && Compiled(q) && (q.stream, q.key) in u.receipts
    ensures Stored(u, q.stream, q.key).Some?
    ensures RunBatch(u, q) ==
            Some((u, Some(ReadRow(u.receipts[(q.stream, q.key)].requestDigest, Stored(u, q.stream, q.key).value))))
  {
    hide Valid, Log, RowAccepted, RunBatch;
    StoredInLog(u, q.stream, q.key);
    BatchExact(u, q);
  }

  /**
   * Appends are exactly-once. Once `p` was committed in `t`, with or without its reply
   * arriving, every later batch under the same key leaves the tables alone; it reads back
   * that very entry, and a different request reads back a digest that is not its own.
   */
  lemma ExactlyOnce(t: Tables, p: Plan, later: seq<Action>, q: Plan)
    requires Valid(t) && Compiled(p) && Extends(t, p)
    requires AllLegal(later) && Compiled(q) && q.stream == p.stream && q.key == p.key
    ensures var u := Run(Appended(t, p), later);
            && RunBatch(u, q) == Some((u, Some(ReadRow(Sha256(p.request), p.record))))
            && Stored(u, p.stream, p.key) == Some(p.record)
  {
    hide Valid, Log, RunBatch, Apply;
    var v := Appended(t, p);
    AppendedLater(t, p);
    RunOk(v, later);
    StoredForever(v, Run(v, later), p.stream, p.key);
    TakenKeyReadsBack(Run(v, later), q);
  }

  /** A stored entry is truthful about its request: the request's draft, at the head it asked for. */
  lemma StoredMatchesRequest(t: Tables, s: StreamId, k: OperationId)
    requires Valid(t) && (s, k) in t.receipts && t.receipts[(s, k)].request.AppendRequest?
    ensures Stored(t, s, k).Some?
    ensures var request, e := t.receipts[(s, k)].request, Stored(t, s, k).value;
            && request.stream == s && request.key == k && e.draft == request.draft
            && (request.expected.Some? ==> e.previous == request.expected.value)
            && t.receipts[(s, k)].requestDigest == Sha256(request)
  {
    hide Valid, Log;
    StoredInLog(t, s, k);
  }

  /** A head some valid ledger has: its digest tells its length. */
  predicate HeadIsReal(h: Head) {
    h.sequence == match h.digest { case Genesis => 0 case Of(n, _, _) => n }
  }

  lemma HeadOfIsReal(log: seq<Entry>)
    requires ValidChain(log)
    ensures HeadIsReal(HeadOf(log))
  {
    if log != [] {
      assert Links(log, |log| - 1);
    }
  }

  /**
   * The batch compiled for `append_if_head` is a compare-and-swap on the ledger: under an
   * unused key it appends the draft exactly when the head digest is the expected one.
   */
  lemma AppendIfHeadIsCas(t: Tables, p: Plan)
    requires Valid(t) && Compiled(p) && HeadIsReal(p.head)
    requires p.stream in t.streams && (p.stream, p.key) !in t.receipts
    ensures var log, u := Log(t, p.stream), Apply(t, Commit(p));
            && (HeadDigest(log) == p.head.digest ==> Log(u, p.stream) == log + [NextEntry(log, p.record.draft)])
            && (HeadDigest(log) != p.head.digest ==> u == t)
  {
    hide StreamOk, Log, RunBatch;
    StreamFacts(t, p.stream);
    StreamHead(t, p.stream);
    HeadOfIsReal(Log(t, p.stream));
    BatchExact(t, p);
    if Extends(t, p) {
      AppendedLater(t, p);
    } else {
      UnusedKey(t, p.stream, p.key);
    }
  }

  lemma UnusedKey(t: Tables, s: StreamId, k: OperationId)
    requires s in t.streams && StreamOk(t, s) && (s, k) !in t.receipts
    ensures (s, k) !in t.byKey
  {
  }

  // ----- checkpoints

  datatype CheckpointError = NoSnapshot | OtherLedger | OlderThanCheckpoint | Disagrees

  datatype TrustedHead = TrustedHead(stream: StreamId, head: Head)

  /** `verify_checkpoint` on the entries of an accepted snapshot. */
  function VerifyCheckpoint(s: StreamId, log: seq<Entry>, trusted: TrustedHead): Result<Head, CheckpointError> {
    if trusted.stream != s then Err(OtherLedger)
    else if |log| < trusted.head.sequence then Err(OlderThanCheckpoint)
    else
      var actual := if trusted.head.sequence == 0 then Genesis else log[trusted.head.sequence - 1].digest;
      if actual != trusted.head.digest then Err(Disagrees) else Ok(HeadOf(log))
  }

  /** Whenever a checkpoint passes, the entries it names are the ones its digest covers. */
  lemma CheckpointCovers(s: StreamId, log: seq<Entry>, trusted: TrustedHead)
    requires ValidChain(log) && VerifyCheckpoint(s, log, trusted).Ok?
    ensures trusted.head.sequence <= |log|
    ensures log[..trusted.head.sequence] == Covered(trusted.head.digest)
  {
    PrefixCovered(log, trusted.head.sequence);
  }

  /** A head taken from a reachable state passes in every later state. */
  lemma HeadStaysTrusted(t: Tables, later: seq<Action>, s: StreamId)
    requires Valid(t) && s in t.streams && AllLegal(later)
    ensures s in Run(t, later).streams
    ensures var log := Log(Run(t, later), s);
            ValidChain(log) && VerifyCheckpoint(s, log, TrustedHead(s, t.streams[s])) == Ok(HeadOf(log))
  {
    hide StreamOk, Log, Apply;
    RunOk(t, later);
    StreamFacts(t, s);
    StreamHead(t, s);
    StreamFacts(Run(t, later), s);
    StreamHead(Run(t, later), s);
    assert Log(t, s) <= Log(Run(t, later), s);
  }
}
