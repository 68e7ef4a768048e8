/**
 * The two backends under the services: clients that read a snapshot of a stored ledger, decide, and
 * compare-and-append through the backend. Whatever they interleave, the stored ledger is that of
 * a serial run, as in `Serial`.
 */
module Backends {
  import opened Common
  import opened Records
  import opened Chain
  import opened Decisions
  import Serial
  import SqlTables
  import SqlRuns
  import JsonlLedger
  import Services
  import Leases

  /**
   * A store as the clients see it. `append(state, snapshot, draft, n)` is the n-th compare-and-append
   * made on it, by a client that decided `draft` on `snapshot`; on a `full` ledger it is refused.
   */
  datatype Backend<!S> = Backend(read: S -> seq<Entry>, append: (S, seq<Entry>, Draft, nat) -> S, full: seq<Entry> -> bool)

  datatype World<S, Op, E> = World(state: S, pending: map<nat, Serial.Pending<Op>>, history: seq<Serial.Done<Op, E>>)

  function Step<S, Op, E>(b: Backend<S>, decide: (Op, seq<Entry>) -> Decision<E>, w: World<S, Op, E>, e: Serial.Event<Op>, n: nat)
    : World<S, Op, E>
  {
    match e
    case Read(c, op) =>
      var log := b.read(w.state);
      var d := decide(op, log);
      if d.Write? then w.(pending := w.pending[c := Serial.Pending(op, log, d.draft)])
      else w.(pending := w.pending - {c}, history := w.history + [Serial.Done(op, d)])
    case Append(c) =>
      if c !in w.pending then w
      else
        var p := w.pending[c];
        var next := b.append(w.state, p.snapshot, p.draft, n);
        if b.read(next) == b.read(w.state) then World(next, w.pending - {c}, w.history)
        else World(next, w.pending - {c}, w.history + [Serial.Done(p.op, Write(p.draft))])
    case GiveUp(c) => w.(pending := w.pending - {c})
  }

  function Execute<S, Op, E>(b: Backend<S>, decide: (Op, seq<Entry>) -> Decision<E>, start: S, events: seq<Serial.Event<Op>>)
    : World<S, Op, E>
  {
    if events == [] then World(start, map[], [])
    else
      var n := |events| - 1;
      Step(b, decide, Execute(b, decide, start, events[..n]), events[n], n)
  }

  /** An append adds the draft's entry exactly if the head is still the snapshot's and there is room. */
  ghost predicate AppendsOnHead<S>(b: Backend<S>, state: S, snapshot: seq<Entry>, draft: Draft, n: nat) {
    var log := b.read(state);
    b.read(b.append(state, snapshot, draft, n))
    == if HeadDigest(log) == HeadDigest(snapshot) && !b.full(snapshot) then log + [NextEntry(log, draft)] else log
  }

  /** `good(state, n)` is what the backend keeps from append to append. */
  ghost predicate Keeps<S(!new)>(b: Backend<S>, good: (S, nat) -> bool) {
    && (forall state, n: nat :: good(state, n) ==> ValidChain(b.read(state)) && good(state, n + 1))
    && (forall state, n: nat, snapshot, draft :: good(state, n) && ValidChain(snapshot) ==> KeepsOne(b, good, state, snapshot, draft, n))
  }

  ghost predicate KeepsOne<S>(b: Backend<S>, good: (S, nat) -> bool, state: S, snapshot: seq<Entry>, draft: Draft, n: nat) {
    good(b.append(state, snapshot, draft, n), n + 1) && AppendsOnHead(b, state, snapshot, draft, n)
  }

  ghost predicate Mirrors<S, Op, E>(b: Backend<S>, w: World<S, Op, E>, v: Serial.World<Op, E>) {
    v.log == b.read(w.state) && v.pending == w.pending && v.history == w.history
  }

  /** One step of the clients on the backend is one step of `Serial`, or a client there gives up. */
  lemma StepMirrors<S(!new), Op, E>(b: Backend<S>, good: (S, nat) -> bool, decide: (Op, seq<Entry>) -> Decision<E>, start: seq<Entry>,
                              w: World<S, Op, E>, v: Serial.World<Op, E>, e: Serial.Event<Op>, n: nat) returns (f: Serial.Event<Op>)
    requires Keeps(b, good) && good(w.state, n) && Mirrors(b, w, v) && Serial.Consistent(decide, start, v)
    ensures good(Step(b, decide, w, e, n).state, n + 1)
    ensures Mirrors(b, Step(b, decide, w, e, n), Serial.Step(decide, v, f))
  {
    hide ValidChain, Serial.SerialRun, Serial.DecidedSerially;
    f := e;
    if e.Append? && e.client in w.pending {
      var p := w.pending[e.client];
      var next := b.append(w.state, p.snapshot, p.draft, n);
      assert KeepsOne(b, good, w.state, p.snapshot, p.draft, n);
      if b.read(next) == b.read(w.state) {
        f := Serial.GiveUp(e.client);
      }
    }
  }

  lemma {:induction false} ExecuteMirrors<S(!new), Op, E>(b: Backend<S>, good: (S, nat) -> bool, decide: (Op, seq<Entry>) -> Decision<E>,
                                                    start: S, events: seq<Serial.Event<Op>>) returns (serial: seq<Serial.Event<Op>>)
    requires Keeps(b, good) && good(start, 0)
    ensures good(Execute(b, decide, start, events).state, |events|)
    ensures Mirrors(b, Execute(b, decide, start, events), Serial.Execute(decide, b.read(start), serial))
  {
    hide ValidChain;
    if events == [] {
      serial := [];
    } else {
      var n := |events| - 1;
      var before := ExecuteMirrors(b, good, decide, start, events[..n]);
      Serial.ExecuteConsistent(decide, b.read(start), before);
      var w, v := Execute(b, decide, start, events[..n]), Serial.Execute(decide, b.read(start), before);
      var f := StepMirrors(b, good, decide, b.read(start), w, v, events[n], n);
      serial := before + [f];
      assert serial[..|serial| - 1] == before;
    }
  }

  /** The stored ledger is the one the completed operations produce one at a time, each decided as alone. */
  lemma BackendIsSerial<S(!new), Op, E>(b: Backend<S>, good: (S, nat) -> bool, decide: (Op, seq<Entry>) -> Decision<E>,
                                  start: S, events: seq<Serial.Event<Op>>)
    requires Keeps(b, good) && good(start, 0)
    ensures var w := Execute(b, decide, start, events);
            && b.read(w.state) == Serial.SerialRun(decide, b.read(start), w.history)
            && Serial.DecidedSerially(decide, b.read(start), w.history)
            && ValidChain(b.read(w.state))
  {
    hide ValidChain, Serial.SerialRun, Serial.DecidedSerially;
    var serial := ExecuteMirrors(b, good, decide, start, events);
    Serial.InterleavingsAreSerial(decide, b.read(start), serial);
  }

  // ----- the SQL ledger

  /** The batch of the n-th `append_if_head`, under an operation key of its own. */
  function SqlPlan(s: SqlTables.StreamId, key: nat -> SqlTables.OperationId, snapshot: seq<Entry>, draft: Draft, n: nat): SqlTables.Plan {
    SqlTables.Plan(s, HeadOf(snapshot), NextEntry(snapshot, draft), key(n),
                   SqlTables.AppendRequest(s, key(n), "local", Some(HeadDigest(snapshot)), draft))
  }

  function IsFull(log: seq<Entry>): bool {
    |log| >= SqlTables.MAX_SEQUENCE
  }

  function SqlBackend(s: SqlTables.StreamId, key: nat -> SqlTables.OperationId): Backend<SqlTables.Tables> {
    Backend(t => SqlTables.Log(t, s),
            (t, snapshot, draft, n) => if IsFull(snapshot) then t else SqlRuns.Apply(t, SqlRuns.Commit(SqlPlan(s, key, snapshot, draft, n))),
            IsFull)
  }

  /** Every operation key is used once: a random identifier for each append. */
  ghost predicate KeysDiffer(key: nat -> SqlTables.OperationId) {
    forall m: nat, n: nat :: key(m) == key(n) ==> m == n
  }

  predicate Unused(t: SqlTables.Tables, s: SqlTables.StreamId, key: nat -> SqlTables.OperationId, n: nat) {
    (s, key(n)) !in t.receipts
  }

  ghost predicate SqlGood(s: SqlTables.StreamId, key: nat -> SqlTables.OperationId, t: SqlTables.Tables, n: nat) {
    SqlTables.Valid(t) && s in t.streams && forall m: nat :: n <= m ==> Unused(t, s, key, m)
  }

  ghost function SqlInvariant(s: SqlTables.StreamId, key: nat -> SqlTables.OperationId): (SqlTables.Tables, nat) -> bool {
    (t: SqlTables.Tables, n: nat) => SqlGood(s, key, t, n)
  }

  lemma SqlValidChain(t: SqlTables.Tables, s: SqlTables.StreamId)
    requires SqlTables.Valid(t) && s in t.streams
    ensures ValidChain(SqlTables.Log(t, s))
  {
    hide SqlTables.StreamOk, SqlTables.Log;
    SqlTables.StreamFacts(t, s);
    SqlTables.StreamHead(t, s);
  }

  lemma SqlAppends(s: SqlTables.StreamId, key: nat -> SqlTables.OperationId, t: SqlTables.Tables, snapshot: seq<Entry>, draft: Draft, n: nat)
    requires KeysDiffer(key) && SqlGood(s, key, t, n) && ValidChain(snapshot) && !IsFull(snapshot)
    ensures var next := SqlRuns.Apply(t, SqlRuns.Commit(SqlPlan(s, key, snapshot, draft, n)));
            && SqlGood(s, key, next, n + 1)
            && SqlTables.Log(next, s) == (if HeadDigest(SqlTables.Log(t, s)) == HeadDigest(snapshot)
                                          then SqlTables.Log(t, s) + [NextEntry(SqlTables.Log(t, s), draft)] else SqlTables.Log(t, s))
  {
    hide SqlTables.Valid, SqlTables.Log, SqlTables.RunBatch, ValidChain;
    var p := SqlPlan(s, key, snapshot, draft, n);
    SqlRuns.HeadOfIsReal(snapshot);
    assert Unused(t, s, key, n);
    SqlRuns.AppendIfHeadIsCas(t, p);
    SqlRuns.CommitOk(t, p);
    SqlTables.BatchExact(t, p);
    var next := SqlRuns.Apply(t, SqlRuns.Commit(p));
    SqlRuns.LaterStreams(t, next, s);
    forall m: nat | n + 1 <= m
      ensures Unused(next, s, key, m)
    {
      assert Unused(t, s, key, m);
      assert key(m) != key(n);
    }
  }

  lemma SqlKeeps(s: SqlTables.StreamId, key: nat -> SqlTables.OperationId)
    requires KeysDiffer(key)
    ensures Keeps(SqlBackend(s, key), SqlInvariant(s, key))
  {
    hide SqlTables.Valid, SqlTables.Log, ValidChain, SqlRuns.Apply;
    var b, good := SqlBackend(s, key), SqlInvariant(s, key);
    forall t, n: nat | good(t, n)
      ensures ValidChain(b.read(t)) && good(t, n + 1)
    {
      SqlValidChain(t, s);
    }
    forall t, n: nat, snapshot, draft | good(t, n) && ValidChain(snapshot)
      ensures KeepsOne(b, good, t, snapshot, draft, n)
    {
      if !IsFull(snapshot) {
        SqlAppends(s, key, t, snapshot, draft, n);
      }
    }
  }

  /** Clients of all services over one empty stream of a reachable database leave the ledger of a run. */
  lemma SqlServicesRun(glob: Leases.Glob, s: SqlTables.StreamId, key: nat -> SqlTables.OperationId, t: SqlTables.Tables,
                       events: seq<Serial.Event<Services.Op>>)
    requires KeysDiffer(key) && SqlGood(s, key, t, 0) && SqlTables.Log(t, s) == []
    ensures var w := Execute(SqlBackend(s, key), Services.Decider(glob), t, events);
            SqlTables.Log(w.state, s) == Services.Run(glob, Services.OpsOf(w.history))
  {
    hide SqlTables.Log, Services.Run, Services.Decider, SqlGood, Execute, Serial.SerialRun, ValidChain;
    SqlKeeps(s, key);
    BackendIsSerial(SqlBackend(s, key), SqlInvariant(s, key), Services.Decider(glob), t, events);
    Services.SerialIsRun(glob, Execute(SqlBackend(s, key), Services.Decider(glob), t, events).history);
  }

  // ----- the JSONL ledger

  function FileBackend(): Backend<seq<JsonlLedger.Line>> {
    Backend(lines => JsonlLedger.Decoded(lines),
            (lines, snapshot, draft, n) => JsonlLedger.AppendedIfHead(lines, draft, HeadDigest(snapshot)),
            snapshot => false)
  }

  /** The file holds a valid ledger. */
  ghost predicate FileGood(lines: seq<JsonlLedger.Line>) {
    ValidChain(JsonlLedger.Decoded(lines)) && lines == JsonlLedger.EncodeAll(JsonlLedger.Decoded(lines))
  }

  ghost function FileInvariant(): (seq<JsonlLedger.Line>, nat) -> bool {
    (lines: seq<JsonlLedger.Line>, n: nat) => FileGood(lines)
  }

  lemma FileKeeps()
    ensures Keeps(FileBackend(), FileInvariant())
  {
    hide ValidChain, JsonlLedger.Decoded, JsonlLedger.EncodeAll;
    var b, good := FileBackend(), FileInvariant();
    forall lines, n: nat, snapshot, draft | good(lines, n) && ValidChain(snapshot)
      ensures KeepsOne(b, good, lines, snapshot, draft, n)
    {
      var log := JsonlLedger.Decoded(lines);
      AppendValid(log, draft);
      JsonlLedger.DecodedEncoded(log + [NextEntry(log, draft)]);
    }
  }

  /** The same over an empty file. */
  lemma FileServicesRun(glob: Leases.Glob, events: seq<Serial.Event<Services.Op>>)
    ensures var w := Execute(FileBackend(), Services.Decider(glob), [], events);
            w.state == JsonlLedger.EncodeAll(Services.Run(glob, Services.OpsOf(w.history)))
  {
    hide JsonlLedger.Decoded, JsonlLedger.EncodeAll, Services.Run, Services.Decider, Execute, Serial.SerialRun, ValidChain;
    FileKeeps();
    assert FileGood([]) && JsonlLedger.Decoded([]) == [] by { EmptyFile(); }
    BackendIsSerial(FileBackend(), FileInvariant(), Services.Decider(glob), [], events);
    var serial := ExecuteMirrors(FileBackend(), FileInvariant(), Services.Decider(glob), [], events);
    Services.SerialIsRun(glob, Execute(FileBackend(), Services.Decider(glob), [], events).history);
  }

  lemma EmptyFile()
    ensures FileGood([]) && JsonlLedger.Decoded([]) == []
  {
  }
}
