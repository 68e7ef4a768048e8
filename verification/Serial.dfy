/** The answer of a service to one snapshot of the ledger. */
module Decisions {
  import opened Records

  /** `Write` is the draft to append if the head has not moved; the errors are the source's. */
  datatype Decision<+E> = Refuse(error: E) | Existing | Write(draft: Draft)

  datatype Refusal =
    | Malformed | AlreadyExists | NotFound | NotOwner | OutOfRange | ScopeConflict | NotActive | NotExpired
    | HeadMoved | Inconsistent | NothingNew | BadTransition | SelfRelation | MissingTask | WouldCycle
    | DifferentReason | NotProven
}

/**
 * Optimistic concurrency over one ledger: every service reads a snapshot, decides from it,
 * and appends only if the head digest is still the snapshot's. `decide` is any such service;
 * the clients interleave freely, lose races, retry and give up.
 */
module Serial {
  import opened Common
  import opened Records
  import opened Chain
  import opened Decisions

  /** The draft a client decided to append, and the snapshot it decided on. */
  datatype Pending<Op> = Pending(op: Op, snapshot: seq<Entry>, draft: Draft)

  /** An operation that took effect, and the decision it took effect with. */
  datatype Done<Op, E> = Done(op: Op, decision: Decision<E>)

  datatype World<Op, E> = World(log: seq<Entry>, pending: map<nat, Pending<Op>>, history: seq<Done<Op, E>>)

  datatype Event<Op> =
    | Read(client: nat, op: Op)   // snapshot and decide, possibly as a retry
    | Append(client: nat)         // record_if_head
    | GiveUp(client: nat)         // crash, or the bounded retries are used up

  /** `append_if_head`: both backends compare the stored head digest with the expected one. */
  function AppendIfHead(log: seq<Entry>, draft: Draft, expected: Digest): Option<seq<Entry>> {
    if HeadDigest(log) == expected then Some(log + [NextEntry(log, draft)]) else None
  }

  function Step<Op, E>(decide: (Op, seq<Entry>) -> Decision<E>, w: World<Op, E>, e: Event<Op>): World<Op, E> {
    match e
    case Read(c, op) =>
      var d := decide(op, w.log);
      if d.Write? then w.(pending := w.pending[c := Pending(op, w.log, d.draft)])
      else w.(pending := w.pending - {c}, history := w.history + [Done(op, d)])
    case Append(c) =>
      if c !in w.pending then w
      else
        var p := w.pending[c];
        (match AppendIfHead(w.log, p.draft, HeadDigest(p.snapshot))
         case None => w.(pending := w.pending - {c})
         case Some(log) => World(log, w.pending - {c}, w.history + [Done(p.op, Write(p.draft))]))
    case GiveUp(c) => w.(pending := w.pending - {c})
  }

  function Execute<Op, E>(decide: (Op, seq<Entry>) -> Decision<E>, start: seq<Entry>, events: seq<Event<Op>>): World<Op, E> {
    if events == [] then World(start, map[], [])
    else Step(decide, Execute(decide, start, events[..|events| - 1]), events[|events| - 1])
  }

  /** One operation at a time, each decided on the ledger it is applied to. */
  function ApplyAlone<Op, E>(decide: (Op, seq<Entry>) -> Decision<E>, log: seq<Entry>, op: Op): seq<Entry> {
    match decide(op, log)
    case Write(draft) => log + [NextEntry(log, draft)]
    case _ => log
  }

  function SerialRun<Op, E>(decide: (Op, seq<Entry>) -> Decision<E>, start: seq<Entry>, history: seq<Done<Op, E>>): seq<Entry> {
    if history == [] then start
    else ApplyAlone(decide, SerialRun(decide, start, history[..|history| - 1]), history[|history| - 1].op)
  }

  /** Every operation decided exactly as it would have, run alone at its place in the history. */
  ghost predicate DecidedSerially<Op, E>(decide: (Op, seq<Entry>) -> Decision<E>, start: seq<Entry>, history: seq<Done<Op, E>>) {
    forall i :: 0 <= i < |history| ==>
      history[i].decision == decide(history[i].op, SerialRun(decide, start, history[..i]))
  }

  ghost predicate Consistent<Op, E>(decide: (Op, seq<Entry>) -> Decision<E>, start: seq<Entry>, w: World<Op, E>) {
    && ValidChain(w.log)
    && w.log == SerialRun(decide, start, w.history)
    && DecidedSerially(decide, start, w.history)
    && (forall c :: c in w.pending ==>
          ValidChain(w.pending[c].snapshot)
          && decide(w.pending[c].op, w.pending[c].snapshot) == Write(w.pending[c].draft))
  }

  lemma HistoryGrows<Op, E>(decide: (Op, seq<Entry>) -> Decision<E>, start: seq<Entry>, history: seq<Done<Op, E>>, d: Done<Op, E>)
    requires DecidedSerially(decide, start, history)
    requires d.decision == decide(d.op, SerialRun(decide, start, history))
    ensures DecidedSerially(decide, start, history + [d])
    ensures SerialRun(decide, start, history + [d]) == ApplyAlone(decide, SerialRun(decide, start, history), d.op)
  {
    var longer := history + [d];
    assert longer[..|longer| - 1] == history;
    forall i | 0 <= i < |longer|
      ensures longer[i].decision == decide(longer[i].op, SerialRun(decide, start, longer[..i]))
    {
      assert longer[..i] == history[..i];
      assert i == |history| ==> history[..i] == history;
    }
  }

  lemma StepConsistent<Op, E>(decide: (Op, seq<Entry>) -> Decision<E>, start: seq<Entry>, w: World<Op, E>, e: Event<Op>)
    requires Consistent(decide, start, w)
    ensures Consistent(decide, start, Step(decide, w, e))
    ensures w.log <= Step(decide, w, e).log && w.history <= Step(decide, w, e).history
  {
    hide ValidChain, SerialRun, DecidedSerially;
    match e
    case Read(c, op) =>
      var d := decide(op, w.log);
      if !d.Write? {
        HistoryGrows(decide, start, w.history, Done(op, d));
      }
    case Append(c) =>
      if c in w.pending && HeadDigest(w.log) == HeadDigest(w.pending[c].snapshot) {
        var p := w.pending[c];
        SameHeadSameLog(w.log, p.snapshot);
        HistoryGrows(decide, start, w.history, Done(p.op, Write(p.draft)));
        AppendValid(w.log, p.draft);
      }
    case GiveUp(c) =>
  }

  lemma {:induction false} ExecuteConsistent<Op, E>(decide: (Op, seq<Entry>) -> Decision<E>, start: seq<Entry>, events: seq<Event<Op>>)
    requires ValidChain(start)
    ensures Consistent(decide, start, Execute(decide, start, events))
  {
    if events != [] {
      ExecuteConsistent(decide, start, events[..|events| - 1]);
      StepConsistent(decide, start, Execute(decide, start, events[..|events| - 1]), events[|events| - 1]);
    }
  }

  /**
   * Whatever the interleaving, the ledger is the one the completed operations produce when run
   * one at a time in completion order, and each of them decided as it would have run alone.
   */
  lemma InterleavingsAreSerial<Op, E>(decide: (Op, seq<Entry>) -> Decision<E>, start: seq<Entry>, events: seq<Event<Op>>)
    requires ValidChain(start)
    ensures var w := Execute(decide, start, events);
            && w.log == SerialRun(decide, start, w.history)
            && DecidedSerially(decide, start, w.history)
            && ValidChain(w.log)
  {
    ExecuteConsistent(decide, start, events);
  }
}
