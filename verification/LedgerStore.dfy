/**
 * The ledger as a service sees it (application/ledger.py over either backend): snapshots,
 * compare-and-append, and other clients that append between the calls of one operation.
 */
module LedgerStore {
  import opened Common
  import opened Records
  import opened Chain

  const ATTEMPTS: nat := 8

  /** The drafts other clients append at the n-th opportunity of an operation. */
  type Others = nat -> seq<Draft>

  function Extend(log: seq<Entry>, drafts: seq<Draft>): seq<Entry>
    decreases |drafts|
  {
    if drafts == [] then log else Extend(log + [NextEntry(log, drafts[0])], drafts[1..])
  }

  /** The ledger after others used their opportunities `m` to `n`. */
  function Joined(log: seq<Entry>, others: Others, m: nat, n: nat): seq<Entry> {
    if n <= m then log else Extend(Joined(log, others, m, n - 1), others(n - 1))
  }

  /** Only others appended: they used their first opportunities, whatever number of them. */
  ghost predicate OnlyOthers(before: seq<Entry>, others: Others, after: seq<Entry>) {
    exists n :: after == Joined(before, others, 0, n)
  }

  lemma {:induction false} JoinedTwice(log: seq<Entry>, others: Others, m: nat, k: nat, n: nat)
    requires m <= k <= n
    ensures Joined(Joined(log, others, m, k), others, k, n) == Joined(log, others, m, n)
  {
    if k < n {
      JoinedTwice(log, others, m, k, n - 1);
    }
  }

  lemma {:induction false} ExtendGrows(log: seq<Entry>, drafts: seq<Draft>)
    requires ValidChain(log)
    ensures ValidChain(Extend(log, drafts)) && log <= Extend(log, drafts)
    decreases |drafts|
  {
    if drafts != [] {
      AppendValid(log, drafts[0]);
      ExtendGrows(log + [NextEntry(log, drafts[0])], drafts[1..]);
    }
  }

  /** A longer ledger with the same head digest is no longer at all. */
  lemma SameHeadSameLogLater(a: seq<Entry>, b: seq<Entry>)
    requires ValidChain(b) && a <= b && HeadDigest(a) == HeadDigest(b)
    ensures a == b
  {
    PrefixValid(b, |a|);
    assert a == b[..|a|];
    SameHeadSameLog(a, b);
  }

  class Store {
    var log: seq<Entry>

    constructor ()
      ensures log == []
    {
      log := [];
    }

    method Snapshot() returns (entries: seq<Entry>)
      ensures entries == log
    {
      return log;
    }

    /** Other clients append whatever they like. */
    method Interfere(drafts: seq<Draft>)
      requires ValidChain(log)
      modifies this
      ensures ValidChain(log) && old(log) <= log
      ensures log == Extend(old(log), drafts)
    {
      ExtendGrows(log, drafts);
      var i := 0;
      while i < |drafts|
        invariant 0 <= i <= |drafts|
        invariant Extend(log, drafts[i..]) == Extend(old(log), drafts)
      {
        log := log + [NextEntry(log, drafts[i])];
        i := i + 1;
      }
    }

    /** `record_if_head` */
    method RecordIfHead(draft: Draft, expected: Digest) returns (ok: bool)
      requires ValidChain(log)
      modifies this
      ensures ValidChain(log)
      ensures ok <==> HeadDigest(old(log)) == expected
      ensures log == if ok then old(log) + [NextEntry(old(log), draft)] else old(log)
    {
      if HeadDigest(log) != expected {
        return false;
      }
      AppendValid(log, draft);
      log := log + [NextEntry(log, draft)];
      return true;
    }
  }
}
