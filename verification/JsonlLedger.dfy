/**
 * The JSONL backend (adapters/jsonl_ledger.py) at the level of lines: a line is blank, not
 * a JSON record, or the record of one entry. Locking makes each method one atomic step.
 */
module JsonlLedger {
  import opened Common
  import opened Records
  import opened Chain

  datatype Line = Blank | Garbage | Record(entry: Entry)

  datatype Corruption =
    | BlankRecord(at: nat) | InvalidRecord(at: nat) | BadSequence(at: nat) | BrokenChain(at: nat) | BadDigest(at: nat)

  datatype JsonlError = Corrupt(corruption: Corruption) | HeadChanged

  function EncodeAll(log: seq<Entry>): (lines: seq<Line>)
    ensures |lines| == |log|
  {
    seq(|log|, i requires 0 <= i < |log| => Record(log[i]))
  }

  /** The check `_read_locked` fails first on line number `at`, if any. */
  function Fault(line: Line, at: nat, previous: Digest): Option<Corruption> {
    match line
    case Blank => Some(BlankRecord(at))
    case Garbage => Some(InvalidRecord(at))
    case Record(e) =>
      if e.sequence != at then Some(BadSequence(at))
      else if e.previous != previous then Some(BrokenChain(at))
      else if e.digest != Of(at, previous, e.draft) then Some(BadDigest(at))
      else None
  }

  /** `log` is what the lines before the first faulty one hold. */
  ghost predicate FirstFault(lines: seq<Line>, log: seq<Entry>, c: Corruption) {
    && ValidChain(log)
    && |log| < |lines| && lines[..|log|] == EncodeAll(log)
    && Fault(lines[|log|], |log| + 1, HeadDigest(log)) == Some(c)
  }

  lemma ExtendReadable(lines: seq<Line>, log: seq<Entry>)
    requires ValidChain(log) && |log| < |lines| && lines[..|log|] == EncodeAll(log)
    requires Fault(lines[|log|], |log| + 1, HeadDigest(log)) == None
    ensures lines[|log|].entry == NextEntry(log, lines[|log|].entry.draft)
    ensures ValidChain(log + [lines[|log|].entry])
    ensures lines[..|log| + 1] == EncodeAll(log + [lines[|log|].entry])
  {
    AppendValid(log, lines[|log|].entry.draft);
    assert lines[..|log| + 1] == lines[..|log|] + [lines[|log|]];
  }

  /** Reading a written ledger meets no fault at any line. */
  lemma WrittenHasNoFault(log: seq<Entry>, n: nat)
    requires ValidChain(log) && n < |log|
    ensures Fault(EncodeAll(log)[n], n + 1, HeadDigest(log[..n])) == None
  {
    assert Links(log, n);
  }

  /** Lines with a fault encode no valid chain: corruption is never read as a ledger. */
  lemma FaultyUnreadable(lines: seq<Line>, log: seq<Entry>, c: Corruption, other: seq<Entry>)
    requires FirstFault(lines, log, c) && ValidChain(other)
    ensures lines != EncodeAll(other)
  {
    var n := |log|;
    if n < |other| {
      WrittenHasNoFault(other, n);
      if other[..n] != log {
        EncodeDiffers(other[..n], log);
        assert EncodeAll(other)[..n] == EncodeAll(other[..n]);
      }
    }
  }

  lemma EncodeDiffers(a: seq<Entry>, b: seq<Entry>)
    requires a != b
    ensures EncodeAll(a) != EncodeAll(b)
  {
    if |a| == |b| {
      var i :| 0 <= i < |a| && a[i] != b[i];
      assert EncodeAll(a)[i] != EncodeAll(b)[i];
    }
  }

  /** The entries of the lines that hold one. */
  function Decoded(lines: seq<Line>): seq<Entry> {
    if lines == [] then []
    else
      var n := |lines| - 1;
      Decoded(lines[..n]) + (if lines[n].Record? then [lines[n].entry] else [])
  }

  lemma {:induction false} DecodedEncoded(log: seq<Entry>)
    ensures Decoded(EncodeAll(log)) == log
  {
    if log != [] {
      var n := |log| - 1;
      DecodedEncoded(log[..n]);
      assert EncodeAll(log)[..n] == EncodeAll(log[..n]);
      assert log == log[..n] + [log[n]];
    }
  }

  /** The file after `append_if_head`: one line more, if it holds a valid chain with the expected head. */
  function AppendedIfHead(lines: seq<Line>, draft: Draft, expected: Digest): seq<Line> {
    var log := Decoded(lines);
    if ValidChain(log) && lines == EncodeAll(log) && HeadDigest(log) == expected then EncodeAll(log + [NextEntry(log, draft)])
    else lines
  }

  lemma NonRecordUnreadable(lines: seq<Line>, n: nat)
    requires n < |lines| && !lines[n].Record?
    ensures forall log :: lines != EncodeAll(log)
  {
    forall log
      ensures lines != EncodeAll(log)
    {
      assert |log| == |lines| ==> EncodeAll(log)[n].Record?;
    }
  }

  lemma CorruptStays(lines: seq<Line>, draft: Draft, expected: Digest, c: Corruption)
    requires exists log :: FirstFault(lines, log, c)
    ensures AppendedIfHead(lines, draft, expected) == lines
  {
    var log :| FirstFault(lines, log, c);
    var other := Decoded(lines);
    if ValidChain(other) {
      FaultyUnreadable(lines, log, c, other);
    }
  }

  class JsonlFile {
    var lines: seq<Line>

    constructor ()
      ensures lines == []
    {
      lines := [];
    }

    method ReadLocked() returns (r: Result<seq<Entry>, Corruption>)
      ensures r.Ok? ==> ValidChain(r.value) && lines == EncodeAll(r.value)
      ensures r.Err? ==> exists log :: FirstFault(lines, log, r.error)
    {
      var entries: seq<Entry> := [];
      var previous := Genesis;
      var index := 0;
      while index < |lines|
        invariant 0 <= index == |entries| <= |lines|
        invariant ValidChain(entries) && lines[..index] == EncodeAll(entries)
        invariant previous == HeadDigest(entries)
      {
        var fault := Fault(lines[index], index + 1, previous);
        if fault.Some? {
          assert FirstFault(lines, entries, fault.value);
          return Err(fault.value);
        }
        ExtendReadable(lines, entries);
        var entry := lines[index].entry;
        entries := entries + [entry];
        previous := entry.digest;
        index := index + 1;
      }
      assert lines[..index] == lines;
      return Ok(entries);
    }

    method AppendLocked(log: seq<Entry>, draft: Draft) returns (entry: Entry)
      requires lines == EncodeAll(log)
      modifies this
      ensures entry == NextEntry(log, draft)
      ensures lines == EncodeAll(log + [entry])
    {
      var sequence := |log| + 1;
      var previous := if log == [] then Genesis else log[|log| - 1].digest;
      entry := Entry(sequence, previous, Of(sequence, previous, draft), draft);
      lines := lines + [Record(entry)];
    }

    /** Appends exactly when the file holds a valid chain whose head digest is the expected one. */
    method AppendIfHead(draft: Draft, expected: Digest) returns (r: Result<Entry, JsonlError>)
      modifies this
      ensures r.Ok? ==> exists log :: ValidChain(log) && old(lines) == EncodeAll(log) && HeadDigest(log) == expected
                                      && r.value == NextEntry(log, draft) && lines == EncodeAll(log + [r.value])
      ensures r == Err(HeadChanged) ==>
                exists log :: ValidChain(log) && old(lines) == EncodeAll(log) && HeadDigest(log) != expected
      ensures r.Err? && r.error.Corrupt? ==> exists log :: FirstFault(old(lines), log, r.error.corruption)
      ensures r.Err? ==> lines == old(lines)
      ensures lines == AppendedIfHead(old(lines), draft, expected)
    {
      var read := ReadLocked();
      if read.Err? {
        CorruptStays(lines, draft, expected, read.error);
        return Err(Corrupt(read.error));
      }
      var entries := read.value;
      DecodedEncoded(entries);
      var actual := if entries == [] then Genesis else entries[|entries| - 1].digest;
      if actual != expected {
        return Err(HeadChanged);
      }
      var entry := AppendLocked(entries, draft);
      return Ok(entry);
    }

    method Append(draft: Draft) returns (r: Result<Entry, JsonlError>)
      modifies this
      ensures r.Ok? ==> exists log :: ValidChain(log) && old(lines) == EncodeAll(log)
                                      && r.value == NextEntry(log, draft) && lines == EncodeAll(log + [r.value])
      ensures r.Err? ==> r.error.Corrupt? && lines == old(lines)
    {
      var read := ReadLocked();
      if read.Err? {
        return Err(Corrupt(read.error));
      }
      var entry := AppendLocked(read.value, draft);
      return Ok(entry);
    }
  }
}
