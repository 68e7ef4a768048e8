/**
 * The context capsule of a receiving worker (application/handoff_context.py): mandatory state,
 * then optional expansion while the target budget lasts.
 */
module HandoffContext {
  import opened Common
  import opened Sorting
  import opened Tokens
  import opened HandoffRendering
  import Records

  datatype Source = EvidenceSummaries | DecisionSummaries | ChangedPaths | Diff | SourceFiles | ChatTranscript | TerminalHistory

  datatype Reason = TargetReached | CountLimit | TargetOrCountLimit | RetrievalOnly | MissingRecords

  datatype Deferred = Deferred(source: Source, reason: Reason, ids: seq<string>, count: nat)

  datatype Budget = Budget(target: int, hardMax: int, maxEvidence: int, maxDecisions: int, maxPaths: int,
                           excerptTokens: int, focusedDiff: bool)

  /** The checks of the budget's constructor (domain/handoff_context.py). */
  predicate ValidBudget(b: Budget) {
    && b.target > 0 && b.hardMax >= b.target
    && b.maxEvidence >= 0 && b.maxDecisions >= 0 && b.maxPaths >= 0 && b.excerptTokens >= 0
    && (if b.focusedDiff then b.excerptTokens > 0 else b.excerptTokens == 0)
  }

  datatype Materialization = Materialization(
    content: string, tokens: int, includedEvidence: seq<Id>, includedDecisions: seq<Id>, includedPaths: seq<string>,
    diffIncluded: bool, deferred: seq<Deferred>)

  // ----- references

  /** What the two reference loops look at in a record. */
  datatype Reference = Reference(id: Id, ours: bool, critical: bool, line: string)

  function OfEvidence(h: Handoff, e: Evidence): Reference {
    Reference(e.id, e.changeSet.None? || e.changeSet.value == h.changeSetId, e.state != Passed && e.state != Superseded, EvidenceLine(e))
  }

  function OfDecision(h: Handoff, d: ReviewDecision): Reference {
    Reference(d.id, d.changeSetId == h.changeSetId, d.outcome != Records.Ready, DecisionLines(d))
  }

  datatype Item = Item(id: Id, line: string)

  function Ids(items: seq<Item>): (r: seq<Id>)
    ensures |r| == |items|
    ensures forall i :: 0 <= i < |items| ==> r[i] == items[i].id
  {
    seq(|items|, i requires 0 <= i < |items| => items[i].id)
  }

  function Lines(items: seq<Item>): (r: seq<string>)
    ensures |r| == |items|
    ensures forall i :: 0 <= i < |items| ==> r[i] == items[i].line
  {
    seq(|items|, i requires 0 <= i < |items| => items[i].line)
  }

  /** `lines` are mandatory; they also say which records are missing. */
  datatype Split = Split(lines: seq<string>, included: seq<Id>, optional: seq<Item>, missing: seq<Id>)

  predicate Belongs(records: map<Id, Reference>, id: Id) {
    id in records ==> records[id].id == id && records[id].ours
  }

  predicate IsMissing(records: map<Id, Reference>, id: Id) {
    id !in records
  }

  predicate IsCritical(records: map<Id, Reference>, id: Id) {
    id in records && records[id].critical
  }

  /** Every reference is in one of three lists, by what its record says. */
  ghost predicate Classified(ids: seq<Id>, records: map<Id, Reference>, r: Split) {
    && multiset(r.included) + multiset(Ids(r.optional)) + multiset(r.missing) == multiset(ids)
    && (forall id :: id in r.missing ==> IsMissing(records, id))
    && (forall id :: id in r.included ==> IsCritical(records, id))
    && (forall it :: it in r.optional ==> !IsMissing(records, it.id) && !IsCritical(records, it.id) && it.line == records[it.id].line)
    && |r.lines| == |r.included| + |r.missing|
    && (forall id :: id in ids ==> Belongs(records, id))
  }

  /** What the reference loop makes of one more reference. */
  function SplitOne(c: Split, records: map<Id, Reference>, id: Id, missingLine: string -> string): Split {
    if id !in records then c.(missing := c.missing + [id], lines := c.lines + [missingLine(id)])
    else if records[id].critical then c.(included := c.included + [id], lines := c.lines + [records[id].line])
    else c.(optional := c.optional + [Item(id, records[id].line)])
  }

  function SplitAll(ids: seq<Id>, records: map<Id, Reference>, missingLine: string -> string): Split {
    if ids == [] then Split([], [], [], [])
    else SplitOne(SplitAll(ids[..|ids| - 1], records, missingLine), records, ids[|ids| - 1], missingLine)
  }

  lemma MissingNext(ids: seq<Id>, records: map<Id, Reference>, c: Split, id: Id, line: string)
    requires Classified(ids, records, c) && id !in records
    ensures Classified(ids + [id], records, c.(missing := c.missing + [id], lines := c.lines + [line]))
  {
    hide Ids, IsCritical;
  }

  lemma CriticalNext(ids: seq<Id>, records: map<Id, Reference>, c: Split, id: Id, line: string)
    requires Classified(ids, records, c) && Belongs(records, id) && IsCritical(records, id)
    ensures Classified(ids + [id], records, c.(included := c.included + [id], lines := c.lines + [line]))
  {
    hide Ids, IsCritical, IsMissing, Belongs;
  }

  lemma OptionalNext(ids: seq<Id>, records: map<Id, Reference>, c: Split, id: Id)
    requires Classified(ids, records, c) && Belongs(records, id) && id in records && !records[id].critical
    ensures Classified(ids + [id], records, c.(optional := c.optional + [Item(id, records[id].line)]))
  {
    hide Belongs;
    IdsNext(c.optional, Item(id, records[id].line));
    hide Ids;
  }

  lemma IdsNext(items: seq<Item>, it: Item)
    ensures Ids(items + [it]) == Ids(items) + [it.id]
  {
  }

  lemma {:induction false} SplitClassifies(ids: seq<Id>, records: map<Id, Reference>, missingLine: string -> string)
    requires forall id :: id in ids ==> Belongs(records, id)
    ensures Classified(ids, records, SplitAll(ids, records, missingLine))
  {
    hide Classified, Ids;
    if ids == [] {
      NothingClassified(records);
    } else {
      var n := |ids| - 1;
      assert ids[n] in ids;
      SplitClassifies(ids[..n], records, missingLine);
      assert ids == ids[..n] + [ids[n]];
      NextClassified(ids[..n], records, SplitAll(ids[..n], records, missingLine), ids[n], missingLine);
    }
  }

  lemma NothingClassified(records: map<Id, Reference>)
    ensures Classified([], records, Split([], [], [], []))
  {
  }

  lemma NextClassified(ids: seq<Id>, records: map<Id, Reference>, c: Split, id: Id, missingLine: string -> string)
    requires Classified(ids, records, c) && Belongs(records, id)
    ensures Classified(ids + [id], records, SplitOne(c, records, id, missingLine))
  {
    hide Classified, Belongs;
    if id !in records {
      MissingNext(ids, records, c, id, missingLine(id));
    } else if records[id].critical {
      CriticalNext(ids, records, c, id, records[id].line);
    } else {
      OptionalNext(ids, records, c, id);
    }
  }

  /** The loops over evidence and decision references. */
  method Classify(ids: seq<Id>, records: map<Id, Reference>, missingLine: string -> string) returns (r: Result<Split, ContextError>)
    ensures r.Ok? <==> forall id :: id in ids ==> Belongs(records, id)
    ensures r.Ok? ==> r.value == SplitAll(ids, records, missingLine)
    ensures r.Err? ==> r.error.ForeignRecord? && r.error.id in ids && !Belongs(records, r.error.id)
  {
    var c := Split([], [], [], []);
    var i := 0;
    while i < |ids|
      invariant 0 <= i <= |ids| && c == SplitAll(ids[..i], records, missingLine)
      invariant forall id :: id in ids[..i] ==> Belongs(records, id)
    {
      var id := ids[i];
      assert ids[..i + 1] == ids[..i] + [id] && ids[..i + 1][..i] == ids[..i];
      if id !in records {
        c := c.(missing := c.missing + [id], lines := c.lines + [missingLine(id)]);
      } else {
        var record := records[id];
        if record.id != id || !record.ours {
          assert !Belongs(records, id);
          return Err(ForeignRecord(id));
        }
        if record.critical {
          c := c.(lines := c.lines + [record.line], included := c.included + [id]);
        } else {
          c := c.(optional := c.optional + [Item(id, record.line)]);
        }
      }
      i := i + 1;
    }
    assert ids[..i] == ids;
    return Ok(c);
  }

  // ----- optional sections

  function Candidate(current: string, title: string, item: string, started: bool): string {
    if started then current + "\n" + item else current + "\n\n## " + title + "\n" + item
  }

  /** `_try_append_within_target`, which answers `started` when the item does not fit. */
  function TryAppend(counter: Counter, current: string, title: string, item: string, started: bool, target: int): (string, bool) {
    var candidate := Candidate(current, title, item, started);
    if counter(candidate) > target then (current, started) else (candidate, true)
  }

  /** What a section loop leaves: `rendered` are the items whose text is in the content. */
  datatype Section = Section(content: string, included: seq<Id>, deferred: seq<Id>, rendered: seq<Item>)

  /** A section that continues `first` with `rest`. */
  function Then(first: Section, rest: Section): Section {
    Section(rest.content, first.included + rest.included, first.deferred + rest.deferred, first.rendered + rest.rendered)
  }

  function One(it: Item, content: string, added: bool, fits: bool): Section {
    Section(content, if added then [it.id] else [], if added then [] else [it.id], if fits then [it] else [])
  }

  function Expand(counter: Counter, content: string, title: string, items: seq<Item>, started: bool, target: int): Section
    decreases |items|
  {
    if items == [] then Section(content, [], [], [])
    else
      var (next, added) := TryAppend(counter, content, title, items[0].line, started, target);
      Then(One(items[0], next, added, counter(Candidate(content, title, items[0].line, started)) <= target),
           Expand(counter, next, title, items[1..], started || added, target))
  }

  lemma ThenAssociates(a: Section, b: Section, c: Section)
    ensures Then(Then(a, b), c) == Then(a, Then(b, c))
  {
    assert a.included + b.included + c.included == a.included + (b.included + c.included);
    assert a.deferred + b.deferred + c.deferred == a.deferred + (b.deferred + c.deferred);
    assert a.rendered + b.rendered + c.rendered == a.rendered + (b.rendered + c.rendered);
  }

  /** One round of the loop is one step of the specification. */
  lemma ExpandStep(counter: Counter, current: string, title: string, items: seq<Item>, i: nat, started: bool, target: int, before: Section)
    requires i < |items|
    ensures var (next, added) := TryAppend(counter, current, title, items[i].line, started, target);
            var one := One(items[i], next, added, counter(Candidate(current, title, items[i].line, started)) <= target);
            Then(before, Expand(counter, current, title, items[i..], started, target))
            == Then(Then(before, one), Expand(counter, next, title, items[i + 1..], started || added, target))
  {
    assert items[i..][0] == items[i] && items[i..][1..] == items[i + 1..];
    var (next, added) := TryAppend(counter, current, title, items[i].line, started, target);
    var one := One(items[i], next, added, counter(Candidate(current, title, items[i].line, started)) <= target);
    ThenAssociates(before, one, Expand(counter, next, title, items[i + 1..], started || added, target));
  }

  method ExpandLoop(counter: Counter, content: string, title: string, items: seq<Item>, target: int)
    returns (r: Result<Section, ContextError>)
    ensures r.Ok? ==> r.value == Expand(counter, content, title, items, false, target)
    ensures r.Err? ==> r.error == BadCounter && exists s :: counter(s) < 0
  {
    hide Candidate, Expand, Then;
    var started := false;
    var so := Section(content, [], [], []);
    var i := 0;
    NothingBefore(so, Expand(counter, content, title, items, false, target));
    assert items[0..] == items;
    while i < |items|
      invariant 0 <= i <= |items|
      invariant Expand(counter, content, title, items, false, target)
                == Then(so, Expand(counter, so.content, title, items[i..], started, target))
    {
      ExpandStep(counter, so.content, title, items, i, started, target, so);
      var candidate := Candidate(so.content, title, items[i].line, started);
      var cost := Count(counter, candidate);
      if cost.Err? {
        return Err(cost.error);
      }
      var (next, added) := TryAppend(counter, so.content, title, items[i].line, started, target);
      ThenContent(so, One(items[i], next, added, cost.value <= target));
      so := Then(so, One(items[i], next, added, cost.value <= target));
      started := started || added;
      i := i + 1;
    }
    EndOfExpand(counter, so, title, items, started, target);
    return Ok(so);
  }

  lemma NothingBefore(so: Section, rest: Section)
    requires so.included == [] && so.deferred == [] && so.rendered == []
    ensures Then(so, rest) == rest
  {
  }

  lemma ThenContent(a: Section, b: Section)
    ensures Then(a, b).content == b.content
  {
  }

  lemma EndOfExpand(counter: Counter, so: Section, title: string, items: seq<Item>, started: bool, target: int)
    ensures Then(so, Expand(counter, so.content, title, items[|items|..], started, target)) == so
  {
    assert items[|items|..] == [];
  }

  function Larger(a: int, b: int): int {
    if a < b then b else a
  }

  /** Expansion never pushes the content past the target, or past what it already costs. */
  lemma {:induction false} ExpandFits(counter: Counter, content: string, title: string, items: seq<Item>, started: bool, target: int)
    ensures counter(Expand(counter, content, title, items, started, target).content) <= Larger(target, counter(content))
    ensures content <= Expand(counter, content, title, items, started, target).content
    decreases |items|
  {
    if items != [] {
      var (next, added) := TryAppend(counter, content, title, items[0].line, started, target);
      ExpandFits(counter, next, title, items[1..], started || added, target);
    }
  }

  /** Each item is deferred or included, never both; the deferred ones come first. */
  lemma {:induction false} ExpandPartitions(counter: Counter, content: string, title: string, items: seq<Item>, started: bool, target: int)
    ensures var s := Expand(counter, content, title, items, started, target);
            s.deferred + s.included == Ids(items) && (started ==> s.deferred == [])
    decreases |items|
  {
    if items != [] {
      var (next, added) := TryAppend(counter, content, title, items[0].line, started, target);
      ExpandPartitions(counter, next, title, items[1..], started || added, target);
      assert Ids(items) == [items[0].id] + Ids(items[1..]);
    }
  }

  /** The items of a section are all within the target, one added to the other. */
  predicate FitInTurn(counter: Counter, content: string, title: string, items: seq<Item>, started: bool, target: int)
    decreases |items|
  {
    items == [] ||
    (var next := Candidate(content, title, items[0].line, started);
     counter(next) <= target && FitInTurn(counter, next, title, items[1..], true, target))
  }

  /** The first item that fits on its own, and so starts the section. */
  function FirstFit(counter: Counter, content: string, title: string, items: seq<Item>, target: int): (n: nat)
    ensures n <= |items|
    decreases |items|
  {
    if items == [] || counter(Candidate(content, title, items[0].line, false)) <= target then 0
    else 1 + FirstFit(counter, content, title, items[1..], target)
  }

  lemma {:induction false} RenderedAreItems(counter: Counter, content: string, title: string, items: seq<Item>, started: bool, target: int)
    ensures |Expand(counter, content, title, items, started, target).rendered| <= |items|
    decreases |items|
  {
    if items != [] {
      var (next, added) := TryAppend(counter, content, title, items[0].line, started, target);
      RenderedAreItems(counter, next, title, items[1..], started || added, target);
    }
  }

  lemma {:induction false} StartedRendersIff(counter: Counter, content: string, title: string, items: seq<Item>, target: int)
    ensures var s := Expand(counter, content, title, items, true, target);
            && (|s.rendered| == |items| <==> FitInTurn(counter, content, title, items, true, target))
            && (|s.rendered| == |items| ==> s.rendered == items)
    decreases |items|
  {
    if items != [] {
      var (next, added) := TryAppend(counter, content, title, items[0].line, true, target);
      StartedRendersIff(counter, next, title, items[1..], target);
      RenderedAreItems(counter, next, title, items[1..], true, target);
      assert items == [items[0]] + items[1..];
    }
  }

  /** A first item that fits starts the section; one that does not is passed over. */
  lemma ExpandFirst(counter: Counter, content: string, title: string, items: seq<Item>, target: int)
    requires items != []
    ensures var next := Candidate(content, title, items[0].line, false);
            if counter(next) <= target
            then Expand(counter, content, title, items, false, target)
                 == Then(One(items[0], next, true, true), Expand(counter, next, title, items[1..], true, target))
                 && (FitInTurn(counter, content, title, items, false, target)
                     <==> FitInTurn(counter, next, title, items[1..], true, target))
            else Expand(counter, content, title, items, false, target)
                 == Then(One(items[0], content, false, false), Expand(counter, content, title, items[1..], false, target))
  {
    hide Candidate, Then;
  }

  lemma IdsFirst(items: seq<Item>)
    requires items != []
    ensures Ids(items) == [items[0].id] + Ids(items[1..])
  {
  }

  /** The section as it starts with its first item. */
  lemma StartingRendersIff(counter: Counter, content: string, title: string, items: seq<Item>, target: int)
    requires items != [] && counter(Candidate(content, title, items[0].line, false)) <= target
    ensures var s := Expand(counter, content, title, items, false, target);
            && s.deferred == [] && s.included == Ids(items)
            && (s.rendered == items <==> FitInTurn(counter, content, title, items, false, target))
  {
    hide Candidate, Expand, FitInTurn, Ids;
    var next := Candidate(content, title, items[0].line, false);
    ExpandFirst(counter, content, title, items, target);
    StartedRendersIff(counter, next, title, items[1..], target);
    ExpandPartitions(counter, next, title, items[1..], true, target);
    IdsFirst(items);
    var rest := Expand(counter, next, title, items[1..], true, target);
    assert rest.included == Ids(items[1..]);
    assert Expand(counter, content, title, items, false, target).rendered == [items[0]] + rest.rendered;
    SameTail(items, rest.rendered);
  }

  lemma SameTail(items: seq<Item>, rest: seq<Item>)
    requires items != []
    ensures [items[0]] + rest == items <==> rest == items[1..]
  {
    assert ([items[0]] + rest)[1..] == rest;
    assert items == [items[0]] + items[1..];
  }

  /**
   * Included items are all rendered exactly when everything from the first item that fits
   * onwards fits in turn: after that item the loop includes whatever it refuses.
   */
  lemma {:induction false} IncludedAreRenderedIff(counter: Counter, content: string, title: string, items: seq<Item>, target: int)
    ensures var s := Expand(counter, content, title, items, false, target);
            var n := FirstFit(counter, content, title, items, target);
            && s.deferred == Ids(items[..n]) && s.included == Ids(items[n..])
            && (s.rendered == items[n..] <==> FitInTurn(counter, content, title, items[n..], false, target))
    decreases |items|
  {
    hide Candidate, Expand, FitInTurn, Ids;
    var n := FirstFit(counter, content, title, items, target);
    if items == [] {
      NothingToExpand(counter, content, title, target);
    } else if n == 0 {
      StartingRendersIff(counter, content, title, items, target);
      assert items[0..] == items && items[..0] == [];
      assert Ids([]) == [];
    } else {
      IncludedAreRenderedIff(counter, content, title, items[1..], target);
      ExpandFirst(counter, content, title, items, target);
      assert items[1..][n - 1..] == items[n..] && items[..n][1..] == items[1..][..n - 1];
      IdsFirst(items[..n]);
    }
  }

  lemma NothingToExpand(counter: Counter, content: string, title: string, target: int)
    ensures Expand(counter, content, title, [], false, target) == Section(content, [], [], [])
    ensures FitInTurn(counter, content, title, [], false, target) && Ids([]) == []
  {
  }

  // ----- what is in the content

  /** Each line after the first, on a line of its own. */
  function Tail(lines: seq<string>): string {
    if lines == [] then [] else "\n" + lines[0] + Tail(lines[1..])
  }

  lemma {:induction false} JoinedIsTail(lines: seq<string>)
    requires lines != []
    ensures Joined(lines) == lines[0] + Tail(lines[1..])
  {
    if |lines| > 1 {
      JoinedIsTail(lines[1..]);
      assert Joined(lines) == lines[0] + "\n" + Joined(lines[1..]);
      assert Tail(lines[1..]) == "\n" + lines[1] + Tail(lines[1..][1..]);
    } else {
      assert lines[1..] == [];
    }
  }

  lemma LinesFirst(items: seq<Item>)
    requires items != []
    ensures Lines(items) == [items[0].line] + Lines(items[1..])
  {
  }

  lemma {:induction false} StartedContent(counter: Counter, content: string, title: string, items: seq<Item>, target: int)
    ensures var s := Expand(counter, content, title, items, true, target);
            s.content == content + Tail(Lines(s.rendered))
    decreases |items|
  {
    hide Lines;
    var s := Expand(counter, content, title, items, true, target);
    if items == [] {
      NoLines();
    } else {
      var (next, added) := TryAppend(counter, content, title, items[0].line, true, target);
      StartedContent(counter, next, title, items[1..], target);
      var rest := Expand(counter, next, title, items[1..], true, target);
      if s.rendered != rest.rendered {
        assert s.rendered == [items[0]] + rest.rendered && s.rendered[1..] == rest.rendered;
        LinesFirst(s.rendered);
        assert Lines(s.rendered)[1..] == Lines(rest.rendered);
        assert s.content == content + ("\n" + items[0].line) + Tail(Lines(rest.rendered));
      }
    }
  }

  lemma NoLines()
    ensures Lines([]) == []
  {
  }

  /** A section adds its header and exactly the rendered lines, or nothing. */
  lemma {:induction false} ExpandContent(counter: Counter, content: string, title: string, items: seq<Item>, target: int)
    ensures var s := Expand(counter, content, title, items, false, target);
            s.content == AppendSection(content, title, Lines(s.rendered))
    decreases |items|
  {
    hide Lines, Expand, FitInTurn;
    if items == [] {
      NothingToExpand(counter, content, title, target);
      NoLines();
    } else {
      ExpandFirst(counter, content, title, items, target);
      var s := Expand(counter, content, title, items, false, target);
      var next := Candidate(content, title, items[0].line, false);
      if counter(next) <= target {
        StartedContent(counter, next, title, items[1..], target);
        var rest := Expand(counter, next, title, items[1..], true, target);
        assert s.rendered == [items[0]] + rest.rendered && s.rendered[1..] == rest.rendered;
        LinesFirst(s.rendered);
        var lines := Lines(s.rendered);
        assert lines[0] == items[0].line && lines[1..] == Lines(rest.rendered);
        JoinedIsTail(lines);
        assert s.content == content + "\n\n## " + title + "\n" + (items[0].line + Tail(Lines(rest.rendered)));
      } else {
        ExpandContent(counter, content, title, items[1..], target);
        assert s.rendered == Expand(counter, content, title, items[1..], false, target).rendered;
      }
    }
  }

  // ----- what is deferred

  /** All ids a list defers for one source. */
  function DeferredIds(ds: seq<Deferred>, source: Source): seq<string> {
    if ds == [] then [] else (if ds[0].source == source then ds[0].ids else []) + DeferredIds(ds[1..], source)
  }

  lemma {:induction false} DeferredConcat(a: seq<Deferred>, b: seq<Deferred>, source: Source)
    ensures DeferredIds(a + b, source) == DeferredIds(a, source) + DeferredIds(b, source)
  {
    if a == [] {
      assert a + b == b;
    } else {
      assert (a + b)[1..] == a[1..] + b;
      DeferredConcat(a[1..], b, source);
    }
  }

  function Singles(source: Source, ids: seq<Id>): seq<Deferred> {
    if ids == [] then [] else [Deferred(source, TargetReached, [ids[0]], 1)] + Singles(source, ids[1..])
  }

  lemma {:induction false} SinglesIds(source: Source, ids: seq<Id>, asked: Source)
    ensures DeferredIds(Singles(source, ids), asked) == if asked == source then ids else []
  {
    if ids != [] {
      SinglesIds(source, ids[1..], asked);
      assert Singles(source, ids)[1..] == Singles(source, ids[1..]);
    }
  }

  function Group(source: Source, reason: Reason, ids: seq<string>): seq<Deferred> {
    if ids == [] then [] else [Deferred(source, reason, ids, |ids|)]
  }

  lemma GroupIds(source: Source, reason: Reason, ids: seq<string>, asked: Source)
    ensures DeferredIds(Group(source, reason, ids), asked) == if asked == source then ids else []
  {
    assert ids + [] == ids;
  }

  // ----- the parts of a materialization

  function PathItems(paths: seq<string>): (r: seq<Item>)
    ensures Ids(r) == paths
  {
    var r := seq(|paths|, i requires 0 <= i < |paths| => Item(paths[i], "- " + Quoted(paths[i])));
    assert forall i :: 0 <= i < |paths| ==> Ids(r)[i] == paths[i];
    r
  }

  function Take<T>(s: seq<T>, limit: int): (r: seq<T>)
    requires limit >= 0
    ensures r <= s
  {
    if limit < |s| then s[..limit] else s
  }

  const EVIDENCE_TITLE := "Additional evidence"
  const DECISION_TITLE := "Additional review decisions"
  const PATHS_TITLE := "Changed paths"
  const DIFF_HEADER := "\n" + "\n## Focused diff excerpt (untrusted repository content)\n"

  function RecordsDeferred(source: Source, refused: seq<Id>, optional: seq<Item>, limit: nat): seq<Deferred> {
    Singles(source, refused) + Group(source, CountLimit, Ids(optional[|Take(optional, limit)|..]))
  }

  /** The summaries of one kind: as many as the profile allows, while the target lasts. */
  method ExpandRecords(counter: Counter, content: string, title: string, optional: seq<Item>, limit: nat, target: int)
    returns (r: Result<Section, ContextError>)
    ensures r.Err? ==> r.error == BadCounter && exists s :: counter(s) < 0
    ensures r.Ok? ==> r.value == Expand(counter, content, title, Take(optional, limit), false, target)
  {
    r := ExpandLoop(counter, content, title, Take(optional, limit), target);
  }

  /** Each optional record is included or deferred, once. */
  lemma RecordsListed(counter: Counter, content: string, title: string, source: Source, optional: seq<Item>, limit: nat, target: int)
    ensures var s := Expand(counter, content, title, Take(optional, limit), false, target);
            var ds := RecordsDeferred(source, s.deferred, optional, limit);
            && multiset(s.included) + multiset(DeferredIds(ds, source)) == multiset(Ids(optional))
            && forall other :: other != source ==> DeferredIds(ds, other) == []
  {
    hide Expand, DeferredIds, Ids;
    var n := |Take(optional, limit)|;
    var section := Expand(counter, content, title, Take(optional, limit), false, target);
    ExpandPartitions(counter, content, title, Take(optional, limit), false, target);
    var refused, uncounted := section.deferred, Ids(optional[n..]);
    var ds := RecordsDeferred(source, refused, optional, limit);
    forall asked: Source
      ensures DeferredIds(ds, asked) == if asked == source then refused + uncounted else []
    {
      DeferredConcat(Singles(source, refused), Group(source, CountLimit, uncounted), asked);
      SinglesIds(source, refused, asked);
      GroupIds(source, CountLimit, uncounted, asked);
    }
    IdsSplit(optional, n);
    assert optional[..n] == Take(optional, limit);
    AllCounted(section.included, refused, uncounted, Ids(optional));
  }

  lemma IdsSplit(items: seq<Item>, n: nat)
    requires n <= |items|
    ensures Ids(items) == Ids(items[..n]) + Ids(items[n..])
  {
  }

  lemma AllCounted(included: seq<Id>, refused: seq<Id>, uncounted: seq<Id>, all: seq<Id>)
    requires all == refused + included + uncounted
    ensures multiset(included) + multiset(refused + uncounted) == multiset(all)
  {
  }

  /**
   * The paths a context lists. The loop stops at a refusal, but a started section refuses nothing:
   * either the first path fits and all considered paths count as included, or none does.
   */
  function PathSection(counter: Counter, content: string, paths: seq<string>, limit: nat, target: int): Section {
    var items := Take(PathItems(paths), limit);
    if items != [] && counter(Candidate(content, PATHS_TITLE, items[0].line, false)) <= target
    then Expand(counter, content, PATHS_TITLE, items, false, target)
    else Section(content, [], [], [])
  }

  lemma PathsAllOrNone(counter: Counter, content: string, paths: seq<string>, limit: nat, target: int)
    ensures var s := PathSection(counter, content, paths, limit, target);
            && s.included == (if limit > 0 && paths != []
                                 && counter(Candidate(content, PATHS_TITLE, PathItems(paths)[0].line, false)) <= target
                              then Take(paths, limit) else [])
            && s.content == AppendSection(content, PATHS_TITLE, Lines(s.rendered))
            && content <= s.content && counter(s.content) <= Larger(target, counter(content))
  {
    hide Candidate, Expand, PathItems, Ids;
    var items := Take(PathItems(paths), limit);
    TakenPaths(paths, limit);
    if items != [] && counter(Candidate(content, PATHS_TITLE, items[0].line, false)) <= target {
      StartingRendersIff(counter, content, PATHS_TITLE, items, target);
      ExpandContent(counter, content, PATHS_TITLE, items, target);
      ExpandFits(counter, content, PATHS_TITLE, items, false, target);
    }
  }

  lemma TakenPaths(paths: seq<string>, limit: nat)
    ensures Ids(Take(PathItems(paths), limit)) == Take(paths, limit)
    ensures |PathItems(paths)| == |paths|
  {
    assert |Ids(PathItems(paths))| == |paths|;
    forall i | 0 <= i < |paths|
      ensures PathItems(paths)[i].id == paths[i]
    {
      assert Ids(PathItems(paths))[i] == paths[i];
    }
  }

  method ExpandPaths(counter: Counter, content: string, paths: seq<string>, limit: nat, target: int)
    returns (r: Result<Section, ContextError>)
    ensures r.Err? ==> r.error == BadCounter && exists s :: counter(s) < 0
    ensures r.Ok? ==> r.value == PathSection(counter, content, paths, limit, target)
  {
    hide Candidate, Expand, Then, Ids, PathItems;
    var items := Take(PathItems(paths), limit);
    var started := false;
    var so := Section(content, [], [], []);
    var i := 0;
    NothingBefore(so, Expand(counter, content, PATHS_TITLE, items, false, target));
    assert items[0..] == items;
    while i < |items|
      invariant 0 <= i <= |items|
      invariant i == 0 ==> so == Section(content, [], [], []) && !started
      invariant i > 0 ==> started && counter(Candidate(content, PATHS_TITLE, items[0].line, false)) <= target
      invariant Expand(counter, content, PATHS_TITLE, items, false, target)
                == Then(so, Expand(counter, so.content, PATHS_TITLE, items[i..], started, target))
    {
      ExpandStep(counter, so.content, PATHS_TITLE, items, i, started, target, so);
      var cost := Count(counter, Candidate(so.content, PATHS_TITLE, items[i].line, started));
      if cost.Err? {
        return Err(cost.error);
      }
      var (next, added) := TryAppend(counter, so.content, PATHS_TITLE, items[i].line, started, target);
      if !added {
        return Ok(Section(content, [], [], []));
      }
      ThenContent(so, One(items[i], next, added, cost.value <= target));
      so := Then(so, One(items[i], next, added, cost.value <= target));
      started := true;
      i := i + 1;
    }
    EndOfExpand(counter, so, PATHS_TITLE, items, started, target);
    return Ok(so);
  }

  function Smaller(a: int, b: int): int {
    if a < b then a else b
  }

  /** The excerpt of a diff that the profile and the rest of the target leave room for. */
  function Excerpt(counter: Counter, content: string, diff: string, b: Budget): string {
    Shorten(diff, counter, Smaller(b.excerptTokens, Larger(0, b.target - counter(content))))
  }

  /** The content with the excerpt, and whether there is one. */
  function DiffPart(counter: Counter, content: string, diff: string, b: Budget): (string, bool) {
    if diff == "" || !b.focusedDiff || Excerpt(counter, content, diff, b) == "" then (content, false)
    else
      var candidate := content + DIFF_HEADER + Excerpt(counter, content, diff, b);
      if counter(candidate) <= b.target then (candidate, true) else (content, false)
  }

  method ExpandDiff(counter: Counter, content: string, diff: string, b: Budget) returns (r: Result<(string, bool), ContextError>)
    ensures r.Err? ==> r.error == BadCounter && exists s :: counter(s) < 0
    ensures r.Ok? ==> r.value == DiffPart(counter, content, diff, b)
  {
    if diff == "" || !b.focusedDiff {
      return Ok((content, false));
    }
    var used := Count(counter, content);
    if used.Err? {
      return Err(used.error);
    }
    var remaining := Larger(0, b.target - used.value);
    var excerpt := Truncate(diff, counter, Smaller(b.excerptTokens, remaining));
    if excerpt.Err? {
      return Err(excerpt.error);
    }
    if excerpt.value == "" {
      return Ok((content, false));
    }
    var candidate := content + DIFF_HEADER + excerpt.value;
    var cost := Count(counter, candidate);
    if cost.Err? {
      return Err(cost.error);
    }
    return Ok(if cost.value <= b.target then (candidate, true) else (content, false));
  }

  predicate IsBlank(s: string) {
    forall i :: 0 <= i < |s| ==> IsSpace(s[i])
  }

  /** The paths that are not blank, each once. */
  function Proper(paths: seq<string>): seq<string> {
    if paths == [] then []
    else
      var rest := Proper(paths[1..]);
      if IsBlank(paths[0]) || paths[0] in rest then rest else [paths[0]] + rest
  }

  function NormalizedPaths(paths: seq<string>): seq<string> {
    SortBy(LexLeq, Proper(paths))
  }

  lemma {:induction false} ProperIs(paths: seq<string>)
    ensures forall p :: p in Proper(paths) <==> p in paths && !IsBlank(p)
    ensures forall p :: multiset(Proper(paths))[p] <= 1
  {
    if paths != [] {
      ProperIs(paths[1..]);
      hide IsBlank;
      var rest := Proper(paths[1..]);
      assert paths == [paths[0]] + paths[1..];
      assert paths[0] !in rest ==> multiset(rest)[paths[0]] == 0;
    }
  }

  /** `sorted(set(...))`: the paths that are not blank, each once, in order. */
  lemma NormalizedIs(paths: seq<string>)
    ensures forall p :: p in NormalizedPaths(paths) <==> p in paths && !IsBlank(p)
    ensures forall i, j :: 0 <= i < j < |NormalizedPaths(paths)| ==> NormalizedPaths(paths)[i] != NormalizedPaths(paths)[j]
    ensures Ordered(LexLeq, NormalizedPaths(paths))
  {
    hide IsBlank, Ordered, Proper, SortBy;
    ProperIs(paths);
    forall p
      ensures p in NormalizedPaths(paths) <==> p in Proper(paths)
    {
      InPermutation(NormalizedPaths(paths), Proper(paths), p);
    }
    SingleOccurrence(NormalizedPaths(paths));
    LexIsTotalPreorder();
    SortByOrders(LexLeq, Proper(paths));
  }

  /** The paths that are not included. */
  function Omitted(paths: seq<string>, included: seq<string>): seq<string> {
    if paths == [] then [] else (if paths[0] in included then [] else [paths[0]]) + Omitted(paths[1..], included)
  }

  lemma {:induction false} OmittedIs(paths: seq<string>, included: seq<string>)
    ensures forall p :: p in Omitted(paths, included) <==> p in paths && p !in included
    ensures forall p :: multiset(Omitted(paths, included))[p] <= multiset(paths)[p]
  {
    if paths != [] {
      OmittedIs(paths[1..], included);
      assert paths == [paths[0]] + paths[1..];
    }
  }

  function Evidences(h: Handoff, evidence: map<Id, Evidence>): map<Id, Reference> {
    map id | id in evidence :: OfEvidence(h, evidence[id])
  }

  function Decisions(h: Handoff, decisions: map<Id, ReviewDecision>): map<Id, Reference> {
    map id | id in decisions :: OfDecision(h, decisions[id])
  }

  function EvidenceSplit(h: Handoff, evidence: map<Id, Evidence>): Split {
    SplitAll(h.evidenceIds, Evidences(h, evidence), MissingLine("evidence"))
  }

  function DecisionSplit(h: Handoff, decisions: map<Id, ReviewDecision>): Split {
    SplitAll(h.decisionIds, Decisions(h, decisions), MissingLine("review decision"))
  }

  /** The orientation and the readiness-critical state: what no budget may leave out. */
  function MandatoryContent(h: Handoff, evidence: map<Id, Evidence>, decisions: map<Id, ReviewDecision>): string {
    AppendSection(AppendSection(Orientation(h), "Readiness-critical evidence", EvidenceSplit(h, evidence).lines),
                  "Readiness-critical review", DecisionSplit(h, decisions).lines)
  }

  /** Some reference names a record of another id or another Change Set. */
  ghost predicate HasForeign(h: Handoff, evidence: map<Id, Evidence>, decisions: map<Id, ReviewDecision>) {
    || (exists id | id in evidence :: id in h.evidenceIds
          && (evidence[id].id != id || (evidence[id].changeSet.Some? && evidence[id].changeSet.value != h.changeSetId)))
    || (exists id | id in decisions :: id in h.decisionIds
          && (decisions[id].id != id || decisions[id].changeSetId != h.changeSetId))
  }

  lemma ForeignIff(h: Handoff, evidence: map<Id, Evidence>, decisions: map<Id, ReviewDecision>)
    ensures HasForeign(h, evidence, decisions) <==>
            || (exists id :: id in h.evidenceIds && !Belongs(Evidences(h, evidence), id))
            || (exists id :: id in h.decisionIds && !Belongs(Decisions(h, decisions), id))
  {
    hide EvidenceLine, DecisionLines;
  }

  function Always(): seq<Deferred> {
    [Deferred(SourceFiles, RetrievalOnly, [], 0), Deferred(ChatTranscript, RetrievalOnly, [], 0),
     Deferred(TerminalHistory, RetrievalOnly, [], 0)]
  }

  /** The deferral list in the order it is built. */
  function AllDeferred(evidence: seq<Deferred>, decisions: seq<Deferred>, paths: seq<Deferred>, diff: seq<Deferred>,
                       missingEvidence: seq<Id>, missingDecisions: seq<Id>): seq<Deferred> {
    evidence + (decisions + (paths + (diff + (Always() +
      (Group(EvidenceSummaries, MissingRecords, missingEvidence) + Group(DecisionSummaries, MissingRecords, missingDecisions))))))
  }

  lemma SourceIds(evidence: seq<Deferred>, decisions: seq<Deferred>, paths: seq<Deferred>, diff: seq<Deferred>,
                  missingEvidence: seq<Id>, missingDecisions: seq<Id>, s: Source)
    requires s == EvidenceSummaries || s == DecisionSummaries || s == ChangedPaths
    ensures DeferredIds(AllDeferred(evidence, decisions, paths, diff, missingEvidence, missingDecisions), s)
            == DeferredIds(evidence, s) + DeferredIds(decisions, s) + DeferredIds(paths, s) + DeferredIds(diff, s)
               + DeferredIds(Group(EvidenceSummaries, MissingRecords, missingEvidence), s)
               + DeferredIds(Group(DecisionSummaries, MissingRecords, missingDecisions), s)
  {
    hide DeferredIds, Always, Group;
    var g1, g2 := Group(EvidenceSummaries, MissingRecords, missingEvidence), Group(DecisionSummaries, MissingRecords, missingDecisions);
    AlwaysIds(s);
    DeferredConcat(g1, g2, s);
    DeferredConcat(Always(), g1 + g2, s);
    DeferredConcat(diff, Always() + (g1 + g2), s);
    DeferredConcat(paths, diff + (Always() + (g1 + g2)), s);
    DeferredConcat(decisions, paths + (diff + (Always() + (g1 + g2))), s);
    DeferredConcat(evidence, decisions + (paths + (diff + (Always() + (g1 + g2)))), s);
  }

  lemma AlwaysIds(s: Source)
    requires s == EvidenceSummaries || s == DecisionSummaries || s == ChangedPaths
    ensures DeferredIds(Always(), s) == []
  {
    var a := Always();
    assert a[1..][1..][1..] == [];
  }

  // ----- the whole context

  /** What the optional parts add to the mandatory content. */
  datatype Parts = Parts(evidence: Section, decisions: Section, paths: Section, finished: (string, bool))

  function AllParts(counter: Counter, mandatory: string, e: Split, d: Split, paths: seq<string>, diff: string, b: Budget): Parts
    requires ValidBudget(b)
  {
    var evidence := Expand(counter, mandatory, EVIDENCE_TITLE, Take(e.optional, b.maxEvidence), false, b.target);
    var decisions := Expand(counter, evidence.content, DECISION_TITLE, Take(d.optional, b.maxDecisions), false, b.target);
    var listed := PathSection(counter, decisions.content, paths, b.maxPaths, b.target);
    Parts(evidence, decisions, listed, DiffPart(counter, listed.content, diff, b))
  }

  function Assemble(counter: Counter, e: Split, d: Split, p: Parts, paths: seq<string>, diff: string, b: Budget): Materialization
    requires ValidBudget(b)
  {
    Materialization(
      p.finished.0, counter(p.finished.0), e.included + p.evidence.included, d.included + p.decisions.included,
      p.paths.included, p.finished.1,
      AllDeferred(RecordsDeferred(EvidenceSummaries, p.evidence.deferred, e.optional, b.maxEvidence),
                  RecordsDeferred(DecisionSummaries, p.decisions.deferred, d.optional, b.maxDecisions),
                  Group(ChangedPaths, TargetOrCountLimit, Omitted(paths, p.paths.included)),
                  if diff != "" && !p.finished.1 then [Deferred(Diff, RetrievalOnly, [], 1)] else [],
                  e.missing, d.missing))
  }

  function PartsOf(h: Handoff, evidence: map<Id, Evidence>, decisions: map<Id, ReviewDecision>, changedPaths: seq<string>,
                   diff: string, b: Budget, counter: Counter): Parts
    requires ValidBudget(b)
  {
    AllParts(counter, MandatoryContent(h, evidence, decisions), EvidenceSplit(h, evidence), DecisionSplit(h, decisions),
             NormalizedPaths(changedPaths), diff, b)
  }

  /** The context that `materialize_handoff_context` answers when nothing is refused. */
  function Capsule(h: Handoff, evidence: map<Id, Evidence>, decisions: map<Id, ReviewDecision>, changedPaths: seq<string>,
                   diff: string, b: Budget, counter: Counter): Materialization
    requires ValidBudget(b)
  {
    Assemble(counter, EvidenceSplit(h, evidence), DecisionSplit(h, decisions),
             PartsOf(h, evidence, decisions, changedPaths, diff, b, counter), NormalizedPaths(changedPaths), diff, b)
  }

  /**
   * Exactly what is in the content: the mandatory part, then the rendered lines of the evidence, decision
   * and path sections under their headers, then the excerpt of the diff for the room that is left.
   */
  lemma CapsuleContent(h: Handoff, evidence: map<Id, Evidence>, decisions: map<Id, ReviewDecision>, changedPaths: seq<string>,
                       diff: string, b: Budget, counter: Counter)
    requires ValidBudget(b)
    ensures var p := PartsOf(h, evidence, decisions, changedPaths, diff, b, counter);
            var m := Capsule(h, evidence, decisions, changedPaths, diff, b, counter);
            var sections := AppendSection(AppendSection(AppendSection(MandatoryContent(h, evidence, decisions),
                                                                      EVIDENCE_TITLE, Lines(p.evidence.rendered)),
                                                        DECISION_TITLE, Lines(p.decisions.rendered)),
                                          PATHS_TITLE, Lines(p.paths.rendered));
            var room := if b.target < counter(sections) then 0 else b.target - counter(sections);
            var excerpt := Shorten(diff, counter, if b.excerptTokens < room then b.excerptTokens else room);
            && m.content == sections + (if m.diffIncluded then DIFF_HEADER + excerpt else "")
            && (m.diffIncluded <==> diff != "" && b.focusedDiff && excerpt != "" && counter(sections + DIFF_HEADER + excerpt) <= b.target)
            && m.tokens == counter(m.content)
  {
    hide Expand, AppendSection, Lines, MandatoryContent, PathSection, Shorten, EvidenceSplit, DecisionSplit, NormalizedPaths, AllDeferred;
    var mandatory := MandatoryContent(h, evidence, decisions);
    var p := PartsOf(h, evidence, decisions, changedPaths, diff, b, counter);
    ExpandContent(counter, mandatory, EVIDENCE_TITLE, Take(EvidenceSplit(h, evidence).optional, b.maxEvidence), b.target);
    ExpandContent(counter, p.evidence.content, DECISION_TITLE, Take(DecisionSplit(h, decisions).optional, b.maxDecisions), b.target);
    PathsAllOrNone(counter, p.decisions.content, NormalizedPaths(changedPaths), b.maxPaths, b.target);
    assert p.paths.content + (DIFF_HEADER + Excerpt(counter, p.paths.content, diff, b))
           == p.paths.content + DIFF_HEADER + Excerpt(counter, p.paths.content, diff, b);
  }

  /** The context starts with everything mandatory and costs no more than the larger of the target and that. */
  lemma CapsuleFits(h: Handoff, evidence: map<Id, Evidence>, decisions: map<Id, ReviewDecision>, changedPaths: seq<string>,
                    diff: string, b: Budget, counter: Counter)
    requires ValidBudget(b)
    ensures var m := Capsule(h, evidence, decisions, changedPaths, diff, b, counter);
            var mandatory := MandatoryContent(h, evidence, decisions);
            && mandatory <= m.content && m.tokens == counter(m.content) <= Larger(b.target, counter(mandatory))
            && (counter(mandatory) <= b.hardMax ==> m.tokens <= b.hardMax)
  {
    hide Expand, MandatoryContent, PathSection, Excerpt, EvidenceSplit, DecisionSplit, NormalizedPaths, AllDeferred;
    var mandatory := MandatoryContent(h, evidence, decisions);
    var p := PartsOf(h, evidence, decisions, changedPaths, diff, b, counter);
    ExpandFits(counter, mandatory, EVIDENCE_TITLE, Take(EvidenceSplit(h, evidence).optional, b.maxEvidence), false, b.target);
    ExpandFits(counter, p.evidence.content, DECISION_TITLE, Take(DecisionSplit(h, decisions).optional, b.maxDecisions), false, b.target);
    PathsAllOrNone(counter, p.decisions.content, NormalizedPaths(changedPaths), b.maxPaths, b.target);
  }

  /** Every referenced id is listed once: as included, or as deferred for its source. */
  ghost predicate Listed(ids: seq<Id>, included: seq<Id>, deferred: seq<Deferred>, source: Source) {
    multiset(included) + multiset(DeferredIds(deferred, source)) == multiset(ids)
  }

  lemma ListedFrom(ids: seq<Id>, records: map<Id, Reference>, c: Split, included: seq<Id>, ds: seq<Deferred>,
                   all: seq<Deferred>, source: Source)
    requires Classified(ids, records, c)
    requires multiset(included) + multiset(DeferredIds(ds, source)) == multiset(Ids(c.optional))
    requires DeferredIds(all, source) == DeferredIds(ds, source) + c.missing
    ensures Listed(ids, c.included + included, all, source)
  {
    hide Ids, DeferredIds;
  }

  /** Each referenced evidence or decision, and each changed path, is included or deferred, once. */
  lemma CapsuleLists(h: Handoff, evidence: map<Id, Evidence>, decisions: map<Id, ReviewDecision>, changedPaths: seq<string>,
                     diff: string, b: Budget, counter: Counter)
    requires ValidBudget(b) && !HasForeign(h, evidence, decisions)
    ensures var m := Capsule(h, evidence, decisions, changedPaths, diff, b, counter);
            && Listed(h.evidenceIds, m.includedEvidence, m.deferred, EvidenceSummaries)
            && Listed(h.decisionIds, m.includedDecisions, m.deferred, DecisionSummaries)
            && forall p :: p in NormalizedPaths(changedPaths) <==>
                 (p in m.includedPaths && p !in DeferredIds(m.deferred, ChangedPaths))
                 || (p !in m.includedPaths && p in DeferredIds(m.deferred, ChangedPaths))
  {
    hide Expand, MandatoryContent, PathSection, DiffPart, NormalizedPaths, AllDeferred, Classified, Belongs, Ids, HasForeign;
    hide DeferredIds, RecordsDeferred, Group, Listed, Omitted, SplitAll, Take;
    var e, d := EvidenceSplit(h, evidence), DecisionSplit(h, decisions);
    var p := PartsOf(h, evidence, decisions, changedPaths, diff, b, counter);
    var m := Capsule(h, evidence, decisions, changedPaths, diff, b, counter);
    var paths := NormalizedPaths(changedPaths);
    ForeignIff(h, evidence, decisions);
    SplitClassifies(h.evidenceIds, Evidences(h, evidence), MissingLine("evidence"));
    SplitClassifies(h.decisionIds, Decisions(h, decisions), MissingLine("review decision"));
    var ed := RecordsDeferred(EvidenceSummaries, p.evidence.deferred, e.optional, b.maxEvidence);
    var dd := RecordsDeferred(DecisionSummaries, p.decisions.deferred, d.optional, b.maxDecisions);
    RecordsListed(counter, MandatoryContent(h, evidence, decisions), EVIDENCE_TITLE, EvidenceSummaries, e.optional, b.maxEvidence, b.target);
    RecordsListed(counter, p.evidence.content, DECISION_TITLE, DecisionSummaries, d.optional, b.maxDecisions, b.target);
    var omitted := Omitted(paths, p.paths.included);
    DeferredOf(ed, dd, omitted, diff, p.finished.1, e.missing, d.missing);
    ListedFrom(h.evidenceIds, Evidences(h, evidence), e, p.evidence.included, ed, m.deferred, EvidenceSummaries);
    ListedFrom(h.decisionIds, Decisions(h, decisions), d, p.decisions.included, dd, m.deferred, DecisionSummaries);
    OmittedIs(paths, p.paths.included);
    PathsIncluded(counter, p.decisions.content, paths, b.maxPaths, b.target);
  }

  lemma PathsIncluded(counter: Counter, content: string, paths: seq<string>, limit: nat, target: int)
    ensures forall p :: p in PathSection(counter, content, paths, limit, target).included ==> p in paths
  {
    hide PathSection;
    PathsAllOrNone(counter, content, paths, limit, target);
  }

  /** What the whole list defers for each source. */
  lemma DeferredOf(ed: seq<Deferred>, dd: seq<Deferred>, omitted: seq<string>, diff: string, diffIncluded: bool,
                   missingEvidence: seq<Id>, missingDecisions: seq<Id>)
    requires forall other :: other != EvidenceSummaries ==> DeferredIds(ed, other) == []
    requires forall other :: other != DecisionSummaries ==> DeferredIds(dd, other) == []
    ensures var all := AllDeferred(ed, dd, Group(ChangedPaths, TargetOrCountLimit, omitted),
                                   if diff != "" && !diffIncluded then [Deferred(Diff, RetrievalOnly, [], 1)] else [],
                                   missingEvidence, missingDecisions);
            && DeferredIds(all, EvidenceSummaries) == DeferredIds(ed, EvidenceSummaries) + missingEvidence
            && DeferredIds(all, DecisionSummaries) == DeferredIds(dd, DecisionSummaries) + missingDecisions
            && DeferredIds(all, ChangedPaths) == omitted
  {
    hide DeferredIds, AllDeferred, Group;
    var paths := Group(ChangedPaths, TargetOrCountLimit, omitted);
    var diffs := if diff != "" && !diffIncluded then [Deferred(Diff, RetrievalOnly, [], 1)] else [];
    forall s: Source | s == EvidenceSummaries || s == DecisionSummaries || s == ChangedPaths
      ensures DeferredIds(AllDeferred(ed, dd, paths, diffs, missingEvidence, missingDecisions), s)
              == DeferredIds(ed, s) + DeferredIds(dd, s) + (if s == ChangedPaths then omitted else [])
                 + (if s == EvidenceSummaries then missingEvidence else []) + (if s == DecisionSummaries then missingDecisions else [])
    {
      SourceIds(ed, dd, paths, diffs, missingEvidence, missingDecisions, s);
      GroupIds(ChangedPaths, TargetOrCountLimit, omitted, s);
      GroupIds(EvidenceSummaries, MissingRecords, missingEvidence, s);
      GroupIds(DecisionSummaries, MissingRecords, missingDecisions, s);
      DiffIsSilent(diff, diffIncluded, s);
    }
  }

  lemma DiffIsSilent(diff: string, diffIncluded: bool, s: Source)
    requires s != Diff
    ensures DeferredIds(if diff != "" && !diffIncluded then [Deferred(Diff, RetrievalOnly, [], 1)] else [], s) == []
  {
    var one := [Deferred(Diff, RetrievalOnly, [], 1)];
    assert one[1..] == [];
  }

  /** The reference loops and the mandatory content they yield. */
  method Orient(h: Handoff, evidence: map<Id, Evidence>, decisions: map<Id, ReviewDecision>)
    returns (r: Result<(Split, Split, string), ContextError>)
    ensures r.Err? <==> HasForeign(h, evidence, decisions)
    ensures r.Err? ==> r.error.ForeignRecord?
    ensures r.Ok? ==> r.value == (EvidenceSplit(h, evidence), DecisionSplit(h, decisions), MandatoryContent(h, evidence, decisions))
  {
    hide Belongs, HasForeign;
    ForeignIff(h, evidence, decisions);
    var e := Classify(h.evidenceIds, Evidences(h, evidence), MissingLine("evidence"));
    if e.Err? {
      return Err(e.error);
    }
    var d := Classify(h.decisionIds, Decisions(h, decisions), MissingLine("review decision"));
    if d.Err? {
      return Err(d.error);
    }
    return Ok((e.value, d.value,
               AppendSection(AppendSection(Orientation(h), "Readiness-critical evidence", e.value.lines),
                             "Readiness-critical review", d.value.lines)));
  }

  method ExpandAll(counter: Counter, mandatory: string, e: Split, d: Split, paths: seq<string>, diff: string, b: Budget)
    returns (r: Result<Parts, ContextError>)
    requires ValidBudget(b)
    ensures r.Err? ==> r.error == BadCounter && exists s :: counter(s) < 0
    ensures r.Ok? ==> r.value == AllParts(counter, mandatory, e, d, paths, diff, b)
  {
    hide Expand, PathSection, DiffPart, Take;
    var evidence := ExpandRecords(counter, mandatory, EVIDENCE_TITLE, e.optional, b.maxEvidence, b.target);
    if evidence.Err? {
      return Err(evidence.error);
    }
    var decisions := ExpandRecords(counter, evidence.value.content, DECISION_TITLE, d.optional, b.maxDecisions, b.target);
    if decisions.Err? {
      return Err(decisions.error);
    }
    var listed := ExpandPaths(counter, decisions.value.content, paths, b.maxPaths, b.target);
    if listed.Err? {
      return Err(listed.error);
    }
    var finished := ExpandDiff(counter, listed.value.content, diff, b);
    if finished.Err? {
      return Err(finished.error);
    }
    return Ok(Parts(evidence.value, decisions.value, listed.value, finished.value));
  }

  /**
   * `materialize_handoff_context`: the specified context, or the reason there is none. The last
   * hard check cannot fail.
   */
  method Materialize(h: Handoff, evidence: map<Id, Evidence>, decisions: map<Id, ReviewDecision>, changedPaths: seq<string>,
                     diff: string, b: Budget, counter: Counter)
    returns (r: Result<Materialization, ContextError>)
    requires ValidBudget(b)
    ensures r != Err(FinalTooLarge)
    ensures r.Err? && r.error.ForeignRecord? <==> HasForeign(h, evidence, decisions)
    ensures r == Err(MandatoryTooLarge) <==>
            !HasForeign(h, evidence, decisions) && counter(MandatoryContent(h, evidence, decisions)) > b.hardMax
    ensures r == Err(BadCounter) ==> exists s :: counter(s) < 0
    ensures r.Ok? ==> r.value == Capsule(h, evidence, decisions, changedPaths, diff, b, counter) && 0 <= r.value.tokens <= b.hardMax
  {
    hide MandatoryContent, HasForeign, EvidenceSplit, DecisionSplit, NormalizedPaths, Assemble, AllParts;
    var oriented := Orient(h, evidence, decisions);
    if oriented.Err? {
      return Err(oriented.error);
    }
    var (e, d, content) := oriented.value;
    var cost := Count(counter, content);
    if cost.Err? {
      return Err(cost.error);
    }
    if cost.value > b.hardMax {
      return Err(MandatoryTooLarge);
    }
    var paths := NormalizedPaths(changedPaths);
    var parts := ExpandAll(counter, content, e, d, paths, diff, b);
    if parts.Err? {
      return Err(parts.error);
    }
    var m := Assemble(counter, e, d, parts.value, paths, diff, b);
    CapsuleFits(h, evidence, decisions, changedPaths, diff, b, counter);
    var final := Count(counter, m.content);
    if final.Err? {
      return Err(final.error);
    }
    if final.value > b.hardMax {
      return Err(FinalTooLarge);
    }
    r := Ok(m);
  }

  // ----- an included summary that is not there

  /** A budget that the mandatory part and the first summary use up. */
  function TightBudget(h: Handoff, first: Evidence): Budget {
    var used := |Candidate(Orientation(h), EVIDENCE_TITLE, EvidenceLine(first), false)|;
    Budget(used, used, 2, 0, 0, 0, false)
  }

  function ByCharacters(): Counter {
    text => Approximate(1, text)
  }

  /**
   * Two passed evidences, a budget that only the first fits, and one token a character: the context
   * lists both as included and defers neither, and does not contain the line of the second.
   */
  lemma RefusedButIncluded(h: Handoff, first: Evidence, second: Evidence, c: char)
    requires h.evidenceIds == [first.id, second.id] && first.id != second.id && h.decisionIds == []
    requires first.state == Passed && second.state == Passed && first.changeSet.None? && second.changeSet.None?
    requires c !in Candidate(Orientation(h), EVIDENCE_TITLE, EvidenceLine(first), false) && c in EvidenceLine(second)
    ensures var evidence, b := map[first.id := first, second.id := second], TightBudget(h, first);
            && ValidBudget(b) && !HasForeign(h, evidence, map[])
            && var m := Capsule(h, evidence, map[], [], "", b, ByCharacters());
               && m.includedEvidence == [first.id, second.id] && DeferredIds(m.deferred, EvidenceSummaries) == []
               && c !in m.content
  {
    hide EvidenceLine, Orientation, AllDeferred, DeferredIds, RecordsDeferred, Expand, Candidate, EvidenceSplit, Listed;
    var evidence := map[first.id := first, second.id := second];
    var b := TightBudget(h, first);
    TightIsValid(h, first);
    TwoPassed(h, evidence, first, second);
    var items := [Item(first.id, EvidenceLine(first)), Item(second.id, EvidenceLine(second))];
    assert DecisionSplit(h, map[]) == Split([], [], [], []);
    assert MandatoryContent(h, evidence, map[]) == Orientation(h);
    OnlyFirstFits(Orientation(h), items, b.target);
    var p := PartsOf(h, evidence, map[], [], "", b, ByCharacters());
    assert p.evidence.content == Candidate(Orientation(h), EVIDENCE_TITLE, items[0].line, false);
    assert p.finished.0 == p.evidence.content by { NothingMore(p.evidence.content, b); }
    CapsuleLists(h, evidence, map[], [], "", b, ByCharacters());
    AllOfTwo(h, evidence, b, first.id, second.id);
  }

  lemma TightIsValid(h: Handoff, first: Evidence)
    ensures ValidBudget(TightBudget(h, first))
  {
    hide Orientation, EvidenceLine;
  }

  lemma TwoPassed(h: Handoff, evidence: map<Id, Evidence>, first: Evidence, second: Evidence)
    requires h.evidenceIds == [first.id, second.id] && first.id != second.id && h.decisionIds == []
    requires evidence == map[first.id := first, second.id := second]
    requires first.state == Passed && second.state == Passed && first.changeSet.None? && second.changeSet.None?
    ensures EvidenceSplit(h, evidence)
            == Split([], [], [Item(first.id, EvidenceLine(first)), Item(second.id, EvidenceLine(second))], [])
    ensures !HasForeign(h, evidence, map[])
  {
    hide EvidenceLine;
    var ids := h.evidenceIds;
    assert ids[..1] == [first.id] && ids[..1][..0] == [];
    var records := Evidences(h, evidence);
    assert records[first.id] == OfEvidence(h, first) && records[second.id] == OfEvidence(h, second);
    assert SplitAll(ids[..1], records, MissingLine("evidence")) == Split([], [], [Item(first.id, EvidenceLine(first))], []);
  }

  lemma OnlyFirstFits(content: string, items: seq<Item>, target: int)
    requires |items| == 2 && target == |Candidate(content, EVIDENCE_TITLE, items[0].line, false)|
    ensures Expand(ByCharacters(), content, EVIDENCE_TITLE, items, false, target)
            == Section(Candidate(content, EVIDENCE_TITLE, items[0].line, false), [items[0].id, items[1].id], [], [items[0]])
  {
    var next := Candidate(content, EVIDENCE_TITLE, items[0].line, false);
    assert items[1..][0] == items[1] && items[1..][1..] == [];
    assert |Candidate(next, EVIDENCE_TITLE, items[1].line, true)| > target;
    assert Expand(ByCharacters(), next, EVIDENCE_TITLE, items[1..], true, target) == Section(next, [items[1].id], [], []);
  }

  lemma NothingMore(content: string, b: Budget)
    requires ValidBudget(b) && b.maxDecisions == 0 && b.maxPaths == 0
    ensures Expand(ByCharacters(), content, DECISION_TITLE, Take([], b.maxDecisions), false, b.target).content == content
    ensures PathSection(ByCharacters(), content, NormalizedPaths([]), b.maxPaths, b.target).content == content
  {
  }

  lemma AllOfTwo(h: Handoff, evidence: map<Id, Evidence>, b: Budget, first: Id, second: Id)
    requires ValidBudget(b) && h.evidenceIds == [first, second]
    requires var m := Capsule(h, evidence, map[], [], "", b, ByCharacters());
             m.includedEvidence == [first, second] && Listed(h.evidenceIds, m.includedEvidence, m.deferred, EvidenceSummaries)
    ensures DeferredIds(Capsule(h, evidence, map[], [], "", b, ByCharacters()).deferred, EvidenceSummaries) == []
  {
    hide Capsule, DeferredIds;
    var ids := DeferredIds(Capsule(h, evidence, map[], [], "", b, ByCharacters()).deferred, EvidenceSummaries);
    assert |multiset([first, second])| == 2 && |multiset(ids)| == |ids|;
    assert |multiset([first, second]) + multiset(ids)| == 2 + |ids|;
  }

  const OBJECT_ID := seq(40, i => 'a')

  const HANDED := Handoff("handoff-1", "task-1", "chg-1", "goal", "repo", OBJECT_ID, OBJECT_ID, "main", "/work", "obs-1",
                          ["file:src/a.py"], ["a", "z"], [], [], "review")

  const LISTED := Evidence("a", None, "test", Passed, None, [])
  const UNLISTED := Evidence("z", None, "test", Passed, None, [])

  lemma LineLacks(heading: string, value: string)
    requires 'z' !in heading && 'z' !in value
    ensures 'z' !in heading + Quoted(value)
  {
    QuotedLacks(value, 'z');
  }

  predicate AllLack(lines: seq<string>) {
    forall l :: l in lines ==> 'z' !in l
  }

  lemma FirstLinesLack(h: Handoff)
    requires 'z' !in h.id && 'z' !in h.taskId && 'z' !in h.changeSetId && 'z' !in h.goal && 'z' !in h.repositoryId
    ensures 'z' !in "handoff: " + Quoted(h.id) && 'z' !in "task: " + Quoted(h.taskId)
    ensures 'z' !in "change_set: " + Quoted(h.changeSetId) && 'z' !in "goal: " + Quoted(h.goal)
    ensures 'z' !in "repository: " + Quoted(h.repositoryId)
  {
    hide Quoted;
    LineLacks("handoff: ", h.id);
    LineLacks("task: ", h.taskId);
    LineLacks("change_set: ", h.changeSetId);
    LineLacks("goal: ", h.goal);
    LineLacks("repository: ", h.repositoryId);
  }

  lemma OtherLinesLack(h: Handoff)
    requires 'z' !in h.base && 'z' !in h.head && 'z' !in h.branch && 'z' !in h.worktree && 'z' !in h.observationId
    ensures 'z' !in "base: " + Quoted(h.base) && 'z' !in "head: " + Quoted(h.head) && 'z' !in "branch: " + Quoted(h.branch)
    ensures 'z' !in "worktree: " + Quoted(h.worktree) && 'z' !in "source_observation: " + Quoted(h.observationId)
  {
    hide Quoted;
    LineLacks("base: ", h.base);
    LineLacks("head: ", h.head);
    LineLacks("branch: ", h.branch);
    LineLacks("worktree: ", h.worktree);
    LineLacks("source_observation: ", h.observationId);
  }

  lemma HeadLinesLack(h: Handoff)
    requires 'z' !in h.id && 'z' !in h.taskId && 'z' !in h.changeSetId && 'z' !in h.goal && 'z' !in h.repositoryId
    requires 'z' !in h.base && 'z' !in h.head && 'z' !in h.branch && 'z' !in h.worktree && 'z' !in h.observationId
    ensures AllLack(HeadLines(h))
  {
    hide Quoted;
    FirstLinesLack(h);
    OtherLinesLack(h);
  }

  /** The labels of the orientation have no "z". */
  lemma OrientationLacks(h: Handoff)
    requires AllLack(HeadLines(h))
    requires AllLack(h.scopes) && h.knownFailures == [] && 'z' !in h.nextAction
    ensures 'z' !in Orientation(h)
  {
    hide Quoted, HeadLines;
    forall l | l in Bullets(h.scopes)
      ensures 'z' !in l
    {
      var i :| 0 <= i < |h.scopes| && l == Bullets(h.scopes)[i];
      LineLacks("- ", h.scopes[i]);
    }
    LineLacks("", h.nextAction);
    assert "" + Quoted(h.nextAction) == Quoted(h.nextAction);
    assert AllLack(["known_failures:"]) && AllLack(["- none recorded"]) && AllLack(["next_action:", Quoted(h.nextAction)]);
    JoinedLacks(OrientationLines(h), 'z');
  }

  lemma ListedLacks()
    ensures 'z' !in EvidenceLine(LISTED)
  {
    hide Quoted;
    LineLacks("- ", "a");
    LineLacks(" bound_commit=", "unbound");
    assert EvidenceLine(LISTED) == ("- " + Quoted("a")) + ": kind=" + "test" + " state=" + "passed" + (" bound_commit=" + Quoted("unbound"));
  }

  lemma HandedLacks()
    ensures 'z' !in Orientation(HANDED)
  {
    hide Quoted, Orientation, HeadLines;
    HeadLinesLack(HANDED);
    OrientationLacks(HANDED);
  }

  /** A handoff the constructor accepts, as such an input. */
  lemma HandedLacksLine()
    ensures 'z' !in Candidate(Orientation(HANDED), EVIDENCE_TITLE, EvidenceLine(LISTED), false)
  {
    hide Orientation, EvidenceLine;
    HandedLacks();
    ListedLacks();
  }

  lemma ZQuoted()
    ensures 'z' in EvidenceLine(UNLISTED)
  {
    assert QuoteAll("z") == "z";
    assert Quoted("z")[1] == 'z';
  }

  /** The context of that handoff lists "z" as included and does not contain its line. */
  lemma IncludedButAbsent()
    ensures var evidence, b := map["a" := LISTED, "z" := UNLISTED], TightBudget(HANDED, LISTED);
            && ValidBudget(b)
            && var m := Capsule(HANDED, evidence, map[], [], "", b, ByCharacters());
               m.includedEvidence == ["a", "z"] && 'z' !in m.content && 'z' in EvidenceLine(UNLISTED)
  {
    hide Capsule, EvidenceLine, Orientation, Candidate;
    HandedLacksLine();
    ZQuoted();
    RefusedButIncluded(HANDED, LISTED, UNLISTED, 'z');
  }
}
