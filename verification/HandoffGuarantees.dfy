/**
 * What a handoff context shows and what it may leave out (application/handoff_context.py), said of
 * the handoff, its evidence and its review decisions.
 */
module HandoffGuarantees {
  import opened Common
  import opened Tokens
  import opened HandoffRendering
  import opened HandoffContext
  import Records

  // ----- whole lines

  /** `line` stands in `text` on lines of its own. */
  ghost predicate Shows(text: string, line: string) {
    exists i :: ShowsAt(text, line, i)
  }

  ghost predicate ShowsAt(text: string, line: string, i: int) {
    && 0 <= i <= |text| - |line| && text[i..i + |line|] == line
    && (i == 0 || text[i - 1] == '\n')
    && (i + |line| == |text| || text[i + |line|] == '\n')
  }

  lemma ShowsWithin(before: string, text: string, after: string, line: string)
    requires Shows(text, line)
    requires before == "" || before[|before| - 1] == '\n'
    requires after == "" || after[0] == '\n'
    ensures Shows(before + text + after, line)
  {
    var i :| ShowsAt(text, line, i);
    var whole := before + text + after;
    assert whole[|before| + i..|before| + i + |line|] == text[i..i + |line|];
    assert ShowsAt(whole, line, |before| + i);
  }

  lemma {:induction false} JoinedShows(lines: seq<string>, line: string)
    requires line in lines
    ensures Shows(Joined(lines), line)
  {
    hide Shows;
    if lines == [line] {
      ShowsItself(line);
    } else if line == lines[0] {
      var after := "\n" + Joined(lines[1..]);
      ShowsItself(line);
      ShowsWithin("", line, after, line);
      assert Joined(lines) == "" + line + after;
    } else {
      assert lines == [lines[0]] + lines[1..];
      JoinedShows(lines[1..], line);
      ShowsWithin(lines[0] + "\n", Joined(lines[1..]), "", line);
      assert Joined(lines) == lines[0] + "\n" + Joined(lines[1..]) + "";
    }
  }

  lemma ShowsItself(line: string)
    ensures Shows(line, line)
  {
    assert ShowsAt(line, line, 0);
  }

  /** What follows a section starts a line. */
  lemma AppendedShows(content: string, title: string, items: seq<string>, line: string)
    ensures Shows(content, line) || line in items ==> Shows(AppendSection(content, title, items), line)
  {
    hide Shows, Joined;
    var whole := AppendSection(content, title, items);
    if items != [] {
      var heading := "\n\n## " + title + "\n";
      if line in items {
        JoinedShows(items, line);
        ShowsWithin(content + heading, Joined(items), "", line);
        assert whole == content + heading + Joined(items) + "";
      } else if Shows(content, line) {
        ShowsWithin("", content, heading + Joined(items), line);
        assert whole == "" + content + (heading + Joined(items));
      }
    }
  }

  // ----- what the reference loops make of each reference

  predicate IsMandatoryLine(records: map<Id, Reference>, id: Id, missingLine: string -> string, l: string) {
    if id in records then records[id].critical && l == records[id].line else l == missingLine(id)
  }

  lemma {:induction false} SplitSorts(ids: seq<Id>, records: map<Id, Reference>, missingLine: string -> string)
    ensures var c := SplitAll(ids, records, missingLine);
            && (forall id :: id in ids && id !in records ==> missingLine(id) in c.lines)
            && (forall id :: id in ids && id in records && records[id].critical ==> records[id].line in c.lines && id in c.included)
  {
    if ids != [] {
      var n := |ids| - 1;
      SplitSorts(ids[..n], records, missingLine);
      assert ids == ids[..n] + [ids[n]];
      LastSorts(SplitAll(ids[..n], records, missingLine), records, ids[n], missingLine);
    }
  }

  lemma LastSorts(c: Split, records: map<Id, Reference>, id: Id, missingLine: string -> string)
    ensures var s := SplitOne(c, records, id, missingLine);
            && (id !in records ==> missingLine(id) in s.lines)
            && (id in records && records[id].critical ==> records[id].line in s.lines && id in s.included)
            && (forall l :: l in c.lines ==> l in s.lines) && (forall i :: i in c.included ==> i in s.included)
  {
  }

  lemma {:induction false} LineSource(ids: seq<Id>, records: map<Id, Reference>, missingLine: string -> string, l: string) returns (id: Id)
    requires l in SplitAll(ids, records, missingLine).lines
    ensures id in ids && IsMandatoryLine(records, id, missingLine, l)
  {
    var n := |ids| - 1;
    if l in SplitAll(ids[..n], records, missingLine).lines {
      id := LineSource(ids[..n], records, missingLine, l);
    } else {
      id := ids[n];
    }
  }

  /** Evidence that no budget may leave out. */
  predicate MustShow(e: Evidence) {
    e.state == Declared || e.state == Running || e.state == Failed || e.state == Unavailable || e.state == Stale
  }

  predicate IsForEvidence(evidence: map<Id, Evidence>, id: Id, l: string) {
    if id in evidence then MustShow(evidence[id]) && l == EvidenceLine(evidence[id]) else l == MissingLine("evidence")(id)
  }

  predicate IsForDecision(decisions: map<Id, ReviewDecision>, id: Id, l: string) {
    if id in decisions then decisions[id].outcome != Records.Ready && l == DecisionLines(decisions[id])
    else l == MissingLine("review decision")(id)
  }

  /** The mandatory evidence lines, both ways: these references and no others. */
  lemma MandatoryEvidence(h: Handoff, evidence: map<Id, Evidence>)
    ensures var s := EvidenceSplit(h, evidence);
            && (forall id :: id in h.evidenceIds && id in evidence && MustShow(evidence[id]) ==>
                  EvidenceLine(evidence[id]) in s.lines && id in s.included)
            && (forall id :: id in h.evidenceIds && id !in evidence ==> MissingLine("evidence")(id) in s.lines)
            && (forall l :: l in s.lines ==> exists id :: id in h.evidenceIds && IsForEvidence(evidence, id, l))
  {
    hide EvidenceLine, SplitAll, MissingLine;
    var records := Evidences(h, evidence);
    SplitSorts(h.evidenceIds, records, MissingLine("evidence"));
    forall l | l in EvidenceSplit(h, evidence).lines
      ensures exists id :: id in h.evidenceIds && IsForEvidence(evidence, id, l)
    {
      var id := LineSource(h.evidenceIds, records, MissingLine("evidence"), l);
      assert IsForEvidence(evidence, id, l);
    }
  }

  lemma MandatoryDecisions(h: Handoff, decisions: map<Id, ReviewDecision>)
    ensures var s := DecisionSplit(h, decisions);
            && (forall id :: id in h.decisionIds && id in decisions && decisions[id].outcome != Records.Ready ==>
                  DecisionLines(decisions[id]) in s.lines && id in s.included)
            && (forall id :: id in h.decisionIds && id !in decisions ==> MissingLine("review decision")(id) in s.lines)
            && (forall l :: l in s.lines ==> exists id :: id in h.decisionIds && IsForDecision(decisions, id, l))
  {
    hide DecisionLines, SplitAll, MissingLine;
    var records := Decisions(h, decisions);
    SplitSorts(h.decisionIds, records, MissingLine("review decision"));
    forall l | l in DecisionSplit(h, decisions).lines
      ensures exists id :: id in h.decisionIds && IsForDecision(decisions, id, l)
    {
      var id := LineSource(h.decisionIds, records, MissingLine("review decision"), l);
      assert IsForDecision(decisions, id, l);
    }
  }

  // ----- what every context shows

  lemma MandatoryIsShown(h: Handoff, evidence: map<Id, Evidence>, decisions: map<Id, ReviewDecision>, changedPaths: seq<string>,
                         diff: string, b: Budget, counter: Counter, line: string)
    requires ValidBudget(b) && Shows(MandatoryContent(h, evidence, decisions), line)
    ensures Shows(Capsule(h, evidence, decisions, changedPaths, diff, b, counter).content, line)
  {
    hide Shows, Capsule, PartsOf, AppendSection, Lines, MandatoryContent, Shorten;
    var p := PartsOf(h, evidence, decisions, changedPaths, diff, b, counter);
    var m := Capsule(h, evidence, decisions, changedPaths, diff, b, counter);
    var first := AppendSection(MandatoryContent(h, evidence, decisions), EVIDENCE_TITLE, Lines(p.evidence.rendered));
    var second := AppendSection(first, DECISION_TITLE, Lines(p.decisions.rendered));
    var sections := AppendSection(second, PATHS_TITLE, Lines(p.paths.rendered));
    AppendedShows(MandatoryContent(h, evidence, decisions), EVIDENCE_TITLE, Lines(p.evidence.rendered), line);
    AppendedShows(first, DECISION_TITLE, Lines(p.decisions.rendered), line);
    AppendedShows(second, PATHS_TITLE, Lines(p.paths.rendered), line);
    CapsuleContent(h, evidence, decisions, changedPaths, diff, b, counter);
    var after := m.content[|sections|..];
    if m.diffIncluded {
      HeaderBreaks();
      assert DIFF_HEADER <= after;
    }
    assert m.content == "" + sections + after;
    ShowsWithin("", sections, after, line);
  }

  lemma HeaderBreaks()
    ensures DIFF_HEADER != "" && DIFF_HEADER[0] == '\n'
  {
  }

  lemma MandatoryHas(h: Handoff, evidence: map<Id, Evidence>, decisions: map<Id, ReviewDecision>, line: string)
    requires line in OrientationLines(h) || line in EvidenceSplit(h, evidence).lines || line in DecisionSplit(h, decisions).lines
    ensures Shows(MandatoryContent(h, evidence, decisions), line)
  {
    hide Shows, AppendSection, OrientationLines, EvidenceSplit, DecisionSplit;
    if line in OrientationLines(h) {
      JoinedShows(OrientationLines(h), line);
    }
    AppendedShows(Orientation(h), "Readiness-critical evidence", EvidenceSplit(h, evidence).lines, line);
    AppendedShows(AppendSection(Orientation(h), "Readiness-critical evidence", EvidenceSplit(h, evidence).lines),
                  "Readiness-critical review", DecisionSplit(h, decisions).lines, line);
  }

  /**
   * Whatever the budget and the counter: evidence that is not passed or superseded and decisions that
   * are not ready are included and shown, and so is each reference to a missing record.
   */
  lemma CriticalIsShown(h: Handoff, evidence: map<Id, Evidence>, decisions: map<Id, ReviewDecision>, changedPaths: seq<string>,
                        diff: string, b: Budget, counter: Counter)
    requires ValidBudget(b)
    ensures var m := Capsule(h, evidence, decisions, changedPaths, diff, b, counter);
            && (forall id :: id in h.evidenceIds && id in evidence && MustShow(evidence[id]) ==>
                  id in m.includedEvidence && Shows(m.content, EvidenceLine(evidence[id])))
            && (forall id :: id in h.decisionIds && id in decisions && decisions[id].outcome != Records.Ready ==>
                  id in m.includedDecisions && Shows(m.content, DecisionLines(decisions[id])))
            && (forall id :: id in h.evidenceIds && id !in evidence ==>
                  Shows(m.content, "- " + Quoted(id) + ": referenced " + "evidence" + " record was not supplied to materializer"))
            && (forall id :: id in h.decisionIds && id !in decisions ==>
                  Shows(m.content, "- " + Quoted(id) + ": referenced " + "review decision" + " record was not supplied to materializer"))
  {
    hide Shows, PartsOf, EvidenceLine, DecisionLines, EvidenceSplit, DecisionSplit, MandatoryContent, Quoted, AllDeferred, RecordsDeferred;
    var m := Capsule(h, evidence, decisions, changedPaths, diff, b, counter);
    var e, d := EvidenceSplit(h, evidence), DecisionSplit(h, decisions);
    MandatoryEvidence(h, evidence);
    MandatoryDecisions(h, decisions);
    forall line | line in e.lines || line in d.lines
      ensures Shows(m.content, line)
    {
      MandatoryHas(h, evidence, decisions, line);
      MandatoryIsShown(h, evidence, decisions, changedPaths, diff, b, counter, line);
    }
    forall id | id in h.evidenceIds && id !in evidence
      ensures Shows(m.content, "- " + Quoted(id) + ": referenced " + "evidence" + " record was not supplied to materializer")
    {
      assert MissingLine("evidence")(id) in e.lines;
    }
    forall id | id in h.decisionIds && id !in decisions
      ensures Shows(m.content, "- " + Quoted(id) + ": referenced " + "review decision" + " record was not supplied to materializer")
    {
      assert MissingLine("review decision")(id) in d.lines;
    }
  }

  /** Every context shows what the handoff says of itself. */
  lemma OrientationIsShown(h: Handoff, evidence: map<Id, Evidence>, decisions: map<Id, ReviewDecision>, changedPaths: seq<string>,
                           diff: string, b: Budget, counter: Counter)
    requires ValidBudget(b)
    ensures var text := Capsule(h, evidence, decisions, changedPaths, diff, b, counter).content;
            && Shows(text, "handoff: " + Quoted(h.id)) && Shows(text, "task: " + Quoted(h.taskId))
            && Shows(text, "change_set: " + Quoted(h.changeSetId)) && Shows(text, "goal: " + Quoted(h.goal))
            && Shows(text, "repository: " + Quoted(h.repositoryId)) && Shows(text, "base: " + Quoted(h.base))
            && Shows(text, "head: " + Quoted(h.head)) && Shows(text, "branch: " + Quoted(h.branch))
            && Shows(text, "worktree: " + Quoted(h.worktree)) && Shows(text, "source_observation: " + Quoted(h.observationId))
            && (forall s :: s in h.scopes ==> Shows(text, "- " + Quoted(s)))
            && (forall f :: f in h.knownFailures ==> Shows(text, "- " + Quoted(f)))
            && Shows(text, Quoted(h.nextAction))
  {
    hide Shows, Capsule, MandatoryContent, Quoted, HeadLines, OrientationLines;
    var text := Capsule(h, evidence, decisions, changedPaths, diff, b, counter).content;
    forall line | line in OrientationLines(h)
      ensures Shows(text, line)
    {
      MandatoryHas(h, evidence, decisions, line);
      MandatoryIsShown(h, evidence, decisions, changedPaths, diff, b, counter, line);
    }
    OrientationHas(h);
    HeadHas(h);
  }

  lemma HeadHas(h: Handoff)
    ensures "handoff: " + Quoted(h.id) in HeadLines(h) && "task: " + Quoted(h.taskId) in HeadLines(h)
    ensures "change_set: " + Quoted(h.changeSetId) in HeadLines(h) && "goal: " + Quoted(h.goal) in HeadLines(h)
    ensures "repository: " + Quoted(h.repositoryId) in HeadLines(h) && "base: " + Quoted(h.base) in HeadLines(h)
    ensures "head: " + Quoted(h.head) in HeadLines(h) && "branch: " + Quoted(h.branch) in HeadLines(h)
    ensures "worktree: " + Quoted(h.worktree) in HeadLines(h) && "source_observation: " + Quoted(h.observationId) in HeadLines(h)
  {
    hide Quoted;
    var lines := HeadLines(h);
    assert lines[1] == "handoff: " + Quoted(h.id) && lines[2] == "task: " + Quoted(h.taskId);
    assert lines[3] == "change_set: " + Quoted(h.changeSetId) && lines[4] == "goal: " + Quoted(h.goal);
    assert lines[5] == "repository: " + Quoted(h.repositoryId) && lines[6] == "base: " + Quoted(h.base);
    assert lines[7] == "head: " + Quoted(h.head) && lines[8] == "branch: " + Quoted(h.branch);
    assert lines[9] == "worktree: " + Quoted(h.worktree) && lines[10] == "source_observation: " + Quoted(h.observationId);
  }

  lemma OrientationHas(h: Handoff)
    ensures forall line :: line in HeadLines(h) ==> line in OrientationLines(h)
    ensures forall s :: s in h.scopes ==> "- " + Quoted(s) in OrientationLines(h)
    ensures forall f :: f in h.knownFailures ==> "- " + Quoted(f) in OrientationLines(h)
    ensures Quoted(h.nextAction) in OrientationLines(h)
  {
    hide Quoted, HeadLines;
    BulletsHave(h.scopes);
    BulletsHave(h.knownFailures);
    assert ["next_action:", Quoted(h.nextAction)][1] == Quoted(h.nextAction);
  }

  lemma BulletsHave(values: seq<string>)
    ensures forall v :: v in values ==> "- " + Quoted(v) in Bullets(values)
  {
    hide Quoted;
    forall v | v in values
      ensures "- " + Quoted(v) in Bullets(values)
    {
      var i :| 0 <= i < |values| && values[i] == v;
      assert Bullets(values)[i] == "- " + Quoted(v);
    }
  }

  // ----- what a context may leave out

  /** What the reference loops make optional or missing. */
  lemma {:induction false} SplitLeaves(ids: seq<Id>, records: map<Id, Reference>, missingLine: string -> string)
    ensures var c := SplitAll(ids, records, missingLine);
            && (forall it :: it in c.optional ==> it.id in ids && it.id in records && !records[it.id].critical)
            && (forall id :: id in c.missing ==> id in ids && id !in records)
  {
    if ids != [] {
      var n := |ids| - 1;
      SplitLeaves(ids[..n], records, missingLine);
      assert ids == ids[..n] + [ids[n]];
    }
  }

  predicate CutEvidence(evidence: map<Id, Evidence>, id: Id) {
    id in evidence && (evidence[id].state == Passed || evidence[id].state == Superseded)
  }

  predicate CutDecisions(decisions: map<Id, ReviewDecision>, id: Id) {
    id in decisions && decisions[id].outcome == Records.Ready
  }

  /** A deferral of evidence: for the target or the profile if it is passed or superseded, or for want of a record. */
  ghost predicate CutsEvidence(h: Handoff, evidence: map<Id, Evidence>, d: Deferred) {
    && d.count == |d.ids| > 0 && (forall id :: id in d.ids ==> id in h.evidenceIds)
    && (d.reason == TargetReached || d.reason == CountLimit || d.reason == MissingRecords)
    && forall id :: id in d.ids ==>
         if d.reason == MissingRecords then id !in evidence
         else CutEvidence(evidence, id)
  }

  ghost predicate CutsDecisions(h: Handoff, decisions: map<Id, ReviewDecision>, d: Deferred) {
    && d.count == |d.ids| > 0 && (forall id :: id in d.ids ==> id in h.decisionIds)
    && (d.reason == TargetReached || d.reason == CountLimit || d.reason == MissingRecords)
    && forall id :: id in d.ids ==>
         if d.reason == MissingRecords then id !in decisions else CutDecisions(decisions, id)
  }

  lemma {:induction false} SinglesLeave(source: Source, ids: seq<Id>)
    ensures forall d :: d in Singles(source, ids) ==>
              d.source == source && d.reason == TargetReached && d.count == |d.ids| == 1 && d.ids[0] in ids
  {
    if ids != [] {
      SinglesLeave(source, ids[1..]);
    }
  }

  /** The deferrals of optional records name records of the list only. */
  lemma RecordsLeave(counter: Counter, content: string, title: string, source: Source, optional: seq<Item>, limit: nat, target: int)
    ensures var refused := Expand(counter, content, title, Take(optional, limit), false, target).deferred;
            forall d :: d in RecordsDeferred(source, refused, optional, limit) ==>
              && d.source == source && (d.reason == TargetReached || d.reason == CountLimit)
              && d.count == |d.ids| > 0 && forall id :: id in d.ids ==> id in Ids(optional)
  {
    hide Expand, Ids;
    var section := Expand(counter, content, title, Take(optional, limit), false, target);
    ExpandPartitions(counter, content, title, Take(optional, limit), false, target);
    SinglesLeave(source, section.deferred);
    var n := |Take(optional, limit)|;
    IdsSplit(optional, n);
    assert optional[..n] == Take(optional, limit);
    assert Ids(optional) == section.deferred + section.included + Ids(optional[n..]);
  }

  lemma EvidenceCut(h: Handoff, evidence: map<Id, Evidence>, counter: Counter, content: string, title: string, limit: nat, target: int)
    ensures var e := EvidenceSplit(h, evidence);
            var refused := Expand(counter, content, title, Take(e.optional, limit), false, target).deferred;
            forall d :: d in RecordsDeferred(EvidenceSummaries, refused, e.optional, limit) + Group(EvidenceSummaries, MissingRecords, e.missing)
              ==> CutsEvidence(h, evidence, d)
  {
    hide Expand, RecordsDeferred, SplitAll, Take, EvidenceLine;
    var e := EvidenceSplit(h, evidence);
    SplitLeaves(h.evidenceIds, Evidences(h, evidence), MissingLine("evidence"));
    RecordsLeave(counter, content, title, EvidenceSummaries, e.optional, limit, target);
    IdsOf(e.optional);
    var refused := Expand(counter, content, title, Take(e.optional, limit), false, target).deferred;
    forall d | d in RecordsDeferred(EvidenceSummaries, refused, e.optional, limit)
      ensures CutsEvidence(h, evidence, d)
    {
      forall id | id in d.ids
        ensures id in h.evidenceIds && CutEvidence(evidence, id)
      {
        var it :| it in e.optional && it.id == id;
      }
    }
    forall d | d in Group(EvidenceSummaries, MissingRecords, e.missing)
      ensures CutsEvidence(h, evidence, d)
    {
      assert e.missing != [] && d == Deferred(EvidenceSummaries, MissingRecords, e.missing, |e.missing|);
      forall id | id in d.ids
        ensures id in h.evidenceIds && id !in evidence
      {
        assert id in e.missing;
      }
    }
  }

  lemma DecisionsCut(h: Handoff, decisions: map<Id, ReviewDecision>, counter: Counter, content: string, title: string, limit: nat, target: int)
    ensures var e := DecisionSplit(h, decisions);
            var refused := Expand(counter, content, title, Take(e.optional, limit), false, target).deferred;
            forall d :: d in RecordsDeferred(DecisionSummaries, refused, e.optional, limit) + Group(DecisionSummaries, MissingRecords, e.missing)
              ==> CutsDecisions(h, decisions, d)
  {
    hide Expand, RecordsDeferred, SplitAll, Take, DecisionLines;
    var e := DecisionSplit(h, decisions);
    SplitLeaves(h.decisionIds, Decisions(h, decisions), MissingLine("review decision"));
    RecordsLeave(counter, content, title, DecisionSummaries, e.optional, limit, target);
    IdsOf(e.optional);
    var refused := Expand(counter, content, title, Take(e.optional, limit), false, target).deferred;
    forall d | d in RecordsDeferred(DecisionSummaries, refused, e.optional, limit)
      ensures CutsDecisions(h, decisions, d)
    {
      forall id | id in d.ids
        ensures id in h.decisionIds && CutDecisions(decisions, id)
      {
        var it :| it in e.optional && it.id == id;
      }
    }
    forall d | d in Group(DecisionSummaries, MissingRecords, e.missing)
      ensures CutsDecisions(h, decisions, d)
    {
      assert e.missing != [] && d == Deferred(DecisionSummaries, MissingRecords, e.missing, |e.missing|);
      forall id | id in d.ids
        ensures id in h.decisionIds && id !in decisions
      {
        assert id in e.missing;
      }
    }
  }

  lemma IdsOf(items: seq<Item>)
    ensures forall id :: id in Ids(items) ==> exists it :: it in items && it.id == id
  {
    forall id | id in Ids(items)
      ensures exists it :: it in items && it.id == id
    {
      var i :| 0 <= i < |items| && Ids(items)[i] == id;
      assert items[i] in items;
    }
  }

  /**
   * Only passed or superseded evidence and ready decisions are cut for the target or the limit of the
   * profile; other deferred references have no record. The diff is deferred if there is one and the
   * context has no excerpt of it, and files, chats and terminals always are.
   */
  lemma OnlyOptionalIsCut(h: Handoff, evidence: map<Id, Evidence>, decisions: map<Id, ReviewDecision>, changedPaths: seq<string>,
                          diff: string, b: Budget, counter: Counter)
    requires ValidBudget(b)
    ensures var m := Capsule(h, evidence, decisions, changedPaths, diff, b, counter);
            && (forall d :: d in m.deferred && d.source == EvidenceSummaries ==> CutsEvidence(h, evidence, d))
            && (forall d :: d in m.deferred && d.source == DecisionSummaries ==> CutsDecisions(h, decisions, d))
            && (Deferred(Diff, RetrievalOnly, [], 1) in m.deferred <==> diff != "" && !m.diffIncluded)
            && Deferred(SourceFiles, RetrievalOnly, [], 0) in m.deferred
            && Deferred(ChatTranscript, RetrievalOnly, [], 0) in m.deferred
            && Deferred(TerminalHistory, RetrievalOnly, [], 0) in m.deferred
  {
    hide Expand, PathSection, DiffPart, MandatoryContent, NormalizedPaths, RecordsDeferred, SplitAll, Take, CutsEvidence, CutsDecisions;
    hide EvidenceSplit, DecisionSplit, Omitted, AllDeferred;
    var e, d := EvidenceSplit(h, evidence), DecisionSplit(h, decisions);
    var p := PartsOf(h, evidence, decisions, changedPaths, diff, b, counter);
    EvidenceCut(h, evidence, counter, MandatoryContent(h, evidence, decisions), EVIDENCE_TITLE, b.maxEvidence, b.target);
    DecisionsCut(h, decisions, counter, p.evidence.content, DECISION_TITLE, b.maxDecisions, b.target);
    RecordsLeave(counter, MandatoryContent(h, evidence, decisions), EVIDENCE_TITLE, EvidenceSummaries, e.optional, b.maxEvidence, b.target);
    RecordsLeave(counter, p.evidence.content, DECISION_TITLE, DecisionSummaries, d.optional, b.maxDecisions, b.target);
    var paths := NormalizedPaths(changedPaths);
    DeferredAre(RecordsDeferred(EvidenceSummaries, p.evidence.deferred, e.optional, b.maxEvidence),
                RecordsDeferred(DecisionSummaries, p.decisions.deferred, d.optional, b.maxDecisions),
                Group(ChangedPaths, TargetOrCountLimit, Omitted(paths, p.paths.included)),
                if diff != "" && !p.finished.1 then [Deferred(Diff, RetrievalOnly, [], 1)] else [], e.missing, d.missing);
  }

  lemma DeferredAre(evidence: seq<Deferred>, decisions: seq<Deferred>, paths: seq<Deferred>, diff: seq<Deferred>,
                    missingEvidence: seq<Id>, missingDecisions: seq<Id>)
    ensures forall d :: d in AllDeferred(evidence, decisions, paths, diff, missingEvidence, missingDecisions) <==>
              || d in evidence || d in decisions || d in paths || d in diff
              || d == Deferred(SourceFiles, RetrievalOnly, [], 0) || d == Deferred(ChatTranscript, RetrievalOnly, [], 0)
              || d == Deferred(TerminalHistory, RetrievalOnly, [], 0)
              || d in Group(EvidenceSummaries, MissingRecords, missingEvidence)
              || d in Group(DecisionSummaries, MissingRecords, missingDecisions)
  {
    hide Group;
  }

  // ----- what a line tells

  /** Evidence of one id and kind in different states is never shown alike. */
  lemma EvidenceLineTells(e: Evidence, f: Evidence)
    requires e.id == f.id && e.kind == f.kind && EvidenceLine(e) == EvidenceLine(f)
    ensures e.state == f.state
  {
    hide Quoted;
    var start := "- " + Quoted(e.id) + ": kind=" + e.kind + " state=";
    AfterStart(start, StateText(e.state), EvidenceLine(e));
    AfterStart(start, StateText(f.state), EvidenceLine(f));
    StatesTell(e.state, f.state);
  }

  lemma StatesTell(s: EvidenceState, t: EvidenceState)
    requires forall i :: 0 <= i < |StateText(s)| && i < |StateText(t)| ==> StateText(s)[i] == StateText(t)[i]
    ensures s == t
  {
    assert StateText(s)[0] == StateText(t)[0] && StateText(s)[1] == StateText(t)[1];
  }

  lemma AfterStart(start: string, word: string, line: string)
    requires start + word <= line
    ensures forall i :: 0 <= i < |word| ==> |start| + i < |line| && line[|start| + i] == word[i]
  {
    assert forall i :: 0 <= i < |word| ==> (start + word)[|start| + i] == word[i];
  }

  lemma DecisionLinesTell(d: ReviewDecision, e: ReviewDecision)
    requires d.id == e.id && DecisionLines(d) == DecisionLines(e)
    ensures d.outcome == e.outcome
  {
    hide Quoted, FindingLines;
    var start := "- " + Quoted(d.id) + ": outcome=";
    AfterStart(start, OutcomeText(d.outcome) + " ", DecisionLines(d));
    AfterStart(start, OutcomeText(e.outcome) + " ", DecisionLines(e));
    OutcomesTell(d.outcome, e.outcome);
  }

  lemma OutcomesTell(o: Records.ReviewOutcome, p: Records.ReviewOutcome)
    requires forall i :: 0 <= i <= |OutcomeText(o)| && i <= |OutcomeText(p)| ==> (OutcomeText(o) + " ")[i] == (OutcomeText(p) + " ")[i]
    ensures o == p
  {
    var s, t := OutcomeText(o) + " ", OutcomeText(p) + " ";
    assert s[0] == t[0] && s[5] == t[5];
  }

  // ----- how far a section goes

  /** The first summary that fits on its own, by what each costs. */
  lemma {:induction false} FirstFitIs(counter: Counter, content: string, title: string, items: seq<Item>, target: int)
    ensures var n := FirstFit(counter, content, title, items, target);
            && (forall k :: 0 <= k < n ==> counter(content + "\n\n## " + title + "\n" + items[k].line) > target)
            && (n < |items| ==> counter(content + "\n\n## " + title + "\n" + items[n].line) <= target)
    decreases |items|
  {
    if FirstFit(counter, content, title, items, target) > 0 {
      FirstFitIs(counter, content, title, items[1..], target);
    }
  }

  lemma {:induction false} StartedFitsIff(counter: Counter, content: string, title: string, items: seq<Item>, target: int)
    ensures FitInTurn(counter, content, title, items, true, target) <==>
            forall k :: 0 < k <= |items| ==> counter(content + Tail(Lines(items[..k]))) <= target
    decreases |items|
  {
    if items != [] {
      var next := content + "\n" + items[0].line;
      StartedFitsIff(counter, next, title, items[1..], target);
      forall k | 0 < k <= |items|
        ensures content + Tail(Lines(items[..k])) == next + Tail(Lines(items[1..][..k - 1]))
      {
        TailFirst(items[..k]);
        assert items[..k][1..] == items[1..][..k - 1];
        assert content + ("\n" + items[0].line + Tail(Lines(items[1..][..k - 1]))) == next + Tail(Lines(items[1..][..k - 1]));
      }
      FirstAndRest(counter, content, next, items, target);
    }
  }

  lemma TailFirst(items: seq<Item>)
    requires items != []
    ensures Tail(Lines(items)) == "\n" + items[0].line + Tail(Lines(items[1..]))
    ensures Joined(Lines(items)) == items[0].line + Tail(Lines(items[1..]))
  {
    hide Lines;
    LinesFirst(items);
    JoinedIsTail(Lines(items));
    assert Lines(items)[1..] == Lines(items[1..]);
  }

  lemma FirstAndRest(counter: Counter, content: string, next: string, items: seq<Item>, target: int)
    requires items != []
    requires forall k :: 0 < k <= |items| ==> content + Tail(Lines(items[..k])) == next + Tail(Lines(items[1..][..k - 1]))
    ensures (forall k :: 0 < k <= |items| ==> counter(content + Tail(Lines(items[..k]))) <= target) <==>
            counter(next) <= target && forall k :: 0 < k <= |items[1..]| ==> counter(next + Tail(Lines(items[1..][..k]))) <= target
  {
    hide Lines, Tail;
    NothingTailed(items[1..]);
    assert content + Tail(Lines(items[..1])) == next + Tail(Lines(items[1..][..0])) == next;
    if forall k :: 0 < k <= |items| ==> counter(content + Tail(Lines(items[..k]))) <= target {
      assert counter(content + Tail(Lines(items[..1]))) <= target;
      forall k | 0 < k <= |items[1..]|
        ensures counter(next + Tail(Lines(items[1..][..k]))) <= target
      {
        assert counter(content + Tail(Lines(items[..k + 1]))) <= target;
      }
    } else {
      var k :| 0 < k <= |items| && counter(content + Tail(Lines(items[..k]))) > target;
      assert content + Tail(Lines(items[..k])) == next + Tail(Lines(items[1..][..k - 1]));
      if k > 1 {
        assert !(counter(next + Tail(Lines(items[1..][..k - 1]))) <= target);
      }
    }
  }

  lemma NothingTailed(items: seq<Item>)
    ensures Tail(Lines(items[..0])) == ""
  {
  }

  /** Items fit in turn exactly when the section is within the target after each of them. */
  lemma FitInTurnIff(counter: Counter, content: string, title: string, items: seq<Item>, target: int)
    ensures FitInTurn(counter, content, title, items, false, target) <==>
            forall k :: 0 < k <= |items| ==> counter(AppendSection(content, title, Lines(items[..k]))) <= target
  {
    hide Lines, Tail;
    if items != [] {
      var next := content + "\n\n## " + title + "\n" + items[0].line;
      StartedFitsIff(counter, next, title, items[1..], target);
      NothingTailed(items[1..]);
      forall k | 0 < k <= |items|
        ensures AppendSection(content, title, Lines(items[..k])) == next + Tail(Lines(items[1..][..k - 1]))
      {
        TailFirst(items[..k]);
        assert items[..k][1..] == items[1..][..k - 1];
      }
      if forall k :: 0 < k <= |items| ==> counter(AppendSection(content, title, Lines(items[..k]))) <= target {
        assert counter(AppendSection(content, title, Lines(items[..1]))) <= target;
        forall k | 0 < k <= |items[1..]|
          ensures counter(next + Tail(Lines(items[1..][..k]))) <= target
        {
          assert counter(AppendSection(content, title, Lines(items[..k + 1]))) <= target;
        }
      }
    }
  }
}
