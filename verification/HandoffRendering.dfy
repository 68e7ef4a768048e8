/**
 * The lines of a handoff context (application/handoff_context.py): structured facts only, each
 * value quoted as JSON text.
 */
module HandoffRendering {
  import opened Common
  import opened Sorting
  import Records

  datatype EvidenceState = Declared | Running | Passed | Failed | Unavailable | Stale | Superseded

  /** `changeSet` is the subject when the subject is a Change Set. */
  datatype Evidence = Evidence(id: Id, changeSet: Option<Id>, kind: string, state: EvidenceState,
                               boundCommit: Option<string>, staleReasons: seq<string>)

  datatype Finding = Finding(id: Id, severity: string, scope: string, isOpen: bool)

  datatype ReviewDecision = ReviewDecision(id: Id, changeSetId: Id, outcome: Records.ReviewOutcome, head: string, findings: seq<Finding>)

  datatype Handoff = Handoff(
    id: Id, taskId: Id, changeSetId: Id, goal: string, repositoryId: Id, base: string, head: string, branch: string,
    worktree: string, observationId: Id, scopes: seq<string>, evidenceIds: seq<Id>, decisionIds: seq<Id>,
    knownFailures: seq<string>, nextAction: string)

  // ----- quoting

  function HexChar(n: nat): char
    requires n < 16
  {
    if n < 10 then '0' + n as char else 'a' + (n - 10) as char
  }

  /** The escape of a character that may not stand in JSON text, without its backslash. */
  function Escape(c: char): Option<string> {
    if c == '\"' || c == '\\' then Some([c])
    else if c == '\n' then Some("n")
    else if c == '\r' then Some("r")
    else if c == '\t' then Some("t")
    else if c == '\U{8}' then Some("b")
    else if c == '\U{c}' then Some("f")
    else if c < ' ' then Some(['u', '0', '0', HexChar(c as nat / 16), HexChar(c as nat % 16)])
    else None
  }

  function QuoteChar(c: char): string {
    match Escape(c)
    case Some(e) => ['\\'] + e
    case None => [c]
  }

  function QuoteAll(value: string): string {
    if value == [] then [] else QuoteChar(value[0]) + QuoteAll(value[1..])
  }

  /** `_quoted` */
  function Quoted(value: string): string {
    ['\"'] + QuoteAll(value) + ['\"']
  }

  /** The characters at which Python's `splitlines` ends a line. */
  predicate BreaksLine(c: char) {
    '\n' <= c <= '\r' || '\U{1c}' <= c <= '\U{1e}' || IsWideBreak(c)
  }

  predicate IsWideBreak(c: char) {
    c == '\U{85}' || c == '\U{2028}' || c == '\U{2029}'
  }

  lemma QuoteCharIs(c: char)
    ensures forall x :: x in QuoteChar(c) ==> x >= ' '
    ensures forall x :: x in QuoteChar(c) && IsWideBreak(x) <==> x == c && IsWideBreak(c)
  {
    assert forall n: nat :: n < 16 ==> '0' <= HexChar(n) <= 'f';
  }

  /**
   * No control character stands in quoted text, so no newline or return does; of the characters at
   * which `splitlines` ends a line it has exactly those of U+0085, U+2028 and U+2029 the value has.
   */
  lemma {:induction false} QuotedBreaks(value: string)
    ensures forall x :: x in Quoted(value) ==> x >= ' '
    ensures forall x :: x in Quoted(value) && BreaksLine(x) <==> x in value && IsWideBreak(x)
  {
    if value != [] {
      QuotedBreaks(value[1..]);
      QuoteCharIs(value[0]);
      QuotedParts(value);
    } else {
      assert Quoted(value) == ['\"', '\"'];
    }
  }

  lemma QuotedParts(value: string)
    requires value != []
    ensures forall x :: x in Quoted(value) <==> x in QuoteChar(value[0]) || x in Quoted(value[1..])
    ensures forall x :: x in value <==> x == value[0] || x in value[1..]
  {
    assert value == [value[0]] + value[1..];
  }

  /** A quoted character tells which it is, and where it ends. */
  lemma QuoteCharDecodes(c: char, d: char, s: string, t: string)
    requires QuoteChar(c) + s == QuoteChar(d) + t
    ensures c == d && s == t
  {
    var whole := QuoteChar(c) + s;
    assert whole[0] == QuoteChar(c)[0] == QuoteChar(d)[0];
    if Escape(c).Some? {
      assert Escape(d).Some?;
      assert whole[1] == Escape(c).value[0] == Escape(d).value[0];
      assert |Escape(c).value| == |Escape(d).value|;
      if |Escape(c).value| == 5 {
        assert whole[4] == Escape(c).value[3] == Escape(d).value[3];
        assert whole[5] == Escape(c).value[4] == Escape(d).value[4];
        assert c as nat == c as nat / 16 * 16 + c as nat % 16 == d as nat;
      }
    }
    assert |QuoteChar(c)| == |QuoteChar(d)|;
    assert s == whole[|QuoteChar(c)|..] == t;
  }

  /** Different values are never quoted alike. */
  lemma {:induction false} QuoteAllInjective(a: string, b: string)
    requires QuoteAll(a) == QuoteAll(b)
    ensures a == b
  {
    if a != [] && b != [] {
      QuoteCharDecodes(a[0], b[0], QuoteAll(a[1..]), QuoteAll(b[1..]));
      QuoteAllInjective(a[1..], b[1..]);
      assert a == [a[0]] + a[1..] && b == [b[0]] + b[1..];
    }
  }

  lemma QuotedInjective(a: string, b: string)
    requires Quoted(a) == Quoted(b)
    ensures a == b
  {
    assert Quoted(a)[1..|Quoted(a)| - 1] == QuoteAll(a);
    assert Quoted(b)[1..|Quoted(b)| - 1] == QuoteAll(b);
    QuoteAllInjective(a, b);
  }

  // ----- lines

  /** `separator.join(items)` */
  function JoinWith(separator: string, items: seq<string>): string {
    if items == [] then [] else if |items| == 1 then items[0] else items[0] + separator + JoinWith(separator, items[1..])
  }

  function Joined(items: seq<string>): string {
    JoinWith("\n", items)
  }

  function Bullets(values: seq<string>): (r: seq<string>)
    ensures |r| == |values|
    ensures forall i :: 0 <= i < |values| ==> r[i] == "- " + Quoted(values[i])
  {
    seq(|values|, i requires 0 <= i < |values| => "- " + Quoted(values[i]))
  }

  function HeadLines(h: Handoff): seq<string> {
    ["# WeftMark handoff",
     "handoff: " + Quoted(h.id), "task: " + Quoted(h.taskId), "change_set: " + Quoted(h.changeSetId),
     "goal: " + Quoted(h.goal), "repository: " + Quoted(h.repositoryId), "base: " + Quoted(h.base), "head: " + Quoted(h.head),
     "branch: " + Quoted(h.branch), "worktree: " + Quoted(h.worktree), "source_observation: " + Quoted(h.observationId),
     "scopes:"]
  }

  function OrientationLines(h: Handoff): seq<string> {
    HeadLines(h) + Bullets(h.scopes) + ["known_failures:"]
    + (if h.knownFailures != [] then Bullets(h.knownFailures) else ["- none recorded"])
    + ["next_action:", Quoted(h.nextAction)]
  }

  /** `_render_orientation` */
  function Orientation(h: Handoff): string {
    Joined(OrientationLines(h))
  }

  function StateText(s: EvidenceState): string {
    match s
    case Declared => "declared"
    case Running => "running"
    case Passed => "passed"
    case Failed => "failed"
    case Unavailable => "unavailable"
    case Stale => "stale"
    case Superseded => "superseded"
  }

  /** `_render_evidence` */
  function EvidenceLine(e: Evidence): string {
    var binding := if e.boundCommit.None? || e.boundCommit.value == "" then "unbound" else e.boundCommit.value;
    "- " + Quoted(e.id) + ": kind=" + e.kind + " state=" + StateText(e.state) + " bound_commit=" + Quoted(binding)
    + (if e.staleReasons == [] then ""
       else " stale_reasons=" + Quoted(JoinWith(",", SortBy(LexLeq, e.staleReasons))))
  }

  function OutcomeText(o: Records.ReviewOutcome): string {
    match o
    case Ready => "ready"
    case ReadyWithFollowUp => "ready_with_follow_up"
    case BlockedReview => "blocked"
    case StaleReview => "stale"
    case EvidenceIncomplete => "evidence_incomplete"
  }

  function FindingLines(findings: seq<Finding>): seq<string> {
    if findings == [] then []
    else
      var f := findings[0];
      (if f.isOpen
       then ["  - " + Quoted(f.id) + ": severity=" + f.severity + " scope=" + Quoted(f.scope) + " status=open"]
       else []) + FindingLines(findings[1..])
  }

  /** `_render_decision` */
  function DecisionLines(d: ReviewDecision): string {
    var line := "- " + Quoted(d.id) + ": outcome=" + OutcomeText(d.outcome) + " head=" + Quoted(d.head);
    var open := FindingLines(d.findings);
    if open == [] then line else Joined([line, "  open_findings:"] + open)
  }

  /** `_render_missing_reference` */
  function MissingLine(kind: string): string -> string {
    id => "- " + Quoted(id) + ": referenced " + kind + " record was not supplied to materializer"
  }

  /** `_append_section` */
  function AppendSection(content: string, title: string, items: seq<string>): string {
    if items == [] then content else content + "\n\n## " + title + "\n" + Joined(items)
  }

  lemma {:induction false} JoinedNext(items: seq<string>, item: string)
    requires items != []
    ensures Joined(items + [item]) == Joined(items) + "\n" + item
  {
    if |items| == 1 {
      assert (items + [item])[1..] == [item];
      assert Joined([item]) == item && Joined(items) == items[0];
    } else {
      assert (items + [item])[1..] == items[1..] + [item];
      JoinedNext(items[1..], item);
      assert Joined(items + [item]) == items[0] + "\n" + (Joined(items[1..]) + "\n" + item);
    }
  }

  // ----- characters a text lacks

  /** A character no escape is written with. */
  predicate IsPlain(c: char) {
    c > ' ' && Escape(c).None? && c != 'n' && c != 'r' && c != 't' && c != 'u' && !('0' <= c <= 'f')
  }

  lemma {:induction false} QuotedLacks(value: string, c: char)
    requires IsPlain(c) && c !in value
    ensures c !in QuoteAll(value) && c !in Quoted(value)
  {
    if value != [] {
      QuotedLacks(value[1..], c);
      assert forall n: nat :: n < 16 ==> HexChar(n) != c;
      assert c !in QuoteChar(value[0]);
    }
  }

  lemma {:induction false} JoinedLacks(lines: seq<string>, c: char)
    requires c != '\n' && forall l :: l in lines ==> c !in l
    ensures c !in Joined(lines)
  {
    if |lines| > 1 {
      JoinedLacks(lines[1..], c);
      assert c !in lines[0];
    }
  }
}
