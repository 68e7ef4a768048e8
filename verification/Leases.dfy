/**
 * Scopes, leased locks and claims as values: the operations of domain/lock.py and the
 * constructor checks of Claim. `fnmatchcase` is foreign code, so every function that
 * may call it takes the matcher as the parameter `glob`.
 */
module Leases {
  import opened Common

  datatype ScopeKind = File | Contract | Boundary | Schema | Surface

  /** A canonical scope; its identity is the pair of its fields. */
  datatype Scope = Scope(kind: ScopeKind, key: string)

  /** `glob(name, pattern)` */
  type Glob = (string, string) -> bool

  predicate IsMagic(c: char) {
    c == '*' || c == '?' || c == '['
  }

  predicate HasMagic(value: string) {
    exists i :: 0 <= i < |value| && IsMagic(value[i])
  }

  function LiteralHead(value: string): string {
    if value == [] || IsMagic(value[0]) then [] else [value[0]] + LiteralHead(value[1..])
  }

  function StripSlashes(value: string): string {
    if value != [] && value[|value| - 1] == '/' then StripSlashes(value[..|value| - 1]) else value
  }

  function LiteralPrefix(value: string): string {
    StripSlashes(LiteralHead(value))
  }

  predicate PathPrefix(value: string, prefix: string) {
    value == prefix || prefix + "/" <= value
  }

  predicate FileScopesOverlap(glob: Glob, first: string, second: string) {
    if first == second then true
    else if !HasMagic(first) && !HasMagic(second) then false
    else if !HasMagic(second) then glob(second, first)
    else if !HasMagic(first) then glob(first, second)
    else
      var p, q := LiteralPrefix(first), LiteralPrefix(second);
      p == "" || q == "" || PathPrefix(p, q) || PathPrefix(q, p)
  }

  predicate ScopesOverlap(glob: Glob, first: Scope, second: Scope) {
    if first.kind != second.kind then false
    else if !first.kind.File? then first == second
    else FileScopesOverlap(glob, first.key, second.key)
  }

  lemma OverlapSymmetric(glob: Glob, first: Scope, second: Scope)
    ensures ScopesOverlap(glob, first, second) == ScopesOverlap(glob, second, first)
  {
  }

  /** Scopes of any kind but files overlap exactly when they are the same, and every scope overlaps itself. */
  lemma OverlapOfOtherKinds(glob: Glob, first: Scope, second: Scope)
    ensures first.kind != File || second.kind != File ==> (ScopesOverlap(glob, first, second) <==> first == second)
    ensures first == second ==> ScopesOverlap(glob, first, second)
  {
  }

  /** The path segments of a text. */
  function Segments(path: string): (r: seq<string>)
    ensures r != []
  {
    if path == [] then [[]]
    else
      var rest := Segments(path[1..]);
      if path[0] == '/' then [[]] + rest else [[path[0]] + rest[0]] + rest[1..]
  }

  lemma DifferentStarts(value: string, prefix: string)
    requires prefix == [] || value == [] || prefix[0] != value[0]
    ensures PathPrefix(value, prefix) <==> Segments(prefix) <= Segments(value)
  {
    if prefix == [] {
      assert prefix + "/" == "/";
      if value != [] && value[0] == '/' {
        assert value == "/" + value[1..];
        assert Segments(value)[0] == [];
      }
    } else if value == [] {
      assert |prefix + "/"| > 0;
      FirstSegment(prefix);
    } else {
      assert (prefix + "/")[0] == prefix[0];
      FirstSegment(prefix);
      FirstSegment(value);
    }
  }

  lemma FirstSegment(path: string)
    requires path != []
    ensures path[0] == '/' <==> Segments(path)[0] == []
    ensures path[0] == '/' ==> |Segments(path)| > 1
    ensures path[0] != '/' ==> Segments(path)[0][0] == path[0]
  {
  }

  lemma SameStart<T>(x: T, s: seq<T>, t: seq<T>)
    ensures [x] + s <= [x] + t <==> s <= t
    ensures [x] + s == [x] + t <==> s == t
  {
    assert ([x] + s)[1..] == s && ([x] + t)[1..] == t;
    if s <= t {
      assert ([x] + t)[..|s| + 1] == [x] + s;
    }
    if [x] + s <= [x] + t {
      assert t[..|s|] == ([x] + t)[1..|s| + 1];
    }
  }

  /** Segment by segment: the first is extended by one character, or a new one is begun. */
  lemma SegmentsStart(c: char, p: string, v: string)
    ensures Segments([c] + p) <= Segments([c] + v) <==> Segments(p) <= Segments(v)
  {
    var s, t := Segments(p), Segments(v);
    assert ([c] + p)[1..] == p && ([c] + v)[1..] == v;
    if c == '/' {
      SameStart([], s, t);
    } else {
      assert s == [s[0]] + s[1..] && t == [t[0]] + t[1..];
      SameStart(c, s[0], t[0]);
      if s[0] == t[0] {
        SameStart(s[0], s[1..], t[1..]);
        SameStart([c] + s[0], s[1..], t[1..]);
      }
    }
  }

  /** `_path_prefix` compares whole segments. */
  lemma {:induction false} PathPrefixIsSegments(value: string, prefix: string)
    ensures PathPrefix(value, prefix) <==> Segments(prefix) <= Segments(value)
  {
    if prefix != [] && value != [] && prefix[0] == value[0] {
      var c, p, v := prefix[0], prefix[1..], value[1..];
      assert prefix == [c] + p && value == [c] + v;
      PathPrefixIsSegments(v, p);
      SegmentsStart(c, p, v);
      SameStart(c, p, v);
      SameStart(c, p + "/", v);
      assert prefix + "/" == [c] + (p + "/");
    } else {
      DifferentStarts(value, prefix);
    }
  }

  /** What the code compares of two patterns: the literal part before the first magic character, without its last slashes. */
  lemma {:induction false} LiteralHeadIs(value: string)
    ensures LiteralHead(value) <= value && !HasMagic(LiteralHead(value))
    ensures |LiteralHead(value)| < |value| ==> IsMagic(value[|LiteralHead(value)|])
  {
    if value != [] && !IsMagic(value[0]) {
      LiteralHeadIs(value[1..]);
      var rest := LiteralHead(value[1..]);
      assert forall i :: 0 < i < |LiteralHead(value)| ==> LiteralHead(value)[i] == rest[i - 1];
    }
  }

  /**
   * Exactly when two file scopes overlap: literals when they are equal, a literal and a pattern when the
   * pattern matches it, and patterns when the segments of one literal part begin with those of the other.
   */
  lemma FileOverlapIff(glob: Glob, first: string, second: string)
    ensures !HasMagic(first) && !HasMagic(second) ==> (FileScopesOverlap(glob, first, second) <==> first == second)
    ensures HasMagic(first) && !HasMagic(second) ==> (FileScopesOverlap(glob, first, second) <==> glob(second, first))
    ensures !HasMagic(first) && HasMagic(second) ==> (FileScopesOverlap(glob, first, second) <==> glob(first, second))
    ensures HasMagic(first) && HasMagic(second) ==>
              (FileScopesOverlap(glob, first, second) <==>
                var p, q := StripSlashes(LiteralHead(first)), StripSlashes(LiteralHead(second));
                p == "" || q == "" || Segments(p) <= Segments(q) || Segments(q) <= Segments(p))
  {
    PathPrefixIsSegments(StripSlashes(LiteralHead(first)), StripSlashes(LiteralHead(second)));
    PathPrefixIsSegments(StripSlashes(LiteralHead(second)), StripSlashes(LiteralHead(first)));
  }

  // ----- patterns that match one file and are not seen to overlap

  /** What `fnmatchcase` promises here: a name a pattern matches starts with the literal part of the pattern. */
  ghost predicate MatchesHead(glob: Glob) {
    forall name: string, pattern: string :: glob(name, pattern) ==> LiteralHead(pattern) <= name
  }

  /** A literal with a star matches every name that starts with it. */
  ghost predicate MatchesStar(glob: Glob) {
    forall name: string, literal: string :: !HasMagic(literal) && literal <= name ==> glob(name, literal + "*")
  }

  /** `q` continues `p` inside a path segment. */
  predicate WithinSegment(p: string, q: string) {
    p != "" && p[|p| - 1] != '/' && p < q && q[|p|] != '/'
  }

  lemma {:induction false} Stripped(value: string)
    ensures StripSlashes(value) <= value
    ensures StripSlashes(value) != "" ==> StripSlashes(value)[|StripSlashes(value)| - 1] != '/'
    ensures forall i :: |StripSlashes(value)| <= i < |value| ==> value[i] == '/'
  {
    if value != [] && value[|value| - 1] == '/' {
      Stripped(value[..|value| - 1]);
    }
  }

  /** Of two literals that one name starts with, only those apart inside a segment are not nested by segments. */
  lemma NestedUnlessWithin(p: string, q: string)
    requires p <= q
    ensures var a, b := StripSlashes(p), StripSlashes(q);
            (a == "" || b == "" || PathPrefix(a, b) || PathPrefix(b, a)) <==> !WithinSegment(p, q)
  {
    var a, b := StripSlashes(p), StripSlashes(q);
    Stripped(p);
    Stripped(q);
    if p == "" || p[|p| - 1] == '/' {
      if a != "" && |a| < |b| {
        assert b[..|a|] == a && b[|a|] == '/';
        assert a + "/" <= b;
      } else if a != "" && b != "" {
        assert |b| <= |a|;
        assert b == a by { SameStripped(p, q); }
      }
    } else {
      assert a == p;
      if |q| > |p| && q[|p|] == '/' {
        if |b| > |p| {
          assert b[..|p|] == p && b[|p|] == '/';
          assert p + "/" <= b;
        } else {
          SameStripped(p, q);
        }
      } else if |q| > |p| {
        assert |b| > |p|;
        assert b[|p|] != '/';
        assert !(a + "/" <= b) by { assert (a + "/")[|p|] == '/'; }
      }
    }
  }

  lemma SameStripped(p: string, q: string)
    requires p <= q && |StripSlashes(q)| <= |StripSlashes(p)|
    ensures StripSlashes(q) == StripSlashes(p)
  {
    var a, b := StripSlashes(p), StripSlashes(q);
    Stripped(p);
    Stripped(q);
    if a != "" {
      assert q[|a| - 1] == a[|a| - 1];
    }
  }

  /** Two patterns that match one file are missed exactly when their literal parts come apart inside a path segment. */
  lemma MissedWithinSegment(glob: Glob, first: string, second: string, name: string)
    requires MatchesHead(glob) && HasMagic(first) && HasMagic(second)
    requires glob(name, first) && glob(name, second)
    ensures !FileScopesOverlap(glob, first, second) <==>
            WithinSegment(LiteralHead(first), LiteralHead(second)) || WithinSegment(LiteralHead(second), LiteralHead(first))
  {
    var p, q := LiteralHead(first), LiteralHead(second);
    assert p <= name && q <= name;
    if |p| <= |q| {
      NestedUnlessWithin(p, q);
    } else {
      NestedUnlessWithin(q, p);
    }
  }

  /** A name without magic characters matches itself only. */
  ghost predicate MatchesItself(glob: Glob) {
    forall name: string, pattern: string :: !HasMagic(pattern) ==> (glob(name, pattern) <==> name == pattern)
  }

  /**
   * Exactly when two file scopes that share a file are not seen to overlap: both are patterns, and
   * their literal parts come apart inside a path segment.
   */
  lemma SharedFileMissedIff(glob: Glob, first: string, second: string, name: string)
    requires MatchesHead(glob) && MatchesItself(glob)
    requires glob(name, first) && glob(name, second)
    ensures !FileScopesOverlap(glob, first, second) <==>
            HasMagic(first) && HasMagic(second)
            && (WithinSegment(LiteralHead(first), LiteralHead(second)) || WithinSegment(LiteralHead(second), LiteralHead(first)))
  {
    if HasMagic(first) && HasMagic(second) {
      MissedWithinSegment(glob, first, second, name);
    }
  }

  lemma {:induction false} StarHead(literal: string)
    requires !HasMagic(literal)
    ensures LiteralHead(literal + "*") == literal && HasMagic(literal + "*")
  {
    var pattern := literal + "*";
    assert IsMagic(pattern[|literal|]);
    if literal != [] {
      assert !IsMagic(literal[0]);
      assert forall i :: 0 <= i < |literal| - 1 ==> literal[1..][i] == literal[i + 1];
      StarHead(literal[1..]);
      assert pattern[1..] == literal[1..] + "*";
    }
  }

  /**
   * For literals with a star the shared file need not be given: the pairs that share one and are
   * missed are those where one literal continues the other inside a path segment.
   */
  lemma StarsMissedIff(glob: Glob, p: string, q: string)
    requires MatchesHead(glob) && MatchesStar(glob) && !HasMagic(p) && !HasMagic(q)
    ensures (exists name :: glob(name, p + "*") && glob(name, q + "*")) && !FileScopesOverlap(glob, p + "*", q + "*")
            <==> WithinSegment(p, q) || WithinSegment(q, p)
  {
    StarHead(p);
    StarHead(q);
    if (exists name :: glob(name, p + "*") && glob(name, q + "*")) && !FileScopesOverlap(glob, p + "*", q + "*") {
      var name :| glob(name, p + "*") && glob(name, q + "*");
      MissedWithinSegment(glob, p + "*", q + "*", name);
    }
    if WithinSegment(p, q) {
      StarsApart(glob, p, q);
      assert glob(q, p + "*") && glob(q, q + "*");
    }
    if WithinSegment(q, p) {
      StarsApart(glob, q, p);
      OverlapSymmetric(glob, Scope(File, p + "*"), Scope(File, q + "*"));
      assert glob(p, p + "*") && glob(p, q + "*");
    }
  }

  lemma StarsApart(glob: Glob, p: string, q: string)
    requires !HasMagic(p) && !HasMagic(q) && WithinSegment(p, q)
    ensures !FileScopesOverlap(glob, p + "*", q + "*")
  {
    StarHead(p);
    StarHead(q);
    NestedUnlessWithin(p, q);
    assert |p + "*"| != |q + "*"|;
  }

  /** Both match "src/abc", and the ownership of one does not exclude the other. */
  lemma MissedPatterns(glob: Glob)
    requires MatchesHead(glob) && MatchesStar(glob)
    ensures glob("src/abc", "src/a*") && glob("src/abc", "src/ab*")
    ensures !ScopesOverlap(glob, Scope(File, "src/a*"), Scope(File, "src/ab*"))
  {
    assert "src/a" + "*" == "src/a*" && "src/ab" + "*" == "src/ab*";
    StarsApart(glob, "src/a", "src/ab");
  }

  // ----- lock identifiers

  /** The identifier a claim gives its lock number `index`. */
  function LockName(claimId: Id, index: nat): string {
    claimId + ":" + Decimal(index)
  }

  lemma LastColon(c: Id, i: nat)
    ensures |c| < |LockName(c, i)| && LockName(c, i)[|c|] == ':' && LockName(c, i)[..|c|] == c
    ensures forall k :: |c| < k < |LockName(c, i)| ==> LockName(c, i)[k] != ':'
  {
    forall k | |c| < k < |LockName(c, i)|
      ensures LockName(c, i)[k] != ':'
    {
      assert LockName(c, i)[k] == Decimal(i)[k - |c| - 1];
    }
  }

  /** A lock's name determines the claim it belongs to, so two claims never share one. */
  lemma LockNameIdentifiesClaim(c: Id, i: nat, d: Id, j: nat)
    requires LockName(c, i) == LockName(d, j)
    ensures c == d
  {
    LastColon(c, i);
    LastColon(d, j);
  }

  // ----- locks

  datatype LockState = Active | Released | Expired

  datatype Lock = Lock(id: string, scope: Scope, agentId: Id, sessionId: Id, changeSetId: Id,
                       acquiredAt: Time, expiresAt: Time, state: LockState, updatedAt: Time)

  function StateAt(l: Lock, at: Time): LockState {
    if l.state == Active && at >= l.expiresAt then Expired else l.state
  }

  predicate OwnsScopeAt(l: Lock, at: Time) {
    StateAt(l, at) == Active
  }

  predicate ConflictsWith(glob: Glob, l: Lock, m: Lock, at: Time) {
    && l.id != m.id
    && OwnsScopeAt(l, at) && OwnsScopeAt(m, at)
    && ScopesOverlap(glob, l.scope, m.scope)
  }

  predicate HoldsActiveLease(l: Lock, at: Time) {
    l.state == Active && l.acquiredAt <= at && l.updatedAt <= at && at < l.expiresAt
  }

  predicate CanRenew(l: Lock, at: Time, expiresAt: Time) {
    HoldsActiveLease(l, at) && l.expiresAt < expiresAt
  }

  function Renewed(l: Lock, at: Time, expiresAt: Time): Lock {
    l.(expiresAt := expiresAt, updatedAt := at)
  }

  predicate CanReacquire(l: Lock, at: Time, expiresAt: Time) {
    StateAt(l, at) == Expired && l.updatedAt <= at && at < expiresAt
  }

  function Reacquired(l: Lock, at: Time, expiresAt: Time): Lock {
    l.(expiresAt := expiresAt, state := Active, updatedAt := at)
  }

  function ReleasedLock(l: Lock, at: Time): Lock {
    l.(state := Released, updatedAt := at)
  }

  // ----- claims

  datatype Claim = Claim(id: Id, changeSetId: Id, agentId: Id, sessionId: Id,
                         locks: seq<Lock>, updatedAt: Time)

  predicate ClaimAccepted(c: Claim) {
    && c.id != ""
    && c.locks != []
    && (forall i :: 0 <= i < |c.locks| ==>
          c.locks[i].changeSetId == c.changeSetId && c.locks[i].agentId == c.agentId && c.locks[i].sessionId == c.sessionId)
    && (forall i, j :: 0 <= i < j < |c.locks| ==> c.locks[i].scope != c.locks[j].scope)
  }

  /** `Claim.state_at`; `None` stands for the error on locks in different states. */
  function ClaimStateAt(c: Claim, at: Time): Option<LockState> {
    if c.locks != [] && forall i :: 0 <= i < |c.locks| ==> StateAt(c.locks[i], at) == StateAt(c.locks[0], at)
    then Some(StateAt(c.locks[0], at))
    else None
  }

  function MaxExpiry(locks: seq<Lock>): (t: Time)
    requires locks != []
    ensures forall i :: 0 <= i < |locks| ==> locks[i].expiresAt <= t
    ensures exists i :: 0 <= i < |locks| && locks[i].expiresAt == t
  {
    if |locks| == 1 then locks[0].expiresAt
    else
      assert locks == [locks[0]] + locks[1..];
      var t := MaxExpiry(locks[1..]);
      if t < locks[0].expiresAt then locks[0].expiresAt
      else
        var i :| 0 <= i < |locks[1..]| && locks[1..][i].expiresAt == t;
        assert locks[i + 1].expiresAt == t;
        t
  }
}
