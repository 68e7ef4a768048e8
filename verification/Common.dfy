/** Result types and the identifier and time types shared by every module. */
module Common {
  datatype Option<+T> = None | Some(value: T)

  datatype Result<+T, +E> = Ok(value: T) | Err(error: E)

  type Id = string

  /** Instants and durations in microseconds; every stored datetime carries a timezone. */
  type Time = int

  const SECOND: Time := 1_000_000

  /** `str(n)` */
  function Decimal(n: nat): (s: string)
    ensures s != []
    ensures forall i :: 0 <= i < |s| ==> '0' <= s[i] <= '9'
  {
    (if n < 10 then [] else Decimal(n / 10)) + ['0' + (n % 10) as char]
  }
}

/** Bounded retries between the actions of others: `others(n)` is what they do at the n-th opportunity. */
module Races {
  /** In each of the first `n` tries others acted between the snapshot and the append. */
  ghost predicate LostRaces<T>(others: nat -> seq<T>, n: nat) {
    forall a :: 0 <= a < n ==> others(2 * a + 1) != []
  }

  lemma NoRaceYet<T>(others: nat -> seq<T>)
    ensures LostRaces(others, 0)
  {
  }

  lemma LostAnother<T>(others: nat -> seq<T>, n: nat)
    requires LostRaces(others, n) && others(2 * n + 1) != []
    ensures LostRaces(others, n + 1)
  {
  }
}

/** Python's `sorted`, as insertion sort over an explicit order. */
module Sorting {
  predicate LexLeq(a: string, b: string) {
    a == [] || (b != [] && (a[0] < b[0] || (a[0] == b[0] && LexLeq(a[1..], b[1..]))))
  }

  lemma {:induction false} LexTotal(a: string, b: string)
    ensures LexLeq(a, b) || LexLeq(b, a)
  {
    if a != [] && b != [] && a[0] == b[0] {
      LexTotal(a[1..], b[1..]);
    }
  }

  lemma {:induction false} LexTransitive(a: string, b: string, c: string)
    requires LexLeq(a, b) && LexLeq(b, c)
    ensures LexLeq(a, c)
  {
    if a != [] && a[0] == b[0] == c[0] {
      LexTransitive(a[1..], b[1..], c[1..]);
    }
  }

  lemma {:induction false} LexAntisymmetric(a: string, b: string)
    requires LexLeq(a, b) && LexLeq(b, a)
    ensures a == b
  {
    if a != [] {
      LexAntisymmetric(a[1..], b[1..]);
      assert a == [a[0]] + a[1..] && b == [b[0]] + b[1..];
    }
  }

  /** `a` is a proper beginning of `b`, or smaller at the first place where they differ. */
  ghost predicate LexLess(a: string, b: string) {
    exists k :: 0 <= k <= |a| && LessAt(a, b, k)
  }

  predicate LessAt(a: string, b: string, k: nat)
    requires k <= |a|
  {
    k < |b| && a[..k] == b[..k] && (k < |a| ==> a[k] < b[k])
  }

  lemma {:induction false} LexLeqIs(a: string, b: string)
    ensures LexLeq(a, b) <==> a == b || LexLess(a, b)
  {
    if a == [] {
      assert b != [] ==> LessAt(a, b, 0);
    } else if b != [] && a[0] == b[0] {
      LexLeqIs(a[1..], b[1..]);
      assert a == [a[0]] + a[1..] && b == [b[0]] + b[1..];
      if LexLess(a[1..], b[1..]) {
        var k: nat :| k <= |a[1..]| && LessAt(a[1..], b[1..], k);
        assert a[..k + 1] == [a[0]] + a[1..][..k] && b[..k + 1] == [b[0]] + b[1..][..k];
        assert LessAt(a, b, k + 1);
      }
      if LexLess(a, b) {
        var k: nat :| k <= |a| && LessAt(a, b, k);
        assert k > 0 && a[1..][..k - 1] == a[..k][1..] && b[1..][..k - 1] == b[..k][1..];
        assert LessAt(a[1..], b[1..], k - 1);
      }
    } else if b != [] {
      assert a[0] < b[0] ==> LessAt(a, b, 0);
      if LexLess(a, b) {
        LessFirst(a, b);
      }
    }
  }

  lemma LessFirst(a: string, b: string)
    requires a != [] && b != [] && LexLess(a, b)
    ensures a[0] <= b[0]
  {
    var k: nat :| k <= |a| && LessAt(a, b, k);
    if k > 0 {
      assert a[0] == a[..k][0] == b[..k][0];
    }
  }

  ghost predicate TotalPreorder<T(!new)>(leq: (T, T) -> bool) {
    && (forall x, y :: leq(x, y) || leq(y, x))
    && (forall x, y, z :: leq(x, y) && leq(y, z) ==> leq(x, z))
  }

  ghost predicate Ordered<T>(leq: (T, T) -> bool, s: seq<T>) {
    forall i, j :: 0 <= i < j < |s| ==> leq(s[i], s[j])
  }

  function Insert<T>(leq: (T, T) -> bool, x: T, s: seq<T>): (r: seq<T>)
    ensures multiset(r) == multiset(s) + multiset{x}
  {
    if s == [] || leq(x, s[0]) then [x] + s
    else
      assert s == [s[0]] + s[1..];
      [s[0]] + Insert(leq, x, s[1..])
  }

  function SortBy<T>(leq: (T, T) -> bool, s: seq<T>): (r: seq<T>)
    ensures multiset(r) == multiset(s)
    ensures |r| == |s|
  {
    if s == [] then []
    else
      assert s == [s[0]] + s[1..];
      var r := Insert(leq, s[0], SortBy(leq, s[1..]));
      assert |r| == |multiset(r)| == |multiset(s)| == |s|;
      r
  }

  lemma InPermutation<T>(s: seq<T>, r: seq<T>, x: T)
    requires multiset(s) == multiset(r)
    ensures x in s <==> x in r
  {
    assert x in s <==> x in multiset(s);
    assert x in r <==> x in multiset(r);
  }

  lemma {:induction false} InsertOrdered<T(!new)>(leq: (T, T) -> bool, x: T, s: seq<T>)
    requires TotalPreorder(leq) && Ordered(leq, s)
    ensures Ordered(leq, Insert(leq, x, s))
  {
    if s != [] && !leq(x, s[0]) {
      InsertOrdered(leq, x, s[1..]);
      var tail := Insert(leq, x, s[1..]);
      forall y | y in tail
        ensures leq(s[0], y)
      {
        assert y in multiset(tail);
        assert y == x || y in s[1..];
      }
    }
  }

  lemma {:induction false} SortByOrders<T(!new)>(leq: (T, T) -> bool, s: seq<T>)
    requires TotalPreorder(leq)
    ensures Ordered(leq, SortBy(leq, s))
  {
    if s != [] {
      SortByOrders(leq, s[1..]);
      InsertOrdered(leq, s[0], SortBy(leq, s[1..]));
    }
  }

  lemma LexIsTotalPreorder()
    ensures TotalPreorder(LexLeq)
  {
    forall x, y
      ensures LexLeq(x, y) || LexLeq(y, x)
    {
      LexTotal(x, y);
    }
    forall x, y, z | LexLeq(x, y) && LexLeq(y, z)
      ensures LexLeq(x, z)
    {
      LexTransitive(x, y, z);
    }
  }

  /** What occurs at most once in the multiset of a sequence occurs at one position. */
  lemma SingleOccurrence<T>(s: seq<T>)
    requires forall x :: multiset(s)[x] <= 1
    ensures forall i, j :: 0 <= i < j < |s| ==> s[i] != s[j]
  {
    forall i, j | 0 <= i < j < |s|
      ensures s[i] != s[j]
    {
      assert s == s[..j] + s[j..];
      assert s[..j][i] == s[i] && s[j..][0] == s[j];
      assert s[i] in multiset(s[..j]) && s[j] in multiset(s[j..]);
      assert multiset(s)[s[i]] <= 1;
    }
  }
}
