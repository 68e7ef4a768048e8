/** Counting tokens, and cutting a text to a token budget (application/handoff_context.py). */
module Tokens {
  import opened Common

  /** A provider's counter; a negative count is its error. */
  type Counter = string -> int

  datatype ContextError =
    | BadCounter | ForeignRecord(id: Id) | MandatoryTooLarge | FinalTooLarge

  method Count(counter: Counter, text: string) returns (r: Result<nat, ContextError>)
    ensures r == if counter(text) < 0 then Err(BadCounter) else Ok(counter(text) as nat)
  {
    var value := counter(text);
    if value < 0 {
      return Err(BadCounter);
    }
    return Ok(value);
  }

  /** `ApproximateTokenCounter.count`: the ceiling of characters over characters per token. */
  function Approximate(charsPerToken: nat, text: string): (n: int)
    requires charsPerToken > 0
  {
    if text == [] then 0
    else
      var n := (|text| + charsPerToken - 1) / charsPerToken;
      if n < 1 then 1 else n
  }

  /** It is the least number of tokens that covers the text. */
  lemma ApproximateIsCeiling(charsPerToken: nat, text: string, n: nat)
    requires charsPerToken > 0
    ensures Approximate(charsPerToken, text) <= n <==> |text| <= n * charsPerToken
  {
    if text != [] {
      var q := (|text| + charsPerToken - 1) / charsPerToken;
      assert charsPerToken * q <= |text| + charsPerToken - 1 < charsPerToken * q + charsPerToken;
      Ceiling(charsPerToken, |text|, q, n);
      Ceiling(charsPerToken, |text|, q, 0);
    }
  }

  lemma Ceiling(c: nat, length: nat, q: int, n: nat)
    requires c * q <= length + c - 1 < c * q + c
    ensures q <= n <==> length <= n * c
  {
    if q <= n {
      Times(c, q, n);
    } else {
      Times(c, n + 1, q);
      assert c * (n + 1) == c * n + c;
    }
  }

  lemma Times(c: nat, a: int, b: int)
    requires a <= b
    ensures c * a <= c * b
  {
  }

  lemma ApproximateGrows(charsPerToken: nat, a: string, b: string)
    requires charsPerToken > 0 && |a| <= |b|
    ensures 0 <= Approximate(charsPerToken, a) <= Approximate(charsPerToken, b)
  {
    ApproximateIsCeiling(charsPerToken, b, Approximate(charsPerToken, b));
    ApproximateIsCeiling(charsPerToken, a, Approximate(charsPerToken, b));
  }

  // ----- truncation

  const SUFFIX := "\n\U{2026}[diff excerpt truncated]"

  /** White space as Python's `rstrip` sees it. */
  predicate IsSpace(c: char) {
    || '\t' <= c <= '\r' || '\U{1c}' <= c <= ' ' || c == '\U{85}' || c == '\U{a0}' || c == '\U{1680}'
    || '\U{2000}' <= c <= '\U{200a}' || c == '\U{2028}' || c == '\U{2029}' || c == '\U{202f}' || c == '\U{205f}' || c == '\U{3000}'
  }

  function RStrip(s: string): string {
    if s == [] || !IsSpace(s[|s| - 1]) then s else RStrip(s[..|s| - 1])
  }

  /** The text cut after `k` characters. */
  function Cut(text: string, k: nat): string
    requires k <= |text|
  {
    RStrip(text[..k]) + SUFFIX
  }

  lemma {:induction false} StripIsPrefix(s: string)
    ensures RStrip(s) <= s
  {
    if s != [] && IsSpace(s[|s| - 1]) {
      StripIsPrefix(s[..|s| - 1]);
    }
  }

  /** A longer prefix stays at least as long when stripped. */
  lemma {:induction false} StripGrows(text: string, j: nat, k: nat)
    requires j <= k <= |text|
    ensures RStrip(text[..j]) <= RStrip(text[..k])
    decreases k
  {
    if j < k {
      assert text[..k][..k - 1] == text[..k - 1];
      StripGrows(text, j, k - 1);
      if !IsSpace(text[k - 1]) {
        StripIsPrefix(text[..j]);
        assert RStrip(text[..k]) == text[..k];
      }
    }
  }

  /** More of the text never costs less; true of every counter that goes by length. */
  ghost predicate GrowsOn(counter: Counter, text: string) {
    forall j, k :: 0 <= j <= k <= |text| ==> counter(Cut(text, j)) <= counter(Cut(text, k))
  }

  lemma ApproximateGrowsOn(charsPerToken: nat, text: string)
    requires charsPerToken > 0
    ensures GrowsOn(s => Approximate(charsPerToken, s), text)
  {
    forall j, k | 0 <= j <= k <= |text|
      ensures Approximate(charsPerToken, Cut(text, j)) <= Approximate(charsPerToken, Cut(text, k))
    {
      StripGrows(text, j, k);
      ApproximateGrows(charsPerToken, Cut(text, j), Cut(text, k));
    }
  }

  /** The longest cut within the budget: no longer one fits. */
  ghost predicate LongestCut(counter: Counter, text: string, budget: int, k: nat) {
    && k <= |text| && counter(Cut(text, k)) <= budget
    && forall j :: k < j <= |text| ==> counter(Cut(text, j)) > budget
  }

  /** Where the bisection of `low..high` ends: the last cut it found to fit, or `low - 1` if none did. */
  function Search(counter: Counter, text: string, budget: int, low: int, high: int): (k: int)
    requires 0 <= low <= high + 1 && high <= |text|
    ensures low - 1 <= k <= high
    decreases high + 1 - low
  {
    if low > high then low - 1
    else
      var middle := (low + high) / 2;
      if counter(Cut(text, middle)) <= budget then Search(counter, text, budget, middle + 1, high)
      else Search(counter, text, budget, low, middle - 1)
  }

  /** On the bisection path towards `k`, every cut at or below `k` that is probed fits. */
  predicate PathFits(counter: Counter, text: string, budget: int, low: int, high: int, k: int)
    requires 0 <= low <= high + 1 && high <= |text|
    decreases high + 1 - low
  {
    low > high ||
    (var middle := (low + high) / 2;
     if middle <= k then counter(Cut(text, middle)) <= budget && PathFits(counter, text, budget, middle + 1, high, k)
     else PathFits(counter, text, budget, low, middle - 1, k))
  }

  /** The search ends at the longest fitting cut exactly when every cut probed on the way to it fits. */
  lemma {:induction false} SearchFindsIff(counter: Counter, text: string, budget: int, low: int, high: int, k: int)
    requires 0 <= low <= high + 1 && high <= |text| && low - 1 <= k <= high
    requires forall j :: k < j <= high ==> counter(Cut(text, j)) > budget
    ensures Search(counter, text, budget, low, high) == k <==> PathFits(counter, text, budget, low, high, k)
    ensures !PathFits(counter, text, budget, low, high, k) ==>
              exists p :: Search(counter, text, budget, low, high) < p <= k && counter(Cut(text, p)) > budget
    decreases high + 1 - low
  {
    hide Cut;
    if low <= high {
      var middle := (low + high) / 2;
      if counter(Cut(text, middle)) <= budget {
        SearchFindsIff(counter, text, budget, middle + 1, high, k);
      } else if middle > k {
        SearchFindsIff(counter, text, budget, low, middle - 1, k);
      }
    }
  }

  /** What `_truncate_to_tokens` answers. */
  function Shorten(text: string, counter: Counter, budget: int): string {
    if budget <= 0 || text == "" then ""
    else if counter(text) <= budget then text
    else if counter(SUFFIX) > budget then ""
    else
      var k := Search(counter, text, budget, 0, |text|);
      if k < 0 then "" else Cut(text, k)
  }

  /** The search is used: the text is too long, and at least the bare suffix fits. */
  predicate NeedsSearch(text: string, counter: Counter, budget: int) {
    budget > 0 && text != "" && counter(text) > budget && counter(SUFFIX) <= budget
  }

  /** When it is used there is a longest cut to find. */
  lemma LongestCutExists(text: string, counter: Counter, budget: int) returns (k: nat)
    requires NeedsSearch(text, counter, budget)
    ensures LongestCut(counter, text, budget, k)
  {
    EmptyCut(text);
    k := |text|;
    while counter(Cut(text, k)) > budget
      invariant 0 <= k <= |text|
      invariant forall j :: k < j <= |text| ==> counter(Cut(text, j)) > budget
      decreases k
    {
      assert k > 0;
      k := k - 1;
    }
  }

  /** The answer is the longest cut that fits exactly when every cut probed on the way to it fits. */
  lemma ShortenIsLongestIff(text: string, counter: Counter, budget: int, k: nat)
    requires NeedsSearch(text, counter, budget) && LongestCut(counter, text, budget, k)
    ensures Shorten(text, counter, budget) == Cut(text, k) <==> PathFits(counter, text, budget, 0, |text|, k)
  {
    SearchFindsIff(counter, text, budget, 0, |text|, k);
    var r := Search(counter, text, budget, 0, |text|);
    if !PathFits(counter, text, budget, 0, |text|, k) && r >= 0 {
      var p :| r < p <= k && counter(Cut(text, p)) > budget;
      BetweenEqualCuts(text, r, p, k);
    }
  }

  /** There is a longest cut that fits, and it is the answer exactly when every cut probed on the way to it fits. */
  lemma ShortenLosesNothingIff(text: string, counter: Counter, budget: int)
    requires NeedsSearch(text, counter, budget)
    ensures exists k: nat ::
              && LongestCut(counter, text, budget, k)
              && (Shorten(text, counter, budget) == Cut(text, k) <==> PathFits(counter, text, budget, 0, |text|, k))
  {
    var k := LongestCutExists(text, counter, budget);
    ShortenIsLongestIff(text, counter, budget, k);
  }

  /** Cuts between two that read the same read the same. */
  lemma BetweenEqualCuts(text: string, r: nat, p: nat, k: nat)
    requires r <= p <= k <= |text|
    ensures Cut(text, r) == Cut(text, k) ==> Cut(text, p) == Cut(text, k)
  {
    StripGrows(text, r, p);
    StripGrows(text, p, k);
    if Cut(text, r) == Cut(text, k) {
      assert |RStrip(text[..r])| == |Cut(text, r)| - |SUFFIX| == |RStrip(text[..k])|;
      assert RStrip(text[..p]) == RStrip(text[..k]);
    }
  }

  /** With a counter that grows on the text, every probe below the longest cut fits. */
  lemma {:induction false} GrowingPathFits(counter: Counter, text: string, budget: int, low: int, high: int, k: nat)
    requires 0 <= low <= high + 1 && high <= |text| && k <= |text|
    requires GrowsOn(counter, text) && counter(Cut(text, k)) <= budget
    ensures PathFits(counter, text, budget, low, high, k)
    decreases high + 1 - low
  {
    hide Cut;
    if low <= high {
      var middle := (low + high) / 2;
      if middle <= k {
        GrowingPathFits(counter, text, budget, middle + 1, high, k);
      } else {
        GrowingPathFits(counter, text, budget, low, middle - 1, k);
      }
    }
  }

  /** For the fallback counter, and every other that grows on the text, the answer is the longest cut. */
  lemma GrowingFindsLongest(text: string, counter: Counter, budget: int, k: nat)
    requires NeedsSearch(text, counter, budget) && LongestCut(counter, text, budget, k) && GrowsOn(counter, text)
    ensures Shorten(text, counter, budget) == Cut(text, k)
  {
    GrowingPathFits(counter, text, budget, 0, |text|, k);
    ShortenIsLongestIff(text, counter, budget, k);
  }

  /** A counter that charges more for one short text than for a longer one. */
  function Uneven(text: string): int {
    if text == "ab" || text == "a" + SUFFIX then 9 else 1
  }

  /** The whole text with the suffix would fit, but its first probe does not, and the search never looks further up. */
  lemma SearchMissesLongest()
    ensures NeedsSearch("ab", Uneven, 5) && LongestCut(Uneven, "ab", 5, 2)
    ensures Shorten("ab", Uneven, 5) == SUFFIX != Cut("ab", 2)
  {
    var text := "ab";
    EmptyCut(text);
    assert text[..1] == "a" && text[..2] == "ab";
    assert Cut(text, 1) == "a" + SUFFIX && Cut(text, 2) == "ab" + SUFFIX;
    assert (0 + 2) / 2 == 1 && Search(Uneven, text, 5, 0, 2) == Search(Uneven, text, 5, 0, 0) == 0;
  }

  /**
   * `_truncate_to_tokens`. Whatever it returns fits the budget, and it is the answer of the
   * specified search.
   */
  method Truncate(text: string, counter: Counter, budget: int) returns (r: Result<string, ContextError>)
    ensures r.Err? ==> r.error == BadCounter && exists s :: counter(s) < 0
    ensures r.Ok? ==> r.value == Shorten(text, counter, budget)
    ensures r.Ok? && r.value != "" ==> counter(r.value) <= budget
  {
    hide Cut;
    if budget <= 0 || text == "" {
      return Ok("");
    }
    var whole := Count(counter, text);
    if whole.Err? {
      return Err(whole.error);
    }
    if whole.value <= budget {
      return Ok(text);
    }
    var least := Count(counter, SUFFIX);
    if least.Err? {
      return Err(least.error);
    }
    if least.value > budget {
      return Ok("");
    }
    var low: int, high: int, best := 0, |text|, "";
    while low <= high
      invariant 0 <= low <= high + 1 && high <= |text|
      invariant low == 0 ==> best == ""
      invariant low > 0 ==> best == Cut(text, low - 1) && counter(best) <= budget
      invariant Search(counter, text, budget, low, high) == Search(counter, text, budget, 0, |text|)
    {
      var middle := (low + high) / 2;
      var candidate := Cut(text, middle);
      var cost := Count(counter, candidate);
      if cost.Err? {
        return Err(cost.error);
      }
      if cost.value <= budget {
        best := candidate;
        low := middle + 1;
      } else {
        high := middle - 1;
      }
    }
    return Ok(best);
  }

  lemma EmptyCut(text: string)
    ensures Cut(text, 0) == SUFFIX
  {
    assert text[..0] == [];
  }
}
