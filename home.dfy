/**
 * The browse page: the funding percentage shown on each card and the search
 * box that filters the campaign list.
 */
module Home {
  import opened Types
  import opened Seqs

  // ---------------------------------------------------------------------
  // Funding progress
  // ---------------------------------------------------------------------

  /**
   * A numeric result that may leave the finite numbers: dividing by a zero
   * target gives NaN (0/0) or minus infinity (negative/0); plus infinity is
   * capped to 100 and so never shows.
   */
  datatype Capped<T> = Finite(value: T) | NaN | NegInfinity

  function Min(a: int, b: int): int
  {
    if a <= b then a else b
  }

  /** `Math.round`: the nearest integer, halves rounded upwards. */
  function RoundHalfUp(x: real): (r: int)
    ensures r as real <= x + 0.5 < r as real + 1.0
  {
    (x + 0.5).Floor
  }

  /** The rounded percentage of the target reached, capped at 100. */
  function CalculateProgress(current: int, target: int): (r: Capped<int>)
    ensures r.Finite? ==> r.value <= 100
    ensures target != 0 || current > 0 ==> r.Finite?
  {
    if target == 0 then
      if current > 0 then Finite(100)
      else if current == 0 then NaN
      else NegInfinity
    else
      Finite(Min(100, RoundHalfUp(current as real / target as real * 100.0)))
  }

  /** A real `d` with `d·T == m` and `0 <= m < T` lies in [0, 1). */
  lemma FractionBounds(d: real, big: real, m: real)
    requires big > 0.0 && 0.0 <= m < big && d * big == m
    ensures 0.0 <= d < 1.0
  {
  }

  /** Rounding 100·c/t half up is the integer quotient (200·c + t) div 2·t, for a positive target. */
  lemma RoundedPercentIsQuotient(current: int, target: int)
    requires target > 0
    ensures RoundHalfUp(current as real / target as real * 100.0) == (200 * current + target) / (2 * target)
  {
    var c, t := current as real, target as real;
    var n := (200 * current + target) / (2 * target);
    var m := (200 * current + target) % (2 * target);
    assert 200 * current + target == n * (2 * target) + m;
    var y := c / t;
    assert y * t == c;
    var x := y * 100.0 + 0.5;
    assert x * (2.0 * t) == 200.0 * (y * t) + t;
    assert (x - n as real) * (2.0 * t) == m as real;
    FractionBounds(x - n as real, 2.0 * t, m as real);
  }

  /**
   * For a positive target the percentage is an integer formula; it is 100
   * once the target is met and never negative for a non-negative amount.
   */
  lemma ProgressIntegerFormula(current: int, target: int)
    requires target > 0
    ensures CalculateProgress(current, target) == Finite(Min(100, (200 * current + target) / (2 * target)))
    ensures current < target ==> CalculateProgress(current, target) == Finite((200 * current + target) / (2 * target))
    ensures current >= target ==> CalculateProgress(current, target) == Finite(100)
    ensures current >= 0 ==> CalculateProgress(current, target).value >= 0
  {
    RoundedPercentIsQuotient(current, target);
    var a, b := 200 * current + target, 2 * target;
    if current < target {
      QuotientBelow(a, b, 101);
    } else {
      QuotientAtLeast(a, b, 100);
    }
    if current >= 0 {
      QuotientAtLeast(a, b, 0);
    }
  }

  /** Integer division by a positive divisor: a < k·b gives a div b < k. */
  lemma QuotientBelow(a: int, b: int, k: int)
    requires b > 0 && a < k * b
    ensures a / b < k
  {
    var q, m := a / b, a % b;
    assert a == q * b + m && 0 <= m;
    assert (q - k) * b == q * b - k * b;
    assert (q - k) * b < 0;
  }

  /** Integer division by a positive divisor: a >= k·b gives a div b >= k. */
  lemma QuotientAtLeast(a: int, b: int, k: int)
    requires b > 0 && a >= k * b
    ensures a / b >= k
  {
    var q, m := a / b, a % b;
    assert a == q * b + m && m < b;
    assert (k - q) * b == k * b - q * b;
    assert (k - q - 1) * b < 0;
  }

  // ---------------------------------------------------------------------
  // Search
  // ---------------------------------------------------------------------

  /** `toLowerCase` on one character (ASCII letters). */
  function LowerChar(ch: char): (r: char)
    ensures !('A' <= r <= 'Z')
    ensures r != ch ==> 'A' <= ch <= 'Z'
  {
    if 'A' <= ch <= 'Z' then (ch as int - 'A' as int + 'a' as int) as char else ch
  }

  /** `toLowerCase` on a string, character by character. */
  function Lower(s: string): (r: string)
    ensures |r| == |s|
    ensures forall i :: 0 <= i < |r| ==> !('A' <= r[i] <= 'Z')
    ensures forall i :: 0 <= i < |r| && !('A' <= s[i] <= 'Z') ==> r[i] == s[i]
  {
    seq(|s|, i requires 0 <= i < |s| => LowerChar(s[i]))
  }

  /** Lowercasing twice is lowercasing once. */
  lemma LowerIdempotent(s: string)
    ensures Lower(Lower(s)) == Lower(s)
  {
  }

  /** `includes`: `q` occurs somewhere in `s` (the empty string occurs everywhere). */
  predicate Contains(s: string, q: string)
  {
    q <= s || (s != [] && Contains(s[1..], q))
  }

  /** `q` occurs in `s` at position `i`. */
  predicate OccursAt(s: string, q: string, i: int)
  {
    0 <= i && i + |q| <= |s| && s[i..i + |q|] == q
  }

  /** The scan finds `q` exactly when `q` occurs at some position of `s`. */
  lemma {:induction false} ContainsIffOccurs(s: string, q: string)
    ensures Contains(s, q) <==> exists i :: OccursAt(s, q, i)
  {
    if q <= s {
      assert OccursAt(s, q, 0);
    } else if s == [] {
      assert forall i :: !OccursAt(s, q, i);
    } else {
      ContainsIffOccurs(s[1..], q);
      if Contains(s[1..], q) {
        var i :| OccursAt(s[1..], q, i);
        assert s[1..][i..i + |q|] == s[i + 1..i + 1 + |q|];
        assert OccursAt(s, q, i + 1);
      }
      if exists i :: OccursAt(s, q, i) {
        var i :| OccursAt(s, q, i);
        assert i != 0;
        assert s[1..][i - 1..i - 1 + |q|] == s[i..i + |q|];
        assert OccursAt(s[1..], q, i - 1);
      }
    }
  }

  /** A prefix of a string found in `s` is found in `s` too. */
  lemma {:induction false} ContainsPrefix(s: string, q: string, q': string)
    requires q <= q'
    requires Contains(s, q')
    ensures Contains(s, q)
  {
    if q' <= s {
      assert q == s[..|q|];
    } else {
      ContainsPrefix(s[1..], q, q');
    }
  }

  /** A search term matches a campaign when its lowercase form occurs in the lowercase title, description or category. */
  predicate Matches(c: Campaign, query: string)
  {
    var q := Lower(query);
    Contains(Lower(c.title), q) || Contains(Lower(c.description), q) || Contains(Lower(CategoryName(c.category)), q)
  }

  /** The campaigns shown for a search term, in list order. */
  function Search(campaigns: seq<Campaign>, query: string): (r: seq<Campaign>)
    ensures |r| <= |campaigns|
  {
    if campaigns == [] then []
    else (if Matches(campaigns[0], query) then [campaigns[0]] else []) + Search(campaigns[1..], query)
  }

  /** The search keeps exactly the matching campaigns. */
  lemma {:induction false} SearchMembers(campaigns: seq<Campaign>, query: string, c: Campaign)
    ensures c in Search(campaigns, query) <==> c in campaigns && Matches(c, query)
  {
    if campaigns != [] {
      SearchMembers(campaigns[1..], query, c);
      assert campaigns == [campaigns[0]] + campaigns[1..];
    }
  }

  /** The search keeps each matching campaign exactly as many times as it is listed, and no other. */
  lemma {:induction false} SearchCounts(campaigns: seq<Campaign>, query: string, c: Campaign)
    ensures multiset(Search(campaigns, query))[c] == if Matches(c, query) then multiset(campaigns)[c] else 0
  {
    if campaigns != [] {
      SearchCounts(campaigns[1..], query, c);
      assert campaigns == [campaigns[0]] + campaigns[1..];
    }
  }

  /** The search result is an order-preserving subsequence of the list. */
  lemma {:induction false} SearchIsSubsequence(campaigns: seq<Campaign>, query: string)
    ensures IsSubsequence(Search(campaigns, query), campaigns)
  {
    if campaigns != [] {
      var rest := Search(campaigns[1..], query);
      SearchIsSubsequence(campaigns[1..], query);
      assert campaigns == [campaigns[0]] + campaigns[1..];
      if Matches(campaigns[0], query) {
        SubsequenceCons(campaigns[0], rest, campaigns[1..]);
      } else {
        assert Search(campaigns, query) == rest;
        SubsequenceSkip(campaigns[0], rest, campaigns[1..]);
      }
    }
  }

  /** An empty search box shows every campaign. */
  lemma {:induction false} SearchEmptyQuery(campaigns: seq<Campaign>)
    ensures Search(campaigns, "") == campaigns
  {
    if campaigns != [] {
      SearchEmptyQuery(campaigns[1..]);
      assert Lower("") == "";
      assert campaigns == [campaigns[0]] + campaigns[1..];
    }
  }

  /** Search terms that lowercase alike show the same campaigns. */
  lemma {:induction false} SearchCaseInsensitive(campaigns: seq<Campaign>, q1: string, q2: string)
    requires Lower(q1) == Lower(q2)
    ensures Search(campaigns, q1) == Search(campaigns, q2)
  {
    if campaigns != [] {
      SearchCaseInsensitive(campaigns[1..], q1, q2);
    }
  }

  /** Typing a term in lower case shows the same campaigns as typing it in any case. */
  lemma SearchLowercaseQuery(campaigns: seq<Campaign>, query: string)
    ensures Search(campaigns, Lower(query)) == Search(campaigns, query)
  {
    LowerIdempotent(query);
    SearchCaseInsensitive(campaigns, Lower(query), query);
  }

  /** Lowercasing keeps prefixes. */
  lemma LowerPrefix(q: string, q': string)
    requires q <= q'
    ensures Lower(q) <= Lower(q')
  {
    assert Lower(q) == Lower(q')[..|q|];
  }

  /** Typing more characters can only narrow the result, and it stays in list order. */
  lemma {:induction false} SearchNarrows(campaigns: seq<Campaign>, q: string, q': string)
    requires q <= q'
    ensures IsSubsequence(Search(campaigns, q'), Search(campaigns, q))
    ensures forall c :: c in Search(campaigns, q') ==> c in Search(campaigns, q)
  {
    if campaigns == [] {
      assert Search(campaigns, q') == [];
    } else {
      var head := campaigns[0];
      var r, r' := Search(campaigns[1..], q), Search(campaigns[1..], q');
      SearchNarrows(campaigns[1..], q, q');
      assert Search(campaigns, q) == if Matches(head, q) then [head] + r else r;
      assert Search(campaigns, q') == if Matches(head, q') then [head] + r' else r';
      if Matches(head, q') {
        LowerPrefix(q, q');
        var lq, lq' := Lower(q), Lower(q');
        if Contains(Lower(head.title), lq') {
          ContainsPrefix(Lower(head.title), lq, lq');
        } else if Contains(Lower(head.description), lq') {
          ContainsPrefix(Lower(head.description), lq, lq');
        } else {
          ContainsPrefix(Lower(CategoryName(head.category)), lq, lq');
        }
        assert Matches(head, q);
        SubsequenceCons(head, r', r);
      } else if Matches(head, q) {
        SubsequenceSkip(head, r', r);
      }
      assert IsSubsequence(Search(campaigns, q'), Search(campaigns, q));
      forall c | c in Search(campaigns, q')
        ensures c in Search(campaigns, q)
      {
        SubsequenceMembers(Search(campaigns, q'), Search(campaigns, q), c);
      }
    }
  }
}
