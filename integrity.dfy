/** App's integrity index and the two gates that read it: the PASSED badge
    (index above 85) and the send button (disabled below 70).
    The index is computed in exact reals: JavaScript's floating point error is
    not modelled. */
module Integrity {
  import opened Types

  const PricingScore := 95
  const ConfidenceScore := 90

  /** `Math.round`: the nearest integer, halves rounded up. */
  function Round(x: real): (r: int)
    ensures r as real <= x + 0.5 < r as real + 1.0
  {
    (x + 0.5).Floor
  }

  /** An item with a product match: `m.recommendations && m.recommendations.length > 0`. */
  predicate HasProductMatch(m: MatchedItem) {
    |m.recommendations| > 0
  }

  /** `curr.spec_match_score || 0` */
  function TopScore(m: MatchedItem): int {
    m.specMatchScore.GetOr(0)
  }

  /** `matches.filter(...)`: the items with product matches, in order. */
  function ProductMatches(ms: seq<MatchedItem>): (r: seq<MatchedItem>)
    ensures |r| <= |ms|
    ensures forall m :: m in r ==> m in ms && HasProductMatch(m)
    ensures forall m :: m in ms && HasProductMatch(m) ==> m in r
    decreases |ms|
  {
    if |ms| == 0 then []
    else
      var init := ms[..|ms| - 1];
      var last := ms[|ms| - 1];
      assert forall m :: m in init ==> m in ms;
      ProductMatches(init) + (if HasProductMatch(last) then [last] else [])
  }

  /** Each item with a product match is kept as often as it occurs, every
      other item is dropped. */
  lemma {:induction false} ProductMatchesCounts(ms: seq<MatchedItem>)
    ensures forall m :: multiset(ProductMatches(ms))[m] == if HasProductMatch(m) then multiset(ms)[m] else 0
    decreases |ms|
  {
    if |ms| > 0 {
      var init := ms[..|ms| - 1];
      var last := ms[|ms| - 1];
      assert ms == init + [last];
      ProductMatchesCounts(init);
    }
  }

  /** The filter distributes over concatenation, so it keeps the order of
      the items it keeps. */
  lemma {:induction false} ProductMatchesAppend(a: seq<MatchedItem>, b: seq<MatchedItem>)
    ensures ProductMatches(a + b) == ProductMatches(a) + ProductMatches(b)
    decreases |b|
  {
    if |b| > 0 {
      var b' := b[..|b| - 1];
      assert (a + b)[..|a + b| - 1] == a + b';
      ProductMatchesAppend(a, b');
    } else {
      assert a + b == a;
    }
  }

  /** The `reduce` that sums the top-level scores. */
  function ScoreSum(ms: seq<MatchedItem>): int
    decreases |ms|
  {
    if |ms| == 0 then 0 else ScoreSum(ms[..|ms| - 1]) + TopScore(ms[|ms| - 1])
  }

  /** `integrityIndex`: 0 with no matches or no product match, otherwise
      round(0.4 * average top score + 0.3 * 95 + 0.3 * 90). */
  function IntegrityIndex(matches: Option<seq<MatchedItem>>): int {
    if matches.None? || |matches.value| == 0 then 0
    else
      var q := ProductMatches(matches.value);
      if |q| == 0 then 0
      else
        var avg := ScoreSum(q) as real / |q| as real;
        Round(0.4 * avg + 0.3 * PricingScore as real + 0.3 * ConfidenceScore as real)
  }

  /** `integrityIndex > 85` */
  predicate Passed(index: int) {
    index > 85
  }

  /** `disabled={integrityIndex < 70}` */
  predicate SendBlocked(index: int) {
    index < 70
  }

  // ---------------------------------------------------------------------------
  // Arithmetic helpers
  // ---------------------------------------------------------------------------

  lemma RealDivFloor(a: int, b: int)
    requires b > 0
    ensures (a as real / b as real).Floor == a / b
  {
    var q, r := a / b, a % b;
    assert a == q * b + r && 0 <= r < b;
    assert a as real == q as real * b as real + r as real;
    assert a as real / b as real == q as real + r as real / b as real;
    assert 0.0 <= r as real / b as real < 1.0;
  }

  lemma DivAtLeast(x: int, d: int, k: int)
    requires d > 0
    ensures x / d >= k <==> x >= k * d
  {
    var q, r := x / d, x % d;
    assert x == q * d + r && 0 <= r < d;
    if q >= k {
      assert q * d >= k * d;
    } else {
      assert q * d <= (k - 1) * d;
    }
  }

  lemma DivMonotone(x: int, y: int, d: int)
    requires d > 0 && x <= y
    ensures x / d <= y / d
  {
    DivAtLeast(y, d, x / d);
    assert x / d * d <= x by {
      assert x == x / d * d + x % d;
    }
  }

  // ---------------------------------------------------------------------------
  // Properties
  // ---------------------------------------------------------------------------

  /** Without matches, with an empty list, or with no product match the
      index is 0, so the badge is not shown and sending is blocked. */
  lemma NoProductMatchMeansZero(matches: Option<seq<MatchedItem>>)
    requires matches.None? || ProductMatches(matches.value) == []
    ensures IntegrityIndex(matches) == 0
    ensures !Passed(IntegrityIndex(matches)) && SendBlocked(IntegrityIndex(matches))
  {
  }

  /** 0.4 * (s / n) + 0.3 * 95 + 0.3 * 90 + 0.5 == 2s / 5n + 56, exactly. */
  lemma WeightedSum(s: int, n: int)
    requires n > 0
    ensures 0.4 * (s as real / n as real) + 0.3 * PricingScore as real + 0.3 * ConfidenceScore as real + 0.5
            == (2 * s) as real / (5 * n) as real + 56.0
  {
    var a, m := s as real, n as real;
    var x := a / m;
    var y := (2 * s) as real / (5 * n) as real;
    assert x * m == a;
    assert y * (5.0 * m) == 2.0 * a;
    assert (0.4 * x) * (5.0 * m) == 2.0 * a;
    assert 0.4 * x == y;
  }

  /** The index in integers: with S the sum of the top scores of the n items
      that have product matches, it is 56 + floor(2S / 5n). */
  lemma ClosedForm(ms: seq<MatchedItem>)
    requires |ProductMatches(ms)| > 0
    ensures var n := |ProductMatches(ms)|;
      IntegrityIndex(Some(ms)) == 56 + (2 * ScoreSum(ProductMatches(ms))) / (5 * n)
  {
    var q := ProductMatches(ms);
    var s, n := ScoreSum(q), |q|;
    WeightedSum(s, n);
    RealDivFloor(2 * s, 5 * n);
  }

  /** With every top score within 0..100 the index lies in 56..96. */
  lemma IndexRange(ms: seq<MatchedItem>)
    requires |ProductMatches(ms)| > 0
    requires forall m :: m in ms ==> 0 <= TopScore(m) <= 100
    ensures 56 <= IntegrityIndex(Some(ms)) <= 96
  {
    var q := ProductMatches(ms);
    ScoreSumBounds(q);
    ClosedForm(ms);
    var s, n := ScoreSum(q), |q|;
    DivAtLeast(2 * s, 5 * n, 0);
    DivAtLeast(2 * s, 5 * n, 41);
  }

  lemma {:induction false} ScoreSumBounds(ms: seq<MatchedItem>)
    requires forall m :: m in ms ==> 0 <= TopScore(m) <= 100
    ensures 0 <= ScoreSum(ms) <= 100 * |ms|
    decreases |ms|
  {
    if |ms| > 0 {
      assert forall m :: m in ms[..|ms| - 1] ==> m in ms;
      ScoreSumBounds(ms[..|ms| - 1]);
      assert ms[|ms| - 1] in ms;
    }
  }

  /** The badge shows exactly when the product matches average at least 75. */
  lemma PassedIff(ms: seq<MatchedItem>)
    requires |ProductMatches(ms)| > 0
    ensures Passed(IntegrityIndex(Some(ms))) <==> ScoreSum(ProductMatches(ms)) >= 75 * |ProductMatches(ms)|
  {
    var q := ProductMatches(ms);
    ClosedForm(ms);
    DivAtLeast(2 * ScoreSum(q), 5 * |q|, 30);
  }

  /** Sending is blocked exactly when the product matches average below 35. */
  lemma SendBlockedIff(ms: seq<MatchedItem>)
    requires |ProductMatches(ms)| > 0
    ensures SendBlocked(IntegrityIndex(Some(ms))) <==> ScoreSum(ProductMatches(ms)) < 35 * |ProductMatches(ms)|
  {
    var q := ProductMatches(ms);
    ClosedForm(ms);
    DivAtLeast(2 * ScoreSum(q), 5 * |q|, 14);
  }

  /** Between the gates: one product match scored 50 gives 76, which is
      flagged for review but may still be sent. */
  lemma ReviewBand(m: MatchedItem)
    requires HasProductMatch(m) && m.specMatchScore == Some(50)
    ensures IntegrityIndex(Some([m])) == 76
    ensures !Passed(IntegrityIndex(Some([m]))) && !SendBlocked(IntegrityIndex(Some([m])))
  {
    assert ProductMatches([m]) == [m] by {
      assert [m][..0] == [];
    }
    assert ScoreSum([m]) == 50 by {
      assert [m][..0] == [];
    }
    ClosedForm([m]);
  }

  /** `ms'` matches `ms` item by item in which items have product matches,
      with top scores at least as high. */
  predicate Dominated(ms: seq<MatchedItem>, ms': seq<MatchedItem>) {
    |ms| == |ms'|
    && forall j :: 0 <= j < |ms| ==>
         HasProductMatch(ms[j]) == HasProductMatch(ms'[j]) && TopScore(ms[j]) <= TopScore(ms'[j])
  }

  /** Raising top scores never lowers the index. */
  lemma IndexMonotone(ms: seq<MatchedItem>, ms': seq<MatchedItem>)
    requires Dominated(ms, ms')
    ensures IntegrityIndex(Some(ms)) <= IntegrityIndex(Some(ms'))
  {
    DominatedSums(ms, ms');
    var q, q' := ProductMatches(ms), ProductMatches(ms');
    if |q| > 0 {
      ClosedForm(ms);
      ClosedForm(ms');
      DivMonotone(2 * ScoreSum(q), 2 * ScoreSum(q'), 5 * |q|);
    }
  }

  lemma {:induction false} DominatedSums(ms: seq<MatchedItem>, ms': seq<MatchedItem>)
    requires Dominated(ms, ms')
    ensures |ProductMatches(ms')| == |ProductMatches(ms)|
    ensures ScoreSum(ProductMatches(ms')) >= ScoreSum(ProductMatches(ms))
    decreases |ms|
  {
    if |ms| > 0 {
      var k := |ms| - 1;
      DominatedSums(ms[..k], ms'[..k]);
      var a, a' := ProductMatches(ms[..k]), ProductMatches(ms'[..k]);
      if HasProductMatch(ms[k]) {
        assert ScoreSum(a + [ms[k]]) == ScoreSum(a) + TopScore(ms[k]) by {
          assert (a + [ms[k]])[..|a|] == a;
        }
        assert ScoreSum(a' + [ms'[k]]) == ScoreSum(a') + TopScore(ms'[k]) by {
          assert (a' + [ms'[k]])[..|a'|] == a';
        }
      } else {
        assert a + [] == a && a' + [] == a';
      }
    }
  }

  lemma {:induction false} ScoreSumAppend(a: seq<MatchedItem>, b: seq<MatchedItem>)
    ensures ScoreSum(a + b) == ScoreSum(a) + ScoreSum(b)
    decreases |b|
  {
    if |b| > 0 {
      ScoreSumAppend(a, b[..|b| - 1]);
      assert (a + b)[..|a + b| - 1] == a + b[..|b| - 1];
    } else {
      assert a + b == a;
    }
  }

  /** A service or constraint line (no recommendations) does not move the
      index of a non-empty list. */
  lemma ServicesDoNotCount(ms: seq<MatchedItem>, s: MatchedItem)
    requires !HasProductMatch(s)
    ensures IntegrityIndex(Some(ms + [s])) == IntegrityIndex(Some(ms))
  {
    assert (ms + [s])[..|ms|] == ms;
    assert ProductMatches(ms + [s]) == ProductMatches(ms);
  }
}
