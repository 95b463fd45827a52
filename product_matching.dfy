/** The deterministic half of ProductMatchingAgent.match: the vague-input
    guardrail, the rank sort, the re-derivation of the top-level fields from
    rank 1, and the per-item log lines. The provider's match list enters as an
    arbitrary `Reply`. */
module ProductMatching {
  import opened Types
  import opened Text
  import opened Gateway
  import opened Logging

  const Agent := "MATCH-AGENT"

  /** Weak terms: one of them makes a requirement a candidate for "vague". */
  const VagueKeywords: seq<string> := ["stuff", "cheap", "shiny", "liquid", "finish", "paint", "some"]
  /** A lower-cased requirement shorter than this many UTF-16 code units
      always trips the guardrail. */
  const ShortLength := 30
  /** Flagged recommendations keep at most this score. */
  const ScoreCap := 55
  /** Below this top score an item is logged as a low-confidence match. */
  const LowScore := 60

  /** A requirement as the provider returns it, before any post-processing.
      The recommendations' `confidence` is whatever the reply holds: the
      schema does not ask for it and every path below overwrites it. */
  datatype RawMatch = RawMatch(requirement: string, recommendations: seq<Recommendation>, estimatedQuantity: int)

  function Min(a: int, b: int): int {
    if a <= b then a else b
  }

  /** `score / 100`, computed exactly. */
  function Ratio(score: int): real {
    score as real / 100.0
  }

  // ---------------------------------------------------------------------------
  // Vagueness and the guardrail condition
  // ---------------------------------------------------------------------------

  predicate ContainsSome(s: string, words: seq<string>) {
    exists k | 0 <= k < |words| :: Contains(s, words[k])
  }

  /** Contains a weak keyword and none of the four specific terms. */
  predicate IsVague(requirement: string) {
    var lower := ToLower(requirement);
    ContainsSome(lower, VagueKeywords)
    && !Contains(lower, "emulsion")
    && !Contains(lower, "primer")
    && !Contains(lower, "enamel")
    && !Contains(lower, "proof")
  }

  /** The guardrail fires on a short or vague requirement that has
      recommendations. "Short" is measured as JavaScript measures a string's
      length: in UTF-16 code units. */
  predicate GuardrailFires(raw: RawMatch) {
    (Utf16Length(ToLower(raw.requirement)) < ShortLength || IsVague(raw.requirement))
    && |raw.recommendations| > 0
  }

  /** Both tests look at the lower-cased text only, so the case the buyer
      wrote in never changes the outcome. */
  lemma VaguenessIgnoresCase(raw: RawMatch)
    ensures IsVague(raw.requirement) <==> IsVague(ToLower(raw.requirement))
    ensures GuardrailFires(raw) <==> GuardrailFires(raw.(requirement := ToLower(raw.requirement)))
  {
    ToLowerIdempotent(raw.requirement);
  }

  /** A specific term, in any case and anywhere in the requirement, clears it
      of being vague; what is left of the guardrail is then the length test
      alone, in both directions. */
  lemma SpecificTermAnywhereClears(raw: RawMatch, a: string, w: string, b: string)
    requires raw.requirement == a + w + b
    requires ToLower(w) in {"emulsion", "primer", "enamel", "proof"}
    ensures !IsVague(raw.requirement)
    ensures GuardrailFires(raw) <==> Utf16Length(raw.requirement) < ShortLength && raw.recommendations != []
  {
    var lower := ToLower(raw.requirement);
    ToLowerAppend(a + w, b);
    ToLowerAppend(a, w);
    assert lower == ToLower(a) + ToLower(w) + ToLower(b);
    assert lower[|a|..|a| + |w|] == ToLower(w);
    assert OccursAt(lower, ToLower(w), |a|);
    ToLowerKeepsUtf16Length(raw.requirement);
  }

  /** Fewer than 15 characters are under 30 code units whatever they are,
      so such a requirement is always short. */
  lemma FewCharactersAreShort(requirement: string)
    requires |requirement| < ShortLength / 2
    ensures Utf16Length(ToLower(requirement)) < ShortLength
  {
    ToLowerKeepsUtf16Length(requirement);
    Utf16LengthBounds(requirement);
  }

  /** A requirement of 29 characters whose last one lies outside the Basic
      Multilingual Plane is 30 code units long: it names "emulsion", so the
      guardrail stays off, where a count of characters would have tripped it. */
  lemma EmojiCountsTwice(recs: seq<Recommendation>)
    ensures var req := "Exterior emulsion, 20L pails\U{1F3A8}";
      |req| == 29 && |req| < ShortLength && Utf16Length(req) == 30
      && !GuardrailFires(RawMatch(req, recs, 20))
  {
    var req := "Exterior emulsion, 20L pails\U{1F3A8}";
    PailsCodeUnits(req);
    assert req == "Exterior " + "emulsion" + ", 20L pails\U{1F3A8}";
    assert ToLower("emulsion") == "emulsion";
    SpecificTermAnywhereClears(RawMatch(req, recs, 20), "Exterior ", "emulsion", ", 20L pails\U{1F3A8}");
  }

  lemma PailsCodeUnits(req: string)
    requires req == "Exterior emulsion, 20L pails\U{1F3A8}"
    ensures Utf16Length(req) == 30
  {
    var head := "Exterior emulsion, 20L pails";
    var tail := "\U{1F3A8}";
    assert req == head + tail;
    assert forall i :: 0 <= i < |head| ==> head[i] as int < 0x10000;
    Utf16LengthBounds(head);
    Utf16LengthAppend(head, tail);
    assert Utf16Length(tail) == 2 by {
      assert tail[..0] == [];
    }
  }

  // ---------------------------------------------------------------------------
  // Capping
  // ---------------------------------------------------------------------------

  function FlaggedReasoning(requirement: string): string {
    "\U{1F9E0} \U{26A0}\U{FE0F} FLAGGED: Input \"" + requirement
      + "\" is too vague. Lacks technical specifications (Emulsion/Enamel/Grade/Usage)."
  }

  /** One recommendation of a flagged requirement: score capped, confidence
      synced to 0.55, reasoning overwritten. */
  function Cap(rec: Recommendation, requirement: string): (r: Recommendation)
    ensures r.specMatchScore <= ScoreCap && r.specMatchScore <= rec.specMatchScore
    ensures rec.specMatchScore <= ScoreCap ==> r.specMatchScore == rec.specMatchScore
    ensures r.rank == rec.rank && r.productId == rec.productId && r.productName == rec.productName
    ensures r.confidence == 0.55 && r.reasoning == FlaggedReasoning(requirement)
  {
    rec.(specMatchScore := Min(rec.specMatchScore, ScoreCap),
         confidence := 0.55,
         reasoning := FlaggedReasoning(requirement))
  }

  function CapAll(recs: seq<Recommendation>, requirement: string): (r: seq<Recommendation>)
    ensures |r| == |recs|
    ensures forall i :: 0 <= i < |recs| ==> r[i] == Cap(recs[i], requirement)
  {
    seq(|recs|, i requires 0 <= i < |recs| => Cap(recs[i], requirement))
  }

  /** `res.recommendations` after the guardrail step. */
  function GuardedRecommendations(raw: RawMatch): seq<Recommendation> {
    if GuardrailFires(raw) then CapAll(raw.recommendations, raw.requirement)
    else raw.recommendations
  }

  // ---------------------------------------------------------------------------
  // Sorting by rank: Array.prototype.sort with `a.rank - b.rank`, which is stable
  // ---------------------------------------------------------------------------

  predicate SortedByRank(s: seq<Recommendation>) {
    forall i, j :: 0 <= i < j < |s| ==> s[i].rank <= s[j].rank
  }

  /** Puts `x` after every element of `s` whose rank is not above its own,
      scanning from the back as an insertion sort does. */
  function Insert(x: Recommendation, s: seq<Recommendation>): seq<Recommendation>
    decreases |s|
  {
    if |s| == 0 || s[|s| - 1].rank <= x.rank then s + [x]
    else Insert(x, s[..|s| - 1]) + [s[|s| - 1]]
  }

  /** The stable sort by ascending rank. */
  function SortByRank(s: seq<Recommendation>): seq<Recommendation>
    decreases |s|
  {
    if |s| == 0 then [] else Insert(s[|s| - 1], SortByRank(s[..|s| - 1]))
  }

  /** The elements of rank `k`, in their order. */
  function WithRank(s: seq<Recommendation>, k: int): seq<Recommendation>
    decreases |s|
  {
    if |s| == 0 then []
    else WithRank(s[..|s| - 1], k) + (if s[|s| - 1].rank == k then [s[|s| - 1]] else [])
  }

  lemma {:induction false} InsertPermutes(x: Recommendation, s: seq<Recommendation>)
    ensures |Insert(x, s)| == |s| + 1
    ensures multiset(Insert(x, s)) == multiset(s) + multiset{x}
    decreases |s|
  {
    if |s| == 0 || s[|s| - 1].rank <= x.rank {
    } else {
      var init, last := s[..|s| - 1], s[|s| - 1];
      InsertPermutes(x, init);
      assert s == init + [last];
    }
  }

  lemma {:induction false} InsertKeepsSorted(x: Recommendation, s: seq<Recommendation>)
    requires SortedByRank(s)
    ensures SortedByRank(Insert(x, s))
    ensures forall i :: 0 <= i < |Insert(x, s)| ==> Insert(x, s)[i] == x || Insert(x, s)[i] in s
    decreases |s|
  {
    InsertPermutes(x, s);
    if |s| == 0 || s[|s| - 1].rank <= x.rank {
    } else {
      var init, last := s[..|s| - 1], s[|s| - 1];
      InsertKeepsSorted(x, init);
      InsertPermutes(x, init);
      var r := Insert(x, init);
      forall i | 0 <= i < |r| ensures r[i].rank <= last.rank {
        if r[i] != x {
          var k :| 0 <= k < |init| && init[k] == r[i];
          assert s[k] == init[k];
        }
      }
    }
  }

  lemma {:induction false} SortByRankPermutes(s: seq<Recommendation>)
    ensures |SortByRank(s)| == |s|
    ensures multiset(SortByRank(s)) == multiset(s)
    ensures SortedByRank(SortByRank(s))
    decreases |s|
  {
    if |s| > 0 {
      var init, last := s[..|s| - 1], s[|s| - 1];
      SortByRankPermutes(init);
      InsertPermutes(last, SortByRank(init));
      InsertKeepsSorted(last, SortByRank(init));
      assert s == init + [last];
    }
  }

  lemma {:induction false} InsertIsStable(x: Recommendation, s: seq<Recommendation>, k: int)
    ensures WithRank(Insert(x, s), k) == WithRank(s, k) + (if x.rank == k then [x] else [])
    decreases |s|
  {
    if |s| == 0 || s[|s| - 1].rank <= x.rank {
      assert (s + [x])[..|s|] == s;
    } else {
      var init, last := s[..|s| - 1], s[|s| - 1];
      InsertIsStable(x, init, k);
      var r := Insert(x, init);
      assert (r + [last])[..|r|] == r;
    }
  }

  /** Elements of equal rank keep their relative order. */
  lemma {:induction false} SortByRankIsStable(s: seq<Recommendation>, k: int)
    ensures WithRank(SortByRank(s), k) == WithRank(s, k)
    decreases |s|
  {
    if |s| > 0 {
      var init, last := s[..|s| - 1], s[|s| - 1];
      SortByRankIsStable(init, k);
      InsertIsStable(last, SortByRank(init), k);
    }
  }

  /** Where `x` lands: after the last element of rank not above its own,
      ahead of the run of higher ranks that ends the sequence. */
  lemma {:induction false} InsertSplit(x: Recommendation, s: seq<Recommendation>, j: nat)
    requires j <= |s| && (j == 0 || s[j - 1].rank <= x.rank)
    requires forall k :: j <= k < |s| ==> s[k].rank > x.rank
    ensures Insert(x, s) == s[..j] + [x] + s[j..]
    decreases |s|
  {
    if j < |s| {
      var t := s[..|s| - 1];
      assert t[..j] == s[..j];
      InsertSplit(x, t, j);
      assert s[j..] == t[j..] + [s[|s| - 1]];
    } else {
      assert s[..j] == s;
    }
  }

  /** One pass of insertion sort: moves `a[i]` back past the larger ranks
      before it. */
  method InsertInPlace(a: array<Recommendation>, i: nat)
    requires i < a.Length
    modifies a
    ensures a[..i + 1] == Insert(old(a[i]), old(a[..i]))
    ensures a[i + 1..] == old(a[i + 1..])
  {
    ghost var sorted := a[..i];
    var x := a[i];
    var j := i;
    while j > 0 && a[j - 1].rank > x.rank
      invariant 0 <= j <= i
      invariant forall k :: 0 <= k < j ==> a[k] == sorted[k]
      invariant forall k :: j < k <= i ==> a[k] == sorted[k - 1]
      invariant a[i + 1..] == old(a[i + 1..])
      invariant forall k :: j <= k < i ==> sorted[k].rank > x.rank
    {
      a[j] := a[j - 1];
      j := j - 1;
    }
    InsertSplit(x, sorted, j);
    a[j] := x;
    Spliced(a[..], sorted, x, i, j);
  }

  /** The array after the shift and the store: the sorted prefix before `j`,
      then `x`, then the rest of the prefix moved up one place. */
  lemma Spliced(cur: seq<Recommendation>, sorted: seq<Recommendation>, x: Recommendation, i: nat, j: nat)
    requires j <= i < |cur| && |sorted| == i
    requires forall k :: 0 <= k < j ==> cur[k] == sorted[k]
    requires cur[j] == x
    requires forall k :: j < k <= i ==> cur[k] == sorted[k - 1]
    ensures cur[..i + 1] == sorted[..j] + [x] + sorted[j..]
  {
    var spliced := sorted[..j] + [x] + sorted[j..];
    forall k | 0 <= k <= i ensures cur[k] == spliced[k] {
      if k > j {
        assert spliced[k] == sorted[k - 1];
      }
    }
  }

  /** `a.sort((a, b) => a.rank - b.rank)`, in place, as an insertion sort. */
  method SortInPlace(a: array<Recommendation>)
    modifies a
    ensures a[..] == SortByRank(old(a[..]))
  {
    ghost var input := a[..];
    var i := 0;
    while i < a.Length
      invariant 0 <= i <= a.Length
      invariant a[..i] == SortByRank(input[..i])
      invariant a[i..] == input[i..]
    {
      assert input[..i + 1][..i] == input[..i];
      assert input[i] == a[i];
      InsertInPlace(a, i);
      i := i + 1;
    }
    assert input[..a.Length] == input;
  }

  // ---------------------------------------------------------------------------
  // The item the guardrail hands on
  // ---------------------------------------------------------------------------

  function WithConfidence(rec: Recommendation): (r: Recommendation)
    ensures r.confidence == Ratio(r.specMatchScore)
    ensures r.(confidence := rec.confidence) == rec
  {
    rec.(confidence := Ratio(rec.specMatchScore))
  }

  /** `sortedRecs.map(r => ({...r, confidence: r.spec_match_score / 100}))` */
  function Finalize(recs: seq<Recommendation>): (r: seq<Recommendation>)
    ensures |r| == |recs|
    ensures forall i :: 0 <= i < |recs| ==> r[i] == WithConfidence(recs[i])
  {
    seq(|recs|, i requires 0 <= i < |recs| => WithConfidence(recs[i]))
  }

  /** The returned MatchedItem, built from the sorted recommendations. */
  function Assemble(raw: RawMatch, sorted: seq<Recommendation>): MatchedItem {
    var top := if |sorted| > 0 then Some(sorted[0]) else None;
    MatchedItem(
      requirement := raw.requirement,
      productId := if top.Some? then Some(top.value.productId) else None,
      productName := if top.Some? then Some(top.value.productName) else None,
      confidence := Some(if top.Some? then Ratio(top.value.specMatchScore) else 0.0),
      specMatchScore := if top.Some? then Some(top.value.specMatchScore) else None,
      reasoning := if top.Some? then Some(top.value.reasoning) else None,
      estimatedQuantity := raw.estimatedQuantity,
      recommendations := Finalize(sorted))
  }

  /** The guardrail/mapping step for one provider item. */
  function Validate(raw: RawMatch): MatchedItem {
    Assemble(raw, SortByRank(GuardedRecommendations(raw)))
  }

  /** What `Validate` should produce, up to order: each input recommendation,
      capped if the guardrail fires, with its confidence set to score/100. */
  function Expected(raw: RawMatch): seq<Recommendation> {
    Finalize(GuardedRecommendations(raw))
  }

  lemma {:induction false} FinalizeInsert(x: Recommendation, s: seq<Recommendation>)
    ensures Finalize(Insert(x, s)) == Insert(WithConfidence(x), Finalize(s))
    decreases |s|
  {
    if |s| == 0 || s[|s| - 1].rank <= x.rank {
      assert Finalize(s + [x]) == Finalize(s) + [WithConfidence(x)];
    } else {
      var init, last := s[..|s| - 1], s[|s| - 1];
      FinalizeInsert(x, init);
      assert Finalize(s)[..|s| - 1] == Finalize(init);
      InsertPermutes(x, init);
      assert Finalize(Insert(x, init) + [last]) == Finalize(Insert(x, init)) + [WithConfidence(last)];
    }
  }

  /** Setting confidences after the sort is the same as before it. */
  lemma {:induction false} FinalizeCommutesWithSort(s: seq<Recommendation>)
    ensures Finalize(SortByRank(s)) == SortByRank(Finalize(s))
    decreases |s|
  {
    if |s| > 0 {
      var init, last := s[..|s| - 1], s[|s| - 1];
      FinalizeCommutesWithSort(init);
      FinalizeInsert(last, SortByRank(init));
      assert Finalize(s)[..|s| - 1] == Finalize(init);
    }
  }

  /** The output recommendations are the expected ones, sorted stably by rank,
      each with confidence == score/100. */
  lemma ValidateSortsExpected(raw: RawMatch)
    ensures Validate(raw).recommendations == SortByRank(Expected(raw))
    ensures |Validate(raw).recommendations| == |raw.recommendations|
    ensures multiset(Validate(raw).recommendations) == multiset(Expected(raw))
    ensures SortedByRank(Validate(raw).recommendations)
    ensures forall k :: WithRank(Validate(raw).recommendations, k) == WithRank(Expected(raw), k)
    ensures forall r :: r in Validate(raw).recommendations ==> r.confidence == Ratio(r.specMatchScore)
    ensures Validate(raw).requirement == raw.requirement
    ensures Validate(raw).estimatedQuantity == raw.estimatedQuantity
  {
    var g := GuardedRecommendations(raw);
    var e := Expected(raw);
    FinalizeCommutesWithSort(g);
    var v := Validate(raw).recommendations;
    assert v == SortByRank(e);
    SortByRankPermutes(e);
    forall k ensures WithRank(v, k) == WithRank(e, k) {
      SortByRankIsStable(e, k);
    }
    forall r | r in v ensures r.confidence == Ratio(r.specMatchScore) {
      assert r in multiset(e);
      var i :| 0 <= i < |e| && e[i] == r;
    }
  }

  /** When the guardrail fires, every output score is at most 55 and never
      raised, every reasoning is the FLAGGED text, and confidence (0.55 at
      capping time) ends as score/100. */
  lemma GuardrailCapsEveryRecommendation(raw: RawMatch)
    requires GuardrailFires(raw)
    ensures forall r :: r in Validate(raw).recommendations ==>
      r.specMatchScore <= ScoreCap
      && r.reasoning == FlaggedReasoning(raw.requirement)
      && r.confidence == Ratio(r.specMatchScore)
    ensures forall r :: r in Validate(raw).recommendations ==>
      exists j :: 0 <= j < |raw.recommendations|
        && r.rank == raw.recommendations[j].rank
        && r.productId == raw.recommendations[j].productId
        && r.specMatchScore == Min(raw.recommendations[j].specMatchScore, ScoreCap)
  {
    ValidateSortsExpected(raw);
    var out := Validate(raw).recommendations;
    forall r | r in out
      ensures r.specMatchScore <= ScoreCap && r.reasoning == FlaggedReasoning(raw.requirement)
      ensures exists j :: (0 <= j < |raw.recommendations|
        && r.rank == raw.recommendations[j].rank
        && r.productId == raw.recommendations[j].productId
        && r.specMatchScore == Min(raw.recommendations[j].specMatchScore, ScoreCap))
    {
      assert r in multiset(Expected(raw));
      var j :| 0 <= j < |Expected(raw)| && Expected(raw)[j] == r;
      assert r == WithConfidence(Cap(raw.recommendations[j], raw.requirement));
    }
  }

  /** When the guardrail does not fire, the recommendations keep their scores
      and reasoning; only their order and confidence may change. */
  lemma NoGuardrailKeepsScores(raw: RawMatch)
    requires !GuardrailFires(raw)
    ensures multiset(Validate(raw).recommendations) == multiset(Finalize(raw.recommendations))
    ensures forall r :: r in Validate(raw).recommendations ==>
      exists j :: 0 <= j < |raw.recommendations|
        && r == raw.recommendations[j].(confidence := Ratio(raw.recommendations[j].specMatchScore))
  {
    ValidateSortsExpected(raw);
    forall r | r in Validate(raw).recommendations
      ensures exists j :: (0 <= j < |raw.recommendations|
        && r == raw.recommendations[j].(confidence := Ratio(raw.recommendations[j].specMatchScore)))
    {
      assert r in multiset(Expected(raw));
      var j :| 0 <= j < |Expected(raw)| && Expected(raw)[j] == r;
    }
  }

  function FirstWithRank(s: seq<Recommendation>, k: int): (j: nat)
    requires exists i :: 0 <= i < |s| && s[i].rank == k
    ensures j < |s| && s[j].rank == k && forall i :: 0 <= i < j ==> s[i].rank != k
    decreases |s|
  {
    if s[0].rank == k then 0
    else
      assert exists i :: 0 <= i < |s[1..]| && s[1..][i].rank == k by {
        var i :| 0 <= i < |s| && s[i].rank == k;
        assert s[1..][i - 1] == s[i];
      }
      1 + FirstWithRank(s[1..], k)
  }

  lemma {:induction false} WithRankEmpty(s: seq<Recommendation>, k: int)
    requires forall i :: 0 <= i < |s| ==> s[i].rank != k
    ensures WithRank(s, k) == []
    decreases |s|
  {
    if |s| > 0 {
      WithRankEmpty(s[..|s| - 1], k);
    }
  }

  lemma {:induction false} WithRankStartsAtFirst(s: seq<Recommendation>, k: int, j: nat)
    requires j < |s| && s[j].rank == k && forall i :: 0 <= i < j ==> s[i].rank != k
    ensures |WithRank(s, k)| > 0 && WithRank(s, k)[0] == s[j]
    decreases |s|
  {
    var init := s[..|s| - 1];
    if j == |s| - 1 {
      WithRankEmpty(init, k);
    } else {
      WithRankStartsAtFirst(init, k, j);
    }
  }

  /** In a stable sort of `e`, the head is the first element of `e` that
      carries the least rank. */
  lemma HeadOfStableSort(e: seq<Recommendation>, m: seq<Recommendation>)
    requires |m| > 0 && SortedByRank(m) && multiset(m) == multiset(e)
    requires WithRank(m, m[0].rank) == WithRank(e, m[0].rank)
    ensures exists j :: 0 <= j < |e| && m[0] == e[j] && forall i :: 0 <= i < j ==> e[i].rank > m[0].rank
  {
    var top := m[0];
    assert exists i :: 0 <= i < |e| && e[i].rank == top.rank by {
      assert top in multiset(e);
      var i :| 0 <= i < |e| && e[i] == top;
    }
    var j := FirstWithRank(e, top.rank);
    WithRankStartsAtFirst(e, top.rank, j);
    WithRankStartsAtFirst(m, top.rank, 0);
    forall i | 0 <= i < j ensures e[i].rank > top.rank {
      SortedHeadIsLeast(m, e[i]);
    }
  }

  lemma SortedHeadIsLeast(m: seq<Recommendation>, x: Recommendation)
    requires |m| > 0 && SortedByRank(m) && x in multiset(m)
    ensures m[0].rank <= x.rank
  {
    var p :| 0 <= p < |m| && m[p] == x;
  }

  /** The top-level fields mirror rank 1: the first recommendation of least
      rank, earliest in the reply among equals. With no recommendations the
      confidence is 0 and the other top fields are absent. */
  lemma TopFieldsMirrorRankOne(raw: RawMatch)
    ensures var m := Validate(raw);
      |raw.recommendations| > 0 ==>
        var top := m.recommendations[0];
        m.productId == Some(top.productId) && m.productName == Some(top.productName)
        && m.specMatchScore == Some(top.specMatchScore) && m.reasoning == Some(top.reasoning)
        && m.confidence == Some(Ratio(top.specMatchScore))
        && (forall r :: r in m.recommendations ==> top.rank <= r.rank)
        && (exists j :: 0 <= j < |Expected(raw)| && top == Expected(raw)[j]
              && forall i :: 0 <= i < j ==> Expected(raw)[i].rank > top.rank)
    ensures var m := Validate(raw);
      |raw.recommendations| == 0 ==>
        m.recommendations == [] && m.productId.None? && m.productName.None?
        && m.specMatchScore.None? && m.reasoning.None? && m.confidence == Some(0.0)
  {
    ValidateSortsExpected(raw);
    var g := SortByRank(GuardedRecommendations(raw));
    AssembleMirrorsHead(raw, g);
    var m := Validate(raw).recommendations;
    if |raw.recommendations| > 0 {
      forall r | r in m ensures m[0].rank <= r.rank {
        var i :| 0 <= i < |m| && m[i] == r;
      }
      HeadOfStableSort(Expected(raw), m);
    }
  }

  /** The item assembled from `sorted` takes its top fields from the head of
      its final recommendations, or leaves them absent when there are none. */
  lemma AssembleMirrorsHead(raw: RawMatch, sorted: seq<Recommendation>)
    ensures var m := Assemble(raw, sorted);
      |sorted| > 0 ==>
        var top := m.recommendations[0];
        m.productId == Some(top.productId) && m.productName == Some(top.productName)
        && m.specMatchScore == Some(top.specMatchScore) && m.reasoning == Some(top.reasoning)
        && m.confidence == Some(Ratio(top.specMatchScore))
    ensures var m := Assemble(raw, sorted);
      |sorted| == 0 ==>
        m.recommendations == [] && m.productId.None? && m.productName.None?
        && m.specMatchScore.None? && m.reasoning.None? && m.confidence == Some(0.0)
  {
  }

  // ---------------------------------------------------------------------------
  // Logging
  // ---------------------------------------------------------------------------

  const StartMessage := "Initiating Semantic Product Matching with Vague Input Guardrails..."

  function GuardrailMessage(requirement: string): string {
    "\U{26A0}\U{FE0F} Guardrail Triggered: Input \"" + requirement + "\" is too vague. Capping score."
  }

  /** The warnings logged while mapping: one per item on which the guardrail fires. */
  function GuardrailLog(raws: seq<RawMatch>): (log: seq<LogEntry>)
    ensures |log| <= |raws|
    ensures forall e :: e in log ==> e.agent == Agent && e.kind == Warning
    decreases |raws|
  {
    if |raws| == 0 then []
    else
      var last := raws[|raws| - 1];
      GuardrailLog(raws[..|raws| - 1])
        + (if GuardrailFires(last) then [LogEntry(Agent, GuardrailMessage(last.requirement), Warning)] else [])
  }

  /** `m.spec_match_score || 0` */
  function TopScoreOrZero(m: MatchedItem): int {
    m.specMatchScore.GetOr(0)
  }

  /** The one line logged for an item after mapping. */
  function ItemLogEntry(m: MatchedItem): LogEntry {
    if |m.recommendations| > 0 then
      var score := TopScoreOrZero(m);
      var tail := Prefix(m.requirement, 15) + "... -> " + m.productName.GetOr("undefined")
                  + " (" + IntToString(score) + "%)";
      if score < LowScore then LogEntry(Agent, "Matched (Low Confidence): " + tail, Warning)
      else LogEntry(Agent, "Matched: " + tail, Success)
    else
      LogEntry(Agent, "Identified Service/Constraint: " + Prefix(m.requirement, 20) + "...", Info)
  }

  function ItemLog(ms: seq<MatchedItem>): (log: seq<LogEntry>)
    ensures |log| == |ms|
    ensures forall i :: 0 <= i < |ms| ==> log[i] == ItemLogEntry(ms[i])
  {
    seq(|ms|, i requires 0 <= i < |ms| => ItemLogEntry(ms[i]))
  }

  /** Severity of an item's line: info for a service/constraint, otherwise
      warning below a top score of 60 (a missing score counting as 0) and
      success from 60 up. */
  lemma ItemLogSeverity(m: MatchedItem)
    ensures ItemLogEntry(m).agent == Agent
    ensures ItemLogEntry(m).kind == Info <==> m.recommendations == []
    ensures ItemLogEntry(m).kind == Warning <==> m.recommendations != [] && m.specMatchScore.GetOr(0) < 60
    ensures ItemLogEntry(m).kind == Success <==> m.recommendations != [] && m.specMatchScore.GetOr(0) >= 60
  {
  }

  /** An item on which the guardrail fired is always logged as a warning,
      on top of the guardrail's own warning. */
  lemma TriggeredItemLogsWarning(raw: RawMatch)
    requires GuardrailFires(raw)
    ensures ItemLogEntry(Validate(raw)).kind == Warning
  {
    TopFieldsMirrorRankOne(raw);
    GuardrailCapsEveryRecommendation(raw);
    assert Validate(raw).recommendations[0] in Validate(raw).recommendations;
  }

  /** `rawMatches.map(...)`: one validated item per provider item. */
  function MatchedItems(raws: seq<RawMatch>): (ms: seq<MatchedItem>)
    ensures |ms| == |raws|
    decreases |raws|
  {
    if |raws| == 0 then [] else MatchedItems(raws[..|raws| - 1]) + [Validate(raws[|raws| - 1])]
  }

  /** Item `i` of the result is provider item `i`, validated. */
  lemma {:induction false} MatchedItemsAt(raws: seq<RawMatch>, i: nat)
    requires i < |raws|
    ensures MatchedItems(raws)[i] == Validate(raws[i])
    decreases |raws|
  {
    if i < |raws| - 1 {
      MatchedItemsAt(raws[..|raws| - 1], i);
    }
  }

  function MatchResult(reply: Reply<seq<RawMatch>>): Outcome<seq<MatchedItem>> {
    match reply
    case Answer(raws) => Ok(MatchedItems(raws))
    case NoText => Fail
    case Threw(_) => Fail
  }

  function FailureMessage(reply: Reply<seq<RawMatch>>): string
    requires !reply.Answer?
  {
    "Matching failed: " + (if reply.NoText? then "Empty response from AI" else reply.message)
  }

  /** Everything `match` logs for one reply. */
  function MatchLog(reply: Reply<seq<RawMatch>>): seq<LogEntry> {
    [LogEntry(Agent, StartMessage, Info)]
    + match reply
      case Answer(raws) => GuardrailLog(raws) + ItemLog(MatchedItems(raws))
      case _ => [LogEntry(Agent, FailureMessage(reply), Error)]
  }

  /** Every line `match` logs carries its agent name; it fails exactly when
      the reply is not an answer, and then its last line is an error. */
  lemma MatchLogShape(reply: Reply<seq<RawMatch>>)
    ensures forall e :: e in MatchLog(reply) ==> e.agent == Agent
    ensures MatchResult(reply).Fail? <==> !reply.Answer?
    ensures !reply.Answer? ==> |MatchLog(reply)| == 2 && MatchLog(reply)[1].kind == Error
    ensures reply.Answer? ==> |MatchLog(reply)| >= 1 + |reply.value|
  {
    if reply.Answer? {
      forall e | e in ItemLog(MatchedItems(reply.value)) ensures e.agent == Agent {
        var i :| 0 <= i < |reply.value| && ItemLog(MatchedItems(reply.value))[i] == e;
        ItemLogSeverity(MatchedItems(reply.value)[i]);
      }
    }
  }

  /** The guardrail/mapping lambda for one item, with its warning. */
  method ValidateOne(sink: LogSink, raw: RawMatch) returns (m: MatchedItem)
    modifies sink
    ensures m == Validate(raw)
    ensures sink.entries == old(sink.entries) + GuardrailLog([raw])
  {
    GuardrailLogOfOne(raw);
    var recs := raw.recommendations;
    if GuardrailFires(raw) {
      sink.Log(Agent, GuardrailMessage(raw.requirement), Warning);
      recs := CapAll(recs, raw.requirement);
    }
    assert recs == GuardedRecommendations(raw);
    var a := new Recommendation[|recs|](k requires 0 <= k < |recs| => recs[k]);
    assert a[..] == recs;
    SortInPlace(a);
    ghost var sorted := SortByRank(recs);
    assert a[..] == sorted;
    m := Assemble(raw, a[..]);
  }

  /** One item's warnings: the guardrail line exactly when it fires. */
  lemma GuardrailLogOfOne(raw: RawMatch)
    ensures GuardrailLog([raw]) == if GuardrailFires(raw) then [LogEntry(Agent, GuardrailMessage(raw.requirement), Warning)] else []
  {
    assert [raw][..0] == [];
  }

  /** The `matches.forEach` that logs one line per item. */
  method LogItems(sink: LogSink, matches: seq<MatchedItem>)
    modifies sink
    ensures sink.entries == old(sink.entries) + ItemLog(matches)
  {
    var j := 0;
    while j < |matches|
      invariant 0 <= j <= |matches|
      invariant sink.entries == old(sink.entries) + ItemLog(matches[..j])
    {
      var m := matches[j];
      if |m.recommendations| > 0 {
        var score := m.specMatchScore.GetOr(0);
        var tail := Prefix(m.requirement, 15) + "... -> " + m.productName.GetOr("undefined")
                    + " (" + IntToString(score) + "%)";
        if score < LowScore {
          sink.Log(Agent, "Matched (Low Confidence): " + tail, Warning);
        } else {
          sink.Log(Agent, "Matched: " + tail, Success);
        }
      } else {
        sink.Log(Agent, "Identified Service/Constraint: " + Prefix(m.requirement, 20) + "...", Info);
      }
      assert ItemLog(matches[..j + 1]) == ItemLog(matches[..j]) + [ItemLogEntry(m)];
      j := j + 1;
    }
    assert matches[..j] == matches;
  }

  lemma GuardrailLogAppend(raws: seq<RawMatch>, raw: RawMatch)
    ensures GuardrailLog(raws + [raw]) == GuardrailLog(raws) + GuardrailLog([raw])
  {
    assert (raws + [raw])[..|raws|] == raws;
    assert [raw][..0] == [];
  }

  lemma MatchedItemsAppend(raws: seq<RawMatch>, raw: RawMatch)
    ensures MatchedItems(raws + [raw]) == MatchedItems(raws) + [Validate(raw)]
  {
    assert (raws + [raw])[..|raws|] == raws;
  }

  /** One more item validated: its matched item and its warnings follow
      those of the items before it. */
  lemma ValidateAllStep(prior: seq<LogEntry>, raws: seq<RawMatch>, i: nat)
    requires i < |raws|
    ensures MatchedItems(raws[..i + 1]) == MatchedItems(raws[..i]) + [Validate(raws[i])]
    ensures prior + GuardrailLog(raws[..i + 1]) == prior + GuardrailLog(raws[..i]) + GuardrailLog([raws[i]])
  {
    assert raws[..i + 1] == raws[..i] + [raws[i]];
    MatchedItemsAppend(raws[..i], raws[i]);
    GuardrailLogAppend(raws[..i], raws[i]);
    AppendAssoc(prior, GuardrailLog(raws[..i]), GuardrailLog([raws[i]]));
  }

  /** The `rawMatches.map(...)` pass: each item validated in turn, the
      guardrail warnings logged as they arise. */
  method ValidateAll(sink: LogSink, raws: seq<RawMatch>) returns (matches: seq<MatchedItem>)
    modifies sink
    ensures matches == MatchedItems(raws)
    ensures sink.entries == old(sink.entries) + GuardrailLog(raws)
  {
    matches := [];
    var i := 0;
    while i < |raws|
      invariant 0 <= i <= |raws|
      invariant matches == MatchedItems(raws[..i])
      invariant sink.entries == old(sink.entries) + GuardrailLog(raws[..i])
    {
      var m := ValidateOne(sink, raws[i]);
      ValidateAllStep(old(sink.entries), raws, i);
      matches := matches + [m];
      i := i + 1;
    }
    assert raws[..i] == raws;
  }

  /** ProductMatchingAgent.match after the provider call. */
  method Match(sink: LogSink, reply: Reply<seq<RawMatch>>) returns (r: Outcome<seq<MatchedItem>>)
    modifies sink
    ensures r == MatchResult(reply)
    ensures sink.entries == old(sink.entries) + MatchLog(reply)
  {
    ghost var start := sink.entries;
    sink.Log(Agent, StartMessage, Info);
    if !reply.Answer? {
      sink.Log(Agent, FailureMessage(reply), Error);
      AppendAssoc(start, [LogEntry(Agent, StartMessage, Info)], [LogEntry(Agent, FailureMessage(reply), Error)]);
      return Fail;
    }
    ghost var begun := sink.entries;
    var matches := ValidateAll(sink, reply.value);
    ghost var guarded := GuardrailLog(reply.value);
    LogItems(sink, matches);
    ghost var items := ItemLog(matches);
    AppendAssoc(begun, guarded, items);
    AppendAssoc(start, [LogEntry(Agent, StartMessage, Info)], guarded + items);
    MatchLogOfAnswer(reply.value);
    r := Ok(matches);
  }

  lemma MatchLogOfAnswer(raws: seq<RawMatch>)
    ensures MatchLog(Answer(raws)) == [LogEntry(Agent, StartMessage, Info)] + (GuardrailLog(raws) + ItemLog(MatchedItems(raws)))
  {
  }

  // ---------------------------------------------------------------------------
  // Two requirements worked through
  // ---------------------------------------------------------------------------

  /** A long requirement naming "proof" is not vague, so a score of 90 passes
      through untouched. */
  lemma SpecificRequirementKeepsScore(rec: Recommendation)
    requires rec.rank == 1 && rec.specMatchScore == 90
    ensures var raw := RawMatch("5000 Liters of Weather-Proof Exterior Emulsion (White)", [rec], 5000);
      !GuardrailFires(raw) && Validate(raw).specMatchScore == Some(90)
      && ItemLogEntry(Validate(raw)).kind == Success
  {
    var req := "5000 Liters of Weather-Proof Exterior Emulsion (White)";
    NamesProof(req);
    var raw := RawMatch(req, [rec], 5000);
    assert !GuardrailFires(raw);
    assert SortByRank([rec]) == [rec];
  }

  /** The long emulsion requirement names "proof" and is not short. */
  lemma NamesProof(req: string)
    requires req == "5000 Liters of Weather-Proof Exterior Emulsion (White)"
    ensures !IsVague(req) && Utf16Length(ToLower(req)) >= ShortLength
  {
    var lower := ToLower(req);
    Utf16LengthBounds(lower);
    assert lower[23] == 'p' && lower[24] == 'r' && lower[25] == 'o' && lower[26] == 'o' && lower[27] == 'f';
    assert lower[23..28] == "proof";
    assert OccursAt(lower, "proof", 23);
  }

  /** "some paint" is short and vague: every score is capped at 55 whatever
      the provider said, and the item logs two warnings. */
  lemma SomePaintIsCapped(recs: seq<Recommendation>)
    requires |recs| > 0
    ensures var raw := RawMatch("some paint", recs, 100);
      GuardrailFires(raw) && IsVague(raw.requirement)
      && (forall r :: r in Validate(raw).recommendations ==> r.specMatchScore <= 55)
      && GuardrailLog([raw]) == [LogEntry(Agent, GuardrailMessage("some paint"), Warning)]
      && ItemLogEntry(Validate(raw)).kind == Warning
  {
    var req := "some paint";
    var lower := ToLower(req);
    assert lower == "some paint";
    FewCharactersAreShort(req);
    assert lower[5..10] == "paint";
    assert OccursAt(lower, "paint", 5);
    assert ContainsSome(lower, VagueKeywords) by {
      assert Contains(lower, VagueKeywords[5]);
    }
    NameLacksWordIn(lower, "emulsion", 'u');
    NameLacksWordIn(lower, "primer", 'r');
    NameLacksWordIn(lower, "enamel", 'l');
    NameLacksWordIn(lower, "proof", 'r');
    var raw := RawMatch(req, recs, 100);
    GuardrailCapsEveryRecommendation(raw);
    TriggeredItemLogsWarning(raw);
    assert [raw][..0] == [];
  }

  lemma NameLacksWordIn(s: string, w: string, c: char)
    requires c in w && c !in s
    ensures !Contains(s, w)
  {
    if Contains(s, w) {
      ContainsHasChars(s, w, c);
    }
  }
}
