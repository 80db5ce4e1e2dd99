/**
 * Scoring, ranking and the summary of `aggregateResults` (App.jsx): each map entry
 * gets a score and a fit label, the roster is sorted by descending score, and a
 * summary counts types and consensus tiers and rounds the mean score.
 */
module Scoring {
  import opened Text
  import opened Aggregation

  /** An entry after the score `map`: the entry and the two fields added to it. */
  datatype Ranked = Ranked(inv: Investor, score: int, fit: string)

  /** Points before clamping: a base, per-citation points and four bonuses. */
  function RawScore(inv: Investor): int {
    50 + 15 * inv.consensus
       + (if inv.first.italyPresence == "S\U{00EC}" then 10 else 0)
       + (if inv.allNews != [] then 10 else 0)
       + (if inv.allDeals != [] then 5 else 0)
       + (if inv.first.contacts != [] then 5 else 0)
  }

  /** `Math.min(99, Math.max(30, score))`. */
  function Score(inv: Investor): (s: int)
    ensures 30 <= s <= 99
    ensures 30 <= RawScore(inv) <= 99 ==> s == RawScore(inv)
    ensures RawScore(inv) > 99 ==> s == 99
  {
    var raw := RawScore(inv);
    if raw > 99 then 99 else if raw < 30 then 30 else raw
  }

  /** The label for a score: thresholds 85, 70 and 55. */
  function Fit(score: int): (f: string)
    ensures f == "Eccellente" <==> score >= 85
    ensures f == "Alto" <==> 70 <= score < 85
    ensures f == "Medio" <==> 55 <= score < 70
    ensures f == "Basso" <==> score < 55
  {
    if score >= 85 then "Eccellente" else if score >= 70 then "Alto" else if score >= 55 then "Medio" else "Basso"
  }

  function Rank(inv: Investor): Ranked {
    var s := Score(inv);
    Ranked(inv, s, Fit(s))
  }

  /** The score `map` over the roster. */
  function ScoreAll(roster: seq<Investor>): (r: seq<Ranked>)
    ensures |r| == |roster|
    ensures forall i :: 0 <= i < |r| ==>
              r[i].inv == roster[i] && r[i].score == Score(roster[i]) && r[i].fit == Fit(r[i].score)
  {
    seq(|roster|, i requires 0 <= i < |roster| => Rank(roster[i]))
  }

  // ---------------------------------------------------------------------------
  // Score and fit
  // ---------------------------------------------------------------------------

  /** An entry always has one citation, so the floor of 30 is never reached and the score is at least 65. */
  lemma ScoreOfCitedEntry(inv: Investor)
    requires inv.consensus >= 1
    ensures 65 <= Score(inv) <= 99
    ensures Fit(Score(inv)) != "Basso"
  {
  }

  /** More citations never lower the score, all else equal. */
  lemma ScoreMonotone(inv: Investor, c: nat)
    requires inv.consensus <= c
    ensures Score(inv) <= Score(inv.(consensus := c))
  {
  }

  /** Four citations saturate the score, whatever the bonuses. */
  lemma ScoreSaturates(inv: Investor)
    requires inv.consensus >= 4
    ensures Score(inv) == 99 && Fit(Score(inv)) == "Eccellente"
  {
  }

  /** A higher score never gets a lower label. */
  /** The labels from worst to best. */
  function FitRank(f: string): nat {
    if f == "Eccellente" then 3 else if f == "Alto" then 2 else if f == "Medio" then 1 else 0
  }

  /** A higher score never gets a lower label. */
  lemma FitMonotone(a: int, b: int)
    requires a <= b
    ensures FitRank(Fit(a)) <= FitRank(Fit(b))
    ensures Fit(a) == "Eccellente" ==> Fit(b) == "Eccellente"
    ensures Fit(b) == "Basso" ==> Fit(a) == "Basso"
  {
  }

  // ---------------------------------------------------------------------------
  // Ranking: `investors.sort((a, b) => b.score - a.score)`
  // ---------------------------------------------------------------------------

  predicate SortedByScore(s: seq<Ranked>) {
    forall i, j :: 0 <= i < j < |s| ==> s[i].score >= s[j].score
  }

  /** The entries with score `v`, in order. */
  function WithScore(s: seq<Ranked>, v: int): (r: seq<Ranked>)
    ensures |r| <= |s|
  {
    if s == [] then []
    else WithScore(s[..|s| - 1], v) + (if s[|s| - 1].score == v then [s[|s| - 1]] else [])
  }

  /** `x` placed after every entry scoring at least as high: the step of a stable insertion sort. */
  function InsertRanked(x: Ranked, s: seq<Ranked>): (r: seq<Ranked>)
    ensures |r| == |s| + 1
    ensures multiset(r) == multiset(s) + multiset{x}
  {
    if s == [] then [x]
    else if s[0].score < x.score then [x] + s
    else
      assert s == [s[0]] + s[1..];
      [s[0]] + InsertRanked(x, s[1..])
  }

  /** The comparator sort, which ECMAScript requires to be stable. */
  function SortByScore(s: seq<Ranked>): (r: seq<Ranked>)
    ensures |r| == |s|
  {
    if s == [] then [] else InsertRanked(s[|s| - 1], SortByScore(s[..|s| - 1]))
  }

  lemma {:induction false} WithScoreAppend(a: seq<Ranked>, b: seq<Ranked>, v: int)
    ensures WithScore(a + b, v) == WithScore(a, v) + WithScore(b, v)
    decreases |b|
  {
    if b == [] {
      assert a + b == a;
    } else {
      var b' := b[..|b| - 1];
      WithScoreAppend(a, b', v);
      assert (a + b)[..|a + b| - 1] == a + b';
      assert (a + b)[|a + b| - 1] == b[|b| - 1];
    }
  }

  lemma WithScoreSingle(x: Ranked, v: int)
    ensures WithScore([x], v) == if x.score == v then [x] else []
  {
    assert [x][..0] == [];
  }

  lemma {:induction false} WithScoreBelow(s: seq<Ranked>, v: int)
    requires forall i :: 0 <= i < |s| ==> s[i].score < v
    ensures WithScore(s, v) == []
    decreases |s|
  {
    if s != [] {
      WithScoreBelow(s[..|s| - 1], v);
    }
  }

  predicate AllAtMost(s: seq<Ranked>, b: int) {
    forall i :: 0 <= i < |s| ==> s[i].score <= b
  }

  lemma {:induction false} InsertRankedBound(x: Ranked, s: seq<Ranked>, b: int)
    requires AllAtMost(s, b) && x.score <= b
    ensures AllAtMost(InsertRanked(x, s), b)
    decreases |s|
  {
    if s != [] && s[0].score >= x.score {
      InsertRankedBound(x, s[1..], b);
    }
  }

  lemma {:induction false} InsertRankedSorted(x: Ranked, s: seq<Ranked>)
    requires SortedByScore(s)
    ensures SortedByScore(InsertRanked(x, s))
    decreases |s|
  {
    if s != [] && s[0].score >= x.score {
      var t := s[1..];
      assert SortedByScore(t);
      InsertRankedSorted(x, t);
      assert AllAtMost(t, s[0].score);
      InsertRankedBound(x, t, s[0].score);
      var r := InsertRanked(x, t);
      assert InsertRanked(x, s) == [s[0]] + r;
    }
  }

  lemma InsertRankedStableFront(x: Ranked, s: seq<Ranked>, v: int)
    requires SortedByScore(s) && s != [] && s[0].score < x.score
    ensures WithScore(InsertRanked(x, s), v) == WithScore(s, v) + WithScore([x], v)
  {
    WithScoreSingle(x, v);
    WithScoreAppend([x], s, v);
    assert InsertRanked(x, s) == [x] + s;
    if x.score == v {
      assert forall i :: 0 <= i < |s| ==> s[i].score <= s[0].score;
      WithScoreBelow(s, v);
    }
  }

  /**
   * Inserting into a sorted list keeps the order among equal scores and puts `x`
   * after every earlier entry with its score.
   */
  lemma {:induction false} InsertRankedStable(x: Ranked, s: seq<Ranked>, v: int)
    requires SortedByScore(s)
    ensures WithScore(InsertRanked(x, s), v) == WithScore(s, v) + WithScore([x], v)
    decreases |s|
  {
    if s == [] {
      WithScoreSingle(x, v);
      assert InsertRanked(x, s) == [x];
    } else if s[0].score < x.score {
      InsertRankedStableFront(x, s, v);
    } else {
      var t := s[1..];
      assert SortedByScore(t);
      InsertRankedStable(x, t, v);
      var r := InsertRanked(x, t);
      assert InsertRanked(x, s) == [s[0]] + r;
      WithScoreAppend([s[0]], r, v);
      WithScoreAppend([s[0]], t, v);
      assert [s[0]] + t == s;
    }
  }

  lemma {:induction false} SortByScoreSorted(s: seq<Ranked>)
    ensures SortedByScore(SortByScore(s))
    decreases |s|
  {
    if s != [] {
      var init := s[..|s| - 1];
      SortByScoreSorted(init);
      InsertRankedSorted(s[|s| - 1], SortByScore(init));
    }
  }

  lemma {:induction false} SortByScorePerm(s: seq<Ranked>)
    ensures multiset(SortByScore(s)) == multiset(s)
    decreases |s|
  {
    if s != [] {
      var init, x := s[..|s| - 1], s[|s| - 1];
      SortByScorePerm(init);
      calc {
        multiset(SortByScore(s));
        multiset(InsertRanked(x, SortByScore(init)));
        multiset(SortByScore(init)) + multiset{x};
        multiset(init) + multiset{x};
        { assert s == init + [x]; }
        multiset(s);
      }
    }
  }

  /** The ranked roster is sorted by non-increasing score and is a permutation of its input. */
  lemma SortByScoreSortedPerm(s: seq<Ranked>)
    ensures SortedByScore(SortByScore(s))
    ensures multiset(SortByScore(s)) == multiset(s)
  {
    SortByScoreSorted(s);
    SortByScorePerm(s);
  }

  /** Ties keep their order: the entries with any one score appear in input order. */
  lemma {:induction false} SortByScoreStable(s: seq<Ranked>, v: int)
    ensures WithScore(SortByScore(s), v) == WithScore(s, v)
    decreases |s|
  {
    if s != [] {
      var init, x := s[..|s| - 1], s[|s| - 1];
      SortByScoreStable(init, v);
      SortByScoreSorted(init);
      InsertRankedStable(x, SortByScore(init), v);
      WithScoreSingle(x, v);
    }
  }

  // ---------------------------------------------------------------------------
  // Summary
  // ---------------------------------------------------------------------------

  datatype ByType = ByType(pe: nat, fo: nat, corp: nat, swf: nat, debt: nat)
  datatype ByConsensus = ByConsensus(high: nat, medium: nat, low: nat)
  datatype Summary = Summary(total: nat, byType: ByType, byConsensus: ByConsensus, avgScore: int)

  /** What `aggregateResults` returns: the ranked roster and its summary. */
  datatype Aggregated = Aggregated(investors: seq<Ranked>, summary: Summary)

  /** `s.filter(p).length`. */
  function Count(s: seq<Ranked>, p: Ranked -> bool): (n: nat)
    ensures n <= |s|
  {
    if s == [] then 0 else Count(s[..|s| - 1], p) + (if p(s[|s| - 1]) then 1 else 0)
  }

  function TypeOf(r: Ranked): string {
    r.inv.first.investorType
  }

  predicate High(r: Ranked) { r.inv.consensus >= 3 }
  predicate Medium(r: Ranked) { r.inv.consensus == 2 }
  predicate Low(r: Ranked) { r.inv.consensus == 1 }

  function Sum(s: seq<Ranked>): int {
    if s == [] then 0 else Sum(s[..|s| - 1]) + s[|s| - 1].score
  }

  /** `Math.round(sum / n) || 0`: the mean rounded half up, and 0 (from `NaN`) when `n` is 0. */
  function RoundedMean(sum: int, n: nat): (m: int)
    ensures n > 0 ==> 2 * n * m - n <= 2 * sum < 2 * n * m + n
    ensures n == 0 ==> m == 0
  {
    if n == 0 then 0 else (2 * sum + n) / (2 * n)
  }

  function Summarize(s: seq<Ranked>): Summary {
    Summary(
      |s|,
      ByType(
        Count(s, (r: Ranked) => Contains(TypeOf(r), "PE") || Contains(TypeOf(r), "Private")),
        Count(s, (r: Ranked) => Contains(TypeOf(r), "Family")),
        Count(s, (r: Ranked) => Contains(TypeOf(r), "Corporate")),
        Count(s, (r: Ranked) => Contains(TypeOf(r), "SWF") || Contains(TypeOf(r), "Sovereign")),
        Count(s, (r: Ranked) => Contains(TypeOf(r), "Debt") || Contains(TypeOf(r), "Lending"))),
      ByConsensus(
        Count(s, High),
        Count(s, Medium),
        Count(s, Low)),
      RoundedMean(Sum(s), |s|))
  }

  /** Three predicates that split every element count up the whole. */
  lemma {:induction false} CountPartition(s: seq<Ranked>, p: Ranked -> bool, q: Ranked -> bool, r: Ranked -> bool)
    requires forall i :: 0 <= i < |s| ==> 
               (p(s[i]) && !q(s[i]) && !r(s[i])) || (!p(s[i]) && q(s[i]) && !r(s[i])) || (!p(s[i]) && !q(s[i]) && r(s[i]))
    ensures Count(s, p) + Count(s, q) + Count(s, r) == |s|
    decreases |s|
  {
    if s != [] {
      CountPartition(s[..|s| - 1], p, q, r);
    }
  }

  /** Every entry has consensus at least one, so the three tiers add up to the total. */
  lemma TiersCoverTotal(s: seq<Ranked>)
    requires forall i :: 0 <= i < |s| ==> s[i].inv.consensus >= 1
    ensures var c := Summarize(s).byConsensus; c.high + c.medium + c.low == Summarize(s).total
  {
    CountPartition(s, High, Medium, Low);
  }

  /** Each type bucket counts at most every entry. */
  lemma TypeBucketsBounded(s: seq<Ranked>)
    ensures var t := Summarize(s).byType;
            t.pe <= |s| && t.fo <= |s| && t.corp <= |s| && t.swf <= |s| && t.debt <= |s|
  {
  }

  lemma {:induction false} SumBounds(s: seq<Ranked>, lo: int, hi: int)
    requires forall i :: 0 <= i < |s| ==> lo <= s[i].score <= hi
    ensures |s| * lo <= Sum(s) <= |s| * hi
    decreases |s|
  {
    if s != [] {
      SumBounds(s[..|s| - 1], lo, hi);
    }
  }

  /** A rounded mean of values in [lo, hi] stays in [lo, hi]. */
  lemma RoundedMeanBounds(sum: int, n: nat, lo: int, hi: int)
    requires n > 0 && n * lo <= sum <= n * hi
    ensures lo <= RoundedMean(sum, n) <= hi
  {
    var m := RoundedMean(sum, n);
    assert 2 * n * m + n - 2 * n * lo == n * (2 * (m - lo) + 1);
    assert 2 * n * hi + n - 2 * n * m == n * (2 * (hi - m) + 1);
    PositiveFactor(n, 2 * (m - lo) + 1);
    PositiveFactor(n, 2 * (hi - m) + 1);
  }

  lemma PositiveFactor(n: nat, c: int)
    requires n > 0 && n * c >= 0
    ensures c >= 0
  {
  }

  /** The mean of scores in [lo, hi] is in [lo, hi]; an empty roster averages 0. */
  lemma AvgScoreInRange(s: seq<Ranked>, lo: int, hi: int)
    requires forall i :: 0 <= i < |s| ==> lo <= s[i].score <= hi
    ensures s == [] ==> Summarize(s).avgScore == 0
    ensures s != [] ==> lo <= Summarize(s).avgScore <= hi
  {
    if s != [] {
      SumBounds(s, lo, hi);
      RoundedMeanBounds(Sum(s), |s|, lo, hi);
    }
  }

  /** For a roster of cited entries the tiers cover the total and the average lies in [65, 99]. */
  lemma CitedSummary(s: seq<Ranked>)
    requires forall r :: r in s ==> r.inv.consensus >= 1 && 65 <= r.score <= 99
    ensures var c := Summarize(s).byConsensus; c.high + c.medium + c.low == |s|
    ensures s == [] ==> Summarize(s).avgScore == 0
    ensures s != [] ==> 65 <= Summarize(s).avgScore <= 99
  {
    assert forall i :: 0 <= i < |s| ==> s[i] in s;
    TiersCoverTotal(s);
    AvgScoreInRange(s, 65, 99);
  }
}
