/**
 * `getFilteredInvestors` (App.jsx): the ranked roster narrowed by a minimum
 * consensus, an investor-type choice and a "has news" switch, applied one after the
 * other. The type test lower-cases the type and uses its own keyword lists, which
 * differ from the summary's case-sensitive buckets.
 */
module Filter {
  import opened Wrappers
  import opened Text
  import opened Scoring

  /** The filter controls: the minimum consensus, the type choice (`"all"` or a bucket id) and the news switch. */
  datatype Filters = Filters(minConsensus: int, kind: string, hasNews: bool)

  /** `s.filter(p)`. */
  function Select(s: seq<Ranked>, p: Ranked -> bool): (r: seq<Ranked>)
    ensures |r| <= |s|
  {
    if s == [] then [] else Select(s[..|s| - 1], p) + (if p(s[|s| - 1]) then [s[|s| - 1]] else [])
  }

  /** `filter(p).length`: the summary's counts are the lengths of the filtered lists. */
  lemma {:induction false} CountIsSelectLength(s: seq<Ranked>, p: Ranked -> bool)
    ensures Count(s, p) == |Select(s, p)|
    decreases |s|
  {
    if s != [] {
      CountIsSelectLength(s[..|s| - 1], p);
    }
  }

  /** A filter keeps exactly the elements that pass the test. */
  lemma {:induction false} SelectMembers(s: seq<Ranked>, p: Ranked -> bool)
    ensures forall x :: x in Select(s, p) <==> x in s && p(x)
    decreases |s|
  {
    if s != [] {
      var init := s[..|s| - 1];
      SelectMembers(init, p);
      assert s == init + [s[|s| - 1]];
    }
  }

  /** The type test on the lower-cased type: each bucket id has its keywords, any other id keeps everything. */
  predicate TypeMatches(kind: string, t: string) {
    if kind == "pe" then Contains(t, "pe") || Contains(t, "private") || Contains(t, "equity")
    else if kind == "fo" then Contains(t, "family")
    else if kind == "corp" then Contains(t, "corporate") || Contains(t, "strategic")
    else if kind == "swf" then Contains(t, "swf") || Contains(t, "sovereign") || Contains(t, "institutional")
    else if kind == "debt" then Contains(t, "debt") || Contains(t, "lending") || Contains(t, "credit")
    else true
  }

  predicate KeepConsensus(f: Filters, r: Ranked) {
    r.inv.consensus >= f.minConsensus
  }

  predicate KeepType(f: Filters, r: Ranked) {
    TypeMatches(f.kind, Lower(TypeOf(r)))
  }

  predicate KeepNews(r: Ranked) {
    r.inv.allNews != []
  }

  function ConsensusTest(f: Filters): Ranked -> bool {
    r => KeepConsensus(f, r)
  }

  function TypeTest(f: Filters): Ranked -> bool {
    r => KeepType(f, r)
  }

  /** The three filters in the order the code applies them, each only when its control is set. */
  function FilteredInvestors(agg: Option<Aggregated>, f: Filters): seq<Ranked> {
    match agg
    case None => []
    case Some(a) =>
      var s1 := if f.minConsensus > 1 then Select(a.investors, ConsensusTest(f)) else a.investors;
      var s2 := if f.kind != "all" then Select(s1, TypeTest(f)) else s1;
      if f.hasNews then Select(s2, KeepNews) else s2
  }

  /** Reference definition: an entry stays when every active control lets it through. */
  predicate Keep(f: Filters, r: Ranked) {
    && (f.minConsensus > 1 ==> KeepConsensus(f, r))
    && (f.kind != "all" ==> KeepType(f, r))
    && (f.hasNews ==> KeepNews(r))
  }

  function KeepTest(f: Filters): Ranked -> bool {
    r => Keep(f, r)
  }

  // ---------------------------------------------------------------------------
  // Order-preserving subsequences
  // ---------------------------------------------------------------------------

  /** `idx` lists, in increasing order, positions of `s` holding the elements of `r`. */
  ghost predicate Embeds(r: seq<Ranked>, s: seq<Ranked>, idx: seq<nat>) {
    && |idx| == |r|
    && (forall i :: 0 <= i < |idx| ==> idx[i] < |s| && s[idx[i]] == r[i])
    && (forall i, j :: 0 <= i < j < |idx| ==> idx[i] < idx[j])
  }

  ghost predicate IsSubsequence(r: seq<Ranked>, s: seq<Ranked>) {
    exists idx :: Embeds(r, s, idx)
  }

  /** The positions `Select` keeps. */
  ghost function SelectIndices(s: seq<Ranked>, p: Ranked -> bool): (idx: seq<nat>)
    ensures forall i :: 0 <= i < |idx| ==> idx[i] < |s|
  {
    if s == [] then [] else SelectIndices(s[..|s| - 1], p) + (if p(s[|s| - 1]) then [|s| - 1] else [])
  }

  lemma {:induction false} SelectEmbeds(s: seq<Ranked>, p: Ranked -> bool)
    ensures Embeds(Select(s, p), s, SelectIndices(s, p))
    decreases |s|
  {
    if s != [] {
      var init := s[..|s| - 1];
      SelectEmbeds(init, p);
      var r0, idx0 := Select(init, p), SelectIndices(init, p);
      assert forall i :: 0 <= i < |idx0| ==> s[idx0[i]] == init[idx0[i]];
    }
  }

  lemma SubsequenceTransitive(a: seq<Ranked>, b: seq<Ranked>, c: seq<Ranked>)
    requires IsSubsequence(a, b) && IsSubsequence(b, c)
    ensures IsSubsequence(a, c)
  {
    var ia :| Embeds(a, b, ia);
    var ib :| Embeds(b, c, ib);
    var ic := seq(|ia|, i requires 0 <= i < |ia| => ib[ia[i]]);
    assert Embeds(a, c, ic);
  }

  lemma SubsequenceRefl(s: seq<Ranked>)
    ensures IsSubsequence(s, s)
  {
    var idx := seq(|s|, i requires 0 <= i < |s| => i as nat);
    assert Embeds(s, s, idx);
  }

  // ---------------------------------------------------------------------------
  // Properties of the filter
  // ---------------------------------------------------------------------------

  /** Two filters in a row keep what both keep, in order. */
  lemma {:induction false} SelectTwice(s: seq<Ranked>, p: Ranked -> bool, q: Ranked -> bool, pq: Ranked -> bool)
    requires forall x :: pq(x) == (p(x) && q(x))
    ensures Select(Select(s, p), q) == Select(s, pq)
    decreases |s|
  {
    if s != [] {
      var init := s[..|s| - 1];
      SelectTwice(init, p, q, pq);
      var x := s[|s| - 1];
      var a := Select(init, p);
      if p(x) {
        var b := a + [x];
        assert Select(s, p) == b;
        assert b[..|b| - 1] == a && b[|b| - 1] == x;
        assert Select(b, q) == Select(a, q) + (if q(x) then [x] else []);
      } else {
        assert Select(s, p) == a;
      }
      assert Select(s, pq) == Select(init, pq) + (if pq(x) then [x] else []);
    }
  }

  /** Filtering with a predicate that holds throughout keeps everything. */
  lemma {:induction false} SelectAll(s: seq<Ranked>, p: Ranked -> bool)
    requires forall i :: 0 <= i < |s| ==> p(s[i])
    ensures Select(s, p) == s
    decreases |s|
  {
    if s != [] {
      var init := s[..|s| - 1];
      SelectAll(init, p);
      assert Select(s, p) == Select(init, p) + [s[|s| - 1]];
      assert init + [s[|s| - 1]] == s;
    }
  }

  /** Two predicates that agree everywhere filter alike. */
  lemma {:induction false} SelectSame(s: seq<Ranked>, p: Ranked -> bool, q: Ranked -> bool)
    requires forall x :: p(x) == q(x)
    ensures Select(s, p) == Select(s, q)
    decreases |s|
  {
    if s != [] {
      SelectSame(s[..|s| - 1], p, q);
    }
  }

  lemma FirstTwoFilters(s: seq<Ranked>, f: Filters)
    ensures var s1 := if f.minConsensus > 1 then Select(s, ConsensusTest(f)) else s;
            (if f.kind != "all" then Select(s1, TypeTest(f)) else s1)
            == Select(s, r => (f.minConsensus > 1 ==> KeepConsensus(f, r)) && (f.kind != "all" ==> KeepType(f, r)))
  {
    var both := (r: Ranked) => (f.minConsensus > 1 ==> KeepConsensus(f, r)) && (f.kind != "all" ==> KeepType(f, r));
    if f.minConsensus > 1 && f.kind != "all" {
      SelectTwice(s, ConsensusTest(f), TypeTest(f), both);
    } else if f.minConsensus > 1 {
      SelectSame(s, ConsensusTest(f), both);
    } else if f.kind != "all" {
      SelectSame(s, TypeTest(f), both);
    } else {
      SelectAll(s, both);
    }
  }

  /** The sequential filters equal one filter by the combined test. */
  lemma FilteredIsSelectKeep(a: Aggregated, f: Filters)
    ensures FilteredInvestors(Some(a), f) == Select(a.investors, KeepTest(f))
  {
    var s := a.investors;
    var both := (r: Ranked) => (f.minConsensus > 1 ==> KeepConsensus(f, r)) && (f.kind != "all" ==> KeepType(f, r));
    FirstTwoFilters(s, f);
    var s2 := Select(s, both);
    if f.hasNews {
      SelectTwice(s, both, KeepNews, KeepTest(f));
    } else {
      SelectSame(s, both, KeepTest(f));
    }
  }

  /** An entry is shown exactly when it is in the roster and passes every active control. */
  lemma FilteredMembership(a: Aggregated, f: Filters, x: Ranked)
    ensures x in FilteredInvestors(Some(a), f) <==> x in a.investors && Keep(f, x)
  {
    FilteredIsSelectKeep(a, f);
    SelectMembers(a.investors, KeepTest(f));
  }

  /** The shown entries keep their roster order. */
  lemma FilteredIsSubsequence(a: Aggregated, f: Filters)
    ensures IsSubsequence(FilteredInvestors(Some(a), f), a.investors)
  {
    FilteredIsSelectKeep(a, f);
    SelectEmbeds(a.investors, KeepTest(f));
  }

  /** Without results nothing is shown. */
  lemma NoResultsNothingShown(f: Filters)
    ensures FilteredInvestors(None, f) == []
  {
  }

  /** With the default controls (consensus at most 1, every type, news not required) the whole roster is shown. */
  lemma DefaultShowsAll(a: Aggregated, f: Filters)
    requires f.minConsensus <= 1 && f.kind == "all" && !f.hasNews
    ensures FilteredInvestors(Some(a), f) == a.investors
  {
  }

  /** Every shown entry meets the minimum consensus, whether or not that control was applied. */
  lemma ShownMeetMinimum(a: Aggregated, f: Filters)
    requires forall r :: r in a.investors ==> r.inv.consensus >= 1
    ensures forall r :: r in FilteredInvestors(Some(a), f) ==> r.inv.consensus >= f.minConsensus
  {
    FilteredIsSelectKeep(a, f);
    SelectMembers(a.investors, KeepTest(f));
  }

  /** Filtering the shown entries again with the same controls changes nothing. */
  lemma FilterIdempotent(a: Aggregated, f: Filters)
    ensures FilteredInvestors(Some(Aggregated(FilteredInvestors(Some(a), f), a.summary)), f)
            == FilteredInvestors(Some(a), f)
  {
    var shown := FilteredInvestors(Some(a), f);
    FilteredIsSelectKeep(a, f);
    FilteredIsSelectKeep(Aggregated(shown, a.summary), f);
    SelectTwice(a.investors, KeepTest(f), KeepTest(f), KeepTest(f));
  }

  /**
   * The filter and the summary disagree on case: an entry typed `"pe"` passes the
   * `pe` filter but is not in the summary's case-sensitive `pe` bucket.
   */
  lemma LowerCaseTypeOnlyFiltered(r: Ranked)
    requires TypeOf(r) == "pe"
    ensures KeepType(Filters(1, "pe", false), r)
    ensures !(Contains(TypeOf(r), "PE") || Contains(TypeOf(r), "Private"))
  {
    assert Lower("pe") == "pe";
    assert StartsWith("pe", "pe");
  }
}
