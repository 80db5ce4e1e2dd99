/**
 * `aggregateResults` (App.jsx) as the code runs it: a mutable map filled by two
 * nested loops over the category results, read back in insertion order, then
 * scored, sorted and summarised. Each step is proved equal to the functions of the
 * `Aggregation` and `Scoring` modules, so their properties carry over.
 */
module Engine {
  import opened Wrappers
  import opened Keys
  import opened OrderedSet
  import opened Mentions
  import opened Aggregation
  import opened Scoring

  /** `new Map()` keyed by normalised name, with its keys in insertion order. */
  class InvestorMap {
    var entries: map<string, Investor>
    var order: seq<string>

    constructor()
      ensures entries == map[] && order == []
    {
      entries := map[];
      order := [];
    }

    function Snapshot(): Table
      reads this
    {
      Table(entries, order)
    }

    /** The body of the inner `forEach` for one mention. */
    method Add(t: Tagged)
      modifies this
      ensures Snapshot() == Insert(old(Snapshot()), t)
    {
      var inv := t.mention;
      if inv.name == "" {
        return;
      }
      var key := Key(inv.name);
      if key in entries {
        var existing := entries[key];
        ghost var before := existing;
        existing := existing.(sources := existing.sources + [Source(t.llm, t.category)]);
        existing := existing.(consensus := existing.consensus + 1);
        if inv.news != "" {
          existing := existing.(allNews := existing.allNews + [NewsItem(inv.news, inv.newsDate, inv.newsSource, t.llm)]);
        }
        if inv.recentDeals.Some? {
          existing := existing.(allDeals := Dedup(existing.allDeals + inv.recentDeals.value));
        }
        assert existing == Merge(before, t);
        entries := entries[key := existing];
      } else {
        var news := if inv.news != "" then [NewsItem(inv.news, inv.newsDate, inv.newsSource, t.llm)] else [];
        var deals := if inv.recentDeals.Some? then inv.recentDeals.value else [];
        entries := entries[key := Investor(inv, |entries| + 1, [Source(t.llm, t.category)], 1, news, deals)];
        order := order + [key];
      }
    }

    /** The inner `forEach`: every mention of one category result, in order. */
    method AddAll(ghost visited: seq<Tagged>, ts: seq<Tagged>)
      requires Snapshot() == Build(visited)
      modifies this
      ensures Snapshot() == Build(visited + ts)
    {
      var i := 0;
      assert visited + ts[..0] == visited;
      while i < |ts|
        invariant 0 <= i <= |ts|
        invariant Snapshot() == Build(visited + ts[..i])
      {
        BuildStep(visited + ts[..i], ts[i]);
        VisitOneMore(visited, ts, i);
        Add(ts[i]);
        i := i + 1;
      }
      assert ts[..i] == ts;
    }

    /** `Array.from(investorMap.values())`. */
    method Values() returns (vs: seq<Investor>)
      requires Indexed(Snapshot())
      ensures vs == Roster(Snapshot())
    {
      vs := [];
      var i := 0;
      while i < |order|
        invariant 0 <= i <= |order| && |vs| == i
        invariant forall j :: 0 <= j < i ==> vs[j] == entries[order[j]]
      {
        vs := vs + [entries[order[i]]];
        i := i + 1;
      }
    }
  }

  /** What `aggregateResults` returns for the category results, in visiting order. */
  function Aggregate(results: seq<CategoryResult>): Aggregated {
    var ranked := SortByScore(ScoreAll(Roster(Build(Flatten(results)))));
    Aggregated(ranked, Summarize(ranked))
  }

  lemma BuildStep(ts: seq<Tagged>, t: Tagged)
    ensures Build(ts + [t]) == Insert(Build(ts), t)
  {
    assert (ts + [t])[..|ts|] == ts;
  }

  lemma VisitOneMore(visited: seq<Tagged>, ts: seq<Tagged>, i: nat)
    requires i < |ts|
    ensures visited + ts[..i + 1] == (visited + ts[..i]) + [ts[i]]
  {
    assert ts[..i + 1] == ts[..i] + [ts[i]];
  }

  lemma FlattenStep(results: seq<CategoryResult>, c: nat)
    requires c < |results|
    ensures Flatten(results[..c + 1]) == Flatten(results[..c]) + Tags(results[c])
  {
    assert results[..c + 1][..c] == results[..c];
  }

  /** The two nested `forEach` loops, the read-back, the scoring `map`, the sort and the summary. */
  method AggregateResults(results: seq<CategoryResult>) returns (out: Aggregated)
    ensures out == Aggregate(results)
  {
    var m := new InvestorMap();
    var c := 0;
    while c < |results|
      invariant 0 <= c <= |results|
      invariant m.Snapshot() == Build(Flatten(results[..c]))
    {
      m.AddAll(Flatten(results[..c]), Tags(results[c]));
      FlattenStep(results, c);
      c := c + 1;
    }
    assert results[..c] == results;
    var investors := m.Values();
    var ranked := SortByScore(ScoreAll(investors));
    out := Aggregated(ranked, Summarize(ranked));
  }

  // ---------------------------------------------------------------------------
  // Properties of the aggregated result
  // ---------------------------------------------------------------------------

  /** The ranked roster is sorted by score and is a permutation of the scored map entries. */
  lemma AggregateIsRanking(results: seq<CategoryResult>)
    ensures SortedByScore(Aggregate(results).investors)
    ensures multiset(Aggregate(results).investors) == multiset(ScoreAll(Roster(Build(Flatten(results)))))
    ensures forall v :: WithScore(Aggregate(results).investors, v) == WithScore(ScoreAll(Roster(Build(Flatten(results)))), v)
  {
    var s := ScoreAll(Roster(Build(Flatten(results))));
    SortByScoreSortedPerm(s);
    forall v
      ensures WithScore(Aggregate(results).investors, v) == WithScore(s, v)
    {
      SortByScoreStable(s, v);
    }
  }

  /** One roster entry per distinct key of a named mention, in order of first appearance before sorting. */
  lemma AggregateTotal(results: seq<CategoryResult>)
    ensures Aggregate(results).summary.total == |Dedup(NamedKeys(Flatten(results)))|
  {
    BuildOrder(Flatten(results));
  }

  /** A ranked entry is one roster entry with its own score and band. */
  lemma RankedFromRoster(roster: seq<Investor>, r: Ranked)
    requires r in SortByScore(ScoreAll(roster))
    ensures r.inv in roster && r.score == Score(r.inv) && r.fit == Fit(r.score)
  {
    var s := ScoreAll(roster);
    SortByScorePerm(s);
    assert r in multiset(s);
    var i :| 0 <= i < |s| && s[i] == r;
  }

  /** Every map entry has been cited at least once. */
  lemma RosterCited(tb: Table)
    requires Wf(tb)
    ensures forall inv :: inv in Roster(tb) ==> inv.consensus >= 1
  {
    forall inv | inv in Roster(tb)
      ensures inv.consensus >= 1
    {
      var i :| 0 <= i < |tb.order| && Roster(tb)[i] == inv;
      assert tb.order[i] in tb.entries;
    }
  }

  /** Every ranked entry comes from the map, scores in [65, 99] and is never labelled `Basso`. */
  lemma AggregateEntries(results: seq<CategoryResult>)
    ensures forall r :: r in Aggregate(results).investors ==>
              r.inv in Roster(Build(Flatten(results))) && r.score == Score(r.inv) && r.fit == Fit(r.score)
              && 65 <= r.score <= 99 && r.fit != "Basso" && r.inv.consensus >= 1
  {
    var roster := Roster(Build(Flatten(results)));
    RosterCited(Build(Flatten(results)));
    forall r | r in SortByScore(ScoreAll(roster))
      ensures r.inv in roster && r.score == Score(r.inv) && r.fit == Fit(r.score)
              && 65 <= r.score <= 99 && r.fit != "Basso" && r.inv.consensus >= 1
    {
      RankedFromRoster(roster, r);
      ScoreOfCitedEntry(r.inv);
    }
  }

  /** The summary's tiers add up to the total, and the average lies in [65, 99] unless the roster is empty. */
  lemma AggregateSummary(results: seq<CategoryResult>)
    ensures var a := Aggregate(results);
            a.summary.byConsensus.high + a.summary.byConsensus.medium + a.summary.byConsensus.low == a.summary.total
    ensures var a := Aggregate(results);
            a.summary.total == |a.investors|
            && (a.investors == [] ==> a.summary.avgScore == 0)
            && (a.investors != [] ==> 65 <= a.summary.avgScore <= 99)
  {
    AggregateEntries(results);
    CitedSummary(Aggregate(results).investors);
  }

  lemma {:induction false} NoNamedKeys(ts: seq<Tagged>)
    requires forall i :: 0 <= i < |ts| ==> !Named(ts[i])
    ensures NamedKeys(ts) == []
    decreases |ts|
  {
    if ts != [] {
      NoNamedKeys(ts[..|ts| - 1]);
    }
  }

  /** When no category produced a named investor the roster is empty and the summary is all zeros. */
  lemma NothingFound(results: seq<CategoryResult>)
    requires forall c :: 0 <= c < |results| ==> results[c].investors == []
    ensures Aggregate(results).investors == []
    ensures Aggregate(results).summary == Summary(0, ByType(0, 0, 0, 0, 0), ByConsensus(0, 0, 0), 0)
  {
    FlattenEmpty(results);
    NoNamedKeys(Flatten(results));
    BuildOrder(Flatten(results));
  }

  lemma {:induction false} FlattenEmpty(results: seq<CategoryResult>)
    requires forall c :: 0 <= c < |results| ==> results[c].investors == []
    ensures Flatten(results) == []
    decreases |results|
  {
    if results != [] {
      FlattenEmpty(results[..|results| - 1]);
    }
  }
}
