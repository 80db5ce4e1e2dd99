/**
 * The identity map of `aggregateResults` (App.jsx), as a function of the mentions
 * in the order they are visited: category by category in search order, and within
 * a category in answer order.
 *
 * The first named mention under a key seeds the entry; every later one adds a
 * source and a consensus point, appends its news item (the `includes` test compares
 * an object with a string and never succeeds, so nothing is suppressed) and merges
 * its deal list through a `Set`.
 */
module Aggregation {
  import opened Wrappers
  import opened Keys
  import opened OrderedSet
  import opened Mentions

  /** A mention together with the provider and category that produced it. */
  datatype Tagged = Tagged(mention: Mention, llm: string, category: string)

  /** `{ llm, category }` in an investor's `sources`. */
  datatype Source = Source(llm: string, category: string)

  /** `{ text, date, source, llm }` in an investor's `allNews`. */
  datatype NewsItem = NewsItem(text: string, date: string, source: string, llm: string)

  /**
   * A map entry: the seeding mention (`...inv`, whose fields later mentions never
   * overwrite) and the fields the engine sets itself, which take precedence over any
   * same-named field of the mention.
   */
  datatype Investor = Investor(
    first: Mention,
    id: nat,
    sources: seq<Source>,
    consensus: nat,
    allNews: seq<NewsItem>,
    allDeals: seq<string>)

  /** The JavaScript `Map`: its entries and its keys in insertion order. */
  datatype Table = Table(entries: map<string, Investor>, order: seq<string>)

  predicate Named(t: Tagged) {
    t.mention.name != ""
  }

  function KeyOf(t: Tagged): string {
    Key(t.mention.name)
  }

  function SourceOf(t: Tagged): Source {
    Source(t.llm, t.category)
  }

  /** The news item a mention contributes: one when its `news` is non-empty. */
  function NewsOf(t: Tagged): seq<NewsItem> {
    if t.mention.news != "" then [NewsItem(t.mention.news, t.mention.newsDate, t.mention.newsSource, t.llm)] else []
  }

  /** The entry created for a key seen for the first time. */
  function Seed(t: Tagged, id: nat): Investor {
    Investor(t.mention, id, [SourceOf(t)], 1, NewsOf(t), t.mention.recentDeals.GetOr([]))
  }

  /** A later mention under an existing key. */
  function Merge(e: Investor, t: Tagged): Investor {
    e.(sources := e.sources + [SourceOf(t)],
       consensus := e.consensus + 1,
       allNews := e.allNews + NewsOf(t),
       allDeals := if t.mention.recentDeals.Some? then Dedup(e.allDeals + t.mention.recentDeals.value) else e.allDeals)
  }

  /** One step of the inner `forEach`. */
  function Insert(tb: Table, t: Tagged): Table {
    if !Named(t) then tb
    else
      var k := KeyOf(t);
      if k in tb.entries then Table(tb.entries[k := Merge(tb.entries[k], t)], tb.order)
      else Table(tb.entries[k := Seed(t, |tb.entries| + 1)], tb.order + [k])
  }

  /**
   * The shape the map always has: keys are the distinct insertion-ordered keys,
   * ids number the entries 1, 2, ... in insertion order, every entry has at least
   * one source and as many consensus points as sources, and sits under its own name's key.
   */
  ghost predicate Wf(tb: Table) {
    && Distinct(tb.order)
    && (forall k :: k in tb.entries <==> k in tb.order)
    && |tb.entries| == |tb.order|
    && (forall i :: 0 <= i < |tb.order| ==> tb.entries[tb.order[i]].id == i + 1)
    && (forall k :: k in tb.entries ==> 1 <= tb.entries[k].consensus == |tb.entries[k].sources|)
    && (forall k :: k in tb.entries ==> tb.entries[k].first.name != "" && Key(tb.entries[k].first.name) == k)
  }

  lemma InsertWf(tb: Table, t: Tagged)
    requires Wf(tb)
    ensures Wf(Insert(tb, t))
  {
    if Named(t) {
      if KeyOf(t) in tb.entries {
        MergeWf(tb, t);
      } else {
        SeedWf(tb, t);
      }
    }
  }

  lemma MergeWf(tb: Table, t: Tagged)
    requires Wf(tb) && Named(t) && KeyOf(t) in tb.entries
    ensures Wf(Insert(tb, t))
  {
    var k := KeyOf(t);
    var r := Insert(tb, t);
    assert r.entries == tb.entries[k := Merge(tb.entries[k], t)];
    assert r.entries.Keys == tb.entries.Keys;
    assert forall i :: 0 <= i < |r.order| ==> r.entries[r.order[i]].id == tb.entries[tb.order[i]].id;
  }

  lemma SeedWf(tb: Table, t: Tagged)
    requires Wf(tb) && Named(t) && KeyOf(t) !in tb.entries
    ensures Wf(Insert(tb, t))
  {
    var k := KeyOf(t);
    var r := Insert(tb, t);
    assert r.entries == tb.entries[k := Seed(t, |tb.entries| + 1)];
    assert r.order == tb.order + [k];
    assert Distinct(r.order) by {
      assert k !in tb.order;
    }
    assert r.entries.Keys == tb.entries.Keys + {k};
    assert |r.entries| == |r.order|;
    forall i | 0 <= i < |r.order|
      ensures r.entries[r.order[i]].id == i + 1
    {
      if i < |tb.order| {
        assert r.order[i] == tb.order[i] && tb.order[i] != k;
      }
    }
    assert forall k' :: k' in r.entries ==> 1 <= r.entries[k'].consensus == |r.entries[k'].sources|;
    assert forall k' :: k' in r.entries ==> r.entries[k'].first.name != "" && Key(r.entries[k'].first.name) == k';
    assert forall k' :: k' in r.entries <==> k' in r.order;
    assert Wf(r);
  }

  /** The tagged mentions of one category result, in answer order. */
  function Tags(r: CategoryResult): (ts: seq<Tagged>)
    ensures |ts| == |r.investors|
    ensures forall i :: 0 <= i < |ts| ==> ts[i] == Tagged(r.investors[i], r.llm, r.category)
  {
    seq(|r.investors|, i requires 0 <= i < |r.investors| => Tagged(r.investors[i], r.llm, r.category))
  }

  /** All mentions in visiting order: the categories in order, each one's mentions in order. */
  function Flatten(results: seq<CategoryResult>): (ts: seq<Tagged>)
  {
    if results == [] then [] else Flatten(results[..|results| - 1]) + Tags(results[|results| - 1])
  }

  /** The map after visiting `ts`. */
  function Build(ts: seq<Tagged>): (tb: Table)
    ensures Wf(tb)
    decreases |ts|
  {
    if ts == [] then Table(map[], [])
    else
      var prev := Build(ts[..|ts| - 1]);
      InsertWf(prev, ts[|ts| - 1]);
      Insert(prev, ts[|ts| - 1])
  }

  /** Every listed key has an entry. */
  ghost predicate Indexed(tb: Table) {
    forall i :: 0 <= i < |tb.order| ==> tb.order[i] in tb.entries
  }

  /** `Array.from(map.values())`: the entries in insertion order. */
  function Roster(tb: Table): (r: seq<Investor>)
    requires Indexed(tb)
    ensures |r| == |tb.order|
    ensures forall i :: 0 <= i < |r| ==> r[i] == tb.entries[tb.order[i]]
  {
    seq(|tb.order|, i requires 0 <= i < |tb.order| => tb.entries[tb.order[i]])
  }

  // ---------------------------------------------------------------------------
  // Reference definitions, stated on the mention sequence alone
  // ---------------------------------------------------------------------------

  /** The keys of the named mentions, one per mention, repeats included. */
  ghost function NamedKeys(ts: seq<Tagged>): seq<string> {
    if ts == [] then []
    else NamedKeys(ts[..|ts| - 1]) + (if Named(ts[|ts| - 1]) then [KeyOf(ts[|ts| - 1])] else [])
  }

  /** The named mentions under key `k`, in visiting order. */
  ghost function Matching(ts: seq<Tagged>, k: string): seq<Tagged> {
    if ts == [] then []
    else
      var t := ts[|ts| - 1];
      Matching(ts[..|ts| - 1], k) + (if Named(t) && KeyOf(t) == k then [t] else [])
  }

  ghost function SourcesOf(ms: seq<Tagged>): seq<Source> {
    if ms == [] then [] else SourcesOf(ms[..|ms| - 1]) + [SourceOf(ms[|ms| - 1])]
  }

  ghost function NewsAll(ms: seq<Tagged>): seq<NewsItem> {
    if ms == [] then [] else NewsAll(ms[..|ms| - 1]) + NewsOf(ms[|ms| - 1])
  }

  /** Every deal any of the mentions lists, repeats included. */
  ghost function DealsMentioned(ms: seq<Tagged>): seq<string> {
    if ms == [] then [] else DealsMentioned(ms[..|ms| - 1]) + ms[|ms| - 1].mention.recentDeals.GetOr([])
  }

  // ---------------------------------------------------------------------------
  // Properties of the map
  // ---------------------------------------------------------------------------

  /** Keys enter the map in order of first appearance, each once. */
  lemma {:induction false} BuildOrder(ts: seq<Tagged>)
    ensures Build(ts).order == Dedup(NamedKeys(ts))
    decreases |ts|
  {
    if ts != [] {
      var init, t := ts[..|ts| - 1], ts[|ts| - 1];
      BuildOrder(init);
      var prev := Build(init);
      assert Build(ts) == Insert(prev, t);
      if Named(t) {
        var k := KeyOf(t);
        var s := NamedKeys(ts);
        assert s == NamedKeys(init) + [k];
        assert s[..|s| - 1] == NamedKeys(init);
        assert Dedup(s) == if k in prev.order then prev.order else prev.order + [k];
        assert k in prev.entries <==> k in prev.order;
      } else {
        assert NamedKeys(ts) == NamedKeys(init);
      }
    }
  }

  /**
   * The entry under `k` is the one the mentions `ms` under that key determine: the
   * first one seeds every copied field, each one adds its source, consensus point and
   * news item, and the deal list holds exactly the deals any of them listed.
   */
  ghost predicate Describes(tb: Table, k: string, ms: seq<Tagged>) {
    && (k in tb.entries <==> ms != [])
    && (k in tb.entries ==>
          var e := tb.entries[k];
          && e.first == ms[0].mention
          && e.sources == SourcesOf(ms)
          && e.consensus == |ms|
          && e.allNews == NewsAll(ms)
          && (forall d :: d in e.allDeals <==> d in DealsMentioned(ms)))
  }

  lemma InsertOther(tb: Table, t: Tagged, k: string, ms: seq<Tagged>)
    requires Describes(tb, k, ms)
    requires !(Named(t) && KeyOf(t) == k)
    ensures Describes(Insert(tb, t), k, ms)
  {
    var r := Insert(tb, t);
    assert k in r.entries <==> k in tb.entries;
    assert k in tb.entries ==> r.entries[k] == tb.entries[k];
  }

  lemma InsertFirst(tb: Table, t: Tagged)
    requires Describes(tb, KeyOf(t), []) && Named(t)
    ensures Describes(Insert(tb, t), KeyOf(t), [t])
  {
    var ms := [t];
    assert ms[..0] == [];
    assert SourcesOf(ms) == [SourceOf(t)];
    assert NewsAll(ms) == NewsOf(t);
    assert DealsMentioned(ms) == t.mention.recentDeals.GetOr([]);
  }

  lemma InsertLater(tb: Table, t: Tagged, ms: seq<Tagged>)
    requires Describes(tb, KeyOf(t), ms) && Named(t) && ms != []
    requires tb.entries[KeyOf(t)].consensus == |ms|
    ensures Describes(Insert(tb, t), KeyOf(t), ms + [t])
  {
    var k := KeyOf(t);
    var e := tb.entries[k];
    var ms' := ms + [t];
    assert ms'[..|ms'| - 1] == ms;
    var e' := Insert(tb, t).entries[k];
    assert e' == Merge(e, t);
    assert DealsMentioned(ms') == DealsMentioned(ms) + t.mention.recentDeals.GetOr([]);
    assert forall d :: d in e'.allDeals <==> d in e.allDeals || d in t.mention.recentDeals.GetOr([]);
  }

  /** Every entry is the one its mentions determine (see `Describes`). */
  lemma {:induction false} BuildEntry(ts: seq<Tagged>, k: string)
    ensures Describes(Build(ts), k, Matching(ts, k))
    decreases |ts|
  {
    if ts != [] {
      var init, t := ts[..|ts| - 1], ts[|ts| - 1];
      BuildEntry(init, k);
      var prev := Build(init);
      assert Build(ts) == Insert(prev, t);
      if Named(t) && KeyOf(t) == k {
        assert Matching(ts, k) == Matching(init, k) + [t];
        if Matching(init, k) == [] {
          assert Matching(ts, k) == [t];
          InsertFirst(prev, t);
        } else {
          InsertLater(prev, t, Matching(init, k));
        }
      } else {
        assert Matching(ts, k) == Matching(init, k);
        InsertOther(prev, t, k, Matching(init, k));
      }
    }
  }

  /** Re-stated for one key: consensus is the number of named mentions whose key matches. */
  lemma ConsensusCountsMentions(ts: seq<Tagged>, k: string)
    requires k in Build(ts).entries
    ensures Build(ts).entries[k].consensus == |Matching(ts, k)| == |Build(ts).entries[k].sources|
  {
    BuildEntry(ts, k);
  }

  /** The first mention in visiting order under a key supplies every copied field. */
  lemma FirstSeenWins(ts: seq<Tagged>, k: string)
    requires k in Build(ts).entries
    ensures Matching(ts, k) != [] && Build(ts).entries[k].first == Matching(ts, k)[0].mention
  {
    BuildEntry(ts, k);
  }

  // ---------------------------------------------------------------------------
  // Sum of consensus values
  // ---------------------------------------------------------------------------

  ghost function ConsensusSum(s: seq<Investor>): int {
    if s == [] then 0 else ConsensusSum(s[..|s| - 1]) + s[|s| - 1].consensus
  }

  lemma {:induction false} ConsensusSumUpdate(s: seq<Investor>, p: nat, v: Investor)
    requires p < |s|
    ensures ConsensusSum(s[p := v]) == ConsensusSum(s) - s[p].consensus + v.consensus
    decreases |s|
  {
    var n := |s| - 1;
    if p < n {
      ConsensusSumUpdate(s[..n], p, v);
      assert s[p := v][..n] == s[..n][p := v];
    } else {
      assert s[p := v][..n] == s[..n];
    }
  }

  /** Replacing the entry of the key at position `p`, and only there, replaces that roster slot. */
  lemma RosterReplace(tb: Table, p: nat, v: Investor)
    requires Indexed(tb) && p < |tb.order|
    requires forall i :: 0 <= i < |tb.order| && i != p ==> tb.order[i] != tb.order[p]
    ensures Indexed(Table(tb.entries[tb.order[p] := v], tb.order))
    ensures Roster(Table(tb.entries[tb.order[p] := v], tb.order)) == Roster(tb)[p := v]
  {
    var r := Table(tb.entries[tb.order[p] := v], tb.order);
    assert Indexed(r);
    var a, b := Roster(r), Roster(tb)[p := v];
    forall i | 0 <= i < |tb.order|
      ensures a[i] == b[i]
    {
    }
  }

  /** Adding an entry under a new key at the end adds one roster slot at the end. */
  lemma RosterSnoc(tb: Table, k: string, v: Investor)
    requires Indexed(tb) && k !in tb.entries
    ensures Indexed(Table(tb.entries[k := v], tb.order + [k]))
    ensures Roster(Table(tb.entries[k := v], tb.order + [k])) == Roster(tb) + [v]
  {
    var r := Table(tb.entries[k := v], tb.order + [k]);
    assert Indexed(r);
    var a, b := Roster(r), Roster(tb) + [v];
    forall i | 0 <= i < |r.order|
      ensures a[i] == b[i]
    {
      if i < |tb.order| {
        assert tb.order[i] in tb.entries;
      }
    }
  }

  /** A merge replaces one roster slot and raises its consensus by one. */
  lemma RosterAfterMerge(tb: Table, t: Tagged)
    requires Wf(tb) && Named(t) && KeyOf(t) in tb.entries
    ensures ConsensusSum(Roster(Insert(tb, t))) == ConsensusSum(Roster(tb)) + 1
  {
    var k := KeyOf(t);
    var p :| 0 <= p < |tb.order| && tb.order[p] == k;
    var v := Merge(tb.entries[k], t);
    assert forall i :: 0 <= i < |tb.order| && i != p ==> tb.order[i] != tb.order[p];
    RosterReplace(tb, p, v);
    assert Insert(tb, t) == Table(tb.entries[tb.order[p] := v], tb.order);
    ConsensusSumUpdate(Roster(tb), p, v);
  }

  /** A seed adds one roster slot at the end, with consensus one. */
  lemma SeedSum(tb: Table, t: Tagged)
    requires Wf(tb) && Named(t) && KeyOf(t) !in tb.entries
    ensures ConsensusSum(Roster(Insert(tb, t))) == ConsensusSum(Roster(tb)) + 1
  {
    var v := Seed(t, |tb.entries| + 1);
    RosterSnoc(tb, KeyOf(t), v);
    assert Insert(tb, t) == Table(tb.entries[KeyOf(t) := v], tb.order + [KeyOf(t)]);
    var after := Roster(tb) + [v];
    assert after[..|after| - 1] == Roster(tb);
  }

  /** The consensus values of all entries add up to the number of named mentions. */
  lemma {:induction false} BuildConsensusSum(ts: seq<Tagged>)
    ensures ConsensusSum(Roster(Build(ts))) == |NamedKeys(ts)|
    decreases |ts|
  {
    if ts != [] {
      var init, t := ts[..|ts| - 1], ts[|ts| - 1];
      BuildConsensusSum(init);
      var prev := Build(init);
      assert Build(ts) == Insert(prev, t);
      if Named(t) {
        assert |NamedKeys(ts)| == |NamedKeys(init)| + 1;
        if KeyOf(t) in prev.entries {
          RosterAfterMerge(prev, t);
        } else {
          SeedSum(prev, t);
        }
      } else {
        assert NamedKeys(ts) == NamedKeys(init);
      }
    }
  }

  // ---------------------------------------------------------------------------
  // One merge step
  // ---------------------------------------------------------------------------

  /**
   * Merging a mention that lists deals leaves a repeat-free list holding every earlier
   * and every new deal, earlier ones first in their first-occurrence order.
   */
  lemma MergeDeals(e: Investor, t: Tagged)
    requires t.mention.recentDeals.Some?
    ensures Distinct(Merge(e, t).allDeals)
    ensures forall d :: d in Merge(e, t).allDeals <==> d in e.allDeals || d in t.mention.recentDeals.value
    ensures IsPrefix(Dedup(e.allDeals), Merge(e, t).allDeals)
    ensures Distinct(e.allDeals) ==> IsPrefix(e.allDeals, Merge(e, t).allDeals)
  {
    var s := e.allDeals + t.mention.recentDeals.value;
    DedupPrefix(s, |e.allDeals|);
    assert s[..|e.allDeals|] == e.allDeals;
    if Distinct(e.allDeals) {
      DedupOfDistinct(e.allDeals);
    }
  }

  /**
   * News is never deduplicated: a later mention with non-empty news adds one item even
   * when an item with the same text is already there.
   */
  lemma MergeNewsAppends(e: Investor, t: Tagged)
    requires t.mention.news != ""
    ensures |Merge(e, t).allNews| == |e.allNews| + 1
    ensures Merge(e, t).allNews[..|e.allNews|] == e.allNews
    ensures Merge(e, t).allNews[|e.allNews|].text == t.mention.news
  {
  }

  /** A later mention never changes the copied fields, the id or the earlier sources. */
  lemma MergeKeepsFirst(e: Investor, t: Tagged)
    ensures Merge(e, t).first == e.first && Merge(e, t).id == e.id
    ensures Merge(e, t).sources[..|e.sources|] == e.sources
    ensures Merge(e, t).consensus == e.consensus + 1
  {
  }
}
