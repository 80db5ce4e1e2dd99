/**
 * `[...new Set(xs)]`: the elements of `xs` without repeats, each at the place of its
 * first occurrence (a JavaScript `Set` iterates in insertion order).
 */
module OrderedSet {

  predicate Distinct<T(==)>(s: seq<T>) {
    forall i, j :: 0 <= i < j < |s| ==> s[i] != s[j]
  }

  predicate IsPrefix<T(==)>(p: seq<T>, s: seq<T>) {
    |p| <= |s| && s[..|p|] == p
  }

  /** Inserts the elements of `s` one by one into an insertion-ordered set. */
  function Dedup<T(==,!new)>(s: seq<T>): (r: seq<T>)
    ensures Distinct(r)
    ensures forall x :: x in r <==> x in s
    ensures |r| <= |s|
    decreases |s|
  {
    if s == [] then []
    else
      var p := Dedup(s[..|s| - 1]);
      if s[|s| - 1] in p then p else p + [s[|s| - 1]]
  }

  /** A list without repeats is left as it is. */
  lemma {:induction false} DedupOfDistinct<T(!new)>(s: seq<T>)
    requires Distinct(s)
    ensures Dedup(s) == s
    decreases |s|
  {
    if s != [] {
      var init := s[..|s| - 1];
      DedupOfDistinct(init);
      assert s[|s| - 1] !in init;
      assert init + [s[|s| - 1]] == s;
    }
  }

  /** Elements already seen keep their places: deduplicating a prefix gives a prefix of the result. */
  lemma {:induction false} DedupPrefix<T(!new)>(s: seq<T>, k: nat)
    requires k <= |s|
    ensures IsPrefix(Dedup(s[..k]), Dedup(s))
    decreases |s| - k
  {
    if k < |s| {
      DedupPrefix(s, k + 1);
      var t := s[..k + 1];
      assert t[..|t| - 1] == s[..k];
      var p := Dedup(s[..k]);
      assert Dedup(t) == p || Dedup(t) == p + [t[|t| - 1]];
      assert IsPrefix(p, Dedup(t));
    } else {
      assert s[..k] == s;
    }
  }

  /** Merging `extra` into a repeat-free `acc` keeps `acc` in front and adds every new element. */
  lemma DedupAppend<T(!new)>(acc: seq<T>, extra: seq<T>)
    requires Distinct(acc)
    ensures IsPrefix(acc, Dedup(acc + extra))
    ensures forall x :: x in Dedup(acc + extra) <==> x in acc || x in extra
  {
    DedupPrefix(acc + extra, |acc|);
    assert (acc + extra)[..|acc|] == acc;
    DedupOfDistinct(acc);
  }
}
