/**
 * Locating the JSON text inside a free-form model answer with the greedy regular
 * expressions `/\[[\s\S]*\]/` (category answers) and `/\{[\s\S]*\}/` (the company
 * profile): the match runs from the first opening bracket to the last closing one.
 * Nothing checks that the brackets in between balance.
 */
module JsonSpan {
  import opened Wrappers

  function FirstIndex(s: string, c: char): (r: Option<nat>)
    ensures r.Some? ==> r.value < |s| && s[r.value] == c && c !in s[..r.value]
    ensures r.None? ==> c !in s
    decreases |s|
  {
    if s == [] then None
    else if s[0] == c then Some(0)
    else match FirstIndex(s[1..], c)
      case None => None
      case Some(i) => assert s[..i + 1] == [s[0]] + s[1..][..i]; Some(i + 1)
  }

  function LastIndex(s: string, c: char): (r: Option<nat>)
    ensures r.Some? ==> r.value < |s| && s[r.value] == c && c !in s[r.value + 1..]
    ensures r.None? ==> c !in s
    decreases |s|
  {
    if s == [] then None
    else if s[|s| - 1] == c then Some(|s| - 1)
    else match LastIndex(s[..|s| - 1], c)
      case None => assert s == s[..|s| - 1] + [s[|s| - 1]]; None
      case Some(i) => assert s[i + 1..] == s[..|s| - 1][i + 1..] + [s[|s| - 1]]; Some(i)
  }

  /** Some opening bracket has a closing bracket somewhere after it. */
  predicate HasSpan(s: string, open: char, close: char) {
    exists i, j :: 0 <= i < j < |s| && s[i] == open && s[j] == close
  }

  /** `i` is the first `open` of `s` and `j` its last `close`, and `i` comes first. */
  predicate OuterBrackets(s: string, open: char, close: char, i: nat, j: nat) {
    i < j < |s| && s[i] == open && s[j] == close && open !in s[..i] && close !in s[j + 1..]
  }

  /**
   * `text.match(/\[[\s\S]*\]/)` (with `open`/`close` the brackets): the regex engine
   * starts at the leftmost opening bracket that can match and `[\s\S]*` extends as far
   * as the last closing bracket.
   */
  function GreedySpan(s: string, open: char, close: char): (r: Option<string>)
    ensures r.Some? <==> HasSpan(s, open, close)
    ensures r.Some? ==> exists i: nat, j: nat :: OuterBrackets(s, open, close, i, j) && r.value == s[i..j + 1]
    ensures r.Some? ==> |r.value| >= 2 && r.value[0] == open && r.value[|r.value| - 1] == close
  {
    match (FirstIndex(s, open), LastIndex(s, close))
    case (Some(i), Some(j)) =>
      if i < j then assert OuterBrackets(s, open, close, i, j); Some(s[i..j + 1])
      else
        assert forall a :: 0 <= a < i ==> s[a] == s[..i][a];
        assert forall b :: j < b < |s| ==> s[b] == s[j + 1..][b - j - 1];
        None
    case _ => None
  }
}
