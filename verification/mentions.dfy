/**
 * What comes back from the providers: the investor mentions of one category answer,
 * the per-category result record, and the company profile (App.jsx,
 * `buildCompanyProfile` and the body of the `runMultiLLMSearch` loop).
 *
 * A provider call is an outcome given from outside (`Reply`), and `JSON.parse` is an
 * oracle passed in as a function; only the span extraction around it and the
 * filtering after it are modelled.
 */
module Mentions {
  import opened Wrappers
  import opened JsonSpan
  import opened Catalog

  /**
   * One investor as one provider reported it. A text field the answer left out is
   * `""`: every reader of these fields treats a missing value and the empty string
   * alike. `recentDeals` keeps the difference, because `if (inv.recentDeals)` is
   * true for an empty list.
   */
  datatype Mention = Mention(
    name: string,
    investorType: string,
    headquarters: string,
    country: string,
    aum: string,
    ticketSize: string,
    focus: seq<string>,
    relevance: string,
    news: string,
    newsDate: string,
    newsSource: string,
    recentDeals: Option<seq<string>>,
    contacts: seq<string>,
    italyPresence: string,
    website: string)

  /** An element of the parsed array: an object, or `None` for `null` and non-objects. */
  type JsonItem = Option<Mention>

  /** `items.filter(i => i && i.name)`. */
  function NamedOnly(items: seq<JsonItem>): (r: seq<Mention>)
    ensures |r| <= |items|
    ensures forall m :: m in r ==> m.name != "" && Some(m) in items
    ensures forall i :: 0 <= i < |items| && items[i].Some? && items[i].value.name != "" ==> items[i].value in r
  {
    if items == [] then []
    else
      var rest := NamedOnly(items[1..]);
      assert forall i :: 1 <= i < |items| ==> items[i] == items[1..][i - 1];
      if items[0].Some? && items[0].value.name != "" then [items[0].value] + rest else rest
  }

  /** The filter works element by element: it keeps the order of the items and every repeat. */
  lemma {:induction false} NamedOnlyAppend(a: seq<JsonItem>, b: seq<JsonItem>)
    ensures NamedOnly(a + b) == NamedOnly(a) + NamedOnly(b)
    decreases |a|
  {
    if a == [] {
      assert a + b == b;
    } else {
      NamedOnlyAppend(a[1..], b);
      var head := if a[0].Some? && a[0].value.name != "" then [a[0].value] else [];
      assert (a + b)[0] == a[0] && (a + b)[1..] == a[1..] + b;
      assert NamedOnly(a + b) == head + NamedOnly(a[1..] + b);
      assert NamedOnly(a) == head + NamedOnly(a[1..]);
    }
  }

  /** A single item is kept exactly when it is an object with a non-empty name. */
  lemma NamedOnlySingle(x: JsonItem)
    ensures NamedOnly([x]) == if x.Some? && x.value.name != "" then [x.value] else []
  {
    assert [x][1..] == [];
  }

  /** What a provider call yields: the answer text (`response.text || ''`) or the thrown error's message. */
  datatype Reply = Answer(text: string) | Failure(message: string)

  /** `results[cat.id]`: one category's outcome. */
  datatype CategoryResult = CategoryResult(
    llm: string,
    category: string,
    investors: seq<Mention>,
    raw: Option<string>,
    error: Option<string>)

  /** A category's result together with what the loop reports to the progress log. */
  datatype Outcome = Outcome(result: CategoryResult, ok: bool, count: nat)

  /**
   * One iteration of the category loop after the provider has answered: take the
   * greedy `[...]` span, parse it, keep the named entries. A missing span or a
   * parse failure gives an empty but successful result; a provider failure gives an
   * empty result carrying the error. The count reported is that of the parsed
   * array before filtering.
   */
  function SearchCategory(cat: Category, reply: Reply, parse: string -> Option<seq<JsonItem>>): (o: Outcome)
    ensures o.result.llm == cat.llm && o.result.category == cat.name
    ensures forall m :: m in o.result.investors ==> m.name != ""
    ensures o.ok <==> reply.Answer?
    ensures reply.Failure? ==> o.result.investors == [] && o.count == 0
                               && o.result.error == Some(reply.message) && o.result.raw == None
    ensures reply.Answer? ==> o.result.raw == Some(reply.text) && o.result.error == None
    ensures reply.Answer? && !HasSpan(reply.text, '[', ']') ==> o.result.investors == [] && o.count == 0
    ensures reply.Answer? && HasSpan(reply.text, '[', ']') ==>
              var p := parse(GreedySpan(reply.text, '[', ']').value);
              && (p.None? ==> o.result.investors == [] && o.count == 0)
              && (p.Some? ==> o.result.investors == NamedOnly(p.value) && o.count == |p.value|)
    ensures |o.result.investors| <= o.count
  {
    match reply
    case Failure(message) =>
      Outcome(CategoryResult(cat.llm, cat.name, [], None, Some(message)), false, 0)
    case Answer(text) =>
      var empty := CategoryResult(cat.llm, cat.name, [], Some(text), None);
      match GreedySpan(text, '[', ']')
      case None => Outcome(empty, true, 0)
      case Some(span) =>
        match parse(span)
        case None => Outcome(empty, true, 0)
        case Some(items) => Outcome(empty.(investors := NamedOnly(items)), true, |items|)
  }

  /** The fields of the company profile the search uses. */
  datatype Profile = Profile(name: string, sector: string, revenuesNum: Option<int>)

  /**
   * `buildCompanyProfile`: the greedy `{...}` span of the answer, parsed. No span, a
   * parse failure or a provider failure all give `None`.
   */
  function ExtractProfile(reply: Reply, parse: string -> Option<Profile>): (r: Option<Profile>)
    ensures r.Some? ==> reply.Answer? && HasSpan(reply.text, '{', '}')
    ensures r.Some? ==> r == parse(GreedySpan(reply.text, '{', '}').value)
    ensures reply.Answer? && HasSpan(reply.text, '{', '}') ==> r == parse(GreedySpan(reply.text, '{', '}').value)
    ensures !(reply.Answer? && HasSpan(reply.text, '{', '}')) ==> r.None?
  {
    match reply
    case Failure(_) => None
    case Answer(text) =>
      match GreedySpan(text, '{', '}')
      case None => None
      case Some(span) => parse(span)
  }
}
