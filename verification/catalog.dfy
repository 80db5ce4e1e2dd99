/**
 * Static configuration: the five text-generation providers and the nine investor
 * categories, each routed to one provider (App.jsx, `LLMs` and `categories`).
 */
module Catalog {
  import opened Wrappers

  datatype Llm = Llm(id: string, name: string, icon: string, endpoint: string)

  const LLMs: seq<Llm> := [
    Llm("claude", "Claude", "\U{1F7E3}", "/api/claude"),
    Llm("openai", "GPT-4", "\U{1F7E2}", "/api/openai"),
    Llm("gemini", "Gemini", "\U{1F535}", "/api/gemini"),
    Llm("perplexity", "Perplexity", "\U{1F7E0}", "/api/perplexity"),
    Llm("mistral", "Mistral", "\U{1F534}", "/api/mistral")
  ]

  datatype Category = Category(id: string, name: string, llm: string)

  /** The categories in the order they are searched, which is also the order they are aggregated. */
  const Categories: seq<Category> := [
    Category("pe_italy", "PE Italiani", "claude"),
    Category("pe_europe", "PE Europei", "openai"),
    Category("pe_global", "PE Globali", "gemini"),
    Category("family_office_italy", "Family Office IT", "perplexity"),
    Category("family_office_europe", "Family Office EU", "mistral"),
    Category("family_office_global", "Family Office Global", "claude"),
    Category("corporate", "Corporate Buyers", "openai"),
    Category("swf_institutional", "SWF & Istituzionali", "gemini"),
    Category("debt", "Debt Funds", "perplexity")
  ]

  /** `list.find(l => l.id === id)`: the first provider with that id. */
  function FindIn(list: seq<Llm>, id: string): (r: Option<Llm>)
    ensures r.Some? ==> r.value in list && r.value.id == id
    ensures r.Some? ==> exists k :: 0 <= k < |list| && list[k] == r.value
                          && forall j :: 0 <= j < k ==> list[j].id != id
    ensures r.None? <==> forall l :: l in list ==> l.id != id
  {
    if list == [] then None
    else if list[0].id == id then Some(list[0])
    else
      var r := FindIn(list[1..], id);
      assert r.Some? ==> exists k :: 0 <= k < |list[1..]| && list[1..][k] == r.value
                          && forall j :: 0 <= j < k ==> list[1..][j].id != id;
      assert r.Some? ==> exists k :: 1 <= k < |list| && list[k] == r.value
                          && forall j :: 0 <= j < k ==> list[j].id != id;
      assert list == [list[0]] + list[1..];
      r
  }

  function FindLlm(id: string): Option<Llm> {
    FindIn(LLMs, id)
  }

  lemma FindsClaude() ensures FindLlm("claude").Some? { }
  lemma FindsOpenai() ensures FindLlm("openai").Some? { }
  lemma FindsGemini() ensures FindLlm("gemini").Some? { }
  lemma FindsPerplexity() ensures FindLlm("perplexity").Some? { }
  lemma FindsMistral() ensures FindLlm("mistral").Some? { }

  /** Every category names a provider that exists, so the lookup before each search never fails. */
  lemma CategoriesResolve()
    ensures forall i :: 0 <= i < |Categories| ==> FindLlm(Categories[i].llm).Some?
  {
    forall i | 0 <= i < |Categories|
      ensures FindLlm(Categories[i].llm).Some?
    {
      var id := Categories[i].llm;
      if id == "claude" { FindsClaude(); }
      else if id == "openai" { FindsOpenai(); }
      else if id == "gemini" { FindsGemini(); }
      else if id == "perplexity" { FindsPerplexity(); }
      else { assert id == "mistral"; FindsMistral(); }
    }
  }

  /** Category ids are distinct, so each search result gets its own slot in the results object. */
  lemma CategoryIdsDistinct()
    ensures forall i, j :: 0 <= i < j < |Categories| ==> Categories[i].id != Categories[j].id
  {
  }

  /** Every provider is reached at `/api/<id>`. */
  lemma EndpointsFollowIds()
    ensures forall l :: l in LLMs ==> l.endpoint == "/api/" + l.id
  {
  }
}
