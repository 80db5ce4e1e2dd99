/**
 * The search session of App.jsx: the progress log (`addProgress`,
 * `updateProgress`), the company-profile step, the category loop of
 * `runMultiLLMSearch`, the aggregation step and the `runSearch` step machine
 * `input -> searching -> results | input`.
 *
 * Provider answers are given up front, one for the profile and one per category,
 * and `JSON.parse` is passed in; the React state setters become field updates.
 */
module Session {
  import opened Wrappers
  import opened Text
  import opened Catalog
  import opened Mentions
  import opened Scoring
  import opened Engine

  datatype Status = Running | Done | Failed

  /** A log line: its message, the provider it concerns, its state and the count shown next to it. */
  datatype ProgressEntry = ProgressEntry(msg: string, llm: Option<string>, status: Status, count: nat)

  datatype Step = Input | Searching | Results

  /** `updateProgress` on a log: only the last entry changes, and only its status and count. */
  function Completed(log: seq<ProgressEntry>, success: bool, count: nat): (r: seq<ProgressEntry>)
    ensures |r| == |log|
    ensures log != [] ==> r[..|log| - 1] == log[..|log| - 1]
    ensures log != [] ==> var last := r[|r| - 1];
              last.msg == log[|log| - 1].msg && last.llm == log[|log| - 1].llm
              && (last.status == Done <==> success) && last.status != Running && last.count == count
  {
    if log == [] then []
    else
      var last := log[|log| - 1];
      log[..|log| - 1] + [last.(status := if success then Done else Failed, count := count)]
  }

  /** Completing the entry just added gives a finished entry with the same message and provider. */
  lemma CompleteAdded(log: seq<ProgressEntry>, msg: string, llm: Option<string>, success: bool, count: nat)
    ensures Completed(log + [ProgressEntry(msg, llm, Running, 0)], success, count)
            == log + [ProgressEntry(msg, llm, if success then Done else Failed, count)]
  {
    var l := log + [ProgressEntry(msg, llm, Running, 0)];
    assert l[..|l| - 1] == log;
  }

  const ProfileMsg: string := "\U{1F50D} Analisi automatica azienda..."
  const AggregateMsg: string := "\U{1F4CA} Aggregazione e scoring..."
  const EmptyQueryError: string := "Inserisci nome azienda o P.IVA"
  const NoProfileError: string := "Impossibile trovare informazioni sull'azienda"

  /** The log line of a category search: the provider's icon and the category name. */
  function CategoryMsg(cat: Category): string
    requires FindLlm(cat.llm).Some?
  {
    FindLlm(cat.llm).value.icon + " " + cat.name + "..."
  }

  /** The category results, one per category in search order. */
  function SearchAll(replies: seq<Reply>, parse: string -> Option<seq<JsonItem>>): (rs: seq<CategoryResult>)
    requires |replies| == |Categories|
    ensures |rs| == |Categories|
  {
    seq(|Categories|, i requires 0 <= i < |Categories| => SearchCategory(Categories[i], replies[i], parse).result)
  }

  function CategoryEntry(cat: Category, reply: Reply, parse: string -> Option<seq<JsonItem>>): ProgressEntry
    requires FindLlm(cat.llm).Some?
  {
    var o := SearchCategory(cat, reply, parse);
    ProgressEntry(CategoryMsg(cat), Some(cat.llm), if o.ok then Done else Failed, o.count)
  }

  /** The log lines the category loop leaves, one finished line per category. */
  function CategoryLog(replies: seq<Reply>, parse: string -> Option<seq<JsonItem>>): (log: seq<ProgressEntry>)
    requires |replies| == |Categories|
    ensures |log| == |Categories|
  {
    CategoriesResolve();
    seq(|Categories|, i requires 0 <= i < |Categories| => CategoryEntry(Categories[i], replies[i], parse))
  }

  /** Every category line is finished, names its provider and is marked failed exactly when the provider call failed. */
  lemma CategoryLogFinished(replies: seq<Reply>, parse: string -> Option<seq<JsonItem>>)
    requires |replies| == |Categories|
    ensures forall i :: 0 <= i < |Categories| ==>
              var e := CategoryLog(replies, parse)[i];
              e.status != Running && e.llm == Some(Categories[i].llm)
              && (e.status == Failed <==> replies[i].Failure?)
              && (replies[i].Failure? ==> e.count == 0)
  {
  }

  /** Each result is labelled with its category and provider and holds only named investors. */
  lemma SearchAllLabels(replies: seq<Reply>, parse: string -> Option<seq<JsonItem>>)
    requires |replies| == |Categories|
    ensures forall i :: 0 <= i < |Categories| ==>
              var r := SearchAll(replies, parse)[i];
              r.category == Categories[i].name && r.llm == Categories[i].llm && FindLlm(r.llm).Some?
              && (forall m :: m in r.investors ==> m.name != "")
              && (replies[i].Failure? <==> r.error.Some?)
  {
    CategoriesResolve();
  }

  lemma LoopStep(replies: seq<Reply>, parse: string -> Option<seq<JsonItem>>, i: nat)
    requires |replies| == |Categories| && i < |Categories|
    ensures FindLlm(Categories[i].llm).Some?
    ensures SearchAll(replies, parse)[..i + 1]
            == SearchAll(replies, parse)[..i] + [SearchCategory(Categories[i], replies[i], parse).result]
    ensures CategoryLog(replies, parse)[..i + 1]
            == CategoryLog(replies, parse)[..i] + [CategoryEntry(Categories[i], replies[i], parse)]
  {
    CategoriesResolve();
    var a := SearchAll(replies, parse);
    TakeOneMore(a, i);
    var l := CategoryLog(replies, parse);
    TakeOneMore(l, i);
  }

  lemma AppendNext<T>(start: seq<T>, s: seq<T>, i: nat)
    requires i < |s|
    ensures start + s[..i] + [s[i]] == start + s[..i + 1]
  {
    TakeOneMore(s, i);
  }

  lemma TakeOneMore<T>(s: seq<T>, i: nat)
    requires i < |s|
    ensures s[..i + 1] == s[..i] + [s[i]]
  {
  }

  class SearchSession {
    var step: Step
    var error: Option<string>
    var profile: Option<Profile>
    var results: seq<CategoryResult>
    var aggregated: Option<Aggregated>
    var progress: seq<ProgressEntry>

    constructor()
      ensures step == Input && error == None && profile == None
      ensures results == [] && aggregated == None && progress == []
    {
      step := Input;
      error := None;
      profile := None;
      results := [];
      aggregated := None;
      progress := [];
    }

    /** `addProgress`: a running entry at the end of the log. */
    method AddProgress(msg: string, llm: Option<string>)
      modifies this`progress
      ensures progress == old(progress) + [ProgressEntry(msg, llm, Running, 0)]
    {
      progress := progress + [ProgressEntry(msg, llm, Running, 0)];
    }

    /** `updateProgress`: finishes the last entry, if there is one. */
    method UpdateProgress(success: bool, count: nat)
      modifies this`progress
      ensures progress == Completed(old(progress), success, count)
    {
      if |progress| > 0 {
        var last := progress[|progress| - 1];
        progress := progress[|progress| - 1 := last.(status := if success then Done else Failed, count := count)];
        assert progress == old(progress)[..|progress| - 1] + [progress[|progress| - 1]];
      }
    }

    /** `buildCompanyProfile`: one log line, finished with count 1 on success and failed otherwise. */
    method BuildCompanyProfile(reply: Reply, parse: string -> Option<Profile>) returns (p: Option<Profile>)
      modifies this`progress
      ensures p == ExtractProfile(reply, parse)
      ensures progress == old(progress) + [ProgressEntry(ProfileMsg, Some("claude"), if p.Some? then Done else Failed,
                                                         if p.Some? then 1 else 0)]
    {
      AddProgress(ProfileMsg, Some("claude"));
      p := ExtractProfile(reply, parse);
      if p.Some? {
        UpdateProgress(true, 1);
      } else {
        UpdateProgress(false, 0);
      }
      CompleteAdded(old(progress), ProfileMsg, Some("claude"), p.Some?, if p.Some? then 1 else 0);
    }

    /** One pass of the category loop: a log line for the category, the search, the line finished. */
    method SearchOne(cat: Category, reply: Reply, parse: string -> Option<seq<JsonItem>>) returns (res: CategoryResult)
      requires FindLlm(cat.llm).Some?
      modifies this`progress
      ensures res == SearchCategory(cat, reply, parse).result
      ensures progress == old(progress) + [CategoryEntry(cat, reply, parse)]
    {
      var llmConfig := FindLlm(cat.llm).value;
      AddProgress(llmConfig.icon + " " + cat.name + "...", Some(cat.llm));
      var outcome := SearchCategory(cat, reply, parse);
      res := outcome.result;
      UpdateProgress(outcome.ok, outcome.count);
      CompleteAdded(old(progress), CategoryMsg(cat), Some(cat.llm), outcome.ok, outcome.count);
    }

    /** `runMultiLLMSearch`: the categories in order, each with its log line and its result. */
    method RunMultiLLMSearch(replies: seq<Reply>, parse: string -> Option<seq<JsonItem>>) returns (rs: seq<CategoryResult>)
      requires |replies| == |Categories|
      modifies this`progress
      ensures rs == SearchAll(replies, parse)
      ensures progress == old(progress) + CategoryLog(replies, parse)
    {
      rs := [];
      var i := 0;
      while i < |Categories|
        invariant 0 <= i <= |Categories|
        invariant rs == SearchAll(replies, parse)[..i]
        invariant progress == old(progress) + CategoryLog(replies, parse)[..i]
      {
        LoopStep(replies, parse, i);
        var res := SearchOne(Categories[i], replies[i], parse);
        rs := rs + [res];
        AppendNext(old(progress), CategoryLog(replies, parse), i);
        i := i + 1;
      }
    }

    /** The aggregation step: one log line, finished with the number of ranked investors. */
    method AggregateWithProgress(rs: seq<CategoryResult>) returns (agg: Aggregated)
      modifies this`progress
      ensures agg == Aggregate(rs)
      ensures progress == old(progress) + [ProgressEntry(AggregateMsg, None, Done, |agg.investors|)]
    {
      AddProgress(AggregateMsg, None);
      agg := AggregateResults(rs);
      UpdateProgress(true, |agg.investors|);
      CompleteAdded(old(progress), AggregateMsg, None, true, |agg.investors|);
    }

    /**
     * `runSearch`. A blank query only sets the error. Otherwise the session resets and
     * enters `searching`; a missing profile sends it back to `input` with an error;
     * otherwise it searches every category, aggregates and shows the results.
     */
    method RunSearch(query: string, profileReply: Reply, parseProfile: string -> Option<Profile>,
                     replies: seq<Reply>, parseList: string -> Option<seq<JsonItem>>)
      requires |replies| == |Categories|
      modifies this
      ensures Trim(query) == "" ==>
                error == Some(EmptyQueryError) && step == old(step) && profile == old(profile)
                && results == old(results) && aggregated == old(aggregated) && progress == old(progress)
      ensures Trim(query) != "" && ExtractProfile(profileReply, parseProfile).None? ==>
                step == Input && error == Some(NoProfileError) && profile == old(profile)
                && results == [] && aggregated == None
                && progress == [ProgressEntry(ProfileMsg, Some("claude"), Failed, 0)]
      ensures Trim(query) != "" && ExtractProfile(profileReply, parseProfile).Some? ==>
                step == Results && error == None && profile == ExtractProfile(profileReply, parseProfile)
                && results == SearchAll(replies, parseList) && aggregated == Some(Aggregate(results))
                && progress == [ProgressEntry(ProfileMsg, Some("claude"), Done, 1)] + CategoryLog(replies, parseList)
                               + [ProgressEntry(AggregateMsg, None, Done, |aggregated.value.investors|)]
    {
      if Trim(query) == "" {
        error := Some(EmptyQueryError);
        return;
      }
      step := Searching;
      progress := [];
      error := None;
      results := [];
      aggregated := None;

      var p := BuildCompanyProfile(profileReply, parseProfile);
      if p.None? {
        error := Some(NoProfileError);
        step := Input;
        return;
      }
      profile := p;

      assert progress == [ProgressEntry(ProfileMsg, Some("claude"), Done, 1)];
      var rs := RunMultiLLMSearch(replies, parseList);
      results := rs;
      ghost var afterSearch := progress;

      var agg := AggregateWithProgress(rs);
      aggregated := Some(agg);
      assert progress == afterSearch + [ProgressEntry(AggregateMsg, None, Done, |agg.investors|)];

      step := Results;
    }
  }

  /** After a successful search the log has one line per step, all finished: profile, nine categories, aggregation. */
  lemma SuccessLogShape(replies: seq<Reply>, parse: string -> Option<seq<JsonItem>>, n: nat)
    requires |replies| == |Categories|
    ensures var log := [ProgressEntry(ProfileMsg, Some("claude"), Done, 1)] + CategoryLog(replies, parse)
                       + [ProgressEntry(AggregateMsg, None, Done, n)];
            |log| == 11 && forall i :: 0 <= i < |log| ==> log[i].status != Running
  {
    CategoryLogFinished(replies, parse);
    var log := [ProgressEntry(ProfileMsg, Some("claude"), Done, 1)] + CategoryLog(replies, parse)
               + [ProgressEntry(AggregateMsg, None, Done, n)];
    forall i | 0 <= i < |log|
      ensures log[i].status != Running
    {
      if 1 <= i < 10 {
        assert log[i] == CategoryLog(replies, parse)[i - 1];
      }
    }
  }
}
