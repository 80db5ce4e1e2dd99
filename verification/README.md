# Investment-Match: multi-provider investor matcher, modelled in Dafny

The application takes a company name or VAT number. It asks one text-generation provider for a
company profile. It then asks five providers, over nine investor categories, for
lists of candidate investors. The mentions are merged into one roster keyed by a
normalised name, then scored, ranked and summarised. The roster can be filtered and
exported as CSV. All of this logic lives in `src/App.jsx`.

This project models that pipeline:

- `text.dfy` (`Text`): the string operations the code relies on. These are ASCII lower-casing,
  `includes`, `trim`, `join` and decimal rendering of integers.
- `keys.dfy` (`Keys`): the identity key of an investor name. It lower-cases the name, then deletes every
  character outside `[a-z0-9]`.
- `ordered_set.dfy` (`OrderedSet`): `[...new Set(xs)]`, which removes repeats and keeps the
  first occurrence of each element.
- `json_span.dfy` (`JsonSpan`): the greedy `/\[[\s\S]*\]/` and `/\{[\s\S]*\}/` matches. Each runs from the
  first opening bracket to the last closing one.
- `catalog.dfy` (`Catalog`): the provider table and the category table.
- `mentions.dfy` (`Mentions`): one category search after the provider has answered, and the
  company-profile extraction.
- `aggregation.dfy` (`Aggregation`): the identity map as a function of the visited mentions. It is
  checked against reference definitions stated on the mention sequence alone.
- `scoring.dfy` (`Scoring`): score, fit label, the stable descending sort and the summary.
- `engine.dfy` (`Engine`): `aggregateResults` as it runs. The `InvestorMap` class is updated by
  nested loops, and the result is proved equal to the functional model.
- `filter.dfy` (`Filter`): `getFilteredInvestors`.
- `csv.dfy` (`Csv`): the rows of `exportCSV` and their quoting.
- `prompt.dfy` (`Prompt`): the deal-type text and the EV estimate of `buildInvestorPrompt`.
- `session.dfy` (`Session`): the progress log, the profile step, the category loop and the
  `runSearch` step machine, all in the `SearchSession` class.

The model follows the code where a reader might expect something else:

- Consensus counts every named mention under a key. This includes repeats within one category.
- The news "dedup" never fires. `allNews.includes(inv.news)` compares objects with a string, so every
  later mention with news adds an item.
- The summary's type buckets use case-sensitive `includes`. The filter lower-cases the type and uses
  other keyword lists. `Filter.LowerCaseTypeOnlyFiltered` exhibits an entry on which the two disagree.
- The JSON span is greedy, not balanced.
- A mention field that the answer leaves out is modelled as `""`. Every reader of those fields treats
  `undefined` and `""` alike. `recentDeals` is optional, because `if (inv.recentDeals)` holds for an
  empty list.
- A provider call is an answer given up front: its text or its error message. `JSON.parse` is a
  function parameter.

## Model

| member | source | states |
|---|---|---|
| Text.Lower | src/App.jsx:304 | lower-casing keeps the length and maps each character by the ASCII case rule |
| Text.ContainsAt | src/App.jsx:360-364 | `includes` holds exactly when the substring occurs at some position |
| Text.Trim | src/App.jsx:379 | the trimmed query is empty exactly when every character is whitespace; otherwise it neither starts nor ends with whitespace |
| Text.ParseNatToString | src/App.jsx:449 | the decimal text of a number reads back as that number |
| Keys.Key | src/App.jsx:304 | a key is no longer than the name and holds only `[a-z0-9]` |
| Keys.KeyIdempotent | src/App.jsx:304 | normalising a key again changes nothing |
| Keys.KeyIgnoresCase | src/App.jsx:304 | names differing only in ASCII case share a key |
| Keys.KeyAppend | src/App.jsx:304 | the key of a concatenation is the concatenation of the keys |
| Keys.SpaSuffixChangesKey | src/App.jsx:304 | appending " S.p.A." appends "spa" to the key, so the two names are different investors |
| Keys.FondoAlfaKeysDiffer | src/App.jsx:304 | "Fondo Alfa" and "FONDO ALFA S.p.A." get different keys |
| OrderedSet.Dedup | src/App.jsx:316 | the result has no repeats and holds exactly the input's elements |
| OrderedSet.DedupAppend | src/App.jsx:316 | deduplicating a repeat-free list followed by new items keeps the list as a prefix and adds only new elements |
| OrderedSet.DedupOfDistinct | src/App.jsx:316 | a list without repeats is returned unchanged |
| JsonSpan.GreedySpan | src/App.jsx:259 | a span exists exactly when some opening bracket precedes a closing one; it runs from the first opening to the last closing bracket |
| Catalog.FindIn | src/App.jsx:250 | the lookup returns the first provider with the id, and none exactly when no provider has it |
| Catalog.CategoriesResolve | src/App.jsx:234-250 | every category names a provider of the table, so the icon lookup never fails |
| Catalog.CategoryIdsDistinct | src/App.jsx:234-244 | category ids are distinct, so every category has its own result slot |
| Catalog.EndpointsFollowIds | src/App.jsx:20-26 | every provider is reached at `/api/<id>` |
| Mentions.NamedOnly | src/App.jsx:267 | the kept mentions are exactly the objects with a non-empty name |
| Mentions.NamedOnlyAppend | src/App.jsx:267 | the filter works item by item, so it keeps the items' order and every repeat |
| Mentions.NamedOnlySingle | src/App.jsx:267 | one item is kept exactly when it is an object with a non-empty name |
| Mentions.SearchCategory | src/App.jsx:253-284 | the result carries the category and provider; a failure gives no investors and the error; no span or a parse failure gives no investors and a successful count of 0; a span that parses gives its named items as investors and the parsed length as the count |
| Mentions.ExtractProfile | src/App.jsx:93-109 | an answer with a `{...}` span gives that span parsed; a failure or an answer without a span gives no profile |
| Aggregation.Build | src/App.jsx:300-329 | the map stays well formed: distinct keys in insertion order, ids 1..n in that order, consensus equal to the number of sources and at least 1, each entry under its own name's key |
| Aggregation.BuildOrder | src/App.jsx:319-321 | the keys are the distinct keys of the named mentions in order of first appearance |
| Aggregation.BuildEntry | src/App.jsx:306-326 | each entry is determined by its key's mentions: the first one's fields, one source and one consensus point per mention, one news item per mention with news, and exactly the deals any of them listed |
| Aggregation.ConsensusCountsMentions | src/App.jsx:306-309 | consensus equals the number of sources and the number of named mentions with the key, repeats included |
| Aggregation.FirstSeenWins | src/App.jsx:319-320 | the copied fields are the first matching mention's, never overwritten later |
| Aggregation.BuildConsensusSum | src/App.jsx:300-329 | the consensus values add up to the number of named mentions |
| Aggregation.MergeDeals | src/App.jsx:315-317 | after a merge the deal list has no repeats, holds every earlier and every new deal, and keeps the earlier ones first |
| Aggregation.MergeNewsAppends | src/App.jsx:311-313 | a later mention with news appends exactly one item, even one repeating earlier text |
| Aggregation.MergeKeepsFirst | src/App.jsx:306-309 | a merge keeps the copied fields, the id and the earlier sources, and adds one consensus point |
| Aggregation.Roster | src/App.jsx:332 | the values in key insertion order |
| Scoring.Score | src/App.jsx:336-342 | the score is the raw points clamped to [30, 99] |
| Scoring.Fit | src/App.jsx:347 | the label for each of the four score bands |
| Scoring.ScoreAll | src/App.jsx:335-349 | each entry gets its score and the label of that score |
| Scoring.ScoreOfCitedEntry | src/App.jsx:336-347 | with at least one citation the score is in [65, 99] and the label is never `Basso` |
| Scoring.ScoreMonotone | src/App.jsx:337 | more citations never lower the score |
| Scoring.ScoreSaturates | src/App.jsx:337-342 | four citations give 99 and `Eccellente` |
| Scoring.FitMonotone | src/App.jsx:347 | a higher score never gets a lower label in the order `Basso` < `Medio` < `Alto` < `Eccellente` |
| Scoring.SortByScoreSortedPerm | src/App.jsx:352 | the sorted roster is non-increasing in score and a permutation of its input |
| Scoring.SortByScoreStable | src/App.jsx:352 | entries with equal scores keep their input order |
| Filter.CountIsSelectLength | src/App.jsx:360-370 | each summary count is the length of the list filtered by the same test |
| Scoring.TiersCoverTotal | src/App.jsx:366-370 | high, medium and low add up to the total when every consensus is at least 1 |
| Scoring.TypeBucketsBounded | src/App.jsx:359-365 | each type bucket is at most the total |
| Scoring.RoundedMean | src/App.jsx:371 | the mean rounded half up, and 0 for an empty roster |
| Scoring.AvgScoreInRange | src/App.jsx:371 | the average of scores within a range lies in that range; an empty roster averages 0 |
| Scoring.CitedSummary | src/App.jsx:357-372 | for entries cited at least once and scored in [65, 99], the tiers add up to the count and the average is in [65, 99], or 0 when there are none |
| Filter.SelectMembers | src/App.jsx:422 | a filter keeps exactly the elements passing the test |
| Filter.FilteredIsSelectKeep | src/App.jsx:417-440 | the three filters in sequence equal one filter by the conjunction of the active tests |
| Filter.FilteredMembership | src/App.jsx:417-440 | an entry is shown exactly when it is in the roster and passes every active control |
| Filter.FilteredIsSubsequence | src/App.jsx:419-439 | the shown entries are an order-preserving subsequence of the roster |
| Filter.NoResultsNothingShown | src/App.jsx:418 | without results nothing is shown |
| Filter.DefaultShowsAll | src/App.jsx:421-437 | with minimum consensus at most 1, type `all` and no news requirement the whole roster is shown |
| Filter.ShownMeetMinimum | src/App.jsx:421-423 | every shown entry meets the minimum consensus |
| Filter.FilterIdempotent | src/App.jsx:417-440 | filtering the shown entries again changes nothing |
| Filter.LowerCaseTypeOnlyFiltered | src/App.jsx:360 | an entry typed "pe" passes the `pe` filter but is not in the summary's `pe` bucket |
| Engine.InvestorMap.constructor | src/App.jsx:297 | the map starts empty |
| Engine.InvestorMap.Add | src/App.jsx:302-327 | one mention updates the map exactly as the functional step does |
| Engine.InvestorMap.AddAll | src/App.jsx:301-328 | one category's mentions, in order, bring the map to the state after those mentions |
| Engine.InvestorMap.Values | src/App.jsx:332 | the values are read back in key insertion order |
| Engine.AggregateResults | src/App.jsx:294-375 | the loops, scoring, sort and summary return exactly the functional aggregate |
| Engine.AggregateIsRanking | src/App.jsx:352 | the result is sorted, a permutation of the scored map values, and stable on ties |
| Engine.AggregateTotal | src/App.jsx:358 | the total is the number of distinct keys of named mentions |
| Engine.RosterCited | src/App.jsx:306-309 | every map value has been cited at least once |
| Engine.RankedFromRoster | src/App.jsx:335-352 | an entry of the sorted ranking is a map value carrying its own score and label |
| Engine.AggregateEntries | src/App.jsx:335-349 | every ranked entry comes from the map, scores in [65, 99] with its label, and is never `Basso` |
| Engine.AggregateSummary | src/App.jsx:357-372 | the tiers add up to the total, and the average is in [65, 99], or 0 for an empty roster |
| Engine.NothingFound | src/App.jsx:294-375 | with no investors in any category the roster is empty and every summary figure is 0 |
| Prompt.DealTypeText | src/App.jsx:114-118 | the three deal types the form can set map to their texts; an id outside them gets no text |
| Prompt.RoundHalfUp | src/App.jsx:121 | the nearest integer, with halves rounded up |
| Prompt.EvLow | src/App.jsx:121 | the lower bound is 80% of the revenue rounded to the nearest integer |
| Prompt.EvHigh | src/App.jsx:121 | the upper bound is 120% of the revenue rounded to the nearest integer |
| Prompt.EvRangeOrdered | src/App.jsx:120-122 | for a positive revenue the range is ordered and contains the revenue |
| Prompt.EvRounding | src/App.jsx:121 | each bound is within half a unit of its exact value |
| Prompt.EvPlaceholderExactlyWhenNoRevenue | src/App.jsx:120-122 | the placeholder appears exactly when the revenue is missing or zero |
| Prompt.EvOfTwenty | src/App.jsx:121 | a revenue of 20 gives "EV stimato: €16M - €24M" |
| Csv.Display | src/App.jsx:449 | `""`, `0` and `undefined` display as the empty string, strings as themselves, other numbers as their decimal text, which reads back as the number |
| Csv.Escape | src/App.jsx:449 | escaping adds one character per quote |
| Csv.Quote | src/App.jsx:449 | a field starts and ends with a quote and is two characters plus one per quote longer than its text |
| Csv.ReadEscaped | src/App.jsx:449 | every inner quote is doubled, so reading an escaped field back stops at its closing quote and gives the text |
| Csv.QuoteRoundTrip | src/App.jsx:449 | un-quoting a field gives back the displayed value |
| Csv.ParseJoined | src/App.jsx:449-450 | quoted fields joined with commas read back as the fields |
| Csv.ColumnsArePlain | src/App.jsx:452 | the header has thirteen column names, none holding a comma or a quote |
| Csv.RowValues | src/App.jsx:446-448 | a row has one value per header column |
| Csv.RowRoundTrip | src/App.jsx:445-451 | every row reads back as exactly thirteen fields holding the displayed values |
| Csv.DocumentShape | src/App.jsx:444-453 | there is a document exactly when there are results, and it starts with the byte-order mark and the header line |
| Csv.ScoreAndConsensusShown | src/App.jsx:446-449 | a roster entry's score and consensus always appear as numbers |
| Session.Completed | src/App.jsx:32-43 | finishing the log changes only the last entry's status and count |
| Session.CompleteAdded | src/App.jsx:28-43 | adding an entry and finishing it leaves one finished entry with the message and provider |
| Session.CategoryLogFinished | src/App.jsx:249-284 | every category line is finished, names its provider, fails exactly when the call failed, and then counts 0 |
| Session.SearchAllLabels | src/App.jsx:249-284 | every result is labelled with its category and a provider of the table, holds only named investors, and carries an error exactly when the call failed |
| Session.SuccessLogShape | src/App.jsx:378-408 | a successful search leaves eleven finished log lines |
| Session.SearchSession.constructor | src/App.jsx:8-17 | the session starts at `input` with no error, profile, results or log |
| Session.SearchSession.AddProgress | src/App.jsx:28-30 | a running entry is appended to the log |
| Session.SearchSession.UpdateProgress | src/App.jsx:32-43 | the log becomes its completed form |
| Session.SearchSession.BuildCompanyProfile | src/App.jsx:56-110 | the profile is the extracted one, and one log line is finished with count 1 or failed |
| Session.SearchSession.SearchOne | src/App.jsx:249-284 | one category gives its search result, and the log gains that category's finished line |
| Session.SearchSession.RunMultiLLMSearch | src/App.jsx:233-291 | the results are the category searches in order, and the log gains one finished line per category |
| Session.SearchSession.AggregateWithProgress | src/App.jsx:295-354 | the aggregate is the functional one, and the log gains one finished line counting the ranked investors |
| Session.SearchSession.RunSearch | src/App.jsx:378-414 | a blank query only sets the error; a missing profile returns to `input` with the error; otherwise the session shows the search results and their aggregate |

## Left out

- The HTTP handlers under `api/` and `callLLM` (network I/O) are not part of this model. A provider call is an answer text or an error message given up front.
- `JSON.parse` is a function parameter, because it is a foreign parser. Parsed items that are not objects are `None`, and a non-string truthy `name` is not modelled.
- The one-second delay between categories and the `Date.now` durations in the log are left out. They affect timing only.
- The outer `catch` of `runSearch` (src/App.jsx:409-412, which sets `Errore: …` and returns to `input`) is left out. The profile step and the category loop catch their own errors and every category's provider exists, so in the model only the aggregation could throw, and with typed mentions it cannot.
- Mention fields are assumed to have the JSON types the prompt asks for: text fields are strings, `focus`, `recentDeals` and `contacts` are arrays of strings. Answers that break this are not modelled. A truthy non-iterable `recentDeals` (src/App.jsx:316) or a `type` without `includes` (src/App.jsx:360) would throw inside `aggregateResults` and reach the outer `catch`. A string `recentDeals` would be spread into single characters (src/App.jsx:316), and a non-empty string `contacts` would earn the contacts bonus (src/App.jsx:341).
- The prompt wording is left out. The deal type and the revenue reach the model only through `Prompt.DealTypeText` and `Prompt.EvEstimate`, since the provider answers are given up front.
- Prompt.EvLow: modelled for integer revenue only. The product with 0.8 or 1.2 is taken as an exact rational, not as a floating-point number.
- Prompt.EvHigh: modelled for integer revenue only, for the same reason.
- The progress-bar percentage and the "investors found" total of the rendering code are left out. The percentage is floating point; neither is part of the logic.
- React state, the JSX rendering, the style table, the Blob download and its date-stamped file name are left out, as is `src/index.js`.
- `toLowerCase` and `trim` follow ASCII case and the JavaScript whitespace set. Unicode case folding beyond ASCII is not modelled.
- Engine.InvestorMap.Add: a map entry is a value replaced under its key. The source mutates the stored object in place; nothing else holds a reference to it, so the result is the same.
- Scoring.SortByScore: the in-place `Array.prototype.sort` is modelled as a stable insertion sort on values. ECMAScript requires the sort to be stable, and no other property of the built-in sort matters here.
- Csv.ColumnsArePlain: the header is the column list joined with commas. The literal header text is not compared character by character.
