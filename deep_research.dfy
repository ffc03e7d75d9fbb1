/** The recursive research controller (src/deep-research.ts).

    A call plans sub-queries for its query, runs one branch per sub-query
    (search, extract learnings, and go one level deeper while depth
    remains), folds the branch results in sub-query order, de-duplicates
    them and writes a final report. The language model, the search engine
    and prompt trimming are oracles: each is a function of its arguments
    whose `None` answer stands for a thrown error. */
module DeepResearch {
  import opened Wrappers
  import opened Text
  import opened Sequences
  import LanguageDetector

  datatype SerpQuery = SerpQuery(query: string, researchGoal: Option<string>)

  /** One search hit: its url and its markdown, either of which may be
      missing. */
  datatype Item = Item(url: Option<string>, markdown: Option<string>)

  datatype ResearchResult = ResearchResult(learnings: seq<string>, visitedUrls: seq<string>)

  /** The external calls.
      `plan(query, numQueries, learnings, language)` is the queries array
      of `generateSerpQueries`' model answer;
      `search(query)` is `firecrawl.search`;
      `extract(query, items, numFollowUpQuestions, language)` is the
      learnings array of `processSerpResult`'s model answer;
      `report(prompt, learnings, language)` is the `reportMarkdown` of
      `writeFinalReport`'s model answer. */
  datatype Oracles = Oracles(
    plan: (string, int, seq<string>, string) -> Option<seq<SerpQuery>>,
    search: string -> Option<seq<Item>>,
    extract: (string, seq<Item>, int, string) -> Option<seq<string>>,
    report: (string, seq<string>, string) -> Option<string>)

  // ---------------------------------------------------------------------
  // Parameters of a call and of its children
  // ---------------------------------------------------------------------

  /** `xs.slice(0, n)`: a negative end counts from the end of the list. */
  function SliceTo<T>(xs: seq<T>, n: int): (r: seq<T>)
    ensures |r| <= |xs| && r == xs[..|r|]
    ensures n >= 0 ==> |r| == if n < |xs| then n else |xs|
    ensures n < 0 ==> |r| == if |xs| + n < 0 then 0 else |xs| + n
  {
    if n >= 0 then (if n < |xs| then xs[..n] else xs)
    else if |xs| + n < 0 then []
    else xs[..|xs| + n]
  }

  /** The sub-queries a call works on never exceed the requested breadth
      and come in the planner's order. */
  lemma PlanTruncation<T>(planned: seq<T>, breadth: int)
    requires breadth >= 0
    ensures |SliceTo(planned, breadth)| <= breadth
    ensures SliceTo(planned, breadth) == planned[..|SliceTo(planned, breadth)|]
    ensures |planned| <= breadth ==> SliceTo(planned, breadth) == planned
  {
  }

  /** `Math.ceil(breadth / 2)`, on integers. */
  function CeilHalf(b: int): (r: int)
    ensures b <= 2 * r < b + 2
  {
    (b + 1) / 2
  }

  /** A child's breadth is at least one when the parent's is, and never
      exceeds a non-negative parent breadth. */
  lemma ChildBreadth(b: int)
    ensures b >= 1 ==> CeilHalf(b) >= 1
    ensures b >= 0 ==> CeilHalf(b) <= b
    ensures b >= 2 ==> CeilHalf(b) < b
  {
  }

  function Max(a: int, b: int): int {
    if a < b then b else a
  }

  /** `language || detectLanguage(text)`: an absent or empty language falls
      back to the detector. */
  function ResolveLanguage(language: string, text: string): (lang: string)
    ensures lang != ""
    ensures language != "" ==> lang == language
    ensures language == "" ==> lang == LanguageDetector.DetectLanguage(text)
  {
    if language != "" then language else LanguageDetector.DetectLanguage(text)
  }

  /** A child receives its parent's resolved language and resolves it to the
      same value: the whole tree works in one language. */
  lemma ResolveLanguageStable(language: string, parentQuery: string, childQuery: string)
    ensures ResolveLanguage(ResolveLanguage(language, parentQuery), childQuery)
      == ResolveLanguage(language, parentQuery)
  {
  }

  /** `compact(items.map(item => item.url))`: missing and empty urls are
      dropped, the others kept in order. */
  function CompactUrls(items: seq<Item>): (urls: seq<string>)
    ensures |urls| <= |items|
    ensures forall u :: u in urls <==> u != "" && exists i :: 0 <= i < |items| && items[i].url == Some(u)
  {
    if |items| == 0 then []
    else
      var rest := CompactUrls(items[..|items| - 1]);
      var last := items[|items| - 1].url;
      assert forall i :: 0 <= i < |items| - 1 ==> items[..|items| - 1][i] == items[i];
      if last.Some? && last.value != "" then rest + [last.value] else rest
  }

  /** `compact` works hit by hit: for two runs of hits it gives the urls of
      the first, then those of the second. */
  lemma {:induction false} CompactUrlsAppend(a: seq<Item>, b: seq<Item>)
    ensures CompactUrls(a + b) == CompactUrls(a) + CompactUrls(b)
    decreases |b|
  {
    if |b| == 0 {
      assert a + b == a;
    } else {
      var init := b[..|b| - 1];
      assert (a + b)[..|a + b| - 1] == a + init;
      assert (a + b)[|a + b| - 1] == b[|b| - 1];
      CompactUrlsAppend(a, init);
    }
  }

  /** One hit gives its url when it has a non-empty one, and nothing
      otherwise. */
  lemma CompactUrlsSingle(item: Item)
    ensures CompactUrls([item]) == if item.url.Some? && item.url.value != "" then [item.url.value] else []
  {
    assert [item][..0] == [];
  }

  // ---------------------------------------------------------------------
  // The progress record
  // ---------------------------------------------------------------------

  datatype ResearchProgress = ResearchProgress(
    currentDepth: int,
    totalDepth: int,
    currentBreadth: int,
    totalBreadth: int,
    currentQuery: Option<string>,
    totalQueries: int,
    completedQueries: int)

  /** A `Partial<ResearchProgress>`: `None` is a field the update does not
      carry. A carried `currentQuery` may itself be undefined. */
  datatype ProgressUpdate = ProgressUpdate(
    currentDepth: Option<int>,
    totalDepth: Option<int>,
    currentBreadth: Option<int>,
    totalBreadth: Option<int>,
    currentQuery: Option<Option<string>>,
    totalQueries: Option<int>,
    completedQueries: Option<int>)

  const NoUpdate := ProgressUpdate(None, None, None, None, None, None, None)

  /** `Object.assign(progress, update)`. */
  function Assign(p: ResearchProgress, u: ProgressUpdate): ResearchProgress {
    ResearchProgress(
      u.currentDepth.GetOr(p.currentDepth),
      u.totalDepth.GetOr(p.totalDepth),
      u.currentBreadth.GetOr(p.currentBreadth),
      u.totalBreadth.GetOr(p.totalBreadth),
      u.currentQuery.GetOr(p.currentQuery),
      u.totalQueries.GetOr(p.totalQueries),
      u.completedQueries.GetOr(p.completedQueries))
  }

  function Later<T>(a: Option<T>, b: Option<T>): Option<T> {
    if b.Some? then b else a
  }

  /** `{...u, ...v}`: the fields of `v` win. */
  function Merge(u: ProgressUpdate, v: ProgressUpdate): ProgressUpdate {
    ProgressUpdate(
      Later(u.currentDepth, v.currentDepth),
      Later(u.totalDepth, v.totalDepth),
      Later(u.currentBreadth, v.currentBreadth),
      Later(u.totalBreadth, v.totalBreadth),
      Later(u.currentQuery, v.currentQuery),
      Later(u.totalQueries, v.totalQueries),
      Later(u.completedQueries, v.completedQueries))
  }

  /** An update carrying no field changes nothing, assigning the same update
      twice is assigning it once, and two assignments in a row are one
      assignment of the merged update. */
  lemma AssignLaws(p: ResearchProgress, u: ProgressUpdate, v: ProgressUpdate)
    ensures Assign(p, NoUpdate) == p
    ensures Assign(Assign(p, u), u) == Assign(p, u)
    ensures Assign(Assign(p, u), v) == Assign(p, Merge(u, v))
  {
  }

  /** An update sets exactly the fields it carries and leaves every other
      field as it was. */
  lemma AssignOverwritesExactly(p: ResearchProgress, u: ProgressUpdate)
    ensures Assign(p, u).currentDepth == if u.currentDepth.Some? then u.currentDepth.value else p.currentDepth
    ensures Assign(p, u).totalDepth == if u.totalDepth.Some? then u.totalDepth.value else p.totalDepth
    ensures Assign(p, u).currentBreadth == if u.currentBreadth.Some? then u.currentBreadth.value else p.currentBreadth
    ensures Assign(p, u).totalBreadth == if u.totalBreadth.Some? then u.totalBreadth.value else p.totalBreadth
    ensures Assign(p, u).currentQuery == if u.currentQuery.Some? then u.currentQuery.value else p.currentQuery
    ensures Assign(p, u).totalQueries == if u.totalQueries.Some? then u.totalQueries.value else p.totalQueries
    ensures Assign(p, u).completedQueries == if u.completedQueries.Some? then u.completedQueries.value else p.completedQueries
  {
  }

  /** The record a call starts from. */
  function InitialProgress(depth: int, breadth: int): ResearchProgress {
    ResearchProgress(1, depth, 1, breadth, None, 0, 0)
  }

  /** The update sent once the sub-queries are known. */
  function FirstUpdate(qs: seq<SerpQuery>): ProgressUpdate {
    ProgressUpdate(Some(1), None, Some(1), None,
      Some(if |qs| > 0 then Some(qs[0].query) else None), Some(|qs|), None)
  }

  /** The update sent before a branch goes one level deeper. */
  function DeeperUpdate(newDepth: int, newBreadth: int, query: string): ProgressUpdate {
    ProgressUpdate(Some(Max(1, newDepth)), None, Some(Max(1, newBreadth)), None,
      Some(Some(query)), None, None)
  }

  /** `{...deepProgress, currentQuery: query}`: every field of the child's
      record, with the parent's sub-query. */
  function RelayUpdate(e: ResearchProgress, query: string): ProgressUpdate {
    ProgressUpdate(Some(e.currentDepth), Some(e.totalDepth), Some(e.currentBreadth),
      Some(e.totalBreadth), Some(Some(query)), Some(e.totalQueries), Some(e.completedQueries))
  }

  /** The update of a branch's `finally`. */
  function CompletedUpdate(p: ResearchProgress): ProgressUpdate {
    NoUpdate.(completedQueries := Some(p.completedQueries + 1))
  }

  /** A child's record relabelled with the parent's sub-query. */
  function Relabel(e: ResearchProgress, query: string): ResearchProgress {
    e.(currentQuery := Some(query))
  }

  function Relabelled(es: seq<ResearchProgress>, query: string): (r: seq<ResearchProgress>)
    ensures |r| == |es|
  {
    seq(|es|, i requires 0 <= i < |es| => Relabel(es[i], query))
  }

  /** A relayed snapshot replaces the parent's whole record, whatever it
      held before, apart from the sub-query label. */
  lemma RelayReplacesRecord(p: ResearchProgress, e: ResearchProgress, query: string)
    ensures Assign(p, RelayUpdate(e, query)) == Relabel(e, query)
    ensures Assign(p, RelayUpdate(e, query)).currentQuery == Some(query)
  {
  }

  // ---------------------------------------------------------------------
  // The Sources section of the report
  // ---------------------------------------------------------------------

  function SourcesHeading(lang: string): string {
    if lang == "ru" then "## Источники" else "## Sources"
  }

  function SourceLines(urls: seq<string>): (lines: seq<string>)
    ensures |lines| == |urls|
  {
    seq(|urls|, i requires 0 <= i < |urls| => "- " + urls[i])
  }

  /** `\n\n${urlsHeading}\n\n${urls.map(url => `- ${url}`).join('\n')}` */
  function SourcesSection(lang: string, urls: seq<string>): string {
    "\n\n" + SourcesHeading(lang) + "\n\n" + Join("\n", SourceLines(urls))
  }

  /** `writeFinalReport`: the model's markdown followed by the Sources
      section, in the given language or, without one, the prompt's. */
  function WriteFinalReport(o: Oracles, prompt: string, learnings: seq<string>,
                            urls: seq<string>, language: string): Option<string>
  {
    var lang := ResolveLanguage(language, prompt);
    match o.report(prompt, learnings, lang)
    case None => None
    case Some(markdown) => Some(markdown + SourcesSection(lang, urls))
  }

  /** The Russian heading is used exactly for "ru"; without a language the
      prompt's detected language decides. */
  lemma ReportHeading(o: Oracles, prompt: string, learnings: seq<string>, urls: seq<string>, language: string)
    requires o.report(prompt, learnings, ResolveLanguage(language, prompt)).Some?
    ensures var lang := ResolveLanguage(language, prompt);
      && WriteFinalReport(o, prompt, learnings, urls, language)
         == Some(o.report(prompt, learnings, lang).value + SourcesSection(lang, urls))
      && (SourcesHeading(lang) == "## Источники" <==> lang == "ru")
    ensures language == "" ==>
      (SourcesHeading(ResolveLanguage(language, prompt)) == "## Источники"
       <==> LanguageDetector.DetectLanguage(prompt) == "ru")
  {
  }

  /** The url list reads back line by line: split at line breaks, each line
      is "- " and one visited url, in order. */
  lemma SourceLinesRoundTrip(urls: seq<string>)
    requires |urls| >= 1
    requires forall i :: 0 <= i < |urls| ==> '\n' !in urls[i]
    ensures var lines := Split(Join("\n", SourceLines(urls)), '\n');
      && |lines| == |urls|
      && forall i :: 0 <= i < |urls| ==> |lines[i]| >= 2 && lines[i][..2] == "- " && lines[i][2..] == urls[i]
  {
    var lines := SourceLines(urls);
    forall i | 0 <= i < |lines| ensures '\n' !in lines[i] {
      assert lines[i] == "- " + urls[i];
    }
    assert "\n" == ['\n'];
    SplitJoin(lines, '\n');
  }

  // ---------------------------------------------------------------------
  // The recursion
  // ---------------------------------------------------------------------

  /** What a call returns (None when it rejects) and the progress records it
      hands to its `onProgress` callback, in order. */
  datatype Outcome = Outcome(result: Option<ResearchResult>, trace: seq<ResearchProgress>)

  /** What one branch returns, the records it reports and the progress
      record it leaves behind. */
  datatype BranchOutcome = BranchOutcome(result: ResearchResult, trace: seq<ResearchProgress>,
                                         progress: ResearchProgress)

  datatype FoldOutcome = FoldOutcome(results: seq<ResearchResult>, trace: seq<ResearchProgress>,
                                     progress: ResearchProgress)

  /** `deepResearch({query, breadth, depth, learnings, visitedUrls, language})`. */
  function Run(o: Oracles, query: string, breadth: int, depth: int,
               learnings: seq<string>, urls: seq<string>, language: string): Outcome
    decreases depth, 1, 0
  {
    var lang := ResolveLanguage(language, query);
    match o.plan(query, breadth, learnings, lang)
    case None => Outcome(None, [])
    case Some(planned) =>
      var qs := SliceTo(planned, breadth);
      var start := Assign(InitialProgress(depth, breadth), FirstUpdate(qs));
      var fold := Branches(o, qs, breadth, depth, learnings, urls, lang, start);
      var r := Deduplicated(Combine(fold.results));
      var trace := [start] + fold.trace;
      match WriteFinalReport(o, query, r.learnings, r.visitedUrls, lang)
      case None => Outcome(None, trace)
      case Some(_) => Outcome(Some(r), trace)
  }

  /** The branches in sub-query order (what `Promise.all` returns), each
      starting from the progress record the previous one left. */
  function Branches(o: Oracles, qs: seq<SerpQuery>, breadth: int, depth: int,
                    learnings: seq<string>, urls: seq<string>, lang: string,
                    p: ResearchProgress): (f: FoldOutcome)
    decreases depth, 0, |qs|
    ensures |f.results| == |qs|
  {
    if |qs| == 0 then FoldOutcome([], [], p)
    else
      var prev := Branches(o, qs[..|qs| - 1], breadth, depth, learnings, urls, lang, p);
      var b := Branch(o, qs[|qs| - 1], breadth, depth, learnings, urls, lang, prev.progress);
      FoldOutcome(prev.results + [b.result], prev.trace + b.trace, b.progress)
  }

  /** One sub-query: search, extract, and go deeper while depth remains; a
      thrown error in any step falls back to the inherited learnings and
      urls. The `finally` counts the sub-query as completed. */
  function Branch(o: Oracles, sq: SerpQuery, breadth: int, depth: int,
                  learnings: seq<string>, urls: seq<string>, lang: string,
                  p: ResearchProgress): BranchOutcome
    decreases depth, 0, 0
  {
    var fallback := ResearchResult(learnings, urls);
    match o.search(sq.query)
    case None => Finish(fallback, [], p)
    case Some(items) =>
      var newBreadth := CeilHalf(breadth);
      var newDepth := depth - 1;
      match o.extract(sq.query, items, newBreadth, lang)
      case None => Finish(fallback, [], p)
      case Some(extracted) =>
        var found := ResearchResult(learnings + extracted, urls + CompactUrls(items));
        if newDepth > 0 then
          var deeper := Assign(p, DeeperUpdate(newDepth, newBreadth, sq.query));
          Descend(fallback, found, sq.query, deeper,
                  Run(o, sq.query, newBreadth, newDepth, found.learnings, found.visitedUrls, lang))
        else
          Finish(found, [], p)
  }

  /** The rest of a branch once its child call is over: the child's result
      is appended to what the branch found, or the branch falls back when
      the child threw; the child's records are relayed with the
      sub-query. */
  function Descend(fallback: ResearchResult, found: ResearchResult, query: string,
                   deeper: ResearchProgress, child: Outcome): BranchOutcome
  {
    var relayed := Relabelled(child.trace, query);
    var last := if |relayed| == 0 then deeper else relayed[|relayed| - 1];
    var merged :=
      if child.result.Some? then
        ResearchResult(found.learnings + child.result.value.learnings,
                       found.visitedUrls + child.result.value.visitedUrls)
      else fallback;
    Finish(merged, [deeper] + relayed, last)
  }

  /** The `finally` of a branch. */
  function Finish(r: ResearchResult, trace: seq<ResearchProgress>, p: ResearchProgress): (b: BranchOutcome)
    ensures b.progress.completedQueries == p.completedQueries + 1
  {
    var done := Assign(p, CompletedUpdate(p));
    BranchOutcome(r, trace + [done], done)
  }

  /** The `reduce` over the branch results: concatenation in order. */
  function Combine(rs: seq<ResearchResult>): ResearchResult {
    if |rs| == 0 then ResearchResult([], [])
    else
      var acc := Combine(rs[..|rs| - 1]);
      ResearchResult(acc.learnings + rs[|rs| - 1].learnings,
                     acc.visitedUrls + rs[|rs| - 1].visitedUrls)
  }

  /** `[...new Set(..)]` on both lists. */
  function Deduplicated(r: ResearchResult): ResearchResult {
    ResearchResult(Dedup(r.learnings), Dedup(r.visitedUrls))
  }

  /** The result of a call, without its progress records. */
  function DeepResearch(o: Oracles, query: string, breadth: int, depth: int,
                        learnings: seq<string>, urls: seq<string>, language: string): Option<ResearchResult>
  {
    Run(o, query, breadth, depth, learnings, urls, language).result
  }

  // ---------------------------------------------------------------------
  // Properties of a branch
  // ---------------------------------------------------------------------

  /** A branch's result starts with the inherited learnings and urls: a
      failing branch returns exactly them, a successful one extends them. */
  lemma BranchExtendsInherited(o: Oracles, sq: SerpQuery, breadth: int, depth: int,
                               learnings: seq<string>, urls: seq<string>, lang: string, p: ResearchProgress)
    ensures var r := Branch(o, sq, breadth, depth, learnings, urls, lang, p).result;
      && |learnings| <= |r.learnings| && r.learnings[..|learnings|] == learnings
      && |urls| <= |r.visitedUrls| && r.visitedUrls[..|urls|] == urls
  {
    var r := Branch(o, sq, breadth, depth, learnings, urls, lang, p).result;
    if o.search(sq.query).Some? {
      var items := o.search(sq.query).value;
      var extracted := o.extract(sq.query, items, CeilHalf(breadth), lang);
      if extracted.Some? {
        var allLearnings := learnings + extracted.value;
        var allUrls := urls + CompactUrls(items);
        assert allLearnings[..|learnings|] == learnings;
        assert allUrls[..|urls|] == urls;
        var child := Run(o, sq.query, CeilHalf(breadth), depth - 1, allLearnings, allUrls, lang);
        if depth - 1 > 0 && child.result.Some? {
          assert r.learnings == allLearnings + child.result.value.learnings;
          assert r.learnings[..|learnings|] == allLearnings[..|learnings|];
          assert r.visitedUrls[..|urls|] == allUrls[..|urls|];
        }
      }
    }
  }

  /** When the search or the extraction throws, the branch returns the
      inherited learnings and urls unchanged. */
  lemma BranchFails(o: Oracles, sq: SerpQuery, breadth: int, depth: int,
                    learnings: seq<string>, urls: seq<string>, lang: string, p: ResearchProgress)
    requires o.search(sq.query).None?
      || o.extract(sq.query, o.search(sq.query).value, CeilHalf(breadth), lang).None?
    ensures Branch(o, sq, breadth, depth, learnings, urls, lang, p).result == ResearchResult(learnings, urls)
  {
  }

  /** A successful branch appends what it extracted and found: at the last
      level that is all, one level up it also appends the child's result,
      or falls back to the inherited lists when the child call throws. */
  lemma BranchSucceeds(o: Oracles, sq: SerpQuery, breadth: int, depth: int,
                       learnings: seq<string>, urls: seq<string>, lang: string, p: ResearchProgress,
                       items: seq<Item>, extracted: seq<string>)
    requires o.search(sq.query) == Some(items)
    requires o.extract(sq.query, items, CeilHalf(breadth), lang) == Some(extracted)
    ensures depth - 1 <= 0 ==>
      Branch(o, sq, breadth, depth, learnings, urls, lang, p).result
        == ResearchResult(learnings + extracted, urls + CompactUrls(items))
    ensures depth - 1 > 0 ==>
      var child := DeepResearch(o, sq.query, CeilHalf(breadth), depth - 1,
                                learnings + extracted, urls + CompactUrls(items), lang);
      Branch(o, sq, breadth, depth, learnings, urls, lang, p).result
        == if child.Some? then
             ResearchResult(learnings + extracted + child.value.learnings,
                            urls + CompactUrls(items) + child.value.visitedUrls)
           else ResearchResult(learnings, urls)
  {
  }

  /** The progress record a branch starts from affects only what it
      reports, never what it returns. */
  lemma BranchIgnoresProgress(o: Oracles, sq: SerpQuery, breadth: int, depth: int,
                              learnings: seq<string>, urls: seq<string>, lang: string,
                              p: ResearchProgress, q: ResearchProgress)
    ensures Branch(o, sq, breadth, depth, learnings, urls, lang, p).result
         == Branch(o, sq, breadth, depth, learnings, urls, lang, q).result
  {
  }

  /** The i-th result of the fold is the i-th sub-query's own branch result:
      one branch's failure leaves the others' results as they are. */
  lemma {:induction false} BranchesIndependent(o: Oracles, qs: seq<SerpQuery>, breadth: int, depth: int,
                                              learnings: seq<string>, urls: seq<string>, lang: string,
                                              p: ResearchProgress)
    ensures forall i, q :: 0 <= i < |qs| ==>
      Branches(o, qs, breadth, depth, learnings, urls, lang, p).results[i]
        == Branch(o, qs[i], breadth, depth, learnings, urls, lang, q).result
  {
    if |qs| > 0 {
      var init := qs[..|qs| - 1];
      var prev := Branches(o, init, breadth, depth, learnings, urls, lang, p);
      BranchesIndependent(o, init, breadth, depth, learnings, urls, lang, p);
      forall i, q | 0 <= i < |qs|
        ensures Branches(o, qs, breadth, depth, learnings, urls, lang, p).results[i]
          == Branch(o, qs[i], breadth, depth, learnings, urls, lang, q).result
      {
        if i < |qs| - 1 {
          assert init[i] == qs[i];
        } else {
          BranchIgnoresProgress(o, qs[i], breadth, depth, learnings, urls, lang, prev.progress, q);
        }
      }
    }
  }

  // ---------------------------------------------------------------------
  // Properties of a call's result
  // ---------------------------------------------------------------------

  /** The fold holds exactly the values of the branch results. */
  lemma {:induction false} CombineMembers(rs: seq<ResearchResult>)
    ensures forall x :: x in Combine(rs).learnings <==> exists i :: 0 <= i < |rs| && x in rs[i].learnings
    ensures forall u :: u in Combine(rs).visitedUrls <==> exists i :: 0 <= i < |rs| && u in rs[i].visitedUrls
  {
    if |rs| > 0 {
      var init := rs[..|rs| - 1];
      CombineMembers(init);
      assert forall i :: 0 <= i < |init| ==> init[i] == rs[i];
    }
  }

  /** The sub-queries a call works on, once its planner has answered. */
  function SubQueries(o: Oracles, query: string, breadth: int, learnings: seq<string>, language: string): (qs: seq<SerpQuery>)
    requires o.plan(query, breadth, learnings, ResolveLanguage(language, query)).Some?
    ensures breadth >= 0 ==> |qs| <= breadth
  {
    SliceTo(o.plan(query, breadth, learnings, ResolveLanguage(language, query)).value, breadth)
  }

  /** A call succeeds exactly when its planner and its report succeed, and
      then returns the de-duplicated fold of its branches. */
  lemma RunSucceeds(o: Oracles, query: string, breadth: int, depth: int,
                    learnings: seq<string>, urls: seq<string>, language: string)
    ensures DeepResearch(o, query, breadth, depth, learnings, urls, language).Some? ==>
      o.plan(query, breadth, learnings, ResolveLanguage(language, query)).Some?
    ensures o.plan(query, breadth, learnings, ResolveLanguage(language, query)).None? ==>
      Run(o, query, breadth, depth, learnings, urls, language) == Outcome(None, [])
    ensures o.plan(query, breadth, learnings, ResolveLanguage(language, query)).Some? ==>
      var lang := ResolveLanguage(language, query);
      var qs := SubQueries(o, query, breadth, learnings, language);
      var first := Assign(InitialProgress(depth, breadth), FirstUpdate(qs));
      var r := Deduplicated(Combine(Branches(o, qs, breadth, depth, learnings, urls, lang, first).results));
      DeepResearch(o, query, breadth, depth, learnings, urls, language)
        == if o.report(query, r.learnings, lang).Some? then Some(r) else None
  {
  }

  /** A successful call returns the de-duplicated fold of its branches. */
  lemma RunUnfold(o: Oracles, query: string, breadth: int, depth: int,
                  learnings: seq<string>, urls: seq<string>, language: string)
    requires DeepResearch(o, query, breadth, depth, learnings, urls, language).Some?
    ensures o.plan(query, breadth, learnings, ResolveLanguage(language, query)).Some?
    ensures var qs := SubQueries(o, query, breadth, learnings, language);
      var first := Assign(InitialProgress(depth, breadth), FirstUpdate(qs));
      var fold := Branches(o, qs, breadth, depth, learnings, urls, ResolveLanguage(language, query), first);
      DeepResearch(o, query, breadth, depth, learnings, urls, language).value == Deduplicated(Combine(fold.results))
  {
  }

  /** The fold holds exactly the values of the sub-queries' own branch
      results. */
  lemma FoldMembers(o: Oracles, qs: seq<SerpQuery>, breadth: int, depth: int,
                    learnings: seq<string>, urls: seq<string>, lang: string,
                    p: ResearchProgress, q: ResearchProgress)
    ensures var all := Combine(Branches(o, qs, breadth, depth, learnings, urls, lang, p).results);
      && (forall x :: x in all.learnings <==>
            exists i :: 0 <= i < |qs| && x in Branch(o, qs[i], breadth, depth, learnings, urls, lang, q).result.learnings)
      && (forall u :: u in all.visitedUrls <==>
            exists i :: 0 <= i < |qs| && u in Branch(o, qs[i], breadth, depth, learnings, urls, lang, q).result.visitedUrls)
  {
    var fold := Branches(o, qs, breadth, depth, learnings, urls, lang, p);
    CombineMembers(fold.results);
    BranchesIndependent(o, qs, breadth, depth, learnings, urls, lang, p);
    assert forall i :: 0 <= i < |qs| ==>
      fold.results[i] == Branch(o, qs[i], breadth, depth, learnings, urls, lang, q).result;
  }

  /** A call's result lists every learning and url of its branch results
      once, and nothing else; de-duplicating it again changes nothing. */
  lemma RunResult(o: Oracles, query: string, breadth: int, depth: int,
                  learnings: seq<string>, urls: seq<string>, language: string)
    requires DeepResearch(o, query, breadth, depth, learnings, urls, language).Some?
    ensures o.plan(query, breadth, learnings, ResolveLanguage(language, query)).Some?
    ensures var r := DeepResearch(o, query, breadth, depth, learnings, urls, language).value;
      var qs := SubQueries(o, query, breadth, learnings, language);
      var lang := ResolveLanguage(language, query);
      var start := InitialProgress(depth, breadth);
      && Distinct(r.learnings) && Distinct(r.visitedUrls)
      && Dedup(r.learnings) == r.learnings && Dedup(r.visitedUrls) == r.visitedUrls
      && (forall x :: x in r.learnings <==>
            exists i :: 0 <= i < |qs| && x in Branch(o, qs[i], breadth, depth, learnings, urls, lang, start).result.learnings)
      && (forall u :: u in r.visitedUrls <==>
            exists i :: 0 <= i < |qs| && u in Branch(o, qs[i], breadth, depth, learnings, urls, lang, start).result.visitedUrls)
  {
    RunUnfold(o, query, breadth, depth, learnings, urls, language);
    var qs := SubQueries(o, query, breadth, learnings, language);
    var lang := ResolveLanguage(language, query);
    var first := Assign(InitialProgress(depth, breadth), FirstUpdate(qs));
    var all := Combine(Branches(o, qs, breadth, depth, learnings, urls, lang, first).results);
    DedupDistinct(all.learnings);
    DedupDistinct(all.visitedUrls);
    DedupIdempotent(all.learnings);
    DedupIdempotent(all.visitedUrls);
    DedupSameElements(all.learnings);
    DedupSameElements(all.visitedUrls);
    FoldMembers(o, qs, breadth, depth, learnings, urls, lang, first, InitialProgress(depth, breadth));
  }

  /** When at least one sub-query was planned, the inherited learnings and
      urls all survive into the result. */
  lemma InheritedKept(o: Oracles, query: string, breadth: int, depth: int,
                      learnings: seq<string>, urls: seq<string>, language: string)
    requires DeepResearch(o, query, breadth, depth, learnings, urls, language).Some?
    requires o.plan(query, breadth, learnings, ResolveLanguage(language, query)).Some?
    requires |SubQueries(o, query, breadth, learnings, language)| >= 1
    ensures var r := DeepResearch(o, query, breadth, depth, learnings, urls, language).value;
      && (forall x :: x in learnings ==> x in r.learnings)
      && (forall u :: u in urls ==> u in r.visitedUrls)
  {
    var r := DeepResearch(o, query, breadth, depth, learnings, urls, language).value;
    var qs := SubQueries(o, query, breadth, learnings, language);
    var lang := ResolveLanguage(language, query);
    var start := InitialProgress(depth, breadth);
    RunResult(o, query, breadth, depth, learnings, urls, language);
    var b := Branch(o, qs[0], breadth, depth, learnings, urls, lang, start).result;
    BranchExtendsInherited(o, qs[0], breadth, depth, learnings, urls, lang, start);
    forall x | x in learnings ensures x in r.learnings {
      var k :| 0 <= k < |learnings| && learnings[k] == x;
      assert b.learnings[k] == b.learnings[..|learnings|][k];
    }
    forall u | u in urls ensures u in r.visitedUrls {
      var k :| 0 <= k < |urls| && urls[k] == u;
      assert b.visitedUrls[k] == b.visitedUrls[..|urls|][k];
    }
  }

  /** With no sub-query (the planner returned none, or the breadth is 0)
      the result is empty: the inherited learnings and urls are dropped. */
  lemma EmptyPlanDropsInherited(o: Oracles, query: string, breadth: int, depth: int,
                                learnings: seq<string>, urls: seq<string>, language: string)
    requires DeepResearch(o, query, breadth, depth, learnings, urls, language).Some?
    requires o.plan(query, breadth, learnings, ResolveLanguage(language, query)).Some?
    requires |SubQueries(o, query, breadth, learnings, language)| == 0
    ensures DeepResearch(o, query, breadth, depth, learnings, urls, language) == Some(ResearchResult([], []))
  {
  }

  /** Breadth 0 plans no sub-query at all. */
  lemma ZeroBreadthPlansNothing(o: Oracles, query: string, learnings: seq<string>, language: string)
    requires o.plan(query, 0, learnings, ResolveLanguage(language, query)).Some?
    ensures SubQueries(o, query, 0, learnings, language) == []
  {
  }

  // ---------------------------------------------------------------------
  // Provenance
  // ---------------------------------------------------------------------

  /** `x` is among the learnings extracted for the search hits of `query`. */
  ghost predicate ExtractedBy(o: Oracles, query: string, numFollowUps: int, lang: string, x: string) {
    && o.search(query).Some?
    && o.extract(query, o.search(query).value, numFollowUps, lang).Some?
    && x in o.extract(query, o.search(query).value, numFollowUps, lang).value
  }

  /** `u` is a url among the search hits of `query`. */
  ghost predicate FetchedBy(o: Oracles, query: string, u: string) {
    o.search(query).Some? && u in CompactUrls(o.search(query).value)
  }

  /** The searches a call and its children make, as pairs of a sub-query
      and the follow-up count passed to its extraction: one per planned
      sub-query, and those of the child call of every branch whose search
      and extraction succeeded while depth remains. */
  ghost function Searches(o: Oracles, query: string, breadth: int, depth: int,
                          learnings: seq<string>, urls: seq<string>, language: string): set<(string, int)>
    decreases depth, 1
  {
    var lang := ResolveLanguage(language, query);
    match o.plan(query, breadth, learnings, lang)
    case None => {}
    case Some(planned) =>
      var qs := SliceTo(planned, breadth);
      set i, p | 0 <= i < |qs| && p in BranchSearches(o, qs[i], breadth, depth, learnings, urls, lang) :: p
  }

  /** The searches of one branch: its own, then its child call's. */
  ghost function BranchSearches(o: Oracles, sq: SerpQuery, breadth: int, depth: int,
                                learnings: seq<string>, urls: seq<string>, lang: string): set<(string, int)>
    decreases depth, 0
  {
    var newBreadth := CeilHalf(breadth);
    var here := {(sq.query, newBreadth)};
    match o.search(sq.query)
    case None => here
    case Some(items) =>
      match o.extract(sq.query, items, newBreadth, lang)
      case None => here
      case Some(extracted) =>
        if depth - 1 > 0 then
          here + Searches(o, sq.query, newBreadth, depth - 1, learnings + extracted, urls + CompactUrls(items), lang)
        else here
  }

  /** Every planned sub-query of a call is searched, with half the breadth
      as its follow-up count. */
  lemma SearchesPlanned(o: Oracles, query: string, breadth: int, depth: int,
                        learnings: seq<string>, urls: seq<string>, language: string)
    requires o.plan(query, breadth, learnings, ResolveLanguage(language, query)).Some?
    ensures var qs := SubQueries(o, query, breadth, learnings, language);
      forall i :: 0 <= i < |qs| ==>
        (qs[i].query, CeilHalf(breadth)) in Searches(o, query, breadth, depth, learnings, urls, language)
  {
    var qs := SubQueries(o, query, breadth, learnings, language);
    var lang := ResolveLanguage(language, query);
    forall i | 0 <= i < |qs|
      ensures (qs[i].query, CeilHalf(breadth)) in Searches(o, query, breadth, depth, learnings, urls, language)
    {
      assert (qs[i].query, CeilHalf(breadth)) in BranchSearches(o, qs[i], breadth, depth, learnings, urls, lang);
    }
  }

  /** Every learning of `r` is inherited or was extracted for one of the
      searches `s`, and every url is inherited or was among the hits of one
      of them. */
  ghost predicate Traceable(o: Oracles, lang: string, learnings: seq<string>, urls: seq<string>,
                            s: set<(string, int)>, r: ResearchResult) {
    && (forall x :: x in r.learnings ==>
          x in learnings || exists q :: q in s && ExtractedBy(o, q.0, q.1, lang, x))
    && (forall u :: u in r.visitedUrls ==>
          u in urls || exists q :: q in s && FetchedBy(o, q.0, u))
  }

  lemma TraceableMonotone(o: Oracles, lang: string, learnings: seq<string>, urls: seq<string>,
                          s: set<(string, int)>, t: set<(string, int)>, r: ResearchResult)
    requires s <= t && Traceable(o, lang, learnings, urls, s, r)
    ensures Traceable(o, lang, learnings, urls, t, r)
  {
  }

  /** Nothing in a call's result is invented: each learning and url comes
      from the inherited lists or from a successful search and extraction
      that the call or one of its children made, all in the call's
      language. */
  lemma {:induction false} RunProvenance(o: Oracles, query: string, breadth: int, depth: int,
                                         learnings: seq<string>, urls: seq<string>, language: string)
    requires DeepResearch(o, query, breadth, depth, learnings, urls, language).Some?
    ensures Traceable(o, ResolveLanguage(language, query), learnings, urls,
                      Searches(o, query, breadth, depth, learnings, urls, language),
                      DeepResearch(o, query, breadth, depth, learnings, urls, language).value)
    decreases depth, 1, 0
  {
    RunUnfold(o, query, breadth, depth, learnings, urls, language);
    var lang := ResolveLanguage(language, query);
    var qs := SubQueries(o, query, breadth, learnings, language);
    var first := Assign(InitialProgress(depth, breadth), FirstUpdate(qs));
    var fold := Branches(o, qs, breadth, depth, learnings, urls, lang, first);
    var all := Combine(fold.results);
    var s := Searches(o, query, breadth, depth, learnings, urls, language);
    BranchesProvenance(o, qs, breadth, depth, learnings, urls, lang, first);
    forall i | 0 <= i < |qs| ensures Traceable(o, lang, learnings, urls, s, fold.results[i]) {
      var b := BranchSearches(o, qs[i], breadth, depth, learnings, urls, lang);
      assert b <= s;
      TraceableMonotone(o, lang, learnings, urls, b, s, fold.results[i]);
    }
    DedupSameElements(all.learnings);
    DedupSameElements(all.visitedUrls);
    CombineMembers(fold.results);
  }

  lemma {:induction false} BranchesProvenance(o: Oracles, qs: seq<SerpQuery>, breadth: int, depth: int,
                                             learnings: seq<string>, urls: seq<string>, lang: string,
                                             p: ResearchProgress)
    requires lang != ""
    ensures forall i :: 0 <= i < |qs| ==>
      Traceable(o, lang, learnings, urls, BranchSearches(o, qs[i], breadth, depth, learnings, urls, lang),
                Branches(o, qs, breadth, depth, learnings, urls, lang, p).results[i])
    decreases depth, 0, |qs|
  {
    if |qs| > 0 {
      var init := qs[..|qs| - 1];
      var last := qs[|qs| - 1];
      var prev := Branches(o, init, breadth, depth, learnings, urls, lang, p);
      var b := Branch(o, last, breadth, depth, learnings, urls, lang, prev.progress);
      var results := Branches(o, qs, breadth, depth, learnings, urls, lang, p).results;
      assert results == prev.results + [b.result];
      BranchesProvenance(o, init, breadth, depth, learnings, urls, lang, p);
      BranchProvenance(o, last, breadth, depth, learnings, urls, lang, prev.progress);
      forall i | 0 <= i < |qs|
        ensures Traceable(o, lang, learnings, urls, BranchSearches(o, qs[i], breadth, depth, learnings, urls, lang),
                          results[i])
      {
        if i < |init| {
          assert qs[i] == init[i] && results[i] == prev.results[i];
        } else {
          assert qs[i] == last && results[i] == b.result;
        }
      }
    }
  }

  lemma {:induction false} BranchProvenance(o: Oracles, sq: SerpQuery, breadth: int, depth: int,
                                           learnings: seq<string>, urls: seq<string>, lang: string,
                                           p: ResearchProgress)
    requires lang != ""
    ensures Traceable(o, lang, learnings, urls, BranchSearches(o, sq, breadth, depth, learnings, urls, lang),
                      Branch(o, sq, breadth, depth, learnings, urls, lang, p).result)
    decreases depth, 0, 0
  {
    var r := Branch(o, sq, breadth, depth, learnings, urls, lang, p).result;
    var s := BranchSearches(o, sq, breadth, depth, learnings, urls, lang);
    var newBreadth := CeilHalf(breadth);
    var here := (sq.query, newBreadth);
    assert here in s;
    if o.search(sq.query).Some? {
      var items := o.search(sq.query).value;
      if o.extract(sq.query, items, newBreadth, lang).Some? {
        var extracted := o.extract(sq.query, items, newBreadth, lang).value;
        var allLearnings := learnings + extracted;
        var allUrls := urls + CompactUrls(items);
        forall x | x in allLearnings
          ensures x in learnings || exists q :: q in s && ExtractedBy(o, q.0, q.1, lang, x)
        {
          if x !in learnings {
            assert ExtractedBy(o, here.0, here.1, lang, x);
          }
        }
        forall u | u in allUrls
          ensures u in urls || exists q :: q in s && FetchedBy(o, q.0, u)
        {
          if u !in urls {
            assert FetchedBy(o, here.0, u);
          }
        }
        if depth - 1 > 0 {
          var child := DeepResearch(o, sq.query, newBreadth, depth - 1, allLearnings, allUrls, lang);
          if child.Some? {
            var cs := Searches(o, sq.query, newBreadth, depth - 1, allLearnings, allUrls, lang);
            RunProvenance(o, sq.query, newBreadth, depth - 1, allLearnings, allUrls, lang);
            assert ResolveLanguage(lang, sq.query) == lang;
            assert cs <= s;
          }
        }
      }
    }
  }

  // ---------------------------------------------------------------------
  // Properties of the progress records
  // ---------------------------------------------------------------------

  /** Every branch's `finally` counts one more completed sub-query, on
      success and on failure alike, on top of the record it leaves. */
  lemma BranchCountsCompletion(o: Oracles, sq: SerpQuery, breadth: int, depth: int,
                               learnings: seq<string>, urls: seq<string>, lang: string, p: ResearchProgress)
    ensures var b := Branch(o, sq, breadth, depth, learnings, urls, lang, p);
      && |b.trace| >= 1
      && b.trace[|b.trace| - 1] == b.progress
      && (depth - 1 <= 0 ==> b.progress == p.(completedQueries := p.completedQueries + 1) && b.trace == [b.progress])
  {
  }

  /** One level up, the child's records replace the parent's counters: the
      parent ends with the child's last record, relabelled, and one more
      completed sub-query than the child counted. */
  lemma DescendProgress(fallback: ResearchResult, found: ResearchResult, query: string,
                        deeper: ResearchProgress, child: Outcome)
    requires |child.trace| >= 1
    ensures var e := child.trace[|child.trace| - 1];
      var b := Descend(fallback, found, query, deeper, child);
      && b.progress == Relabel(e, query).(completedQueries := e.completedQueries + 1)
      && b.trace == [deeper] + Relabelled(child.trace, query) + [b.progress]
  {
  }

  /** At the last level the branches count up one by one from the record
      they start with. */
  lemma {:induction false} LeafBranchesProgress(o: Oracles, qs: seq<SerpQuery>, breadth: int, depth: int,
                                               learnings: seq<string>, urls: seq<string>, lang: string,
                                               p: ResearchProgress)
    requires depth - 1 <= 0
    ensures var f := Branches(o, qs, breadth, depth, learnings, urls, lang, p);
      && f.progress == p.(completedQueries := p.completedQueries + |qs|)
      && |f.trace| == |qs|
      && forall i :: 0 <= i < |qs| ==> f.trace[i] == p.(completedQueries := p.completedQueries + i + 1)
  {
    if |qs| > 0 {
      var init := qs[..|qs| - 1];
      var prev := Branches(o, init, breadth, depth, learnings, urls, lang, p);
      LeafBranchesProgress(o, init, breadth, depth, learnings, urls, lang, p);
      BranchCountsCompletion(o, qs[|qs| - 1], breadth, depth, learnings, urls, lang, prev.progress);
    }
  }

  /** A call at the last level reports `totalQueries` sub-queries and counts
      `completedQueries` from 0 up to that total, one record per step. */
  lemma LeafRunProgress(o: Oracles, query: string, breadth: int, depth: int,
                        learnings: seq<string>, urls: seq<string>, language: string)
    requires depth <= 1
    requires o.plan(query, breadth, learnings, ResolveLanguage(language, query)).Some?
    ensures var t := Run(o, query, breadth, depth, learnings, urls, language).trace;
      var n := |SubQueries(o, query, breadth, learnings, language)|;
      && |t| == n + 1
      && forall i :: 0 <= i < |t| ==> t[i].totalQueries == n && t[i].completedQueries == i
  {
    var qs := SubQueries(o, query, breadth, learnings, language);
    var lang := ResolveLanguage(language, query);
    var first := Assign(InitialProgress(depth, breadth), FirstUpdate(qs));
    LeafBranchesProgress(o, qs, breadth, depth, learnings, urls, lang, first);
  }

  // ---------------------------------------------------------------------
  // The controller, step by step
  // ---------------------------------------------------------------------

  /** The local `progress` record of a call. */
  class Progress {
    var currentDepth: int
    var totalDepth: int
    var currentBreadth: int
    var totalBreadth: int
    var currentQuery: Option<string>
    var totalQueries: int
    var completedQueries: int

    function Snapshot(): ResearchProgress
      reads this
    {
      ResearchProgress(currentDepth, totalDepth, currentBreadth, totalBreadth,
                       currentQuery, totalQueries, completedQueries)
    }

    constructor (depth: int, breadth: int)
      ensures Snapshot() == InitialProgress(depth, breadth)
    {
      currentDepth, totalDepth := 1, depth;
      currentBreadth, totalBreadth := 1, breadth;
      currentQuery := None;
      totalQueries, completedQueries := 0, 0;
    }

    /** `reportProgress(update)`: `Object.assign` of the fields the update
        carries. */
    method Report(update: ProgressUpdate)
      modifies this
      ensures Snapshot() == Assign(old(Snapshot()), update)
    {
      if update.currentDepth.Some? { currentDepth := update.currentDepth.value; }
      if update.totalDepth.Some? { totalDepth := update.totalDepth.value; }
      if update.currentBreadth.Some? { currentBreadth := update.currentBreadth.value; }
      if update.totalBreadth.Some? { totalBreadth := update.totalBreadth.value; }
      if update.currentQuery.Some? { currentQuery := update.currentQuery.value; }
      if update.totalQueries.Some? { totalQueries := update.totalQueries.value; }
      if update.completedQueries.Some? { completedQueries := update.completedQueries.value; }
    }
  }

  /** `deepResearch`: returns its result (None when it rejects) and the
      records it passed to `onProgress`, in order. */
  method Research(o: Oracles, query: string, breadth: int, depth: int,
                  learnings: seq<string>, urls: seq<string>, language: string)
    returns (r: Option<ResearchResult>, events: seq<ResearchProgress>)
    ensures Outcome(r, events) == Run(o, query, breadth, depth, learnings, urls, language)
    decreases depth, 3
  {
    var lang := ResolveLanguage(language, query);
    var planned := o.plan(query, breadth, learnings, lang);
    if planned.None? {
      return None, [];
    }
    var serpQueries := SliceTo(planned.value, breadth);
    var progress := new Progress(depth, breadth);
    progress.Report(FirstUpdate(serpQueries));
    var start := progress.Snapshot();
    var results, branchEvents := RunBranches(o, serpQueries, breadth, depth, learnings, urls, lang, progress);
    events := [start] + branchEvents;
    var result := Deduplicated(Combine(results));
    var report := WriteFinalReport(o, query, result.learnings, result.visitedUrls, lang);
    r := if report.Some? then Some(result) else None;
  }

  /** `Promise.all` over the sub-queries, taken one after the other. */
  method RunBranches(o: Oracles, serpQueries: seq<SerpQuery>, breadth: int, depth: int,
                     learnings: seq<string>, urls: seq<string>, lang: string, progress: Progress)
    returns (results: seq<ResearchResult>, events: seq<ResearchProgress>)
    modifies progress
    ensures FoldOutcome(results, events, progress.Snapshot())
      == Branches(o, serpQueries, breadth, depth, learnings, urls, lang, old(progress.Snapshot()))
    decreases depth, 2
  {
    ghost var start := progress.Snapshot();
    results, events := [], [];
    var i := 0;
    while i < |serpQueries|
      invariant 0 <= i <= |serpQueries|
      invariant FoldOutcome(results, events, progress.Snapshot())
        == Branches(o, serpQueries[..i], breadth, depth, learnings, urls, lang, start)
    {
      var res, branchEvents := RunBranch(o, serpQueries[i], breadth, depth, learnings, urls, lang, progress);
      assert serpQueries[..i + 1][..i] == serpQueries[..i];
      results := results + [res];
      events := events + branchEvents;
      i := i + 1;
    }
    assert serpQueries[..i] == serpQueries;
  }

  /** One sub-query's task, working on the caller's progress record: the
      attempt, then the `finally` that counts the sub-query as completed. */
  method RunBranch(o: Oracles, sq: SerpQuery, breadth: int, depth: int,
                   learnings: seq<string>, urls: seq<string>, lang: string, progress: Progress)
    returns (res: ResearchResult, events: seq<ResearchProgress>)
    modifies progress
    ensures BranchOutcome(res, events, progress.Snapshot())
      == Branch(o, sq, breadth, depth, learnings, urls, lang, old(progress.Snapshot()))
    decreases depth, 1
  {
    res, events := RunAttempt(o, sq, breadth, depth, learnings, urls, lang, progress);
    // finally
    progress.Report(CompletedUpdate(progress.Snapshot()));
    events := events + [progress.Snapshot()];
  }

  /** The `try` and `catch` of a sub-query: search, extract and go deeper
      while depth remains, falling back to the inherited learnings and urls
      when a step throws. Completed by its `finally`, it is the branch. */
  method RunAttempt(o: Oracles, sq: SerpQuery, breadth: int, depth: int,
                    learnings: seq<string>, urls: seq<string>, lang: string, progress: Progress)
    returns (res: ResearchResult, events: seq<ResearchProgress>)
    modifies progress
    ensures Finish(res, events, progress.Snapshot())
      == Branch(o, sq, breadth, depth, learnings, urls, lang, old(progress.Snapshot()))
    decreases depth, 0
  {
    ghost var start := progress.Snapshot();
    res := ResearchResult(learnings, urls);
    events := [];
    var searched := o.search(sq.query);
    if searched.Some? {
      var items := searched.value;
      var newUrls := CompactUrls(items);
      var newBreadth := CeilHalf(breadth);
      var newDepth := depth - 1;
      var extracted := o.extract(sq.query, items, newBreadth, lang);
      if extracted.Some? {
        var found := ResearchResult(learnings + extracted.value, urls + newUrls);
        if newDepth > 0 {
          progress.Report(DeeperUpdate(newDepth, newBreadth, sq.query));
          var deeper := progress.Snapshot();
          var child, childEvents := Research(o, sq.query, newBreadth, newDepth, found.learnings, found.visitedUrls, lang);
          var relayed := Relay(progress, childEvents, sq.query);
          events := [deeper] + relayed;
          if child.Some? {
            res := ResearchResult(found.learnings + child.value.learnings, found.visitedUrls + child.value.visitedUrls);
          }
          ghost var run := Run(o, sq.query, newBreadth, newDepth, found.learnings, found.visitedUrls, lang);
          assert child == run.result && childEvents == run.trace;
          assert progress.Snapshot() == if |relayed| == 0 then deeper else relayed[|relayed| - 1];
          assert Finish(res, events, progress.Snapshot())
            == Descend(ResearchResult(learnings, urls), found, sq.query, deeper, run);
          BranchDescends(o, sq, breadth, depth, learnings, urls, lang, start);
        } else {
          res := found;
        }
      }
    }
  }

  /** A branch whose search and extraction succeed with depth left goes on
      with its child call. */
  lemma BranchDescends(o: Oracles, sq: SerpQuery, breadth: int, depth: int,
                       learnings: seq<string>, urls: seq<string>, lang: string, p: ResearchProgress)
    requires o.search(sq.query).Some?
    requires o.extract(sq.query, o.search(sq.query).value, CeilHalf(breadth), lang).Some?
    requires depth - 1 > 0
    ensures var items := o.search(sq.query).value;
      var found := ResearchResult(learnings + o.extract(sq.query, items, CeilHalf(breadth), lang).value,
                                  urls + CompactUrls(items));
      Branch(o, sq, breadth, depth, learnings, urls, lang, p)
        == Descend(ResearchResult(learnings, urls), found, sq.query,
                   Assign(p, DeeperUpdate(depth - 1, CeilHalf(breadth), sq.query)),
                   Run(o, sq.query, CeilHalf(breadth), depth - 1, found.learnings, found.visitedUrls, lang))
  {
  }

  /** The child's `onProgress` callback, called once per child record: each
      call reports the record with the parent's sub-query. */
  method Relay(progress: Progress, childEvents: seq<ResearchProgress>, query: string)
    returns (relayed: seq<ResearchProgress>)
    modifies progress
    ensures relayed == Relabelled(childEvents, query)
    ensures progress.Snapshot()
      == if |childEvents| == 0 then old(progress.Snapshot()) else Relabel(childEvents[|childEvents| - 1], query)
  {
    relayed := [];
    var k := 0;
    while k < |childEvents|
      invariant 0 <= k <= |childEvents|
      invariant relayed == Relabelled(childEvents[..k], query)
      invariant progress.Snapshot() == if k == 0 then old(progress.Snapshot()) else Relabel(childEvents[k - 1], query)
    {
      progress.Report(RelayUpdate(childEvents[k], query));
      relayed := relayed + [progress.Snapshot()];
      k := k + 1;
    }
  }
}
