# Deep research controller, in Dafny

This project models the deterministic core of a "deep research" command-line
agent. Given a query, a breadth and a depth, the agent asks a language
model for search queries (SERP queries). For each of them it searches the
web, has the model extract learnings from the hits, and repeats one level
deeper with half the breadth while depth remains. It then folds all
learnings and visited URLs together, removes duplicates and writes a
Markdown report ending in a Sources section. Around this controller sit
three small string components, all modelled here:

- a heuristic Russian/English language detector;
- the text that describes a zod schema to the Gemini model, and the fallback
  that turns a non-JSON answer into an object;
- the session singleton and the format of log lines and log file names.

Layout, one module per source file plus shared helpers:

- `deep_research.dfy`, module `DeepResearch` (src/deep-research.ts). It has
  four parts:
  - the recursion as pure functions: `Run`, `Branches`, `Branch`, `Descend`,
    `Finish`;
  - the progress record, as a datatype with a partial-merge function
    `Assign` and as the class `Progress` with the method `Report`;
  - the Sources section of the report;
  - the controller written step by step (`Research`, `RunBranches`,
    `RunBranch`, `Relay`), each proved equal to the pure function it
    implements.
- `language_detector.dfy`, module `LanguageDetector`
  (src/language-detector.ts).
- `gemini_provider.dfy`, module `GeminiProvider` (src/ai/gemini-provider.ts).
- `logger.dfy`, module `Logger` (src/logger.ts). The stored session is the
  field of the class `SessionRegistry`.
- Shared helpers: `text.dfy` (`Text`: split, join, trim, lower-casing,
  decimal digits), `sequences.dfy` (`Sequences`: the first-occurrence
  de-duplication of `[...new Set(xs)]`) and `wrappers.dfy` (`Option`).

The language model, the search engine and prompt trimming are oracles. They
are the four function-typed fields of `DeepResearch.Oracles`, and a `None`
answer stands for a call that threw. The uuid drawn for the session and the
clock readings are parameters.

## Model

| member | source | states |
|---|---|---|
| DeepResearch.SliceTo | src/deep-research.ts:92 | `slice(0, n)` returns a prefix of the planner's list, of length min(n, length) for n >= 0, with a negative end counting from the end |
| DeepResearch.PlanTruncation | src/deep-research.ts:92 | for breadth >= 0 a call uses at most `breadth` sub-queries, a prefix of what the planner returned, and all of them when the planner returned no more than that |
| DeepResearch.ZeroBreadthPlansNothing | src/deep-research.ts:92 | breadth 0 leaves no sub-query at all |
| DeepResearch.SubQueries | src/deep-research.ts:256-261 | the sub-queries of a call never exceed a non-negative breadth |
| DeepResearch.CeilHalf | src/deep-research.ts:284 | the child breadth r is the ceiling of b/2: b <= 2r < b + 2 |
| DeepResearch.ChildBreadth | src/deep-research.ts:284 | the child breadth is at least 1 when the parent's is, at most a non-negative parent's, and smaller than a parent breadth of 2 or more |
| DeepResearch.ResolveLanguage | src/deep-research.ts:223 | the language is the given one when non-empty and otherwise the detector's verdict on the query, so it is never empty |
| DeepResearch.ResolveLanguageStable | src/deep-research.ts:313-326 | a child resolves the language its parent passes down to that same language, so the whole tree works in one language |
| DeepResearch.CompactUrls | src/deep-research.ts:283 | `compact` of the hits' urls keeps exactly the present, non-empty urls, never more than there are hits |
| DeepResearch.CompactUrlsAppend | src/deep-research.ts:283 | `compact` works hit by hit: the urls of two runs of hits are those of the first, then those of the second, so order and repetitions are kept |
| DeepResearch.CompactUrlsSingle | src/deep-research.ts:283 | one hit gives its url when it has a non-empty one, and nothing otherwise |
| DeepResearch.AssignOverwritesExactly | src/deep-research.ts:248 | `Object.assign` sets every field the update carries and leaves every other field as it was |
| DeepResearch.AssignLaws | src/deep-research.ts:248 | an empty update changes nothing, the same update twice is the same update once, and two updates in a row are their merge |
| DeepResearch.RelayReplacesRecord | src/deep-research.ts:319-324 | a relayed child record replaces the parent's whole record, whatever it held, except that the sub-query label is the parent's |
| DeepResearch.Progress.constructor | src/deep-research.ts:238-245 | a call's progress starts at depth 1 of `depth`, breadth 1 of `breadth`, no current query, 0 of 0 queries |
| DeepResearch.Progress.Report | src/deep-research.ts:247-254 | `reportProgress` leaves the record equal to the old one merged with the update |
| DeepResearch.ReportHeading | src/deep-research.ts:168-200 | the report is the model's markdown followed by the Sources section; the heading is Russian exactly for "ru", and without a language the prompt's detected language decides |
| DeepResearch.SourceLinesRoundTrip | src/deep-research.ts:199 | split at line breaks, the url list gives one "- url" line per visited url, in order (at least one url, none with a line break) |
| DeepResearch.Branches | src/deep-research.ts:272-358 | the fold yields one result per sub-query |
| DeepResearch.Finish | src/deep-research.ts:351-355 | the `finally` raises the completed count by exactly one |
| DeepResearch.BranchExtendsInherited | src/deep-research.ts:293-350 | every branch result starts with the inherited learnings and urls |
| DeepResearch.BranchFails | src/deep-research.ts:338-350 | when the search or the extraction throws, the branch returns the inherited learnings and urls unchanged |
| DeepResearch.BranchSucceeds | src/deep-research.ts:283-337 | a successful branch returns inherited ++ extracted and inherited ++ compacted urls; one level up it appends the child's result, or falls back to the inherited lists when the child throws |
| DeepResearch.BranchIgnoresProgress | src/deep-research.ts:272-358 | what a branch returns does not depend on the progress record it starts from |
| DeepResearch.BranchesIndependent | src/deep-research.ts:272-358 | the i-th result of the fold is the i-th sub-query's own branch result, so one branch's failure leaves the others' results alone |
| DeepResearch.CombineMembers | src/deep-research.ts:360-366 | the `reduce` holds exactly the learnings and urls of the branch results |
| DeepResearch.FoldMembers | src/deep-research.ts:360-366 | the folded learnings and urls are exactly those of the sub-queries' branch results |
| DeepResearch.RunUnfold | src/deep-research.ts:360-372 | a successful call returns the de-duplicated fold of its branches |
| DeepResearch.RunSucceeds | src/deep-research.ts:256-381 | a call whose planner throws rejects before reporting any progress; once the planner answers, the call succeeds exactly when the report succeeds, and returns the de-duplicated fold of its branches |
| DeepResearch.RunResult | src/deep-research.ts:360-372 | a call's result has no duplicates, is unchanged by de-duplicating again, and holds exactly the learnings and urls of its branch results |
| DeepResearch.InheritedKept | src/deep-research.ts:360-372 | with at least one sub-query, every inherited learning and url is in the result |
| DeepResearch.EmptyPlanDropsInherited | src/deep-research.ts:360-372 | with no sub-query the result is empty, and the inherited learnings and urls are dropped |
| DeepResearch.SearchesPlanned | src/deep-research.ts:272-292 | every planned sub-query of a call is searched and extracted with half the breadth as its follow-up count |
| DeepResearch.RunProvenance | src/deep-research.ts:272-372 | every learning in a call's result is inherited or was extracted, in the call's language, by one of the searches the call or its children made; every url is inherited or among the hits of one of those searches |
| DeepResearch.BranchesProvenance | src/deep-research.ts:272-358 | the i-th branch result of the fold is traceable to the searches of the i-th sub-query and its child call |
| DeepResearch.BranchProvenance | src/deep-research.ts:283-350 | a branch result is traceable to its own search and extraction and to the searches of its child call one level down |
| DeepResearch.BranchCountsCompletion | src/deep-research.ts:351-355 | a branch's last record is the one it leaves; at the last level it reports exactly one record, with one more completed query |
| DeepResearch.DescendProgress | src/deep-research.ts:319-324 | after a child call the parent's record is the child's last record, relabelled, with one more completed query than the child counted |
| DeepResearch.LeafBranchesProgress | src/deep-research.ts:351-355 | at the last level the branches count completed queries up one by one from the starting record |
| DeepResearch.LeafRunProgress | src/deep-research.ts:263-268 | a last-level call reports n + 1 records for n sub-queries, each with total n and completed count 0, 1, ..., n |
| DeepResearch.Run | src/deep-research.ts:203-391 | a call: resolve the language, plan, cut the plan to the breadth, report the first record, fold the branches, de-duplicate, write the report; rejects when the planner or the report throws |
| DeepResearch.DeepResearch | src/deep-research.ts:203-391 | the result of a call without its progress records |
| DeepResearch.Branch | src/deep-research.ts:274-356 | one sub-query: search, extract, go one level deeper while depth remains, fall back to the inherited lists when a step throws, and count the sub-query as completed |
| DeepResearch.Descend | src/deep-research.ts:296-337 | the rest of a branch once its child call returns: append the child's result or fall back, relaying the child's records |
| DeepResearch.Combine | src/deep-research.ts:360-366 | the `reduce` concatenating the branch results in sub-query order |
| DeepResearch.Deduplicated | src/deep-research.ts:369-372 | `[...new Set(..)]` on the learnings and on the urls |
| DeepResearch.WriteFinalReport | src/deep-research.ts:157-201 | the model's markdown followed by the Sources section, in the resolved language |
| DeepResearch.SourcesSection | src/deep-research.ts:198-199 | the heading and one "- url" line per visited url |
| DeepResearch.Assign | src/deep-research.ts:247-254 | `Object.assign` of a partial record |
| DeepResearch.FirstUpdate | src/deep-research.ts:263-268 | the first report: the number of planned sub-queries and the first one as current query |
| DeepResearch.DeeperUpdate | src/deep-research.ts:303-307 | the report before going deeper: the child's depth and breadth and the sub-query |
| DeepResearch.RelayUpdate | src/deep-research.ts:319-324 | the relay of a child record with the parent's sub-query |
| DeepResearch.CompletedUpdate | src/deep-research.ts:351-355 | the `finally`: one more completed query |
| DeepResearch.Research | src/deep-research.ts:203-391 | the step-by-step controller returns exactly the result and the progress records of the specification `Run` |
| DeepResearch.RunBranches | src/deep-research.ts:272-358 | the loop over the sub-queries returns the results, records and final progress of `Branches` |
| DeepResearch.RunBranch | src/deep-research.ts:274-356 | one sub-query's task, attempt and `finally`, returns the result, records and final progress of `Branch` |
| DeepResearch.RunAttempt | src/deep-research.ts:275-350 | the `try` and `catch` of a sub-query leave the result, records and progress that the `finally` completes into `Branch` |
| DeepResearch.Relay | src/deep-research.ts:319-324 | relaying reports each child record relabelled, in order, and leaves the parent's record at the last one |
| Sequences.Dedup | src/deep-research.ts:369-372 | `[...new Set(xs)]`: the first occurrence of each value, in order, never longer than xs |
| Sequences.DedupSameElements | src/deep-research.ts:369-372 | `[...new Set(xs)]` holds exactly the values of xs |
| Sequences.DedupDistinct | src/deep-research.ts:369-372 | `[...new Set(xs)]` holds no value twice |
| Sequences.DedupOfDistinct | src/deep-research.ts:369-372 | a list without repetitions is left as it is |
| Sequences.DedupIdempotent | src/deep-research.ts:369-372 | de-duplicating twice is de-duplicating once |
| Sequences.DedupFirstOccurrenceOrder | src/deep-research.ts:369-372 | values come in the order of their first occurrence in the input |
| LanguageDetector.FirstMatch | src/language-detector.ts:9-10 | a match without the `g` flag exists exactly when some character matches, and is such a character |
| LanguageDetector.CyrillicCount | src/language-detector.ts:9 | the Cyrillic count is 0 or 1, and 1 exactly when the text has a character in U+0400..U+04FF |
| LanguageDetector.LatinCount | src/language-detector.ts:10 | the Latin count is 0 or 1, and 1 exactly when the text has an ASCII letter |
| LanguageDetector.FoundWords | src/language-detector.ts:14-18 | the filter keeps exactly the listed words found as " w ", a "w " prefix or a " w" suffix of the lower-cased text |
| LanguageDetector.DetectLanguage | src/language-detector.ts:3-41 | the verdict is always "ru" or "en" |
| LanguageDetector.RussianWordsCountBound | src/language-detector.ts:13-18 | the listed-word count lies in 0..10 |
| LanguageDetector.RussianWordsDistinct | src/language-detector.ts:13 | the ten listed words are pairwise distinct |
| LanguageDetector.CyrillicBeatsLatinIff | src/language-detector.ts:5-10 | the Cyrillic test beats the Latin one exactly when the text has a Cyrillic character and no ASCII letter |
| LanguageDetector.DetectLanguageIff | src/language-detector.ts:33-40 | "ru" exactly when the text is Cyrillic without an ASCII letter, or two or more listed words are found |
| LanguageDetector.TwoWordsForceRussian | src/language-detector.ts:33-35 | two distinct listed words found force "ru", whatever Latin letters the text has |
| LanguageDetector.CountTwoHasTwoWords | src/language-detector.ts:14-18 | a count of two or more means two distinct listed words were found |
| LanguageDetector.FoundWordsDistinct | src/language-detector.ts:14-18 | filtering distinct words keeps them distinct |
| LanguageDetector.WordNeedsSpace | src/language-detector.ts:14-18 | a listed word is only found next to a space of the text |
| LanguageDetector.NoSpaceNoWords | src/language-detector.ts:14-18 | a text without a space counts no listed word |
| LanguageDetector.LoneConjunction | src/language-detector.ts:14-18 | the text "и" counts no listed word, yet is "ru" through the Cyrillic test |
| LanguageDetector.EmptyIsEnglish | src/language-detector.ts:33-40 | the empty text is "en" |
| LanguageDetector.NoCyrillicFewWordsIsEnglish | src/language-detector.ts:33-40 | no Cyrillic character and fewer than two listed words give "en" |
| LanguageDetector.OneLatinLetterMakesEnglish | src/language-detector.ts:33-40 | one ASCII letter with fewer than two listed words gives "en", however much Cyrillic the text has |
| GeminiProvider.DescribeType | src/ai/gemini-provider.ts:97-104 | a type description is a single line |
| GeminiProvider.DescribeTypeRoundTrip | src/ai/gemini-provider.ts:97-104 | the description reads back to the schema's kind: "string" in quotes, number, boolean, "array of " and the element's description, object, any |
| GeminiProvider.DescribeTypeDeterminesTag | src/ai/gemini-provider.ts:97-104 | two schemas with the same type description have the same kind, element kinds included |
| GeminiProvider.DescribeSchema | src/ai/gemini-provider.ts:69-95 | a schema that is neither an object nor an array is described by its type description |
| GeminiProvider.FieldsAsBodyLines | src/ai/gemini-provider.ts:74-76 | the field lines joined by ",\n" are the body lines (a comma after all but the last) joined by line breaks |
| GeminiProvider.DescribeObjectLines | src/ai/gemini-provider.ts:72-83 | line by line an object description is "{", one `    "key": type` line per field in shape order, "}", an empty line and "Description: " with the description or '' |
| GeminiProvider.DescribeArrayLines | src/ai/gemini-provider.ts:85-92 | line by line an array description is "[", four spaces and the element's type, "]", an empty line and the description line |
| GeminiProvider.FilterNonBlank | src/ai/gemini-provider.ts:124 | the filter keeps exactly the lines that are not all whitespace, and keeps a list without blank lines whole |
| GeminiProvider.FilterNonBlankAppend | src/ai/gemini-provider.ts:124 | the filter works line by line: on two lists it keeps the kept lines of the first, then those of the second, so order and repetitions are kept |
| GeminiProvider.FilterNonBlankSingle | src/ai/gemini-provider.ts:124 | a single line is kept exactly when it is not blank |
| GeminiProvider.NonBlankLines | src/ai/gemini-provider.ts:124 | the lines are non-empty, not blank and free of line breaks, and are exactly the non-blank pieces of the text split at line breaks |
| GeminiProvider.NonBlankLinesAppend | src/ai/gemini-provider.ts:124 | the lines of two texts joined by a line break are the lines of the first, then those of the second |
| GeminiProvider.NonBlankLinesSingle | src/ai/gemini-provider.ts:124 | a text without a line break is its own single line unless it is blank |
| GeminiProvider.NonBlankLinesOfSolidText | src/ai/gemini-provider.ts:124 | for a text with no blank line, joining its lines gives the text back |
| GeminiProvider.SetField | src/ai/gemini-provider.ts:136 | assigning to a plain object adds or replaces the key and keeps the others, except that `__proto__` goes to the inherited setter and changes nothing |
| GeminiProvider.AssignByIndexSpec | src/ai/gemini-provider.ts:134-138 | the i-th key gets the i-th line, and exactly the first min(#keys, #lines) keys other than `__proto__` are present |
| GeminiProvider.AssignByIndexNoProto | src/ai/gemini-provider.ts:134-138 | the index pass never stores `__proto__` |
| GeminiProvider.ParseKeyValueIff | src/ai/gemini-provider.ts:146-149 | a line yields the trimmed text before its first colon and the trimmed rest, later colons included; no entry without a colon or with a colon first |
| GeminiProvider.CollectKeys | src/ai/gemini-provider.ts:145-150 | a key is present exactly when some line yields it and it is not `__proto__` |
| GeminiProvider.CollectLastWins | src/ai/gemini-provider.ts:145-150 | a key other than `__proto__` holds the value of the last line that yields it |
| GeminiProvider.CreateSimpleStructure | src/ai/gemini-provider.ts:123-128 | an array schema gives exactly `{items: lines}`, every other schema an object of fields |
| GeminiProvider.CreateSimpleStructureObject | src/ai/gemini-provider.ts:130-141 | for an object schema the i-th key holds the i-th line, and exactly the first min(#keys, #lines) keys other than `__proto__` are present |
| GeminiProvider.CreateSimpleStructureKeyValue | src/ai/gemini-provider.ts:143-152 | when some line has a colon, the keys are exactly those the lines yield other than `__proto__`, so none when every colon comes first on its line |
| GeminiProvider.CreateSimpleStructureLastValue | src/ai/gemini-provider.ts:143-152 | when some line has a colon, a key other than `__proto__` holds the value of the last line that yields it |
| GeminiProvider.CreateSimpleStructureNoProto | src/ai/gemini-provider.ts:130-154 | no fallback object has a `__proto__` field: a line "__proto__: x" or a shape key `__proto__` leaves the object as it was |
| GeminiProvider.CreateSimpleStructureText | src/ai/gemini-provider.ts:143-154 | with no colon anywhere the result is `{text: lines joined by line breaks}`, which is the text itself when it has no blank line |
| GeminiProvider.AssignByIndex | src/ai/gemini-provider.ts:134-138 | the `forEach` over the shape keys assigning the line of the same index when it is truthy |
| GeminiProvider.ParseKeyValueTrimmed | src/ai/gemini-provider.ts:146-148 | a line whose first colon is not its first character yields an entry whose key and value are the text before and after that colon with only whitespace dropped from their ends; the key may be empty |
| GeminiProvider.ParseKeyValue | src/ai/gemini-provider.ts:146-149 | the entry of one line: split at colons, the trimmed first piece and the trimmed rest re-joined by colons, when the first piece is non-empty and there is a rest |
| GeminiProvider.Collect | src/ai/gemini-provider.ts:145-150 | the `forEach` assigning the entries in line order |
| Text.TrimEmpty | src/ai/gemini-provider.ts:124 | `trim()` gives the empty string exactly when the line is all whitespace |
| Text.JoinSplit | src/ai/gemini-provider.ts:146-148 | joining the pieces of a split with the separator gives the text back |
| Text.SplitJoin | src/deep-research.ts:199 | splitting a join of pieces without the separator at that separator gives the pieces back, so `join` loses nothing |
| Text.SplitAppend | src/ai/gemini-provider.ts:124 | splitting at a separator placed between two strings gives the pieces of the first, then those of the second |
| Text.TrimIsSlice | src/ai/gemini-provider.ts:147-148 | `trim()` keeps a contiguous piece of its input: everything dropped before and after it is whitespace, and no whitespace is left at either end |
| Text.Split | src/ai/gemini-provider.ts:124 | `split` at one character: at least one piece, none holding the separator |
| Text.Join | src/deep-research.ts:199 | definition of `parts.join(sep)`; its properties are stated by Text.JoinSplit and Text.SplitJoin |
| Text.Trim | src/ai/gemini-provider.ts:124 | `trim()`: ECMAScript whitespace removed from both ends |
| Text.ToLower | src/language-detector.ts:15-17 | `toLowerCase()` as the detector needs it: spaces stay where they are and no other character becomes one, the Cyrillic block U+0400..U+04FF maps into itself, and capitals A-Z become small letters |
| Logger.ResearchSession.constructor | src/logger.ts:9-11 | a new session holds the uuid drawn for it |
| Logger.SessionRegistry.constructor | src/logger.ts:6 | no session is stored at first |
| Logger.SessionRegistry.GetInstance | src/logger.ts:13-18 | a session is constructed, with the drawn uuid, only when none is stored; otherwise the stored one is returned; either way it is stored afterwards |
| Logger.GetInstanceTwice | src/logger.ts:13-18 | two calls return the same session and the same uuid, whatever the second call would have drawn |
| Logger.LogFileName | src/logger.ts:21-25 | the log file name starts with "research-", the uuid and "-", and ends with ".log" |
| Logger.DateStamp | src/logger.ts:24 | the year, the month (`getMonth() + 1`) and the day, each padded to two digits |
| Logger.Pad2TwoDigits | src/logger.ts:24 | for 1..99 the padded number is exactly two digits reading back as the number |
| Logger.DateStampValue | src/logger.ts:24 | the date part reads as the decimal number year * 10000 + month * 100 + day, with four digits after the year |
| Logger.LogFileNameDeterminesDate | src/logger.ts:24 | one session's log files for two different dates have different names |
| Logger.ParsePrefixed | src/logger.ts:31 | a line reads back into its timestamp, uuid and body when neither the timestamp nor the uuid contains "]" |
| Logger.LogLine | src/logger.ts:31 | the log message: bracketed timestamp and uuid, the message, the data part when there is data, a line break |
| Logger.ErrorLine | src/logger.ts:44 | the error message: as the log message with "ERROR: " before the message and "\nError: " for the error |
| Logger.LogLineParts | src/logger.ts:31 | a log line is the bracketed timestamp and uuid, the message, "\nData: " and the data only when there is data, and a final line break |
| Logger.ErrorLineParts | src/logger.ts:44 | an error line puts "ERROR: " before the message and "\nError: " in place of "\nData: "; without an error it is the log line of "ERROR: " + message |
| Logger.Log | src/logger.ts:28-39 | `logger.log` writes the log line of the stored session's uuid to that session's log file, and keeps the session |
| Logger.Error | src/logger.ts:41-52 | `logger.error` writes the error line of the stored session's uuid to that session's log file, and keeps the session |

## Left out

- External calls: the model calls (`generateObject`), the web search, `trimPrompt` and the request timeouts are oracles. Each oracle answer is a function of the call's arguments, so two identical calls get the same answer; the real services need not. Prompt texts and the schema descriptions sent with them are not modelled; only the language passed to the oracles is.
- Search hits without a data array make `result.data.map` throw inside the branch. The model folds that case into a search oracle answering `None`, which takes the same fallback.
- Concurrency: `pLimit(2)` admission and the interleaving of branches are not modelled. Branches run one after the other in sub-query order, which is the order `Promise.all` returns results in. A child's progress records are relayed after the child returns rather than while it runs; in the one-after-the-other order nothing else touches the parent's record meanwhile.
- DeepResearch.Research: the recorded progress is the sequence of records handed to `onProgress`. The root callback really receives the live record object, which later updates keep changing. An absent `onProgress` changes nothing else.
- Files and logging: `fs.writeFileSync` of the report is not modelled. Every level of the recursion writes the same `research-<uuid>-results.md`, so the root's report, written last, is what remains. Also not modelled: the stderr helper, console output, `appendFileSync`, `path.join` with the working directory, and `JSON.stringify` (data and errors are given as their JSON text).
- Logger.Log: the truthiness of the data argument is abstracted to present (`Some`) or absent (`None`). The ISO timestamp and the calendar date are separate parameters because the source reads the clock separately for each.
- Logger.DateStampValue: stated for years from 0 on; `String` of a negative year carries a minus sign.
- Logger.ParsePrefixed: stated for timestamps and uuids without "]", which ISO timestamps and v4 uuids satisfy.
- DeepResearch.SourceLinesRoundTrip: stated for at least one url and urls without line breaks. With no url the list is the empty string.
- Numbers: breadth and depth are integers. Fractional breadths are not modelled.
- The language argument: undefined and the empty string are both falsy and are both modelled as "".
- Strings are sequences of Unicode characters rather than UTF-16 code units.
- Text.ToLower: a partial case mapping (Basic Latin and the Cyrillic capitals U+0400..U+042F) that keeps the length. JavaScript's full mapping can lengthen a string ("İ" becomes two code units); the detector only looks at spaces, Cyrillic letters and the listed words, which such mappings do not touch.
- LanguageDetector.FoundWords: `toLowerCase` is modelled for ASCII letters and for Cyrillic U+0400..U+042F only. Other case mappings cannot create or destroy a space or one of the ten listed words.
- GeminiProvider.CreateSimpleStructure: the result object is a map, so property order is not modelled. JavaScript lists integer-like keys first.
- GeminiProvider.CreateSimpleStructureObject: stated for shapes with distinct keys, which every object shape has.
- The rest of the Gemini adapter is not modelled: `createGemini`, `generateContent`, `schema.parse`, and the regex and `JSON.parse` path of `extractStructuredData`. These are library behaviour.
- `src/output-manager.ts` (terminal rendering) and `src/feedback.ts` (one model call and a slice) are not part of this model.
- `researchGoal` of a sub-query is only logged, so it is carried but never used.
