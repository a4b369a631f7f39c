# Social-media sentiment report, modelled in Dafny

This project models the analysis core of a social-media sentiment dashboard:

- **Backend pipeline.** `NLPProcessor.process` takes, for one search query, a map from platform name to the raw items collected there. Each item with non-empty text is scored with a sentiment analyser, and its compound score gives a label (positive, neutral or negative). The annotated item lists pair item i with the i-th score, so an empty-text item shifts the labels of later items (see below). The pipeline counts labels and averages the score masses. It extracts the most frequent keywords and builds annotated item lists. It then combines the platforms into weighted totals and writes a one-sentence summary.
- **Frontend keyword filter.** `getFilteredData` in the web front end searches the annotated items for a selected keyword, ignoring case. It groups the matches by platform.

## Modules

| file | module | models |
|---|---|---|
| `values.dfy` | `Values` | `Option`; JSON-like values (`Str`, `Int`, `Num`, `Bool`, and `Null` for `None`); an annotated entry is a `map<string, Value>` |
| `text.dfy` | `Text` | ASCII lower-casing; the character classes `\w` and `\s`; substring search; `str.join`; slicing `[:n]`; decimal rendering of a count |
| `scorer.dfy` | `Scorer` | the analyser's scores (`compound`, `pos`, `neu`, `neg`); `_get_sentiment_label` |
| `ranking.dfy` | `Ranking` | `Counter(words).most_common(n)` |
| `keywords.dfy` | `Keywords` | `_extract_keywords` and its stop words |
| `platform.dfy` | `Platform` | `_process_platform`, with its append loops as methods |
| `combine.dfy` | `Combine` | the sums, weighted means and keyword merge of `_calculate_combined` |
| `summary.dfy` | `Summary` | `_generate_summary` as a function of the combined figures |
| `pipeline.dfy` | `Pipeline` | the `results` dictionary as the class `Results`; `process` and its loop over platforms |
| `keyword_filter.dfy` | `KeywordFilter` | `getFilteredData` with its two nested loops |

**External operations as parameters.** Three operations the Python code delegates to libraries are fields of an `Oracles` value passed to every operation:

- `polarity`, VADER's `polarity_scores`;
- `round3`, `round(x, 3)`;
- `format1`, the `:.1f` format.

The model takes nothing for granted about them; a lemma that needs a property of them (for example, masses in [0, 1]) states it in its `requires`.

**Ordered dictionaries.** Python dictionaries and JavaScript objects keep insertion order. The model represents them as sequences of `(name, value)` pairs. `DistinctNames` says that the names of the input map are distinct.

**State updated in place.** The backend's `results` dictionary is updated in place by `process`, `_calculate_combined` and the summary step. It becomes the class `Pipeline.Results`. Its methods state the whole new state.

**Loops.** Every append loop of the source is a method with a `while` loop. The loop is proved against the function that specifies its result. These are `ScoreItems`, `BuildSampleItems`, `BuildAllItems`, `CollectPlatforms`, `SearchPlatform` and `GetFilteredData`. The loop that pools every platform's `top_keywords` is the `while` loop in `Results.CalculateCombined`, proved against `KeywordPool`.

**Where the system's documented design and its code differ, the model follows the code:**

- The documented design says an empty-text item is left out of the annotated lists. The code does something else. Entry `i` of `all_items` and `sample_items` pairs the raw item `items[i]` with the score of the `i`-th item with non-empty text. The lists are cut short at the number of scored items. So one empty-text item shifts the labels of all later items. The model does the same, and `Platform.MisalignedAnnotation` exhibits the shift.
- The documented design says an item the analyser cannot score is skipped, fail-soft. The code has no exception handling around `polarity_scores`. In the model the analyser is a total function.
- The documented design describes normalisation as keeping alphanumerics and whitespace. The code keeps `\w`, which also includes `_`. The model keeps `_`.
- `total` is `len(items)` and counts empty-text items, as the code does. The label counts cover only scored items, so their sum can be less than `total`.
- An item's own `score` or `sentiment` key overrides the computed one, because the `**` spread is written last. This holds, for example, for Reddit items, which carry `score`. The model keeps this behaviour: `Platform.AnnotateSpec` states the computed values only for keys the item does not carry.

## Model

| member | source | states |
|---|---|---|
| Text.LowerChar | backend/modules/nlp_processor.py:112 | lower-casing maps an upper-case letter to the letter 32 codes above it and changes nothing else; it leaves no upper-case letter and keeps word and whitespace characters in their class |
| Text.LowerCharLetter | backend/modules/nlp_processor.py:112 | the upper-case letter at place k of the alphabet becomes the k-th letter of `abcdefghijklmnopqrstuvwxyz` |
| Text.LowerConcat | backend/modules/nlp_processor.py:112 | lower-casing distributes over concatenation |
| Text.Lower | backend/modules/nlp_processor.py:112 | `text.lower()` keeps the length and lower-cases each character in place |
| Text.Prefix | backend/modules/nlp_processor.py:103 | `s[:n]` has length `min(len(s), n)` and is a prefix of `s` |
| Text.NatToString | backend/modules/nlp_processor.py:203 | the rendering of a count is a non-empty string of decimal digits |
| Scorer.LabelOf | backend/modules/nlp_processor.py:136-143 | positive iff compound > 0.05; negative iff compound < -0.05; neutral iff -0.05 <= compound <= 0.05, so exactly ±0.05 is neutral |
| Scorer.LabelNamesDistinct | backend/modules/nlp_processor.py:139-143 | the three label strings are distinct, so the label can be read back from its name |
| Ranking.FirstIndex | backend/modules/nlp_processor.py:131 | the position returned holds the word, and no earlier position does |
| Ranking.DistinctProperties | backend/modules/nlp_processor.py:131 | the Counter's keys are exactly the words of the input, listed in strictly increasing first-occurrence order |
| Ranking.SortRanked | backend/modules/nlp_processor.py:134 | the stable sort by count is a permutation of its input and is ranked: count descending, ties by first occurrence |
| Ranking.SortPermutes | backend/modules/nlp_processor.py:134 | the stable sort by count returns its input rearranged: the same words with the same multiplicities |
| Ranking.FullRanking | backend/modules/nlp_processor.py:131-134 | the sorted key list holds exactly the words of the input and is ranked |
| Ranking.PrefixRanked | backend/modules/nlp_processor.py:103 | cutting a complete ranking at n places leaves a complete ranking of at most n places: a word left out ranks below every word kept, and only when n are kept |
| Ranking.NoDuplicatesCount | backend/modules/nlp_processor.py:186 | a `Counter` over a list without duplicates counts each listed word once and every other word zero times |
| Ranking.RankedDistinct | backend/modules/nlp_processor.py:131-134 | a ranked list has no duplicates |
| Ranking.MostCommonSpec | backend/modules/nlp_processor.py:131-134 | `most_common(n)` has at most n words, all from its input; they are distinct and ranked (non-increasing count, ties in first-occurrence order); a word left out ranks below every word kept, and that happens only when all n places are taken |
| Keywords.SameWordSpec | backend/modules/nlp_processor.py:128 | the character-by-character comparison used for the stop-word test is string equality |
| Keywords.ListedSpec | backend/modules/nlp_processor.py:115-128 | the stop-word lookup holds iff the word is in the stop-word list |
| Keywords.LeadingWord | backend/modules/nlp_processor.py:128 | each token split off is a prefix of the remaining text |
| Keywords.NormalizeChars | backend/modules/nlp_processor.py:112 | normalised text holds only lower-case word characters and whitespace, and keeps the lower-cased form of every word or whitespace character of the input |
| Keywords.StripConcat | backend/modules/nlp_processor.py:112 | deleting `[^\w\s]` distributes over concatenation |
| Keywords.StripOne | backend/modules/nlp_processor.py:112 | a single character survives the deletion iff it is a word or whitespace character |
| Keywords.NormalizeConcat | backend/modules/nlp_processor.py:112 | normalisation distributes over concatenation, and one character normalises to its lower-cased form if it is a word or whitespace character and to nothing otherwise; together these determine the normalised text exactly |
| Keywords.LeadingWordChars | backend/modules/nlp_processor.py:128 | a token holds no whitespace, and a text that starts with a non-space yields a non-empty token |
| Keywords.TokensChars | backend/modules/nlp_processor.py:128 | `split()` yields non-empty tokens made of non-space characters of the text |
| Keywords.CandidatesSpec | backend/modules/nlp_processor.py:128 | the comprehension keeps exactly the tokens longer than 3 characters that are not stop words, and keeps every occurrence of them |
| Keywords.ExtractKeywordsSpec | backend/modules/nlp_processor.py:108-134 | at most 20 keywords; each is a lower-case token of the normalised text, longer than 3 characters and not a stop word; they are ranked by frequency with ties in first-occurrence order; a candidate left out ranks below every keyword and only when 20 are kept; empty text gives no keywords |
| Platform.Sentiments | backend/modules/nlp_processor.py:47-52 | `sentiments` has one score per scored text, in the same order |
| Platform.ProcessPlatform | backend/modules/nlp_processor.py:42-106 | the method builds exactly the analysis record `AnalyzePlatform` describes; the lemmas below state that record's properties |
| Platform.ScoreItems | backend/modules/nlp_processor.py:47-52 | the first loop collects the non-empty texts in order and scores each of them |
| Platform.BuildSampleItems | backend/modules/nlp_processor.py:68-77 | the sample loop builds exactly the sample list specified by `SampleEntries` |
| Platform.BuildAllItems | backend/modules/nlp_processor.py:80-89 | the annotation loop builds exactly the list specified by `AllEntries` |
| Platform.ScoredTextsSpec | backend/modules/nlp_processor.py:47-50 | no more texts are scored than there are items; every scored text is non-empty; all items are scored when all have text, none when none has |
| Platform.ScoredTextsConcat | backend/modules/nlp_processor.py:47-50 | the texts scored for two lists in a row are those of the first list followed by those of the second |
| Platform.ScoredTextsOne | backend/modules/nlp_processor.py:47-50 | a single item contributes its text iff the text is non-empty; with `ScoredTextsConcat` this fixes the scored texts of every list |
| Platform.CountsByLabel | backend/modules/nlp_processor.py:55-57 | each of the three counts counts the scores with that label, and together they partition the scores |
| Platform.PlatformCounts | backend/modules/nlp_processor.py:54-92 | `total` is the number of items; the counts partition the scored items; their sum is at most `total` |
| Platform.SumMassBounds | backend/modules/nlp_processor.py:60-62 | a sum of masses in [0, 1] lies between 0 and the number of scores |
| Platform.SumMassTotal | backend/modules/nlp_processor.py:60-62 | when each score's masses sum to 1, the three summed masses add up to the number of scores |
| Platform.AverageBounds | backend/modules/nlp_processor.py:60-62 | the average of masses in [0, 1] lies in [0, 1] |
| Platform.AveragesSumToOne | backend/modules/nlp_processor.py:60-62 | the three averages sum to 1 when something was scored, and are all 0 when nothing was |
| Platform.AnnotateSpec | backend/modules/nlp_processor.py:72-77 | an annotated entry has the keys text, sentiment and score plus the item's own keys; it carries the given text; every other item key passes through unchanged and wins over the computed sentiment and score |
| Platform.AllEntriesSpec | backend/modules/nlp_processor.py:80-89 | entry i pairs item i (untruncated text, its other keys) with score i; there are as many entries as scores when the scores do not outnumber the items |
| Platform.AllItemsSpec | backend/modules/nlp_processor.py:80-89 | `all_items` has one entry per scored item; entry i has item i's full text and keys and the label and compound of the i-th scored item, unless the item overrides them |
| Platform.SampleEntriesSpec | backend/modules/nlp_processor.py:68-77 | the sample has min(5, entries) entries; each is the matching full entry with its text cut to its first 200 characters |
| Platform.SampleItemsSpec | backend/modules/nlp_processor.py:68-77 | `sample_items` is the first min(5, len(all_items)) entries of `all_items`, with text replaced by its first 200 characters |
| Platform.MisalignedAnnotation | backend/modules/nlp_processor.py:47-89 | with an empty-text item followed by a scored one, `all_items` has a single entry: the EMPTY item annotated with the second item's score; `total` is still 2 |
| Platform.PlatformKeywords | backend/modules/nlp_processor.py:65-103 | `top_keywords` is the first min(10, n) of the n keywords of the scored texts joined by one space; they are ranked candidate tokens of that text; a candidate left out ranks below every keyword kept, and only when 10 are kept |
| Combine.CombinedCountsBound | backend/modules/nlp_processor.py:147-155 | when each platform's counts sum to at most its total, the summed counts sum to at most the summed totals |
| Combine.WeightedSumBounds | backend/modules/nlp_processor.py:160-173 | the sum of score × total over platforms with scores in [0, 1] lies between 0 and the sum of totals |
| Combine.WeightedMeanBounds | backend/modules/nlp_processor.py:158-173 | the weighted mean of platform scores in [0, 1], before rounding, lies in [0, 1] |
| Combine.WeightedSumUniform | backend/modules/nlp_processor.py:160-173 | when every platform has the same score v, the weighted sum is v times the item total, so the mean is v |
| Combine.KeywordPoolMembers | backend/modules/nlp_processor.py:182-184 | `all_keywords` holds exactly the words found in some platform's `top_keywords` |
| Combine.PoolCountsPlatforms | backend/modules/nlp_processor.py:182-186 | when no platform's `top_keywords` repeats a word, the count of a word in `all_keywords` is the number of platforms that list it |
| Combine.CombinedKeywordsSpec | backend/modules/nlp_processor.py:182-189 | at most 15 combined keywords, each from some platform; they are distinct and ranked by how often they occur in the concatenation, ties by first occurrence; a word left out ranks below every word kept, and only when 15 are kept |
| Summary.PercentAboveHalf | backend/modules/nlp_processor.py:200-207 | a share is above 50% iff twice its count exceeds the total |
| Summary.LeadsDiffer | backend/modules/nlp_processor.py:205-210 | none of the three sentiment openings is a prefix of another |
| Summary.ClauseLead | backend/modules/nlp_processor.py:205-210 | the sentiment clause starts with the positive opening iff the positive share exceeds 50%, with the negative one iff not that and the negative share does, with the mixed one otherwise; it ends with a space |
| Summary.SummarySpec | backend/modules/nlp_processor.py:191-216 | with no items: exactly "No data found for '<query>'."; otherwise the opening clause, then the positive clause iff 2·pos > total, the negative clause iff not that and 2·neg > total, the mixed clause otherwise, and at the end "Key topics discussed: " + the first three keywords + "." iff there are keywords |
| Pipeline.Results.constructor | backend/modules/nlp_processor.py:14-25 | the initial report: no platforms, zero counts and scores, no keywords, an empty summary |
| Pipeline.Results.CalculateCombined | backend/modules/nlp_processor.py:145-189 | only the combined counts (element-wise sums), scores (rounded weighted means, only when total_items > 0, else unchanged) and keywords change; platforms and total_items stay as they were |
| Pipeline.Results.GenerateSummary | backend/modules/nlp_processor.py:191-216 | the summary string built with `+=` is the summary sentence of the current combined figures and platform count |
| Pipeline.Process | backend/modules/nlp_processor.py:12-40 | a fresh report for the query whose platforms are the analyses of the non-empty input lists in input order, and whose combined part is the combination of those analyses with the summary of it |
| Pipeline.CollectPlatforms | backend/modules/nlp_processor.py:27-32 | the loop over the input analyses exactly the non-empty lists, in order, and adds up their lengths into `total_items` |
| Pipeline.PresentNamesAre | backend/modules/nlp_processor.py:28-31 | the report's platform names are the names of the non-empty input lists, in input order |
| Pipeline.NonEmptyNamesSpec | backend/modules/nlp_processor.py:28-31 | a name is listed iff its input list is non-empty; with distinct input names the listed names are distinct |
| Pipeline.PresentNames | backend/modules/nlp_processor.py:28-31 | a platform appears in the report iff its input list is non-empty, and it appears once |
| Pipeline.TotalItemsSpec | backend/modules/nlp_processor.py:32 | for every query, `total_items` is the sum of the lengths of the input lists, and equals the sum of the present platforms' `total` |
| Pipeline.PresentKeywordsDistinct | backend/modules/nlp_processor.py:103 | every present platform's `top_keywords` lists each word at most once |
| Pipeline.PoolCountsPresent | backend/modules/nlp_processor.py:182-189 | in a report built by the pipeline, a word's count in `all_keywords` is the number of platforms listing it, so the combined keywords are ranked by that number |
| Pipeline.CombinedCountsWithinTotal | backend/modules/nlp_processor.py:147-158 | the combined label counts sum to at most `total_items` |
| Pipeline.PresentPlatformsWitness | backend/modules/nlp_processor.py:28-31 | every platform entry of the report is the analysis of some non-empty input list under its own name |
| Pipeline.PlatformScoreBounds | backend/modules/nlp_processor.py:60-62 | with masses in [0, 1] and a rounding that keeps [0, 1], a platform's average scores lie in [0, 1] |
| Pipeline.PresentScoresBounds | backend/modules/nlp_processor.py:98-102 | under the same conditions every present platform's scores lie in [0, 1] |
| Pipeline.WeightedScoresBounds | backend/modules/nlp_processor.py:175-179 | rounded weighted means of platform scores in [0, 1] lie in [0, 1] |
| Pipeline.CombinedScoresBounds | backend/modules/nlp_processor.py:158-179 | under the same conditions every combined score lies in [0, 1], including the initial 0.0 when there are no items |
| KeywordFilter.GetFilteredData | frontend/src/App.js:73-110 | the nested loops return exactly the filter result `FilteredData` specifies; the lemmas below state its properties |
| KeywordFilter.SearchPlatform | frontend/src/App.js:90-97 | the inner loop collects exactly the tagged kept items of one platform, in order |
| KeywordFilter.TagKeeps | frontend/src/App.js:92-95 | a tagged copy carries the platform name, keeps every other key, and matches iff the original does |
| KeywordFilter.MatchesSpec | frontend/src/App.js:90-97 | a platform's matches are exactly the tagged copies of its kept items; each matches the keyword and names the platform |
| KeywordFilter.NoMatches | frontend/src/App.js:90-99 | a platform has no matches iff none of its searched items is kept |
| KeywordFilter.FilterAllShape | frontend/src/App.js:99-106 | the keyword is kept; each listed platform has count = number of its items > 0; `items` is the concatenation of the groups; `totalItems` is both its length and the sum of the counts |
| KeywordFilter.FilterAllGroups | frontend/src/App.js:84-106 | a group is listed iff some platform has at least one match, and then it holds exactly that platform's matches and their count |
| KeywordFilter.FilterAllItems | frontend/src/App.js:90-105 | every filtered item matches the keyword and carries the name of one of the platforms |
| KeywordFilter.FilterAllEmpty | frontend/src/App.js:99-109 | the total is 0 iff no searched item of any platform is kept |
| KeywordFilter.FilteredDataSpec | frontend/src/App.js:74-109 | null iff no keyword is selected, there are no results, or nothing matches; otherwise the result has the selected keyword and a positive total |
| KeywordFilter.BackendItemsSearched | frontend/src/App.js:88-91 | on a report built by the backend the filter searches `all_items`, and entry i is kept iff item i's raw text is non-empty and, lower-cased, contains the lower-cased keyword |

## Left out

- The analyser's lexicon and rules (`polarity_scores`): a foreign library, modelled as the function parameter `Oracles.polarity`.
- `round(x, 3)` and the `:.1f` format: floating-point operations, modelled as the parameters `Oracles.round3` and `Oracles.format1`. The label counts are natural numbers. The masses and their sums and averages (`SumMass`, `Average`), the weighted sums and means (`WeightedSum`) and the percentages (`Percent`) use exact `real` arithmetic, not IEEE floats. So `Platform.AveragesSumToOne` and `Combine.WeightedSumUniform` hold of the model but not necessarily of the floating-point program.
- Case and character classes are ASCII only. Lower-casing affects only A–Z. `\w` is letters, digits and `_`. `\s` is codes 9–13 and 28–32. Unicode case mapping and character classes are not modelled.
- The data collectors, the HTTP layer, the environment, the network and randomness are not part of this model. The `data` argument stands for the collected input map.
- `timestamp` is always `None` in the source and is not a field of `Results`.
- Pipeline.Process: the source's loop writes each platform and each increment of `total_items` straight into `results`. `CollectPlatforms` gathers them into local variables and stores them into a new `Results` once the loop ends. The final state is the same; any state in between is not modelled.
- Text.NatToString: states only that the rendering is a non-empty string of digits, not that it is the decimal value of the count.
- Keywords.TokensChars: states that tokens are non-empty, free of whitespace and drawn from the text. It does not state that the tokens are exactly the maximal whitespace-free runs in order. `Tokens` is defined that way.
- KeywordFilter.Keep: a `text` value that is truthy but not a string would make `toLowerCase` throw in the front end. The model treats such an entry as not matching.
- KeywordFilter.GetFilteredData: `results.platforms` is taken to be present whenever `results` is not null, since the backend always writes it.
- The analyser failing on one item (the fail-soft skip of the documented design) is not modelled, because the code does not handle it either.
