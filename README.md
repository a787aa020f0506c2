# FonoaudiologIA speech-metrics scoring engine in Dafny

This project models the scoring engine of FonoaudiologIA, a speech-therapy
practice tool, and proves properties of the model. The engine takes a
transcript, an optional reference text and an audio duration and produces raw
speech metrics. It maps every metric to a 0–100 score and combines the scores
into dimensions: clarity, rhythm, vocabulary and a session-level overall.

The modules follow the program's files:

| module | models |
|---|---|
| `Text` (text.dfy) | the tokenizer `_tokenize`, `str.lower`, `str.strip`, `str.split` |
| `Normalize` (normalize.dfy) | `normalize_metric`, the piecewise-linear 0–100 normaliser |
| `Metrics` (metrics.dfy) | positional transcription precision, words and fillers per minute |
| `Fillers` (fillers.dfy) | the filler lexicon loaders and counters, file-based and cached |
| `Lexical` (lexical.dfy) | `compute_spanish_lexical_variability` over abstract spaCy token records |
| `Measure` (measure.dfy) | `measure_speech_metrics`: counts, metric table, skipped list, dimensions |
| `Resources` (resources.dfy) | the lazy resource cache of the metrics service, as a class |
| `Transcript` (transcript.dfy) | duration and word-count fallbacks, the stage filter, per-exercise dimensions |
| `Session` (session.dfy) | session aggregation: grouping, averaging, dimensions, overall, response list |
| `EditDistance` (editdistance.dfy) | the word-level Levenshtein `precision` of the ElevenLabs test script |
| `Stats`, `Common`, `Wrappers` | sums and means, the shared records and metric names, `Option`/`Result` |

## Modelling choices

- Python floats are `real`. `round(x, 2)` and `round(x, 4)` are not applied.
  Every property is stated before rounding.
- Strings are `seq<char>`. Python's "falsy" optional strings (`None` or `""`) are both the empty string.
- The regex class `\w` is modelled over Latin-1 only: ASCII letters, digits and
  `_`, plus the Latin-1 letters and numeric signs. `str.lower()` lowers ASCII and
  Latin-1 capitals.
- spaCy's analysis is a function parameter `Analyzer = string -> seq<LexToken>`.
  A `LexToken` keeps the text, lemma, part of speech, stop-word flag and alphabetic flag.
- File reads are parameters holding their outcome:
  - the filler lexicon is `FillerFile` (missing, not JSON, or a parsed `Json` value);
  - `parameters.json` is a parsed `Parameters` value;
  - each cache load attempt is an `Option`, `None` when it raises.
- The audio-metadata probe of `calculate_audio_duration` is an input `probe: Option<real>`.
- The LLM feedback generator is a function parameter returning `Option<string>`.
  `None` stands for a feedback task that raised and was returned by `asyncio.gather`.
- Loops in the source are methods with `while`/`for` loops. Each is proved equal to a
  specification function that follows the same step, and the lemmas are stated about that function.
  - The cache's module globals are the fields of the class `ResourceCache`.
  - The edit-distance table is an `array2<nat>`.

Where the code's behaviour differs from what the metric names suggest, the model follows the code:

- Transcription precision is the number of positional matches divided by the
  number of *predicted* tokens, times 100. It is not the fraction of reference tokens matched.
- The per-request dimension score in `measure_speech_metrics` is the unweighted
  mean of the present metric scores. The session rhythm is count-weighted.
- Words per minute is `count * 60000 / audio_ms` with the duration in milliseconds:
  nine words in 4.5 seconds give 120.

## Model

| member | source | states |
|---|---|---|
| Stats.Mean | metrics/scores.py:389 | `sum(xs) / len(xs)` of a non-empty list; MeanBounds and MeanRepeat state its bounds and its value on repeated scores |
| Stats.MeanOrNone | backend/app/services/transcript_service.py:117 | the mean is absent exactly when there are no values |
| Stats.Repeat | backend/app/services/scores_service.py:92 | `[x] * k` has length k and every entry is x |
| Stats.MeanBounds | backend/app/services/scores_service.py:66-67 | a mean lies between any lower and upper bound of the values averaged |
| Stats.MeanRepeat | backend/app/services/scores_service.py:75-82 | averaging k copies of an average gives that average back |
| Text.IsSpace | backend/app/services/transcript_service.py:37 | the characters `str.split()` and `str.strip()` treat as whitespace, over Latin-1; SplitAtSpace and StripSpec state their use |
| Text.IsUpper | metrics/scores.py:84 | the Latin-1 capitals that `str.lower()` changes; ToLower states that none survive lowering |
| Text.IsWordChar | metrics/scores.py:72 | the regex class `\w` over Latin-1; TokenizeTokens states that tokens hold only these and apostrophes |
| Text.ToLower | metrics/scores.py:84 | a lowered character is never upper-case; lowering keeps whitespace and token characters |
| Text.Lower | metrics/scores.py:84 | `lower()` maps each character, keeping length |
| Text.LowerIdempotent | metrics/count_filler_words.py:74 | lowering a lowered token changes nothing, so `tok.lower()` on a token is a no-op |
| Text.TrimStart | metrics/count_filler_words.py:41 | leading whitespace is removed and only whitespace is removed |
| Text.TrimEnd | metrics/count_filler_words.py:41 | trailing whitespace is removed and only whitespace is removed |
| Text.Strip | metrics/count_filler_words.py:41 | `str.strip()` as trailing trimming after leading trimming; StripSpec and StripEmptyIff state what it removes |
| Text.StripSpec | metrics/count_filler_words.py:41 | `strip()` leaves no surrounding whitespace and is empty exactly for blank text |
| Text.StripEmptyIff | metrics/lexical_variability.py:29 | `not text.strip()` holds exactly when the text is all whitespace |
| Text.StripOfLower | metrics/count_filler_words.py:41 | stripping and lowering commute |
| Text.Split | backend/app/services/transcript_service.py:37 | `split()` fields are non-empty, hold no whitespace and hold only characters of the text; SplitField and SplitAtSpace fix them as the maximal non-whitespace runs |
| Text.SplitKeepsNonSpace | backend/test_elevenlabs.py:54-55 | the fields, concatenated, are exactly the non-whitespace characters in order |
| Text.SplitEmptyIff | backend/app/services/transcript_service.py:36-37 | splitting gives no words exactly when the text is blank |
| Text.SplitField | backend/app/services/transcript_service.py:37 | a non-empty run without whitespace is exactly one field |
| Text.SplitAtSpace | backend/app/services/transcript_service.py:37 | fields never cross whitespace: splitting at a whitespace character gives the two sides' fields, concatenated |
| Text.Scrub | metrics/scores.py:85 | every character other than a word character or apostrophe becomes a space, and the rest are kept |
| Text.ScrubNonSpace | metrics/scores.py:85-86 | after scrubbing, the non-space characters are exactly the token characters |
| Text.Tokenize | metrics/scores.py:75-86 | an empty text has no tokens; TokenizeWord and TokenizeAtSeparator fix the token boundaries |
| Text.TokenizeTokens | metrics/scores.py:75-86 | every token is non-empty, lower-case and made of word characters and apostrophes |
| Text.TokenizeNoTokenChars | metrics/scores.py:85-86 | a text with no word character or apostrophe has no tokens |
| Text.TokenizeKeepsTokenChars | metrics/scores.py:84-86 | the tokens, concatenated, are exactly the lowered text's token characters in order |
| Text.TokenizeIgnoresCase | metrics/count_filler_words.py:11 | texts equal up to case give the same tokens |
| Text.TokenizeWord | metrics/scores.py:75-86 | a non-empty run of word characters and apostrophes is one token, lower-cased |
| Text.TokenizeAtSeparator | metrics/scores.py:75-86 | a character other than a word character or apostrophe separates tokens: the text tokenizes as its two sides, concatenated |
| Normalize.Clip | metrics/scores.py:116 | the clipped value lies in the range, is the value itself inside it, and is the nearer bound outside |
| Normalize.NormalizeMetric | metrics/scores.py:93-136 | it fails exactly on a non-increasing range or reversed ideal band, with that error; otherwise the score is in [0, 100] and is 100 exactly when the clipped value is in the ideal band, bounds included; the degenerate branches are unreachable |
| Normalize.NormalizeBelowBand | metrics/scores.py:123-127 | below the band the score is `100*(v-min)/(ideal_min-min)` |
| Normalize.NormalizeAboveBand | metrics/scores.py:128-133 | above the band the score is `100*(max-v)/(max-ideal_max)` |
| Normalize.NormalizeAtFloor | metrics/scores.py:116-127 | any raw value at or below `min_value` scores 0 |
| Normalize.NormalizeAtCeiling | metrics/scores.py:116-133 | any raw value at or above `max_value` scores 0 |
| Normalize.NormalizeMonotoneBelow | metrics/scores.py:115-136 | up to the ideal band, a larger raw value never scores lower |
| Normalize.NormalizeMonotoneAbove | metrics/scores.py:115-136 | from the ideal band up, a larger raw value never scores higher |
| Metrics.PositionalMatches | metrics/scores.py:161-162 | positional matches never exceed either token count |
| Metrics.AllMatchedIffPrefix | metrics/scores.py:161-162 | every predicted token matches exactly when the prediction is a prefix of the reference |
| Metrics.Percentage | metrics/scores.py:164 | `100*c/t` lies in [0, 100], is 100 exactly when c equals t, and times t gives 100*c |
| Metrics.PrecisionTranscription | metrics/scores.py:154-164 | 0 with no predicted tokens, otherwise 100 × positional matches / predicted count; always in [0, 100] |
| Metrics.PrecisionFullIffPrefix | metrics/scores.py:154-164 | precision is 100 exactly when the predicted tokens are a non-empty prefix of the reference tokens |
| Metrics.PrecisionIdentical | metrics/scores.py:154-164 | identical non-empty token lists score 100 |
| Metrics.PerMinute | metrics/scores.py:167-183 | a rate is present exactly when the duration is positive and the count present; it equals `count*60000/audio_ms` and is non-negative for non-negative counts (the filler rate at lines 186-202 is the same code) |
| Fillers.Lookup | metrics/count_filler_words.py:31 | a key lookup is absent exactly when no member has that key |
| Fillers.KeyOrder | metrics/count_filler_words.py:41 | iterating an object visits exactly its keys |
| Fillers.Elements | metrics/count_filler_words.py:41 | iterating a value fails exactly when it is neither a list, a string nor an object |
| Fillers.FillerEntries | metrics/count_filler_words.py:24-38 | a missing file, invalid JSON and a value that is neither a list nor an object give their errors; a list is taken as is; an object's `filler_words` value is iterated (a scalar is NotIterable), and a missing key gives the empty list |
| Fillers.NormalizedEntry | metrics/count_filler_words.py:41 | `w.strip().lower()` of a non-blank string is a non-empty, lower-case, stripped word |
| Fillers.EntryWord | metrics/count_filler_words.py:41 | an entry yields a word only as a normalised lexicon word |
| Fillers.CollectMembers | metrics/count_filler_words.py:41 | the filtered comprehension holds exactly the words some entry yields |
| Fillers.NormalizeFillers | metrics/count_filler_words.py:41 | every loaded word is non-empty, lower-case and stripped |
| Fillers.NormalizeFillersMembers | metrics/count_filler_words.py:41 | a word is loaded exactly when some string entry normalises to it; non-strings and blanks are dropped |
| Fillers.LoadFillerWords | metrics/count_filler_words.py:16-41 | loading fails exactly when the file's format is rejected, and yields only normalised words |
| Fillers.FillerSet | backend/app/services/metrics_service.py:49 | the set comprehension holds only normalised words |
| Fillers.LoadFillerWordsSet | backend/app/services/metrics_service.py:30-49 | the set loader fails exactly when the format is rejected, and yields only normalised words |
| Fillers.LoadersAgree | backend/app/services/metrics_service.py:30-49 | the set loader and the list loader fail alike and hold the same words |
| Fillers.CountFillers | metrics/count_filler_words.py:74 | the count never exceeds the number of tokens |
| Fillers.CountFillersAppend | metrics/count_filler_words.py:74 | the count of a concatenation is the sum of the counts |
| Fillers.CountFillersAll | metrics/count_filler_words.py:74 | the count equals the token count exactly when every token is a filler |
| Fillers.CountFillersNone | metrics/count_filler_words.py:74 | the count is 0 exactly when no token is a filler |
| Fillers.CountFillerWordsFromFile | metrics/count_filler_words.py:68-75 | an empty transcription counts 0 without reading the file; otherwise a load error propagates, else the count is at most the token count |
| Fillers.CountFillerWordsCached | backend/app/services/metrics_service.py:86-102 | an empty transcription counts 0; the count is at most the token count |
| Fillers.CountersAgree | backend/app/services/metrics_service.py:86-102 | the cached counter gives the same count as the file-based counter |
| Fillers.CountIgnoresCase | metrics/count_filler_words.py:72-74 | transcriptions differing only in letter case give the same count |
| Lexical.LemmaLower | metrics/lexical_variability.py:66-67 | a token's lemma, or its text when the lemma is empty, lower-cased |
| Lexical.Alphabetic | metrics/lexical_variability.py:50 | the tokens with `is_alpha`, in document order |
| Lexical.Lemmas | metrics/lexical_variability.py:76 | one lemma per token |
| Lexical.PartitionSizes | metrics/lexical_variability.py:70-71 | content and stopword tokens add up to the alphabetic tokens |
| Lexical.CardToSet | metrics/lexical_variability.py:77 | distinct lemmas number at most the lemmas, at least 1 when there are any, and all of them exactly when none repeats |
| Lexical.DistinctRatio | metrics/lexical_variability.py:73-77 | 0 for no tokens, otherwise in (0, 1] |
| Lexical.DistinctRatioFull | metrics/lexical_variability.py:73-77 | the ratio is 1 exactly when no lemma repeats |
| Lexical.PosLemmas | metrics/lexical_variability.py:86-91 | a class's lemma list is no longer than the tokens |
| Lexical.PosLemmasLength | metrics/lexical_variability.py:86-91 | a class's lemma list has one entry per token of that class |
| Lexical.PosOrderComplete | metrics/lexical_variability.py:85-91 | `pos_stats` keys are exactly the parts of speech that occur |
| Lexical.PosOrderDistinct | metrics/lexical_variability.py:85-91 | each part of speech is keyed once |
| Lexical.PosEntriesSpec | metrics/lexical_variability.py:85-91 | after the first loop each entry holds its class's lemmas and their number |
| Lexical.RepetitionPenalty | metrics/lexical_variability.py:93-99 | the penalty of a non-empty class lies in [0, 1) |
| Lexical.PenaltyZeroIffDistinct | metrics/lexical_variability.py:96-99 | the penalty is 0 exactly when no lemma of the class repeats |
| Lexical.PosSummariesSpec | metrics/lexical_variability.py:93-104 | each summary counts its class, has 1 ≤ unique ≤ count and penalty `1 - unique/count` in [0, 1) |
| Lexical.MergeWeights | metrics/lexical_variability.py:108-133 | caller weights override the defaults, other defaults stay, and keys are the union |
| Lexical.WeightLookup | metrics/lexical_variability.py:132-140 | a class's weight is the caller's, else the default, else 1.0 |
| Lexical.WeightOf | metrics/lexical_variability.py:140 | `dict.get(pos, 1.0)` on the merged weights |
| Lexical.WeightedPenalty | metrics/lexical_variability.py:139-143 | the sum over the `pos_stats` keys of weight × repetition penalty; WeightedPenaltyBounds and WeightedPenaltyZero state its bounds |
| Lexical.GlobalPenalty | metrics/lexical_variability.py:145-148 | the weighted penalty sum over the total weight, or 0.0 when the total weight is not positive; GlobalPenaltyBounds puts it in [0, 1] |
| Lexical.Clamp100 | metrics/lexical_variability.py:152 | the clamp lies in [0, 100] and leaves values already there unchanged |
| Lexical.LexicalVariability | metrics/lexical_variability.py:29-166 | blank text gives the all-zero result; the score is in [0, 100]; content plus stopword counts equal the total |
| Lexical.EmptyResult | metrics/lexical_variability.py:29-42 | the all-zero result with empty statistics and the caller's weights |
| Lexical.ResultFor | metrics/lexical_variability.py:66-166 | the result for a non-empty list of alphabetic tokens: the three Distinct-1 ratios, the clamped score, the per-class statistics, the counts and the merged weights |
| Lexical.PosEntriesStep | metrics/lexical_variability.py:86-91 | one token's step adds its lemma to its class and keys a new class at the end |
| Lexical.RecordToken | metrics/lexical_variability.py:87-91 | the loop body records one token as the specification's step says |
| Lexical.BuildPosStats | metrics/lexical_variability.py:85-91 | the first loop builds exactly the specified `pos_stats` and key order |
| Lexical.SummarizePosStats | metrics/lexical_variability.py:93-104 | the second loop replaces every entry by its summary, keyed alike |
| Lexical.AccumulateWeights | metrics/lexical_variability.py:136-143 | the weights loop computes the specified total weight, weighted sum and weighted entries |
| Lexical.SummariesMatch | metrics/lexical_variability.py:93-104 | summaries of the first loop's entries are the specified per-class summaries |
| Lexical.RepetitionByPos | metrics/lexical_variability.py:85-148 | the three loops together produce the specified key order, statistics and global penalty |
| Lexical.ComputeLexicalVariability | metrics/lexical_variability.py:29-166 | the imperative computation returns the specified result |
| Lexical.PosStatsSpec | metrics/lexical_variability.py:93-143 | every returned entry has the class count, 1 ≤ unique ≤ count, penalty `1 - unique/count` in [0, 1) and its weight |
| Lexical.PosStatsMapLookup | metrics/lexical_variability.py:139-143 | the returned statistics are keyed by the classes, each with its summary and weight |
| Lexical.WeightedPenaltyBounds | metrics/lexical_variability.py:136-143 | with non-negative weights, 0 ≤ weighted sum ≤ total weight |
| Lexical.WeightedMeanBounds | metrics/lexical_variability.py:145-148 | a positive total weight gives a weighted mean penalty in [0, 1] |
| Lexical.GlobalPenaltyBounds | metrics/lexical_variability.py:145-152 | the global penalty lies in [0, 1] (0 when the total weight is 0), so the clamp never alters the score |
| Lexical.WeightedPenaltyZero | metrics/lexical_variability.py:139-143 | all-zero penalties give a zero weighted sum |
| Lexical.DistinctZeroPenalty | metrics/lexical_variability.py:96-99 | a class without repeated lemmas has penalty 0 |
| Lexical.NoRepetitionZeroPenalty | metrics/lexical_variability.py:96-148 | when no lemma repeats within any class, the global penalty is 0 |
| Lexical.ZeroPenaltiesZeroGlobal | metrics/lexical_variability.py:139-148 | zero penalties in every class give a zero global penalty |
| Lexical.NoRepetitionFullScore | metrics/lexical_variability.py:96-152 | when no lemma repeats within any class, the score is 100 |
| Lexical.NoAlphabeticTokens | metrics/lexical_variability.py:29-64 | blank text or text without alphabetic tokens gives zero ratios, score, counts and statistics |
| Measure.CountOf | metrics/scores.py:249 | `raw_counts.get(key)`: the caller's value, or none |
| Measure.WordCount | metrics/scores.py:249-253 | the caller's word count wins, otherwise the token count of a non-empty transcription, otherwise none |
| Measure.FillerCount | metrics/scores.py:256-268 | the caller's filler count wins; a missing lexicon leaves it unknown; other load errors abort; a computed count is at most the token count |
| Measure.LexicalText | metrics/scores.py:347-353 | the lexical text is empty exactly when both transcription and summary are |
| Measure.Candidates | metrics/scores.py:273-362 | the four raw values in block order: positional precision with both texts, words and fillers per minute with a count and a positive duration, Distinct-1 without stopwords with lexical text |
| Measure.Record | metrics/scores.py:273-289 | one metric block: a configured metric with a raw value is normalised into the table or aborts; otherwise its name joins the skipped list |
| Measure.Tabulate | metrics/scores.py:270-376 | the four metric blocks in order, the first abort ending the run; TabulateExactlyOnce, TabulateScores and TabulateFailure state its meaning |
| Measure.ScoreMetric | metrics/scores.py:273-289 | one metric block scores a configured, available metric and otherwise appends it to the skipped list |
| Measure.TabulatePrefix | metrics/scores.py:270-376 | the metric blocks run in order, and an abort stops the rest |
| Measure.ScoreMetrics | metrics/scores.py:270-376 | the four metric blocks produce the specified metric table and skipped list |
| Measure.BuildDimensions | metrics/scores.py:381-391 | the dimensions loop produces the specified dimension map |
| Measure.ResolveFillerCount | metrics/scores.py:255-268 | the filler-count block yields the specified count or error |
| Measure.Measure | metrics/scores.py:209-397 | the whole computation: settle the counts, then MeasureWith; the Measure* lemmas state its properties |
| Measure.MeasureWith | metrics/scores.py:270-397 | the metric table, dimensions and metadata once both counts are known |
| Measure.MeasureSpeechMetrics | metrics/scores.py:209-397 | the imperative computation returns the specified result |
| Measure.MeasureCounted | metrics/scores.py:270-397 | once the counts are settled, the rest of the computation returns the specified result |
| Measure.TabulateFailureSticks | metrics/scores.py:277-283 | once a block has aborted, the result is that abort |
| Measure.TabulateExactlyOnce | metrics/scores.py:270-376 | each metric name ends up scored exactly when configured and available, and is otherwise in the skipped list, in order |
| Measure.TabulateScores | metrics/scores.py:277-287 | every scored metric's score is its normalised raw value, in [0, 100] |
| Measure.TabulateRaw | metrics/scores.py:284-287 | a scored metric's raw value is the computed one |
| Measure.TabulateFailure | metrics/scores.py:270-376 | the table aborts exactly when some configured, available metric has rejected parameters |
| Measure.PresentScoresEmpty | metrics/scores.py:383-388 | a dimension has no scores exactly when none of its metrics is present |
| Measure.PresentScoresWithin | metrics/scores.py:383-387 | bounded metric scores give bounded dimension inputs |
| Measure.Dimensions | metrics/scores.py:381-391 | one entry per configured dimension: the mean of its present metric scores, or None; DimensionsSpec states its meaning |
| Measure.DimensionsSpec | metrics/scores.py:381-391 | every configured dimension gets a key; it is None exactly when none of its metrics is present; otherwise the mean is within the scores' bounds |
| Measure.TableEntry | metrics/scores.py:270-376 | each of the four metrics is present exactly when configured and computable, with its raw value and a score in [0, 100] |
| Measure.MeasureCounts | metrics/scores.py:245-268 | the metadata records the settled word and filler counts, the duration and whether the summary was used |
| Measure.MeasureScoredOrSkipped | metrics/scores.py:270-376 | each of the four metric names is in exactly one of `metrics` and `skipped_metrics`, and no other name appears |
| Measure.MeasurePrecision | metrics/scores.py:273-289 | precision is scored exactly when configured with a transcription and a reference, with the positional precision as raw value |
| Measure.MeasureWordsPerMinute | metrics/scores.py:294-313 | words per minute is scored exactly when configured with a positive duration and a word count, with the rate as raw value |
| Measure.MeasureFillersPerMinute | metrics/scores.py:319-339 | the filler rate is scored exactly when configured with a positive duration and a filler count, and is echoed in the metadata |
| Measure.MeasureLexical | metrics/scores.py:344-376 | lexical variability is scored exactly when configured with a transcription or summary, its raw value being the content-word Distinct-1 |
| Measure.MeasureDimensions | metrics/scores.py:381-391 | dimensions are keyed as configured; each is None exactly when no metric of it is present, else the mean of the present scores in [0, 100] |
| Measure.MeasureFailure | metrics/scores.py:256-376 | the call aborts exactly when the lexicon fails other than by being missing, or a scored metric has rejected parameters |
| Measure.MeasureMissingLexicon | metrics/scores.py:263-265 | a missing lexicon with no caller count leaves the filler count unknown and the filler rate skipped |
| Resources.PreparedCounts | backend/app/services/metrics_service.py:127-132 | caller counts are kept; the filler count is added only for a non-empty transcription without that key, from the cached set |
| Resources.PreparedCountsAgree | backend/app/services/metrics_service.py:127-132 | pre-counting against the cached set changes no filler count downstream |
| Resources.ResourceCache.constructor | backend/app/services/metrics_service.py:11-13 | all three slots start empty |
| Resources.ResourceCache.LoadResources | backend/app/services/metrics_service.py:52-83 | a filled slot is never reloaded or replaced; an empty slot takes its load's outcome, and a failed load leaves it empty |
| Resources.ResourceCache.Status | backend/app/services/metrics_service.py:208-214 | each flag is set exactly when its slot is filled |
| Resources.ResourceCache.ComputeMetricsSync | backend/app/services/metrics_service.py:105-132 | fails exactly when the parameters or filler slot is empty (an empty spaCy slot is tolerated); otherwise passes on the cached resources and the prepared counts |
| Transcript.AudioDuration | backend/app/services/transcript_service.py:16-57 | word timing wins, then the probe, then a positive word count at 2.5 words a second; the word count is the text's split length, else the count given |
| Transcript.EstimateIs150WordsPerMinute | backend/app/services/transcript_service.py:53-55 | an estimated duration implies exactly 150 words a minute |
| Transcript.CalculateAudioDuration | backend/app/services/transcript_service.py:16-57 | the step-by-step fallbacks give the specified duration and count |
| Transcript.AllowedMetrics | backend/app/services/transcript_service.py:87-98 | the allowed metric names: precision and the two rates for stage 1, the two rates and lexical variability otherwise |
| Transcript.FilterMetricsByStage | backend/app/services/transcript_service.py:82-103 | the result is a sub-map with unchanged values, holding exactly the input's metrics allowed for the stage |
| Transcript.FilterByStage | backend/app/services/transcript_service.py:87-98 | stage 1 drops lexical variability, other stages drop precision, the two rates are always kept |
| Transcript.FilterIdempotent | backend/app/services/transcript_service.py:100-103 | filtering twice by the same stage equals filtering once |
| Transcript.ScoreOf | backend/app/services/transcript_service.py:121-125 | a score is present exactly when its metric is |
| Transcript.CalculateDimensions | backend/app/services/transcript_service.py:106-142 | rhythm is the mean of the present rate scores; stage 1 has clarity from precision and no vocabulary, others the reverse with vocabulary from lexical variability |
| Transcript.RhythmScores | backend/app/services/transcript_service.py:112-116 | the scores of the two rates that are present, words per minute first |
| Transcript.RhythmCases | backend/app/services/transcript_service.py:112-117 | rhythm is None exactly when neither rate is present, the average of both when both are, and the one score otherwise |
| Transcript.DimensionsWithin | backend/app/services/transcript_service.py:106-142 | scores in [0, 100] give dimensions in [0, 100] |
| Transcript.FilterKeepsDimensions | backend/app/services/transcript_service.py:82-142 | filtering by the stage first changes no dimension |
| Session.Matching | backend/app/services/scores_service.py:53-57 | a name's pairs are no more than the records |
| Session.Group | backend/app/services/scores_service.py:52-57 | `metrics_by_name`: each record's (value, score) pair appended under its name; GroupSpec states its meaning |
| Session.GroupSpec | backend/app/services/scores_service.py:53-57 | a group exists exactly for the names that occur; it is non-empty and holds exactly that name's pairs in encounter order |
| Session.GroupByName | backend/app/services/scores_service.py:52-57 | the grouping loop builds the specified groups, and its key list names exactly the groups |
| Session.Raws | backend/app/services/scores_service.py:63 | the raw values of the pairs, in order |
| Session.Scores | backend/app/services/scores_service.py:64 | the scores of the pairs, in order |
| Session.MeanOrZero | backend/app/services/scores_service.py:66-67 | `sum(xs) / len(xs) if xs else 0.0`; AveragedWithin bounds it for the non-empty groups that occur |
| Session.Averaged | backend/app/services/scores_service.py:63-72 | one group's mean raw value and mean score, 0.0 for an empty list; AveragedWithin bounds them |
| Session.Averages | backend/app/services/scores_service.py:60-72 | an average exists exactly for the grouped names that are configured, as the means of raw values and of scores |
| Session.AveragedWithin | backend/app/services/scores_service.py:66-67 | averaged raw value and score stay within the group's bounds |
| Session.AverageGroups | backend/app/services/scores_service.py:59-72 | the averaging loop builds the specified averages |
| Session.RhythmMetrics | backend/app/services/scores_service.py:88-102 | rhythm metrics are None exactly when neither rate is averaged, and otherwise hold exactly the averaged rates |
| Session.PresentValues | backend/app/services/scores_service.py:118-124 | the overall inputs are empty exactly when all three dimensions are None |
| Session.SingleDimension | backend/app/services/scores_service.py:75-82 | a one-metric dimension is that metric's average, or None without it |
| Session.ClarityAndVocabulary | backend/app/services/scores_service.py:75-115 | clarity is the averaged precision score and vocabulary the averaged lexical score, each None when absent |
| Session.WeightedRepeat | backend/app/services/scores_service.py:88-101 | the mean of m copies of a and n copies of b is their count-weighted mean |
| Session.RhythmWeighted | backend/app/services/scores_service.py:88-101 | rhythm is None exactly when both rates are absent, the count-weighted mean when both are present, and the one average otherwise |
| Session.OverallSpec | backend/app/services/scores_service.py:117-129 | overall is None exactly when all three dimensions are, otherwise the mean of the present ones |
| Session.PresentValuesWithin | backend/app/services/scores_service.py:118-124 | bounded dimensions give bounded overall inputs |
| Session.CombineWithin | backend/app/services/scores_service.py:74-129 | bounded averages give bounded clarity, rhythm, vocabulary and overall |
| Session.RhythmDimension | backend/app/services/scores_service.py:88-102 | the rhythm block gives the mean of each averaged rate's score repeated once per record, and the averaged rates as its metrics |
| Session.OverallDimension | backend/app/services/scores_service.py:117-129 | the overall block gives the mean of the dimensions that are present, None when none is |
| Session.Combine | backend/app/services/scores_service.py:74-129 | clarity, rhythm, vocabulary and overall with their metric maps; RhythmWeighted, ClarityAndVocabulary, OverallSpec and CombineWithin state their meaning |
| Session.CombineDimensions | backend/app/services/scores_service.py:74-129 | the step-by-step computation gives the specified dimension scores and metric maps |
| Session.Respond | backend/app/services/scores_service.py:157-172 | one response: name and score, the feedback or "" when the task raised, and no metrics for overall |
| Session.Entries | backend/app/services/scores_service.py:136-151 | `dimension_data`: each dimension appended when its score is present; EntriesSpec states its meaning |
| Session.Responses | backend/app/services/scores_service.py:156-172 | one response per entry: its name and score, the feedback or "" when the task raised, and no metrics for overall |
| Session.AppendStep | backend/app/services/scores_service.py:137-151 | each conditional append adds its dimension exactly when its score is present, keeping the order |
| Session.EntriesSpec | backend/app/services/scores_service.py:136-151 | `dimension_data` lists exactly the present dimensions with their scores in the order clarity, rhythm, vocabulary, overall |
| Session.ResponsesSpec | backend/app/services/scores_service.py:131-172 | the response lists a dimension exactly when its score is present, with that score, in order; overall carries no metrics; a raised feedback task gives "" |
| Session.RespondAll | backend/app/services/scores_service.py:156-172 | the response loop builds the specified responses |
| Session.AveragesBacked | backend/app/services/scores_service.py:52-72 | every averaged name has a non-empty group |
| Session.MatchingWithin | backend/app/services/scores_service.py:53-57 | a group's scores keep the records' bounds |
| Session.AveragesWithin | backend/app/services/scores_service.py:59-72 | record scores in bounds give averaged scores in the same bounds |
| Session.ResponsesWithin | backend/app/services/scores_service.py:156-172 | bounded dimension scores give bounded response scores |
| Session.FinalScoresWithin | backend/app/services/scores_service.py:52-172 | record scores in [0, 100] give response scores in [0, 100] |
| Session.FinalScores | backend/app/services/scores_service.py:52-172 | grouping, averaging, combining and responding in sequence; ResponsesSpec and FinalScoresWithin state its meaning |
| Session.CalculateFinalScores | backend/app/services/scores_service.py:52-172 | the whole aggregation returns the specified response list |
| EditDistance.Min3 | backend/test_elevenlabs.py:70-74 | the minimum is one of the three and below each |
| EditDistance.Cost | backend/test_elevenlabs.py:69 | the substitution cost is 0 exactly for equal words, else 1 |
| EditDistance.Dist | backend/test_elevenlabs.py:61-74 | the dp recurrence: the borders are the prefix lengths, and every other cell is the minimum of deletion, insertion and substitution |
| EditDistance.DistUpper | backend/test_elevenlabs.py:66-74 | the distance is at most the longer prefix length |
| EditDistance.DistLower | backend/test_elevenlabs.py:66-74 | the distance is at least the difference of the prefix lengths |
| EditDistance.DistZeroIff | backend/test_elevenlabs.py:66-74 | the distance is 0 exactly when the two word prefixes are equal |
| EditDistance.MatchScore | backend/test_elevenlabs.py:76-77 | the match lies in [0, 100] |
| EditDistance.ClampedFullIffZero | backend/test_elevenlabs.py:76-77 | the clamped match is 100 exactly when the distance is 0 |
| EditDistance.MatchFullIffIdentical | backend/test_elevenlabs.py:69-77 | the match is 100 exactly when the word lists are identical |
| EditDistance.EmptyReference | backend/test_elevenlabs.py:76 | an empty reference divides by 1: 100 for an empty transcription, otherwise 0 |
| EditDistance.DistanceTable | backend/test_elevenlabs.py:57-74 | every table cell, borders included, holds the edit distance of its prefixes |
| EditDistance.FillRow | backend/test_elevenlabs.py:67-74 | one row is filled from the rows above by the minimum rule, and other rows are untouched |
| EditDistance.Precision | backend/test_elevenlabs.py:53-78 | `precision` returns the specified match, in [0, 100] |

## Left out

- Unicode beyond Latin-1 is not modelled: `\w`, `str.lower()` and whitespace are modelled over Latin-1, and other characters count as non-word, unchanged and non-space.
- `round(x, 2)` / `round(x, 4)` and IEEE float behaviour are not modelled; values are exact reals.
- spaCy loading (`load_spanish_nlp`, `get_spanish_nlp`, the `_NLP_ES` global) is a foreign call. Its analysis is a function parameter, and the cache's load attempt is an `Option` input.
- `_load_parameters` and the `parameters.json` read are I/O. The parsed value is an input, and a non-empty metric configuration missing one of the four range keys (a `KeyError` in the source) is not representable.
- An empty (`{}`) or `null` metric configuration is falsy, so each metric block skips that metric into `skipped_metrics` without a `KeyError` (metrics/scores.py:275, 296, 321 and 355). `MetricConfig` has no empty or null value, so the model has no such configuration; the nearest case it does express is a name missing from the configuration map, which the blocks skip in the same way.
- File existence and JSON parsing of `filler_words.json` are I/O, taken as a `FillerFile` outcome.
- Measure.WordCount and Measure.FillerCount: counts are `Option<int>`. The source's `isinstance(..., (int, float))` check and `int()` truncation of float counts are not modelled.
- Database queries and persistence are outside the model; the session records are an input sequence. This covers `calculate_final_scores` lines 48-50, `get_or_create_exercise` and `save_transcription_and_metrics`.
- The parameters cache-or-file fallback at the head of `calculate_final_scores` (lines 20-45) is I/O; the metrics configuration is an input.
- Async plumbing is not modelled: `asyncio.gather`, `asyncio.to_thread` and the `calculate_metrics` wrapper. A raised feedback task is the value `None`, and thread safety is not modelled.
- Resources.ResourceCache.ComputeMetricsSync: the model stops where the source calls `measure_speech_metrics` with `_cached_*` arguments that the shown `measure_speech_metrics` does not accept. It returns what would be handed over. The spaCy warning print is omitted.
- The mutagen audio-metadata probe is an input `probe`, `None` when the probe raises or reports no length.
- The LLM feedback generator (`generate_dimension_feedback`), the speech-to-text and HTTP services and the FastAPI routing are external services. Feedback is a function parameter.
- `palabras_por_min` and the tkinter and network code of the ElevenLabs test script are top-level script code, not part of the scoring.
- EditDistance.Precision takes the transcription text directly instead of the `transcription["text"]` dictionary lookup.
