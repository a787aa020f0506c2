/**
 * `measure_speech_metrics`: compute the four metrics, normalise each one that
 * is configured and computable to a 0–100 score, record the others as
 * skipped, and average each dimension's present scores.
 *
 * The parsed `parameters.json`, the filler lexicon file and the spaCy
 * analysis are parameters. A metric configuration that `normalize_metric`
 * rejects, and a filler lexicon that is present but unusable, abort the call
 * (the source raises); a missing lexicon only leaves the filler count unknown.
 */
module Measure {
  import opened Wrappers
  import opened Common
  import opened Text
  import opened Normalize
  import opened Stats
  import opened Metrics
  import opened Fillers
  import opened Lexical

  const NumWordsKey: string := "num_words"
  const NumFillersKey: string := "num_filler_words"
  const LexicalSourceName: string := "distinct_1_no_stopwords"

  datatype MeasureError = NormalizeFailed(cause: NormalizeError) | FillerLoadFailed(load: LoadError)

  /** The `metadata` dict of the result. */
  datatype Metadata = Metadata(
    audioMs: int,
    numWords: Option<int>,
    numFillerWords: Option<int>,
    fillersPerMinute: Option<real>,
    usedSummary: bool,
    lexicalSource: Option<string>,
    skipped: seq<string>,
    lexicalDetails: Option<LexicalResult>)

  datatype Measurement = Measurement(
    metrics: map<string, MetricScore>,
    dimensions: map<string, Option<real>>,
    metadata: Metadata)

  /** The metrics computed so far and the names skipped so far, in order. */
  datatype Table = Table(metrics: map<string, MetricScore>, skipped: seq<string>)

  // ---------------------------------------------------------------
  // Counts
  // ---------------------------------------------------------------

  /** `raw_counts.get(key)`: an absent key and a `None` value both read as `None`. */
  function CountOf(rawCounts: map<string, Option<int>>, key: string): Option<int> {
    if key in rawCounts then rawCounts[key] else None
  }

  /** The word count: the caller's value wins; otherwise the transcription's
      token count when there is a transcription. */
  function WordCount(rawCounts: map<string, Option<int>>, transcription: string): (r: Option<int>)
    ensures CountOf(rawCounts, NumWordsKey).Some? ==> r == CountOf(rawCounts, NumWordsKey)
    ensures CountOf(rawCounts, NumWordsKey).None? ==>
              r == (if transcription == [] then None else Some(|Tokenize(transcription)|))
  {
    var given := CountOf(rawCounts, NumWordsKey);
    if given.None? && transcription != [] then Some(|Tokenize(transcription)|) else given
  }

  /**
   * The filler count: the caller's value wins; otherwise it is counted from
   * the lexicon file when there is a transcription. A missing file leaves the
   * count unknown; any other loading error aborts.
   */
  function FillerCount(rawCounts: map<string, Option<int>>, transcription: string, file: FillerFile)
    : (r: Result<Option<int>, LoadError>)
    ensures CountOf(rawCounts, NumFillersKey).Some? || transcription == [] ==>
              r == Success(CountOf(rawCounts, NumFillersKey))
    ensures CountOf(rawCounts, NumFillersKey).None? && transcription != [] ==>
              (r.Failure? <==> LoadFillerWords(file).Failure? && LoadFillerWords(file).error != FileNotFound)
    ensures r.Success? && r.value.Some? && CountOf(rawCounts, NumFillersKey).None? ==>
              0 <= r.value.value <= |Tokenize(transcription)|
  {
    var given := CountOf(rawCounts, NumFillersKey);
    if given.Some? || transcription == [] then Success(given)
    else
      match CountFillerWordsFromFile(transcription, file)
      case Success(n) => Success(Some(n))
      case Failure(e) => if e == FileNotFound then Success(None) else Failure(e)
  }

  /** The text the lexical metric reads: the transcription, else the summary. */
  function LexicalText(transcription: string, summary: string): (r: string)
    ensures r == [] <==> transcription == [] && summary == []
  {
    if transcription != [] then transcription else summary
  }

  // ---------------------------------------------------------------
  // Metric table
  // ---------------------------------------------------------------

  /** The raw value of each metric, in `MetricNames` order, when its inputs are available. */
  function Candidates(audioMs: int, transcription: string, reference: string, lexText: string,
                      numWords: Option<int>, numFillers: Option<int>, nlp: Analyzer): (r: seq<Option<real>>)
    ensures |r| == |MetricNames|
  {
    [ if transcription != [] && reference != [] then Some(PrecisionTranscription(transcription, reference)) else None,
      PerMinute(audioMs, numWords),
      PerMinute(audioMs, numFillers),
      if lexText != [] then Some(LexicalVariability(lexText, nlp, map[]).distinctNoStopwords) else None ]
  }

  /** One metric block: score the raw value when the metric is configured and
      the value is available, else record the metric as skipped. */
  function Record(cfgs: map<string, MetricConfig>, t: Table, name: string, raw: Option<real>)
    : (r: Result<Table, NormalizeError>)
  {
    if name in cfgs && raw.Some? then
      var c := cfgs[name];
      var score :- NormalizeMetric(raw.value, c.minValue, c.maxValue, c.idealMin, c.idealMax);
      Success(Table(t.metrics[name := MetricScore(raw.value, score)], t.skipped))
    else
      Success(Table(t.metrics, t.skipped + [name]))
  }

  /** The metric blocks in order; the first rejected configuration aborts. */
  function Tabulate(cfgs: map<string, MetricConfig>, names: seq<string>, raws: seq<Option<real>>)
    : Result<Table, NormalizeError>
    requires |names| == |raws|
  {
    if names == [] then Success(Table(map[], []))
    else
      var n := |names| - 1;
      var t :- Tabulate(cfgs, names[..n], raws[..n]);
      Record(cfgs, t, names[n], raws[n])
  }

  /** A metric is scored when it is configured and its raw value is available. */
  ghost predicate Scored(cfgs: map<string, MetricConfig>, name: string, raw: Option<real>) {
    name in cfgs && raw.Some?
  }

  ghost predicate Rejected(cfgs: map<string, MetricConfig>, name: string, raw: Option<real>) {
    Scored(cfgs, name, raw)
    && !ValidParameters(cfgs[name].minValue, cfgs[name].maxValue, cfgs[name].idealMin, cfgs[name].idealMax)
  }

  ghost predicate NoDuplicates(names: seq<string>) {
    forall i, j :: 0 <= i < j < |names| ==> names[i] != names[j]
  }

  /** The names not in `metrics`, in order. */
  function Unscored(names: seq<string>, metrics: map<string, MetricScore>): seq<string> {
    if names == [] then []
    else
      var n := |names| - 1;
      Unscored(names[..n], metrics) + (if names[n] in metrics then [] else [names[n]])
  }

  // ---------------------------------------------------------------
  // Dimensions
  // ---------------------------------------------------------------

  /** The scores of the listed metrics that are present, in list order. */
  function PresentScores(names: seq<string>, metrics: map<string, MetricScore>): seq<real> {
    if names == [] then []
    else
      (if names[0] in metrics then [metrics[names[0]].score] else []) + PresentScores(names[1..], metrics)
  }

  /** Each configured dimension: the mean of its present metrics' scores, or `None`. */
  function Dimensions(dims: map<string, seq<string>>, metrics: map<string, MetricScore>)
    : map<string, Option<real>>
  {
    map d | d in dims :: MeanOrNone(PresentScores(dims[d], metrics))
  }

  // ---------------------------------------------------------------
  // The whole call
  // ---------------------------------------------------------------

  /** `measure_speech_metrics` as a function of its inputs. */
  function Measure(audioMs: int, transcription: string, reference: string, summary: string,
                   rawCounts: map<string, Option<int>>, params: Parameters, file: FillerFile, nlp: Analyzer)
    : Result<Measurement, MeasureError>
  {
    match FillerCount(rawCounts, transcription, file)
    case Failure(e) => Failure(FillerLoadFailed(e))
    case Success(numFillers) =>
      MeasureWith(audioMs, transcription, reference, summary, params, WordCount(rawCounts, transcription), numFillers, nlp)
  }

  /** The rest of `measure_speech_metrics` once both counts are settled. */
  function MeasureWith(audioMs: int, transcription: string, reference: string, summary: string,
                       params: Parameters, numWords: Option<int>, numFillers: Option<int>, nlp: Analyzer)
    : Result<Measurement, MeasureError>
  {
    var lexText := LexicalText(transcription, summary);
    var raws := Candidates(audioMs, transcription, reference, lexText, numWords, numFillers, nlp);
    match Tabulate(params.metrics, MetricNames, raws)
    case Failure(e) => Failure(NormalizeFailed(e))
    case Success(t) =>
      var lexical := LexicalName in params.metrics && lexText != [];
      var meta := Metadata(
        audioMs, numWords, numFillers,
        if FillersPerMinuteName in params.metrics then PerMinute(audioMs, numFillers) else None,
        transcription == [] && summary != [],
        if lexical then Some(LexicalSourceName) else None,
        t.skipped,
        if lexical then Some(LexicalVariability(lexText, nlp, map[])) else None);
      Success(Measurement(t.metrics, Dimensions(params.dimensions, t.metrics), meta))
  }

  /** One metric block of the source, applied to the table being built. */
  method ScoreMetric(cfgs: map<string, MetricConfig>, t: Table, name: string, raw: Option<real>)
    returns (r: Result<Table, NormalizeError>)
    ensures r == Record(cfgs, t, name, raw)
  {
    if name in cfgs && raw.Some? {
      var c := cfgs[name];
      var score := NormalizeMetric(raw.value, c.minValue, c.maxValue, c.idealMin, c.idealMax);
      if score.Failure? {
        return Failure(score.error);
      }
      return Success(Table(t.metrics[name := MetricScore(raw.value, score.value)], t.skipped));
    }
    return Success(Table(t.metrics, t.skipped + [name]));
  }

  /** The blocks up to `k` are the blocks before `k` followed by block `k`. */
  lemma TabulatePrefix(cfgs: map<string, MetricConfig>, names: seq<string>, raws: seq<Option<real>>, k: nat)
    requires |names| == |raws| && k < |names|
    ensures var before := Tabulate(cfgs, names[..k], raws[..k]);
            Tabulate(cfgs, names[..k + 1], raws[..k + 1])
            == if before.Failure? then before else Record(cfgs, before.value, names[k], raws[k])
  {
    assert names[..k + 1][..k] == names[..k];
    assert raws[..k + 1][..k] == raws[..k];
  }

  /** The four metric blocks of `measure_speech_metrics`, in order: each
      metric is scored or recorded as skipped, and a rejected configuration
      aborts. */
  method ScoreMetrics(cfgs: map<string, MetricConfig>, raws: seq<Option<real>>)
    returns (r: Result<Table, NormalizeError>)
    requires |raws| == |MetricNames|
    ensures r == Tabulate(cfgs, MetricNames, raws)
  {
    var t := Table(map[], []);
    assert MetricNames[..0] == [] && raws[..0] == [];
    // 1) Precision of the transcription
    var step0 := ScoreMetric(cfgs, t, MetricNames[0], raws[0]);
    TabulatePrefix(cfgs, MetricNames, raws, 0);
    if step0.Failure? {
      TabulateFailureSticks(cfgs, MetricNames, raws, 1);
      return Failure(step0.error);
    }
    t := step0.value;
    // 2) Words per minute
    var step1 := ScoreMetric(cfgs, t, MetricNames[1], raws[1]);
    TabulatePrefix(cfgs, MetricNames, raws, 1);
    if step1.Failure? {
      TabulateFailureSticks(cfgs, MetricNames, raws, 2);
      return Failure(step1.error);
    }
    t := step1.value;
    // 3) Filler words per minute
    var step2 := ScoreMetric(cfgs, t, MetricNames[2], raws[2]);
    TabulatePrefix(cfgs, MetricNames, raws, 2);
    if step2.Failure? {
      TabulateFailureSticks(cfgs, MetricNames, raws, 3);
      return Failure(step2.error);
    }
    t := step2.value;
    // 4) Lexical variability
    var step3 := ScoreMetric(cfgs, t, MetricNames[3], raws[3]);
    TabulatePrefix(cfgs, MetricNames, raws, 3);
    if step3.Failure? {
      TabulateFailureSticks(cfgs, MetricNames, raws, 4);
      return Failure(step3.error);
    }
    t := step3.value;
    assert MetricNames[..4] == MetricNames && raws[..4] == raws;
    return Success(t);
  }

  /** The dimension loop: one entry per configured dimension. */
  method BuildDimensions(dims: map<string, seq<string>>, metrics: map<string, MetricScore>)
    returns (dimensions: map<string, Option<real>>)
    ensures dimensions == Dimensions(dims, metrics)
  {
    dimensions := map[];
    var todo := dims.Keys;
    while todo != {}
      invariant todo <= dims.Keys
      invariant dimensions.Keys == dims.Keys - todo
      invariant forall d :: d in dimensions ==> dimensions[d] == MeanOrNone(PresentScores(dims[d], metrics))
      decreases |todo|
    {
      var d :| d in todo;
      dimensions := dimensions[d := MeanOrNone(PresentScores(dims[d], metrics))];
      todo := todo - {d};
    }
    assert dimensions == Dimensions(dims, metrics);
  }

  /** The filler-count block of `measure_speech_metrics`. */
  method ResolveFillerCount(rawCounts: map<string, Option<int>>, transcription: string, file: FillerFile)
    returns (r: Result<Option<int>, LoadError>)
    ensures r == FillerCount(rawCounts, transcription, file)
  {
    var numFillers := CountOf(rawCounts, NumFillersKey);
    if numFillers.None? && transcription != [] {
      var counted := CountFillerWordsFromFile(transcription, file);
      if counted.Success? {
        numFillers := Some(counted.value);
      } else if counted.error != FileNotFound {
        return Failure(counted.error);
      }
    }
    return Success(numFillers);
  }

  /** `measure_speech_metrics`, step by step: counts, the four metric blocks in
      order, then one dimension at a time. */
  method MeasureSpeechMetrics(audioMs: int, transcription: string, reference: string, summary: string,
                              rawCounts: map<string, Option<int>>, params: Parameters,
                              file: FillerFile, nlp: Analyzer)
    returns (r: Result<Measurement, MeasureError>)
    ensures r == Measure(audioMs, transcription, reference, summary, rawCounts, params, file, nlp)
  {
    var numWords := CountOf(rawCounts, NumWordsKey);
    if numWords.None? && transcription != [] {
      numWords := Some(|Tokenize(transcription)|);
    }
    var counted := ResolveFillerCount(rawCounts, transcription, file);
    if counted.Failure? {
      return Failure(FillerLoadFailed(counted.error));
    }
    r := MeasureCounted(audioMs, transcription, reference, summary, params, numWords, counted.value, nlp);
  }

  /** The metric blocks, the dimensions and the metadata, given both counts. */
  method MeasureCounted(audioMs: int, transcription: string, reference: string, summary: string,
                        params: Parameters, numWords: Option<int>, numFillers: Option<int>, nlp: Analyzer)
    returns (r: Result<Measurement, MeasureError>)
    ensures r == MeasureWith(audioMs, transcription, reference, summary, params, numWords, numFillers, nlp)
  {
    var lexText := if transcription != [] then transcription else summary;
    var lexical := LexicalName in params.metrics && lexText != [];
    var details: Option<LexicalResult> := None;
    if lexical {
      details := Some(LexicalVariability(lexText, nlp, map[]));
    }
    var raws := Candidates(audioMs, transcription, reference, lexText, numWords, numFillers, nlp);
    var fpm := if FillersPerMinuteName in params.metrics then PerMinute(audioMs, numFillers) else None;

    var cfgs := params.metrics;
    var table := ScoreMetrics(cfgs, raws);
    if table.Failure? {
      return Failure(NormalizeFailed(table.error));
    }
    var t := table.value;
    var dimensions := BuildDimensions(params.dimensions, t.metrics);

    var meta := Metadata(audioMs, numWords, numFillers, fpm, transcription == [] && summary != [],
                         if lexical then Some(LexicalSourceName) else None, t.skipped, details);
    r := Success(Measurement(t.metrics, dimensions, meta));
  }

  /** Once a prefix of the blocks fails, the whole table fails with the same error. */
  lemma {:induction false} TabulateFailureSticks(cfgs: map<string, MetricConfig>, names: seq<string>,
                                                 raws: seq<Option<real>>, k: nat)
    requires |names| == |raws| && k <= |names|
    requires Tabulate(cfgs, names[..k], raws[..k]).Failure?
    ensures Tabulate(cfgs, names, raws) == Tabulate(cfgs, names[..k], raws[..k])
  {
    if k < |names| {
      var n := |names| - 1;
      assert names[..n][..k] == names[..k] && raws[..n][..k] == raws[..k];
      TabulateFailureSticks(cfgs, names[..n], raws[..n], k);
    } else {
      assert names[..k] == names && raws[..k] == raws;
    }
  }

  // ---------------------------------------------------------------
  // Properties of the metric table
  // ---------------------------------------------------------------

  /** Adding a metric that is not listed yet leaves the earlier names' skipped/present status alone. */
  lemma {:induction false} UnscoredIgnoresOthers(names: seq<string>, metrics: map<string, MetricScore>,
                                                name: string, v: MetricScore)
    requires name !in names
    ensures Unscored(names, metrics[name := v]) == Unscored(names, metrics)
  {
    if names != [] {
      UnscoredIgnoresOthers(names[..|names| - 1], metrics, name, v);
    }
  }

  /**
   * With distinct metric names, a successful table holds exactly the scored
   * metrics and skips exactly the others, in the order the blocks ran; no name
   * is both scored and skipped.
   */
  lemma {:induction false} TabulateExactlyOnce(cfgs: map<string, MetricConfig>, names: seq<string>,
                                               raws: seq<Option<real>>)
    requires |names| == |raws| && NoDuplicates(names)
    requires Tabulate(cfgs, names, raws).Success?
    ensures var t := Tabulate(cfgs, names, raws).value;
            (forall i :: 0 <= i < |names| ==> (names[i] in t.metrics <==> Scored(cfgs, names[i], raws[i])))
            && (forall n :: n in t.metrics ==> n in names)
            && t.skipped == Unscored(names, t.metrics)
  {
    if names != [] {
      var n := |names| - 1;
      var init, rinit := names[..n], raws[..n];
      assert NoDuplicates(init) by {
        forall i, j | 0 <= i < j < |init| ensures init[i] != init[j] {
          assert init[i] == names[i] && init[j] == names[j];
        }
      }
      TabulateExactlyOnce(cfgs, init, rinit);
      var prev := Tabulate(cfgs, init, rinit).value;
      var t := Tabulate(cfgs, names, raws).value;
      assert names[n] !in init by {
        forall i | 0 <= i < |init| ensures init[i] != names[n] {
          assert init[i] == names[i];
        }
      }
      assert names == init + [names[n]];
      if Scored(cfgs, names[n], raws[n]) {
        UnscoredIgnoresOthers(init, prev.metrics, names[n], t.metrics[names[n]]);
      }
      forall i | 0 <= i < |names| ensures names[i] in t.metrics <==> Scored(cfgs, names[i], raws[i]) {
        if i < n {
          assert names[i] == init[i] && raws[i] == rinit[i];
        }
      }
    }
  }

  /** Every scored metric holds its raw value and the normaliser's score, which lies in [0, 100]. */
  lemma {:induction false} TabulateScores(cfgs: map<string, MetricConfig>, names: seq<string>,
                                          raws: seq<Option<real>>)
    requires |names| == |raws|
    requires Tabulate(cfgs, names, raws).Success?
    ensures var t := Tabulate(cfgs, names, raws).value;
            forall n :: n in t.metrics ==>
              n in cfgs && 0.0 <= t.metrics[n].score <= 100.0
              && NormalizeMetric(t.metrics[n].raw, cfgs[n].minValue, cfgs[n].maxValue,
                                 cfgs[n].idealMin, cfgs[n].idealMax) == Success(t.metrics[n].score)
  {
    if names != [] {
      TabulateScores(cfgs, names[..|names| - 1], raws[..|raws| - 1]);
    }
  }

  /** A scored metric's raw value is the candidate value of its (last) block. */
  lemma {:induction false} TabulateRaw(cfgs: map<string, MetricConfig>, names: seq<string>,
                                       raws: seq<Option<real>>, i: nat)
    requires |names| == |raws| && NoDuplicates(names) && i < |names|
    requires Tabulate(cfgs, names, raws).Success?
    requires Scored(cfgs, names[i], raws[i])
    ensures names[i] in Tabulate(cfgs, names, raws).value.metrics
    ensures Tabulate(cfgs, names, raws).value.metrics[names[i]].raw == raws[i].value
  {
    var n := |names| - 1;
    if i < n {
      var init, rinit := names[..n], raws[..n];
      assert NoDuplicates(init) by {
        forall a, b | 0 <= a < b < |init| ensures init[a] != init[b] {
          assert init[a] == names[a] && init[b] == names[b];
        }
      }
      assert init[i] == names[i] && rinit[i] == raws[i];
      TabulateRaw(cfgs, init, rinit, i);
      assert names[i] != names[n];
    }
  }

  /** The table fails exactly when some block has a metric to score and a
      configuration the normaliser rejects. */
  lemma {:induction false} TabulateFailure(cfgs: map<string, MetricConfig>, names: seq<string>,
                                           raws: seq<Option<real>>)
    requires |names| == |raws|
    ensures Tabulate(cfgs, names, raws).Failure?
            <==> exists i :: 0 <= i < |names| && Rejected(cfgs, names[i], raws[i])
  {
    if names != [] {
      var n := |names| - 1;
      var init, rinit := names[..n], raws[..n];
      TabulateFailure(cfgs, init, rinit);
      if exists i :: 0 <= i < |init| && Rejected(cfgs, init[i], rinit[i]) {
        var i :| 0 <= i < |init| && Rejected(cfgs, init[i], rinit[i]);
        assert Rejected(cfgs, names[i], raws[i]);
      }
      if exists i :: 0 <= i < |names| && Rejected(cfgs, names[i], raws[i]) {
        var i :| 0 <= i < |names| && Rejected(cfgs, names[i], raws[i]);
        if i < n {
          assert Rejected(cfgs, init[i], rinit[i]);
        }
      }
    }
  }

  // ---------------------------------------------------------------
  // Properties of the dimensions
  // ---------------------------------------------------------------

  /** No score is present exactly when none of the listed metrics was computed. */
  lemma {:induction false} PresentScoresEmpty(names: seq<string>, metrics: map<string, MetricScore>)
    ensures PresentScores(names, metrics) == [] <==> forall m :: m in names ==> m !in metrics
  {
    if names != [] {
      PresentScoresEmpty(names[1..], metrics);
      assert forall m :: m in names[1..] ==> m in names;
      assert forall m :: m in names ==> m == names[0] || m in names[1..];
    }
  }

  /** Present scores inherit any bounds the metric scores have. */
  lemma {:induction false} PresentScoresWithin(names: seq<string>, metrics: map<string, MetricScore>, lo: real, hi: real)
    requires forall m :: m in metrics ==> lo <= metrics[m].score <= hi
    ensures Within(PresentScores(names, metrics), lo, hi)
  {
    if names != [] {
      PresentScoresWithin(names[1..], metrics, lo, hi);
    }
  }

  /** Every configured dimension gets an entry: `None` exactly when none of its
      metrics is present, otherwise a mean that stays within the scores' bounds. */
  lemma DimensionsSpec(dims: map<string, seq<string>>, metrics: map<string, MetricScore>, lo: real, hi: real)
    requires forall m :: m in metrics ==> lo <= metrics[m].score <= hi
    ensures Dimensions(dims, metrics).Keys == dims.Keys
    ensures forall d :: d in dims ==>
              (Dimensions(dims, metrics)[d].None? <==> forall m :: m in dims[d] ==> m !in metrics)
    ensures forall d :: d in dims && Dimensions(dims, metrics)[d].Some? ==>
              lo <= Dimensions(dims, metrics)[d].value <= hi
  {
    forall d | d in dims
      ensures Dimensions(dims, metrics)[d].None? <==> forall m :: m in dims[d] ==> m !in metrics
      ensures Dimensions(dims, metrics)[d].Some? ==> lo <= Dimensions(dims, metrics)[d].value <= hi
    {
      var s := PresentScores(dims[d], metrics);
      PresentScoresEmpty(dims[d], metrics);
      if s != [] {
        PresentScoresWithin(dims[d], metrics, lo, hi);
        MeanBounds(s, lo, hi);
      }
    }
  }

  /** Skipped names are exactly the listed names that were not scored. */
  lemma {:induction false} UnscoredMembers(names: seq<string>, metrics: map<string, MetricScore>, x: string)
    ensures x in Unscored(names, metrics) <==> x in names && x !in metrics
  {
    if names != [] {
      var n := |names| - 1;
      UnscoredMembers(names[..n], metrics, x);
      assert names == names[..n] + [names[n]];
    }
  }

  // ---------------------------------------------------------------
  // Properties of the whole call
  // ---------------------------------------------------------------

  lemma MetricNamesDistinct()
    ensures NoDuplicates(MetricNames)
  {
  }

  /** One of the four metrics in a successful table: it is present exactly when
      scored, and then carries its raw value and a score in [0, 100]. */
  lemma TableEntry(cfgs: map<string, MetricConfig>, raws: seq<Option<real>>, i: nat)
    requires |raws| == |MetricNames| && i < |MetricNames|
    requires Tabulate(cfgs, MetricNames, raws).Success?
    ensures var t := Tabulate(cfgs, MetricNames, raws).value;
            (MetricNames[i] in t.metrics <==> MetricNames[i] in cfgs && raws[i].Some?)
            && (MetricNames[i] in t.metrics ==>
                  t.metrics[MetricNames[i]].raw == raws[i].value
                  && 0.0 <= t.metrics[MetricNames[i]].score <= 100.0)
  {
    MetricNamesDistinct();
    TabulateExactlyOnce(cfgs, MetricNames, raws);
    TabulateScores(cfgs, MetricNames, raws);
    if Scored(cfgs, MetricNames[i], raws[i]) {
      TabulateRaw(cfgs, MetricNames, raws, i);
    }
  }

  /** The raw candidates of a call whose filler count came out as `numFillers`. */
  function CallCandidates(audioMs: int, transcription: string, reference: string, summary: string,
                          numWords: Option<int>, numFillers: Option<int>, nlp: Analyzer)
    : (r: seq<Option<real>>)
    ensures |r| == |MetricNames|
  {
    Candidates(audioMs, transcription, reference, LexicalText(transcription, summary), numWords, numFillers, nlp)
  }

  /** The facts every per-metric lemma starts from: the filler count succeeded
      and the table is the tabulation of the call's candidates. */
  lemma MeasureUnfold(audioMs: int, transcription: string, reference: string, summary: string,
                      rawCounts: map<string, Option<int>>, params: Parameters, file: FillerFile, nlp: Analyzer)
    requires Measure(audioMs, transcription, reference, summary, rawCounts, params, file, nlp).Success?
    ensures FillerCount(rawCounts, transcription, file).Success?
    ensures var m := Measure(audioMs, transcription, reference, summary, rawCounts, params, file, nlp).value;
            var raws := CallCandidates(audioMs, transcription, reference, summary,
                                       m.metadata.numWords, m.metadata.numFillerWords, nlp);
            Tabulate(params.metrics, MetricNames, raws).Success?
            && m.metrics == Tabulate(params.metrics, MetricNames, raws).value.metrics
            && m.metadata.skipped == Tabulate(params.metrics, MetricNames, raws).value.skipped
            && m.dimensions == Dimensions(params.dimensions, m.metrics)
  {
  }

  /** The recorded counts are the caller's counts where given, and otherwise
      the counts taken from the transcription. */
  lemma MeasureCounts(audioMs: int, transcription: string, reference: string, summary: string,
                      rawCounts: map<string, Option<int>>, params: Parameters, file: FillerFile, nlp: Analyzer)
    requires Measure(audioMs, transcription, reference, summary, rawCounts, params, file, nlp).Success?
    ensures FillerCount(rawCounts, transcription, file).Success?
    ensures var m := Measure(audioMs, transcription, reference, summary, rawCounts, params, file, nlp).value;
            m.metadata.numWords == WordCount(rawCounts, transcription)
            && m.metadata.numFillerWords == FillerCount(rawCounts, transcription, file).value
            && m.metadata.audioMs == audioMs
            && m.metadata.usedSummary == (transcription == [] && summary != [])
  {
  }

  /**
   * In a successful call each of the four metrics is either scored or listed
   * as skipped, never both; nothing else is scored, and the skipped list keeps
   * the order in which the metrics are computed.
   */
  lemma MeasureScoredOrSkipped(audioMs: int, transcription: string, reference: string, summary: string,
                               rawCounts: map<string, Option<int>>, params: Parameters, file: FillerFile, nlp: Analyzer)
    requires Measure(audioMs, transcription, reference, summary, rawCounts, params, file, nlp).Success?
    ensures var m := Measure(audioMs, transcription, reference, summary, rawCounts, params, file, nlp).value;
            (forall n :: n in MetricNames ==> (n in m.metrics <==> n !in m.metadata.skipped))
            && (forall n :: n in m.metrics ==> n in MetricNames)
            && (forall n :: n in m.metadata.skipped ==> n in MetricNames)
            && m.metadata.skipped == Unscored(MetricNames, m.metrics)
  {
    MeasureUnfold(audioMs, transcription, reference, summary, rawCounts, params, file, nlp);
    var m := Measure(audioMs, transcription, reference, summary, rawCounts, params, file, nlp).value;
    var raws := CallCandidates(audioMs, transcription, reference, summary,
                               m.metadata.numWords, m.metadata.numFillerWords, nlp);
    MetricNamesDistinct();
    TabulateExactlyOnce(params.metrics, MetricNames, raws);
    forall n ensures n in m.metadata.skipped <==> n in MetricNames && n !in m.metrics {
      UnscoredMembers(MetricNames, m.metrics, n);
    }
  }

  /** Precision is scored exactly when it is configured and both the
      transcription and the reference are non-empty; its raw value is the
      positional precision and its score the normalised value. */
  lemma MeasurePrecision(audioMs: int, transcription: string, reference: string, summary: string,
                         rawCounts: map<string, Option<int>>, params: Parameters, file: FillerFile, nlp: Analyzer)
    requires Measure(audioMs, transcription, reference, summary, rawCounts, params, file, nlp).Success?
    ensures var m := Measure(audioMs, transcription, reference, summary, rawCounts, params, file, nlp).value;
            PrecisionName in m.metrics <==> PrecisionName in params.metrics && transcription != [] && reference != []
    ensures var m := Measure(audioMs, transcription, reference, summary, rawCounts, params, file, nlp).value;
            PrecisionName in m.metrics ==>
              m.metrics[PrecisionName].raw == PrecisionTranscription(transcription, reference)
              && 0.0 <= m.metrics[PrecisionName].score <= 100.0
  {
    MeasureUnfold(audioMs, transcription, reference, summary, rawCounts, params, file, nlp);
    var m := Measure(audioMs, transcription, reference, summary, rawCounts, params, file, nlp).value;
    var raws := CallCandidates(audioMs, transcription, reference, summary,
                               m.metadata.numWords, m.metadata.numFillerWords, nlp);
    TableEntry(params.metrics, raws, 0);
  }

  /** Words per minute is scored exactly when it is configured, the duration
      is positive and a word count is known. */
  lemma MeasureWordsPerMinute(audioMs: int, transcription: string, reference: string, summary: string,
                              rawCounts: map<string, Option<int>>, params: Parameters, file: FillerFile, nlp: Analyzer)
    requires Measure(audioMs, transcription, reference, summary, rawCounts, params, file, nlp).Success?
    ensures var m := Measure(audioMs, transcription, reference, summary, rawCounts, params, file, nlp).value;
            WordsPerMinuteName in m.metrics
            <==> WordsPerMinuteName in params.metrics && audioMs > 0 && m.metadata.numWords.Some?
    ensures var m := Measure(audioMs, transcription, reference, summary, rawCounts, params, file, nlp).value;
            WordsPerMinuteName in m.metrics ==>
              m.metrics[WordsPerMinuteName].raw == PerMinute(audioMs, m.metadata.numWords).value
              && 0.0 <= m.metrics[WordsPerMinuteName].score <= 100.0
  {
    MeasureUnfold(audioMs, transcription, reference, summary, rawCounts, params, file, nlp);
    var m := Measure(audioMs, transcription, reference, summary, rawCounts, params, file, nlp).value;
    var raws := CallCandidates(audioMs, transcription, reference, summary,
                               m.metadata.numWords, m.metadata.numFillerWords, nlp);
    assert raws[1] == PerMinute(audioMs, m.metadata.numWords);
    TableEntry(params.metrics, raws, 1);
  }

  /** Filler words per minute is scored exactly when it is configured, the
      duration is positive and a filler count is known; its raw value is the
      count per minute, which the metadata also records. */
  lemma MeasureFillersPerMinute(audioMs: int, transcription: string, reference: string, summary: string,
                                rawCounts: map<string, Option<int>>, params: Parameters, file: FillerFile, nlp: Analyzer)
    requires Measure(audioMs, transcription, reference, summary, rawCounts, params, file, nlp).Success?
    ensures var m := Measure(audioMs, transcription, reference, summary, rawCounts, params, file, nlp).value;
            FillersPerMinuteName in m.metrics
            <==> FillersPerMinuteName in params.metrics && audioMs > 0 && m.metadata.numFillerWords.Some?
    ensures var m := Measure(audioMs, transcription, reference, summary, rawCounts, params, file, nlp).value;
            FillersPerMinuteName in m.metrics ==>
              m.metrics[FillersPerMinuteName].raw == PerMinute(audioMs, m.metadata.numFillerWords).value
              && m.metadata.fillersPerMinute == Some(m.metrics[FillersPerMinuteName].raw)
              && 0.0 <= m.metrics[FillersPerMinuteName].score <= 100.0
  {
    MeasureUnfold(audioMs, transcription, reference, summary, rawCounts, params, file, nlp);
    var m := Measure(audioMs, transcription, reference, summary, rawCounts, params, file, nlp).value;
    var raws := CallCandidates(audioMs, transcription, reference, summary,
                               m.metadata.numWords, m.metadata.numFillerWords, nlp);
    assert raws[2] == PerMinute(audioMs, m.metadata.numFillerWords);
    TableEntry(params.metrics, raws, 2);
  }

  /** Lexical variability is scored exactly when it is configured and there is
      a transcription or a summary to read; its raw value is the distinct-lemma
      ratio without stopwords of that text. */
  lemma MeasureLexical(audioMs: int, transcription: string, reference: string, summary: string,
                       rawCounts: map<string, Option<int>>, params: Parameters, file: FillerFile, nlp: Analyzer)
    requires Measure(audioMs, transcription, reference, summary, rawCounts, params, file, nlp).Success?
    ensures var m := Measure(audioMs, transcription, reference, summary, rawCounts, params, file, nlp).value;
            LexicalName in m.metrics <==> LexicalName in params.metrics && (transcription != [] || summary != [])
    ensures var m := Measure(audioMs, transcription, reference, summary, rawCounts, params, file, nlp).value;
            LexicalName in m.metrics ==>
              m.metadata.lexicalDetails == Some(LexicalVariability(LexicalText(transcription, summary), nlp, map[]))
              && m.metrics[LexicalName].raw == m.metadata.lexicalDetails.value.distinctNoStopwords
              && 0.0 <= m.metrics[LexicalName].score <= 100.0
  {
    MeasureUnfold(audioMs, transcription, reference, summary, rawCounts, params, file, nlp);
    var m := Measure(audioMs, transcription, reference, summary, rawCounts, params, file, nlp).value;
    var raws := CallCandidates(audioMs, transcription, reference, summary,
                               m.metadata.numWords, m.metadata.numFillerWords, nlp);
    TableEntry(params.metrics, raws, 3);
  }

  /** Every configured dimension gets a key; its value is `None` exactly when
      none of its metrics was scored, and otherwise a mean in [0, 100]. */
  lemma MeasureDimensions(audioMs: int, transcription: string, reference: string, summary: string,
                          rawCounts: map<string, Option<int>>, params: Parameters, file: FillerFile, nlp: Analyzer)
    requires Measure(audioMs, transcription, reference, summary, rawCounts, params, file, nlp).Success?
    ensures var m := Measure(audioMs, transcription, reference, summary, rawCounts, params, file, nlp).value;
            m.dimensions.Keys == params.dimensions.Keys
            && (forall d :: d in m.dimensions ==>
                  (m.dimensions[d].None? <==> forall n :: n in params.dimensions[d] ==> n !in m.metrics))
            && (forall d :: d in m.dimensions && m.dimensions[d].Some? ==>
                  m.dimensions[d] == Some(Mean(PresentScores(params.dimensions[d], m.metrics)))
                  && 0.0 <= m.dimensions[d].value <= 100.0)
  {
    MeasureUnfold(audioMs, transcription, reference, summary, rawCounts, params, file, nlp);
    var m := Measure(audioMs, transcription, reference, summary, rawCounts, params, file, nlp).value;
    var raws := CallCandidates(audioMs, transcription, reference, summary,
                               m.metadata.numWords, m.metadata.numFillerWords, nlp);
    TabulateScores(params.metrics, MetricNames, raws);
    DimensionsSpec(params.dimensions, m.metrics, 0.0, 100.0);
  }

  /** The call fails exactly when the filler lexicon is needed and unusable
      (other than missing), or some metric to be scored has a configuration
      the normaliser rejects. */
  lemma MeasureFailure(audioMs: int, transcription: string, reference: string, summary: string,
                       rawCounts: map<string, Option<int>>, params: Parameters, file: FillerFile, nlp: Analyzer)
    ensures Measure(audioMs, transcription, reference, summary, rawCounts, params, file, nlp).Failure?
            <==> FillerCount(rawCounts, transcription, file).Failure?
                 || exists i :: 0 <= i < |MetricNames|
                      && Rejected(params.metrics, MetricNames[i],
                                  CallCandidates(audioMs, transcription, reference, summary,
                                                 WordCount(rawCounts, transcription),
                                                 FillerCount(rawCounts, transcription, file).value, nlp)[i])
  {
    if FillerCount(rawCounts, transcription, file).Success? {
      var raws := CallCandidates(audioMs, transcription, reference, summary,
                                 WordCount(rawCounts, transcription),
                                 FillerCount(rawCounts, transcription, file).value, nlp);
      TabulateFailure(params.metrics, MetricNames, raws);
    }
  }

  /** A missing filler lexicon is not an error: the filler metric is skipped. */
  lemma MeasureMissingLexicon(audioMs: int, transcription: string, reference: string, summary: string,
                              rawCounts: map<string, Option<int>>, params: Parameters, nlp: Analyzer)
    requires CountOf(rawCounts, NumFillersKey).None?
    requires Measure(audioMs, transcription, reference, summary, rawCounts, params, FillerFile.Missing, nlp).Success?
    ensures var m := Measure(audioMs, transcription, reference, summary, rawCounts, params, FillerFile.Missing, nlp).value;
            m.metadata.numFillerWords.None? && FillersPerMinuteName !in m.metrics
            && FillersPerMinuteName in m.metadata.skipped
  {
    MeasureCounts(audioMs, transcription, reference, summary, rawCounts, params, FillerFile.Missing, nlp);
    MeasureFillersPerMinute(audioMs, transcription, reference, summary, rawCounts, params, FillerFile.Missing, nlp);
    MeasureScoredOrSkipped(audioMs, transcription, reference, summary, rawCounts, params, FillerFile.Missing, nlp);
  }
}
