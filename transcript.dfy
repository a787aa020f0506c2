/**
 * The per-exercise helpers of `backend/app/services/transcript_service.py`:
 * the audio-duration and word-count fallbacks, the stage filter over metric
 * results, and the per-stage dimension scores. The audio-metadata probe is an
 * input: `probe` is the length it would report, `None` when it reports nothing
 * or raises.
 */
module Transcript {
  import opened Wrappers
  import opened Common
  import opened Stats
  import opened Text

  // ---------------------------------------------------------------
  // Duration and word count
  // ---------------------------------------------------------------

  /** One timed word of the speech-to-text response. */
  datatype TimedWord = TimedWord(start: real, end: real)

  /** `(audio_s, n_words)` */
  datatype Duration = Duration(audioSeconds: Option<real>, wordCount: Option<int>)

  /** The speaking rate assumed by the fallback estimate: 2.5 words a second. */
  const WordsPerSecond: real := 2.5

  /**
   * `calculate_audio_duration`. Word timing wins; otherwise the probe's length;
   * otherwise, with a positive word count, that count at 2.5 words a second.
   * The word count is the whitespace-split length of a non-empty text, else the
   * count passed in.
   */
  function AudioDuration(words: seq<TimedWord>, text: string, probe: Option<real>, nWords: Option<int>)
    : (r: Duration)
    ensures r.wordCount == if text != [] then Some(|Split(text)|) else nWords
    ensures words != [] ==> r.audioSeconds == Some(words[|words| - 1].end - words[0].start)
    ensures words == [] && probe.Some? ==> r.audioSeconds == probe
    ensures words == [] && probe.None? ==>
              (r.audioSeconds.Some? <==> r.wordCount.Some? && r.wordCount.value > 0)
  {
    var wordCount := if text != [] then Some(|Split(text)|) else nWords;
    if words != [] then Duration(Some(words[|words| - 1].end - words[0].start), wordCount)
    else if probe.Some? then Duration(probe, wordCount)
    else if wordCount.Some? && wordCount.value > 0 then Duration(Some(wordCount.value as real / WordsPerSecond), wordCount)
    else Duration(None, wordCount)
  }

  /** When the duration is estimated from the word count, the implied speaking
      rate is exactly 150 words a minute. */
  lemma EstimateIs150WordsPerMinute(text: string, nWords: Option<int>)
    requires AudioDuration([], text, None, nWords).audioSeconds.Some?
    ensures var d := AudioDuration([], text, None, nWords);
            d.wordCount.Some? && d.audioSeconds.value > 0.0
            && d.wordCount.value as real * 60.0 / d.audioSeconds.value == 150.0
  {
    var d := AudioDuration([], text, None, nWords);
    var w := d.wordCount.value as real;
    assert d.audioSeconds.value == w / 2.5;
    assert w * 60.0 / (w / 2.5) == 150.0;
  }

  /** The same fallbacks applied one after another, as the service does. */
  method CalculateAudioDuration(words: seq<TimedWord>, text: string, probe: Option<real>, nWords: Option<int>)
    returns (audioS: Option<real>, wordCount: Option<int>)
    ensures Duration(audioS, wordCount) == AudioDuration(words, text, probe, nWords)
  {
    audioS := None;
    wordCount := nWords;
    if words != [] {
      audioS := Some(words[|words| - 1].end - words[0].start);
    }
    if text != [] {
      wordCount := Some(|Split(text)|);
    }
    if audioS.None? {
      if probe.Some? {
        audioS := probe;
      }
      if audioS.None? && wordCount.Some? && wordCount.value > 0 {
        audioS := Some(wordCount.value as real / WordsPerSecond);
      }
    }
  }

  // ---------------------------------------------------------------
  // Stage filter
  // ---------------------------------------------------------------

  /** The metrics an exercise of the given stage reports. */
  function AllowedMetrics(stage: int): seq<string> {
    if stage == 1 then [PrecisionName, WordsPerMinuteName, FillersPerMinuteName]
    else [WordsPerMinuteName, FillersPerMinuteName, LexicalName]
  }

  /** `filter_metrics_by_stage`: the sub-map of the stage's metrics, values untouched. */
  function FilterMetricsByStage(all: map<string, MetricScore>, stage: int): (r: map<string, MetricScore>)
    ensures forall k :: k in r ==> k in all && r[k] == all[k]
    ensures forall k :: k in all && k in AllowedMetrics(stage) ==> k in r
    ensures forall k :: k in r ==> k in AllowedMetrics(stage)
  {
    map k | k in all && k in AllowedMetrics(stage) :: all[k]
  }

  /** Stage 1 drops the lexical metric; every other stage drops precision; the
      two rate metrics survive every stage. */
  lemma FilterByStage(all: map<string, MetricScore>, stage: int)
    ensures stage == 1 ==> LexicalName !in FilterMetricsByStage(all, stage)
    ensures stage != 1 ==> PrecisionName !in FilterMetricsByStage(all, stage)
    ensures forall k :: k in all && (k == WordsPerMinuteName || k == FillersPerMinuteName) ==>
              k in FilterMetricsByStage(all, stage)
  {
    var r := FilterMetricsByStage(all, stage);
    if stage == 1 {
      assert LexicalName !in AllowedMetrics(stage);
    } else {
      assert PrecisionName !in AllowedMetrics(stage);
    }
    assert WordsPerMinuteName in AllowedMetrics(stage) && FillersPerMinuteName in AllowedMetrics(stage);
  }

  /** Filtering twice by the same stage changes nothing. */
  lemma FilterIdempotent(all: map<string, MetricScore>, stage: int)
    ensures FilterMetricsByStage(FilterMetricsByStage(all, stage), stage) == FilterMetricsByStage(all, stage)
  {
  }

  // ---------------------------------------------------------------
  // Dimensions
  // ---------------------------------------------------------------

  /** `DimensionScores`: an absent dimension is `None`. */
  datatype DimensionScores = DimensionScores(clarity: Option<real>, rhythm: Option<real>, vocabulary: Option<real>)

  function ScoreOf(m: map<string, MetricScore>, name: string): (r: Option<real>)
    ensures r.Some? <==> name in m
  {
    if name in m then Some(m[name].score) else None
  }

  /** The scores of whichever of the two rate metrics are present, in that order. */
  function RhythmScores(m: map<string, MetricScore>): seq<real> {
    (if WordsPerMinuteName in m then [m[WordsPerMinuteName].score] else [])
    + (if FillersPerMinuteName in m then [m[FillersPerMinuteName].score] else [])
  }

  /** `calculate_dimensions` */
  function CalculateDimensions(m: map<string, MetricScore>, stage: int): (r: DimensionScores)
    ensures r.rhythm == MeanOrNone(RhythmScores(m))
    ensures stage == 1 ==> r.clarity == ScoreOf(m, PrecisionName) && r.vocabulary.None?
    ensures stage != 1 ==> r.clarity.None? && r.vocabulary == ScoreOf(m, LexicalName)
  {
    var rhythm := MeanOrNone(RhythmScores(m));
    if stage == 1 then DimensionScores(ScoreOf(m, PrecisionName), rhythm, None)
    else DimensionScores(None, rhythm, ScoreOf(m, LexicalName))
  }

  /** Rhythm is the mean of whichever rate scores are present: both averaged,
      one alone taken as is, and `None` when neither is present. */
  lemma RhythmCases(m: map<string, MetricScore>, stage: int)
    ensures var rhythm := CalculateDimensions(m, stage).rhythm;
            && (rhythm.None? <==> WordsPerMinuteName !in m && FillersPerMinuteName !in m)
            && (WordsPerMinuteName in m && FillersPerMinuteName in m ==>
                  rhythm == Some((m[WordsPerMinuteName].score + m[FillersPerMinuteName].score) / 2.0))
            && (WordsPerMinuteName in m && FillersPerMinuteName !in m ==> rhythm == Some(m[WordsPerMinuteName].score))
            && (WordsPerMinuteName !in m && FillersPerMinuteName in m ==> rhythm == Some(m[FillersPerMinuteName].score))
  {
    var w, f := WordsPerMinuteName in m, FillersPerMinuteName in m;
    var rhythm := CalculateDimensions(m, stage).rhythm;
    assert rhythm == MeanOrNone(RhythmScores(m));
    if w && f {
      var a, b := m[WordsPerMinuteName].score, m[FillersPerMinuteName].score;
      assert RhythmScores(m) == [a, b];
      assert Sum([a, b]) == a + b by {
        assert Sum([a, b]) == a + Sum([b]);
        assert Sum([b]) == b + Sum([]);
      }
      assert rhythm == Some((a + b) / 2.0);
    } else if w || f {
      var a := if w then m[WordsPerMinuteName].score else m[FillersPerMinuteName].score;
      assert RhythmScores(m) == [a];
      assert Sum([a]) == a by {
        assert Sum([a]) == a + Sum([]);
      }
      assert rhythm == Some(a);
    } else {
      assert RhythmScores(m) == [];
    }
  }

  /** Scores within [0, 100] give dimensions within [0, 100]. */
  lemma DimensionsWithin(m: map<string, MetricScore>, stage: int)
    requires forall k :: k in m ==> 0.0 <= m[k].score <= 100.0
    ensures var d := CalculateDimensions(m, stage);
            && (d.clarity.Some? ==> 0.0 <= d.clarity.value <= 100.0)
            && (d.rhythm.Some? ==> 0.0 <= d.rhythm.value <= 100.0)
            && (d.vocabulary.Some? ==> 0.0 <= d.vocabulary.value <= 100.0)
  {
    var s := RhythmScores(m);
    if s != [] {
      MeanBounds(s, 0.0, 100.0);
    }
  }

  /** The dimensions only read the metrics the stage keeps, so filtering first
      changes none of them. */
  lemma FilterKeepsDimensions(all: map<string, MetricScore>, stage: int)
    ensures CalculateDimensions(FilterMetricsByStage(all, stage), stage) == CalculateDimensions(all, stage)
  {
    var f := FilterMetricsByStage(all, stage);
    FilterByStage(all, stage);
    assert RhythmScores(f) == RhythmScores(all);
    if stage == 1 {
      assert PrecisionName in AllowedMetrics(stage);
    } else {
      assert LexicalName in AllowedMetrics(stage);
    }
  }
}
