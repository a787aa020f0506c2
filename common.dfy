/** Names and records shared by the scoring services. */
module Common {

  const PrecisionName: string := "precision_transcription"
  const WordsPerMinuteName: string := "words_per_minute"
  const FillersPerMinuteName: string := "filler_word_per_minute"
  const LexicalName: string := "lexical_variability"

  /** The four metrics the engine knows, in the order it computes them. */
  const MetricNames: seq<string> := [PrecisionName, WordsPerMinuteName, FillersPerMinuteName, LexicalName]

  /** `MetricScore`: a raw metric value and its 0–100 score. */
  datatype MetricScore = MetricScore(raw: real, score: real)

  /** One metric entry of `parameters.json`: the clipping range and the ideal band. */
  datatype MetricConfig = MetricConfig(minValue: real, maxValue: real, idealMin: real, idealMax: real)

  /** `parameters.json`: per-metric ranges and, per dimension, the metric names it averages. */
  datatype Parameters = Parameters(metrics: map<string, MetricConfig>, dimensions: map<string, seq<string>>)
}
