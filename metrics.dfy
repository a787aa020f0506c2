/** Raw metric calculators of `metrics/scores.py`. */
module Metrics {
  import opened Wrappers
  import opened Text

  /** Number of positions `i < min(|pred|, |ref|)` where the two token lists agree. */
  function PositionalMatches(pred: seq<string>, ref: seq<string>): (n: nat)
    ensures n <= |pred| && n <= |ref|
  {
    if pred == [] || ref == [] then 0
    else (if pred[0] == ref[0] then 1 else 0) + PositionalMatches(pred[1..], ref[1..])
  }

  ghost predicate IsPrefix(p: seq<string>, r: seq<string>) {
    |p| <= |r| && p == r[..|p|]
  }

  /** Every predicted token is matched exactly when the prediction is a prefix of the reference. */
  lemma {:induction false} AllMatchedIffPrefix(pred: seq<string>, ref: seq<string>)
    ensures PositionalMatches(pred, ref) == |pred| <==> IsPrefix(pred, ref)
  {
    if pred != [] && ref != [] {
      AllMatchedIffPrefix(pred[1..], ref[1..]);
      if IsPrefix(pred, ref) {
        assert pred[1..] == ref[1..][..|pred| - 1];
      }
      if IsPrefix(pred[1..], ref[1..]) && pred[0] == ref[0] {
        assert pred == [pred[0]] + pred[1..];
        assert ref[..|pred|] == [ref[0]] + ref[1..][..|pred| - 1];
      }
    }
  }

  /** `100 * c / t` for `0 <= c <= t`, `t > 0`: a percentage, which is 100
      exactly when `c == t`. */
  function Percentage(c: nat, t: nat): (r: real)
    requires 0 < t && c <= t
    ensures 0.0 <= r <= 100.0
    ensures r == 100.0 <==> c == t
    ensures r * t as real == 100.0 * c as real
  {
    var cr, tr := c as real, t as real;
    var x := 100.0 * cr / tr;
    assert x * tr == 100.0 * cr;
    NonNegativeFactor(x, tr);
    NonNegativeFactor(100.0 - x, tr);
    assert c == t ==> x == 100.0 by {
      if c == t { ZeroFactor(x - 100.0, tr); }
    }
    x
  }

  lemma NonNegativeFactor(a: real, b: real)
    requires b > 0.0 && a * b >= 0.0
    ensures a >= 0.0
  {
  }

  lemma ZeroFactor(a: real, b: real)
    requires b > 0.0 && a * b == 0.0
    ensures a == 0.0
  {
  }

  /**
   * `_metric_precision_transcription`: 100 * (tokens matching the reference at
   * the same position) / (predicted tokens), and 0 when nothing was predicted.
   */
  function PrecisionTranscription(transcription: string, reference: string): (r: real)
    ensures 0.0 <= r <= 100.0
    ensures Tokenize(transcription) == [] ==> r == 0.0
    ensures Tokenize(transcription) != [] ==>
              r == Percentage(PositionalMatches(Tokenize(transcription), Tokenize(reference)), |Tokenize(transcription)|)
  {
    var pred := Tokenize(transcription);
    var ref := Tokenize(reference);
    var total := |pred|;
    if total == 0 then 0.0
    else
      Percentage(PositionalMatches(pred, ref), total)
  }

  /** The score is 100 exactly when the predicted tokens are a non-empty prefix
      of the reference tokens; identical token lists in particular score 100. */
  lemma PrecisionFullIffPrefix(transcription: string, reference: string)
    ensures PrecisionTranscription(transcription, reference) == 100.0
            <==> Tokenize(transcription) != [] && IsPrefix(Tokenize(transcription), Tokenize(reference))
  {
    var pred := Tokenize(transcription);
    var ref := Tokenize(reference);
    AllMatchedIffPrefix(pred, ref);
  }

  lemma PrecisionIdentical(transcription: string)
    requires Tokenize(transcription) != []
    ensures PrecisionTranscription(transcription, transcription) == 100.0
  {
    PrecisionFullIffPrefix(transcription, transcription);
  }

  /**
   * `_metric_words_per_minute` and `_metric_filler_words_per_minute` (the same
   * code): `count / (audio_ms / 60000)`, and `None` when the duration is not
   * positive or the count is missing. The source's second guard
   * (`audio_minutes <= 0`) cannot fire once `audio_ms > 0`.
   */
  function PerMinute(audioMs: int, count: Option<int>): (r: Option<real>)
    ensures r.Some? <==> audioMs > 0 && count.Some?
    ensures r.Some? ==> r.value == count.value as real * 60000.0 / audioMs as real
    ensures r.Some? && count.value >= 0 ==> r.value >= 0.0
  {
    if audioMs <= 0 then None
    else
      var minutes := audioMs as real / (1000.0 * 60.0);
      if minutes <= 0.0 then assert false; None
      else if count.None? then None
      else
        var n := count.value as real;
        assert n / minutes == n * 60000.0 / audioMs as real;
        assert n >= 0.0 ==> n / minutes >= 0.0;
        Some(n / minutes)
  }
}
