/**
 * `compute_spanish_lexical_variability` of `metrics/lexical_variability.py`.
 * spaCy's analysis of the text is a parameter: a function from the text to a
 * sequence of token records.
 */
module Lexical {
  import opened Text

  /** The parts of a spaCy token the computation reads. */
  datatype LexToken = LexToken(text: string, lemmaText: string, pos: string, isStop: bool, isAlpha: bool)

  /** spaCy's `nlp(text)`: the token records of a text. */
  type Analyzer = string -> seq<LexToken>

  /** A `pos_stats` entry after the first loop: the token count and the lemma list. */
  datatype PosEntry = PosEntry(count: nat, lemmas: seq<string>)

  /** A `pos_stats` entry after the second loop: its lemma list replaced by these figures. */
  datatype PosSummary = PosSummary(count: nat, uniqueLemmas: nat, distinctRatio: real, repetitionPenalty: real)

  /** A `pos_stats` entry once the weights loop has added its weight. */
  datatype PosStat = PosStat(count: nat, uniqueLemmas: nat, distinctRatio: real, repetitionPenalty: real, weight: real)

  datatype TokenCounts = TokenCounts(total: nat, content: nat, stopwords: nat)

  datatype LexicalResult = LexicalResult(
    distinctAll: real,
    distinctNoStopwords: real,
    distinctStopwordsOnly: real,
    score: real,
    posStats: map<string, PosStat>,
    posOrder: seq<string>,           // iteration order of `pos_stats`
    counts: TokenCounts,
    weightsUsed: map<string, real>)

  /** `(tok.lemma_ or tok.text).lower()` */
  function LemmaLower(t: LexToken): string {
    Lower(if t.lemmaText != [] then t.lemmaText else t.text)
  }

  function Lemmas(ts: seq<LexToken>): (r: seq<string>)
    ensures |r| == |ts|
  {
    seq(|ts|, i requires 0 <= i < |ts| => LemmaLower(ts[i]))
  }

  function Alphabetic(doc: seq<LexToken>): seq<LexToken> {
    if doc == [] then [] else (if doc[0].isAlpha then [doc[0]] else []) + Alphabetic(doc[1..])
  }

  function ContentTokens(ts: seq<LexToken>): seq<LexToken> {
    if ts == [] then [] else (if !ts[0].isStop then [ts[0]] else []) + ContentTokens(ts[1..])
  }

  function StopwordTokens(ts: seq<LexToken>): seq<LexToken> {
    if ts == [] then [] else (if ts[0].isStop then [ts[0]] else []) + StopwordTokens(ts[1..])
  }

  /** Content words and stopwords partition the tokens. */
  lemma {:induction false} PartitionSizes(ts: seq<LexToken>)
    ensures |ContentTokens(ts)| + |StopwordTokens(ts)| == |ts|
  {
    if ts != [] {
      PartitionSizes(ts[1..]);
    }
  }

  function ToSet(s: seq<string>): set<string> {
    set x | x in s
  }

  ghost predicate Distinct(s: seq<string>) {
    forall i, j :: 0 <= i < j < |s| ==> s[i] != s[j]
  }

  /** A list has at most as many distinct elements as entries, at least one
      when non-empty, and exactly as many when no element repeats. */
  lemma {:induction false} CardToSet(s: seq<string>)
    ensures |ToSet(s)| <= |s|
    ensures s != [] ==> |ToSet(s)| >= 1
    ensures |ToSet(s)| == |s| <==> Distinct(s)
  {
    if s != [] {
      var rest := s[1..];
      CardToSet(rest);
      DistinctCons(s);
      assert ToSet(s) == {s[0]} + ToSet(rest) by {
        assert s == [s[0]] + rest;
      }
      if s[0] in rest {
        assert ToSet(s) == ToSet(rest);
      } else {
        assert s[0] !in ToSet(rest);
      }
    }
  }

  /** A non-empty sequence is free of repeats exactly when its head does not
      recur and its tail is free of repeats. */
  lemma DistinctCons(s: seq<string>)
    requires s != []
    ensures Distinct(s) <==> s[0] !in s[1..] && Distinct(s[1..])
  {
    var rest := s[1..];
    if s[0] in rest {
      var j :| 0 <= j < |rest| && rest[j] == s[0];
      assert s[0] == s[j + 1];
    } else if Distinct(rest) {
      forall i, j | 0 <= i < j < |s| ensures s[i] != s[j] {
        if i > 0 { assert s[i] == rest[i - 1] && s[j] == rest[j - 1]; }
        else { assert s[j] == rest[j - 1]; }
      }
    }
    if Distinct(s) {
      forall i, j | 0 <= i < j < |rest| ensures rest[i] != rest[j] {
        assert rest[i] == s[i + 1] && rest[j] == s[j + 1];
      }
    }
  }

  lemma RatioBounds(unique: nat, count: nat)
    requires 1 <= unique <= count
    ensures 0.0 < unique as real / count as real <= 1.0
    ensures unique as real / count as real == 1.0 <==> unique == count
  {
    var q := unique as real / count as real;
    assert q * count as real == unique as real;
  }

  /**
   * `distinct_ratio`: distinct lower-cased lemmas over tokens; 0 for no tokens,
   * otherwise in (0, 1].
   */
  function DistinctRatio(ts: seq<LexToken>): (r: real)
    ensures ts == [] ==> r == 0.0
    ensures ts != [] ==> 0.0 < r <= 1.0
  {
    if ts == [] then 0.0
    else
      var lemmas := Lemmas(ts);
      CardToSet(lemmas);
      RatioBounds(|ToSet(lemmas)|, |lemmas|);
      |ToSet(lemmas)| as real / |lemmas| as real
  }

  /** The ratio is 1 exactly when no lemma repeats. */
  lemma DistinctRatioFull(ts: seq<LexToken>)
    requires ts != []
    ensures DistinctRatio(ts) == 1.0 <==> Distinct(Lemmas(ts))
  {
    CardToSet(Lemmas(ts));
    RatioBounds(|ToSet(Lemmas(ts))|, |Lemmas(ts)|);
  }

  // ---------------------------------------------------------------
  // Repetition per part of speech
  // ---------------------------------------------------------------

  /** Lower-cased lemmas of the tokens with part of speech `p`, in order
      (the `lemmas` list `pos_stats[p]` collects). */
  function PosLemmas(ts: seq<LexToken>, p: string): (r: seq<string>)
    ensures |r| <= |ts|
  {
    if ts == [] then []
    else
      var last := ts[|ts| - 1];
      PosLemmas(ts[..|ts| - 1], p) + (if last.pos == p then [LemmaLower(last)] else [])
  }

  /** Number of tokens with part of speech `p`. */
  function PosCount(ts: seq<LexToken>, p: string): nat {
    if ts == [] then 0
    else PosCount(ts[..|ts| - 1], p) + (if ts[|ts| - 1].pos == p then 1 else 0)
  }

  lemma {:induction false} PosLemmasLength(ts: seq<LexToken>, p: string)
    ensures |PosLemmas(ts, p)| == PosCount(ts, p)
  {
    if ts != [] {
      PosLemmasLength(ts[..|ts| - 1], p);
    }
  }

  /** Parts of speech in order of first occurrence (the key order of `pos_stats`). */
  function PosOrder(ts: seq<LexToken>): seq<string> {
    if ts == [] then []
    else
      var init := ts[..|ts| - 1];
      var prev := PosOrder(init);
      var p := ts[|ts| - 1].pos;
      if p in prev then prev else prev + [p]
  }

  lemma {:induction false} PosOrderComplete(ts: seq<LexToken>, p: string)
    ensures p in PosOrder(ts) <==> PosCount(ts, p) > 0
  {
    if ts != [] {
      PosOrderComplete(ts[..|ts| - 1], p);
    }
  }

  lemma {:induction false} PosOrderDistinct(ts: seq<LexToken>)
    ensures Distinct(PosOrder(ts))
  {
    if ts != [] {
      PosOrderDistinct(ts[..|ts| - 1]);
    }
  }

  /** `pos_stats` after the first loop has read `ts`: per part of speech, the
      token count and the lemma list, extended token by token. */
  function PosEntries(ts: seq<LexToken>): map<string, PosEntry> {
    if ts == [] then map[]
    else
      var t := ts[|ts| - 1];
      AddLemma(PosEntries(ts[..|ts| - 1]), t.pos, LemmaLower(t))
  }

  /** One step of the first loop: create the entry of `p` if it is new, then
      count the token and append its lemma. */
  function AddLemma(m: map<string, PosEntry>, p: string, word: string): map<string, PosEntry> {
    var m' := if p in m then m else m[p := PosEntry(0, [])];
    m'[p := PosEntry(m'[p].count + 1, m'[p].lemmas + [word])]
  }

  /** The first loop keys `pos_stats` by the parts of speech that occur, and
      each entry holds that class's lemma list and its length. */
  lemma {:induction false} PosEntriesSpec(ts: seq<LexToken>, p: string)
    ensures p in PosEntries(ts) <==> p in PosOrder(ts)
    ensures p in PosEntries(ts) ==> PosEntries(ts)[p] == PosEntry(|PosLemmas(ts, p)|, PosLemmas(ts, p))
  {
    if ts != [] {
      var init := ts[..|ts| - 1];
      PosEntriesSpec(init, p);
      PosOrderComplete(init, p);
      PosLemmasLength(init, p);
    }
  }

  /** `unique_lemmas / count` for one part of speech (0 for an empty class). */
  function PosDistinct(lemmas: seq<string>): real {
    if |lemmas| > 0 then |ToSet(lemmas)| as real / |lemmas| as real else 0.0
  }

  /** `repetition_penalty = 1 - unique/count`: in [0, 1) for a non-empty class. */
  function RepetitionPenalty(lemmas: seq<string>): (r: real)
    ensures lemmas != [] ==> 0.0 <= r < 1.0
  {
    CardToSet(lemmas);
    assert lemmas != [] ==> 0.0 <= 1.0 - PosDistinct(lemmas) < 1.0 by {
      if lemmas != [] { RatioBounds(|ToSet(lemmas)|, |lemmas|); }
    }
    1.0 - PosDistinct(lemmas)
  }

  /** The penalty is 0 exactly when no lemma of the class repeats. */
  lemma PenaltyZeroIffDistinct(lemmas: seq<string>)
    requires lemmas != []
    ensures RepetitionPenalty(lemmas) == 0.0 <==> Distinct(lemmas)
  {
    CardToSet(lemmas);
    RatioBounds(|ToSet(lemmas)|, |lemmas|);
  }

  /** The figures the second loop derives from one part of speech's lemma list. */
  function Summarize(lemmas: seq<string>): PosSummary {
    PosSummary(|lemmas|, |ToSet(lemmas)|, PosDistinct(lemmas), RepetitionPenalty(lemmas))
  }

  function WithWeight(s: PosSummary, w: real): PosStat {
    PosStat(s.count, s.uniqueLemmas, s.distinctRatio, s.repetitionPenalty, w)
  }

  /** `pos_stats` after the second loop: every part of speech of the tokens
      with the summary of its lemma list. */
  function PosSummaries(ts: seq<LexToken>): map<string, PosSummary> {
    map p | p in PosOrder(ts) :: Summarize(PosLemmas(ts, p))
  }

  /** Every summary counts its class's tokens and has a penalty in [0, 1). */
  lemma PosSummariesSpec(ts: seq<LexToken>, p: string)
    requires p in PosOrder(ts)
    ensures p in PosSummaries(ts)
    ensures var s := PosSummaries(ts)[p];
            s.count == PosCount(ts, p) > 0
            && 1 <= s.uniqueLemmas <= s.count
            && 0.0 <= s.repetitionPenalty < 1.0
            && s.repetitionPenalty == 1.0 - s.uniqueLemmas as real / s.count as real
  {
    PosOrderComplete(ts, p);
    PosLemmasLength(ts, p);
    CardToSet(PosLemmas(ts, p));
  }

  /** `pos_stats` after the weights loop has visited `order`. */
  function PosStatsMap(order: seq<string>, summaries: map<string, PosSummary>, weights: map<string, real>)
    : map<string, PosStat>
    requires forall p :: p in order ==> p in summaries
  {
    if order == [] then map[]
    else
      var p := order[|order| - 1];
      PosStatsMap(order[..|order| - 1], summaries, weights)[p := WithWeight(summaries[p], WeightOf(weights, p))]
  }

  // ---------------------------------------------------------------
  // Weights and the global penalty
  // ---------------------------------------------------------------

  const DefaultWeights: map<string, real> := map[
    "NOUN" := 1.8, "PROPN" := 1.8, "VERB" := 1.5, "AUX" := 1.0, "ADJ" := 1.4, "ADV" := 1.1,
    "DET" := 0.2, "ADP" := 0.2, "PRON" := 0.3, "CCONJ" := 0.2, "SCONJ" := 0.2, "PART" := 0.2,
    "INTJ" := 0.3, "NUM" := 0.5, "SYM" := 0.1, "PUNCT" := 0.0, "X" := 0.5]

  /** `default_weights.update(pos_weights)`: caller-supplied weights override the defaults. */
  function MergeWeights(posWeights: map<string, real>): (w: map<string, real>)
    ensures w.Keys == DefaultWeights.Keys + posWeights.Keys
    ensures forall p :: p in posWeights ==> w[p] == posWeights[p]
    ensures forall p :: p in DefaultWeights && p !in posWeights ==> w[p] == DefaultWeights[p]
  {
    DefaultWeights + posWeights
  }

  /** `default_weights.get(pos, 1.0)` */
  function WeightOf(weights: map<string, real>, p: string): real {
    if p in weights then weights[p] else 1.0
  }

  /** The weight a part of speech gets: the caller's if given, else the default,
      else 1.0. */
  lemma WeightLookup(posWeights: map<string, real>, p: string)
    ensures WeightOf(MergeWeights(posWeights), p)
            == if p in posWeights then posWeights[p]
               else if p in DefaultWeights then DefaultWeights[p]
               else 1.0
  {
  }

  /** `total_weight` after visiting `order`. */
  function TotalWeight(order: seq<string>, weights: map<string, real>): real {
    if order == [] then 0.0
    else TotalWeight(order[..|order| - 1], weights) + WeightOf(weights, order[|order| - 1])
  }

  /** `weighted_penalty_sum` after visiting `order`. */
  function WeightedPenalty(order: seq<string>, summaries: map<string, PosSummary>, weights: map<string, real>): real
    requires forall p :: p in order ==> p in summaries
  {
    if order == [] then 0.0
    else
      var p := order[|order| - 1];
      WeightedPenalty(order[..|order| - 1], summaries, weights) + WeightOf(weights, p) * summaries[p].repetitionPenalty
  }

  /** The weighted mean of the per-POS penalties, 0 when the total weight is not positive. */
  function GlobalPenalty(ts: seq<LexToken>, weights: map<string, real>): real {
    var order := PosOrder(ts);
    var total := TotalWeight(order, weights);
    if total > 0.0 then WeightedPenalty(order, PosSummaries(ts), weights) / total else 0.0
  }

  function Clamp100(x: real): (r: real)
    ensures 0.0 <= r <= 100.0
    ensures 0.0 <= x <= 100.0 ==> r == x
  {
    if x < 0.0 then 0.0 else if x > 100.0 then 100.0 else x
  }

  function EmptyResult(posWeights: map<string, real>): LexicalResult {
    LexicalResult(0.0, 0.0, 0.0, 0.0, map[], [], TokenCounts(0, 0, 0), posWeights)
  }

  /** The result for a non-empty list of alphabetic tokens. */
  function ResultFor(tokens: seq<LexToken>, posWeights: map<string, real>): LexicalResult {
    var weights := MergeWeights(posWeights);
    var order := PosOrder(tokens);
    var content := ContentTokens(tokens);
    var stops := StopwordTokens(tokens);
    LexicalResult(
      DistinctRatio(tokens), DistinctRatio(content), DistinctRatio(stops),
      Clamp100((1.0 - GlobalPenalty(tokens, weights)) * 100.0),
      PosStatsMap(order, PosSummaries(tokens), weights),
      order,
      TokenCounts(|tokens|, |content|, |stops|),
      weights)
  }

  /**
   * The whole computation as a function: blank text, or text without
   * alphabetic tokens, gives the all-zero result; the score always lies in
   * [0, 100] and the content and stopword counts add up to the total.
   */
  function LexicalVariability(text: string, analyze: Analyzer, posWeights: map<string, real>)
    : (r: LexicalResult)
    ensures Strip(text) == [] ==> r == EmptyResult(posWeights)
    ensures 0.0 <= r.score <= 100.0
    ensures r.counts.content + r.counts.stopwords == r.counts.total
  {
    if Strip(text) == [] then EmptyResult(posWeights)
    else
      var tokens := Alphabetic(analyze(text));
      if tokens == [] then EmptyResult(posWeights)
      else
        PartitionSizes(tokens);
        ResultFor(tokens, posWeights)
  }

  // ---------------------------------------------------------------
  // The source's loops
  // ---------------------------------------------------------------

  /** What one more token does to `pos_stats` and to its key order. */
  lemma PosEntriesStep(tokens: seq<LexToken>, i: nat)
    requires i < |tokens|
    ensures PosEntries(tokens[..i + 1]) == AddLemma(PosEntries(tokens[..i]), tokens[i].pos, LemmaLower(tokens[i]))
    ensures PosOrder(tokens[..i + 1])
            == if tokens[i].pos in PosEntries(tokens[..i]) then PosOrder(tokens[..i]) else PosOrder(tokens[..i]) + [tokens[i].pos]
  {
    assert tokens[..i + 1][..i] == tokens[..i];
    PosEntriesSpec(tokens[..i], tokens[i].pos);
  }

  /** The body of the first loop for one token. */
  method RecordToken(order: seq<string>, stats: map<string, PosEntry>, tok: LexToken)
    returns (order': seq<string>, stats': map<string, PosEntry>)
    ensures order' == if tok.pos in stats then order else order + [tok.pos]
    ensures stats' == AddLemma(stats, tok.pos, LemmaLower(tok))
  {
    var p := tok.pos;
    order', stats' := order, stats;
    if p !in stats' {
      order' := order' + [p];
      stats' := stats'[p := PosEntry(0, [])];
    }
    stats' := stats'[p := PosEntry(stats'[p].count + 1, stats'[p].lemmas + [LemmaLower(tok)])];
  }

  /** The first loop: fill `pos_stats` with a count and a lemma list per part of speech. */
  method BuildPosStats(tokens: seq<LexToken>) returns (order: seq<string>, stats: map<string, PosEntry>)
    ensures order == PosOrder(tokens)
    ensures stats == PosEntries(tokens)
  {
    order, stats := [], map[];
    var i := 0;
    while i < |tokens|
      invariant 0 <= i <= |tokens|
      invariant order == PosOrder(tokens[..i])
      invariant stats == PosEntries(tokens[..i])
    {
      PosEntriesStep(tokens, i);
      order, stats := RecordToken(order, stats, tokens[i]);
      i := i + 1;
    }
    assert tokens[..i] == tokens;
  }

  /** The second loop: replace each lemma list by its count of distinct lemmas,
      their ratio to the count and the repetition penalty. */
  method SummarizePosStats(order: seq<string>, entries: map<string, PosEntry>)
    returns (summaries: map<string, PosSummary>)
    requires forall p :: p in order ==> p in entries && entries[p].count == |entries[p].lemmas|
    ensures forall p :: p in summaries <==> p in order
    ensures forall p :: p in summaries ==> summaries[p] == Summarize(entries[p].lemmas)
  {
    summaries := map[];
    var k := 0;
    while k < |order|
      invariant 0 <= k <= |order|
      invariant forall p :: p in summaries <==> p in order[..k]
      invariant forall p :: p in summaries ==> p in order && summaries[p] == Summarize(entries[p].lemmas)
    {
      var p := order[k];
      var count := entries[p].count;
      var unique := |ToSet(entries[p].lemmas)|;
      var distinct := if count > 0 then unique as real / count as real else 0.0;
      var penalty := 1.0 - distinct;
      summaries := summaries[p := PosSummary(count, unique, distinct, penalty)];
      assert order[..k + 1] == order[..k] + [p];
      k := k + 1;
    }
    assert order[..k] == order;
  }

  /** The last loop: accumulate `total_weight` and `weighted_penalty_sum` from
      the stored penalties and record each part of speech's weight. */
  method AccumulateWeights(order: seq<string>, summaries: map<string, PosSummary>, weights: map<string, real>)
    returns (totalWeight: real, weightedSum: real, stats: map<string, PosStat>)
    requires forall p :: p in order ==> p in summaries
    ensures totalWeight == TotalWeight(order, weights)
    ensures weightedSum == WeightedPenalty(order, summaries, weights)
    ensures stats == PosStatsMap(order, summaries, weights)
  {
    totalWeight, weightedSum, stats := 0.0, 0.0, map[];
    var k := 0;
    while k < |order|
      invariant 0 <= k <= |order|
      invariant totalWeight == TotalWeight(order[..k], weights)
      invariant weightedSum == WeightedPenalty(order[..k], summaries, weights)
      invariant stats == PosStatsMap(order[..k], summaries, weights)
    {
      var p := order[k];
      var w := WeightOf(weights, p);
      assert order[..k + 1][..k] == order[..k];
      totalWeight := totalWeight + w;
      weightedSum := weightedSum + w * summaries[p].repetitionPenalty;
      stats := stats[p := WithWeight(summaries[p], w)];
      k := k + 1;
    }
    assert order[..k] == order;
  }

  /** The summaries the second loop builds from the first loop's entries are `PosSummaries`. */
  lemma SummariesMatch(tokens: seq<LexToken>, summaries: map<string, PosSummary>)
    requires forall p :: p in summaries <==> p in PosOrder(tokens)
    requires forall p :: p in summaries ==>
               p in PosEntries(tokens) && summaries[p] == Summarize(PosEntries(tokens)[p].lemmas)
    ensures summaries == PosSummaries(tokens)
  {
    forall p | p in summaries ensures summaries[p] == Summarize(PosLemmas(tokens, p)) {
      PosEntriesSpec(tokens, p);
    }
  }

  /** The three `pos_stats` loops and the global penalty they yield. */
  method RepetitionByPos(tokens: seq<LexToken>, weights: map<string, real>)
    returns (order: seq<string>, stats: map<string, PosStat>, globalPenalty: real)
    ensures order == PosOrder(tokens)
    ensures stats == PosStatsMap(order, PosSummaries(tokens), weights)
    ensures globalPenalty == GlobalPenalty(tokens, weights)
  {
    var entries;
    order, entries := BuildPosStats(tokens);
    forall p | p in order ensures p in entries && entries[p].count == |entries[p].lemmas| {
      PosEntriesSpec(tokens, p);
    }
    var summaries := SummarizePosStats(order, entries);
    SummariesMatch(tokens, summaries);
    var totalWeight, weightedSum;
    totalWeight, weightedSum, stats := AccumulateWeights(order, summaries, weights);
    globalPenalty := if totalWeight > 0.0 then weightedSum / totalWeight else 0.0;
  }

  /** `compute_spanish_lexical_variability`, step by step as the source does it. */
  method ComputeLexicalVariability(text: string, analyze: Analyzer, posWeights: map<string, real>)
    returns (r: LexicalResult)
    ensures r == LexicalVariability(text, analyze, posWeights)
  {
    if Strip(text) == [] {
      return EmptyResult(posWeights);
    }
    var doc := analyze(text);
    var tokens := Alphabetic(doc);
    if tokens == [] {
      return EmptyResult(posWeights);
    }
    assert LexicalVariability(text, analyze, posWeights) == ResultFor(tokens, posWeights);
    var content := ContentTokens(tokens);
    var stops := StopwordTokens(tokens);
    var weights := MergeWeights(posWeights);
    var order, stats, globalPenalty := RepetitionByPos(tokens, weights);
    var score := Clamp100((1.0 - globalPenalty) * 100.0);
    r := LexicalResult(
      DistinctRatio(tokens), DistinctRatio(content), DistinctRatio(stops),
      score, stats, order, TokenCounts(|tokens|, |content|, |stops|), weights);
  }

  // ---------------------------------------------------------------
  // Properties
  // ---------------------------------------------------------------

  /** Each per-POS record of the result counts the tokens of that part of
      speech, has a penalty in [0, 1) and carries the weight in use. */
  lemma PosStatsSpec(order: seq<string>, ts: seq<LexToken>, weights: map<string, real>, p: string)
    requires order == PosOrder(ts) && p in order
    ensures p in PosStatsMap(order, PosSummaries(ts), weights)
    ensures var st := PosStatsMap(order, PosSummaries(ts), weights)[p];
            st.count == PosCount(ts, p) > 0
            && 1 <= st.uniqueLemmas <= st.count
            && 0.0 <= st.repetitionPenalty < 1.0
            && st.repetitionPenalty == 1.0 - st.uniqueLemmas as real / st.count as real
            && st.weight == WeightOf(weights, p)
  {
    PosSummariesSpec(ts, p);
    PosStatsMapLookup(order, PosSummaries(ts), weights, p);
  }

  /** The weights loop records, for each visited part of speech, its summary and weight. */
  lemma {:induction false} PosStatsMapLookup(order: seq<string>, summaries: map<string, PosSummary>,
                                             weights: map<string, real>, p: string)
    requires forall q :: q in order ==> q in summaries
    ensures p in PosStatsMap(order, summaries, weights) <==> p in order
    ensures p in order ==> PosStatsMap(order, summaries, weights)[p] == WithWeight(summaries[p], WeightOf(weights, p))
  {
    if order != [] {
      var init := order[..|order| - 1];
      assert order == init + [order[|order| - 1]];
      assert forall q :: q in init ==> q in order;
      PosStatsMapLookup(init, summaries, weights, p);
    }
  }

  ghost predicate NonNegativeWeights(weights: map<string, real>) {
    forall p :: p in weights ==> weights[p] >= 0.0
  }

  lemma {:induction false} WeightedPenaltyBounds(order: seq<string>, summaries: map<string, PosSummary>,
                                                 weights: map<string, real>)
    requires NonNegativeWeights(weights)
    requires forall p :: p in order ==> p in summaries && 0.0 <= summaries[p].repetitionPenalty <= 1.0
    ensures 0.0 <= TotalWeight(order, weights)
    ensures 0.0 <= WeightedPenalty(order, summaries, weights) <= TotalWeight(order, weights)
  {
    if order != [] {
      var init, p := order[..|order| - 1], order[|order| - 1];
      assert forall q :: q in init ==> q in order;
      WeightedPenaltyBounds(init, summaries, weights);
      var w, pen := WeightOf(weights, p), summaries[p].repetitionPenalty;
      ScaledFraction(w, pen);
      assert TotalWeight(order, weights) == TotalWeight(init, weights) + w;
      assert WeightedPenalty(order, summaries, weights) == WeightedPenalty(init, summaries, weights) + w * pen;
    }
  }

  lemma ScaledFraction(w: real, f: real)
    requires w >= 0.0 && 0.0 <= f <= 1.0
    ensures 0.0 <= w * f <= w
  {
  }

  /** A weighted mean of penalties in [0, 1] lies in [0, 1]. */
  lemma WeightedMeanBounds(order: seq<string>, summaries: map<string, PosSummary>, weights: map<string, real>)
    requires NonNegativeWeights(weights)
    requires forall p :: p in order ==> p in summaries && 0.0 <= summaries[p].repetitionPenalty <= 1.0
    ensures var total := TotalWeight(order, weights);
            total > 0.0 ==> 0.0 <= WeightedPenalty(order, summaries, weights) / total <= 1.0
  {
    WeightedPenaltyBounds(order, summaries, weights);
    var total := TotalWeight(order, weights);
    if total > 0.0 {
      var s := WeightedPenalty(order, summaries, weights);
      assert s / total <= 1.0;
    }
  }

  /** With non-negative weights the global penalty is a weighted mean of values
      in [0, 1), so it lies in [0, 1] and the score needs no clamping. */
  lemma GlobalPenaltyBounds(ts: seq<LexToken>, weights: map<string, real>)
    requires NonNegativeWeights(weights)
    ensures 0.0 <= GlobalPenalty(ts, weights) <= 1.0
    ensures Clamp100((1.0 - GlobalPenalty(ts, weights)) * 100.0) == (1.0 - GlobalPenalty(ts, weights)) * 100.0
  {
    var order, summaries := PosOrder(ts), PosSummaries(ts);
    forall p | p in order ensures p in summaries && 0.0 <= summaries[p].repetitionPenalty <= 1.0 {
      PosSummariesSpec(ts, p);
    }
    WeightedMeanBounds(order, summaries, weights);
  }

  lemma {:induction false} WeightedPenaltyZero(order: seq<string>, summaries: map<string, PosSummary>,
                                               weights: map<string, real>)
    requires forall p :: p in order ==> p in summaries && summaries[p].repetitionPenalty == 0.0
    ensures WeightedPenalty(order, summaries, weights) == 0.0
  {
    if order != [] {
      var init := order[..|order| - 1];
      assert forall q :: q in init ==> q in order;
      WeightedPenaltyZero(init, summaries, weights);
    }
  }

  lemma DistinctZeroPenalty(ts: seq<LexToken>, p: string)
    requires p in PosOrder(ts) && Distinct(PosLemmas(ts, p))
    ensures p in PosSummaries(ts) && PosSummaries(ts)[p].repetitionPenalty == 0.0
  {
    PosOrderComplete(ts, p);
    PosLemmasLength(ts, p);
    PenaltyZeroIffDistinct(PosLemmas(ts, p));
  }

  /** Without a repeated lemma in any class, the global penalty is 0. */
  lemma NoRepetitionZeroPenalty(tokens: seq<LexToken>, weights: map<string, real>)
    requires forall p :: Distinct(PosLemmas(tokens, p))
    ensures GlobalPenalty(tokens, weights) == 0.0
  {
    forall p | p in PosOrder(tokens) ensures p in PosSummaries(tokens) && PosSummaries(tokens)[p].repetitionPenalty == 0.0 {
      DistinctZeroPenalty(tokens, p);
    }
    ZeroPenaltiesZeroGlobal(tokens, weights);
  }

  lemma ZeroPenaltiesZeroGlobal(tokens: seq<LexToken>, weights: map<string, real>)
    requires forall p :: p in PosOrder(tokens) ==> p in PosSummaries(tokens) && PosSummaries(tokens)[p].repetitionPenalty == 0.0
    ensures GlobalPenalty(tokens, weights) == 0.0
  {
    var order, summaries := PosOrder(tokens), PosSummaries(tokens);
    WeightedPenaltyZero(order, summaries, weights);
    var total := TotalWeight(order, weights);
    assert GlobalPenalty(tokens, weights) == if total > 0.0 then 0.0 / total else 0.0;
  }

  /** Text whose tokens never repeat a lemma within one part of speech scores 100. */
  lemma NoRepetitionFullScore(text: string, analyze: Analyzer, posWeights: map<string, real>)
    requires Strip(text) != []
    requires Alphabetic(analyze(text)) != []
    requires forall p :: Distinct(PosLemmas(Alphabetic(analyze(text)), p))
    ensures LexicalVariability(text, analyze, posWeights).score == 100.0
  {
    var tokens := Alphabetic(analyze(text));
    NoRepetitionZeroPenalty(tokens, MergeWeights(posWeights));
    assert LexicalVariability(text, analyze, posWeights) == ResultFor(tokens, posWeights);
  }

  /** Blank text, or text without alphabetic tokens, gives zero ratios, a zero
      score and zero counts. */
  lemma NoAlphabeticTokens(text: string, analyze: Analyzer, posWeights: map<string, real>)
    requires Strip(text) == [] || Alphabetic(analyze(text)) == []
    ensures var r := LexicalVariability(text, analyze, posWeights);
            r.distinctAll == r.distinctNoStopwords == r.distinctStopwordsOnly == r.score == 0.0
            && r.counts == TokenCounts(0, 0, 0) && r.posStats == map[]
  {
  }
}
