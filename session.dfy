/**
 * Session aggregation of `backend/app/services/scores_service.py`
 * (`calculate_final_scores`): the session's stored metric records are grouped
 * by name, each configured metric is averaged, and the averages are combined
 * into clarity, rhythm, vocabulary and overall scores. A dimension without
 * data is absent (`None`), never 0, and only present dimensions are reported.
 *
 * The database query is replaced by the list of records it returns, the
 * parsed `parameters.json` by its metric table, and the feedback generator by
 * a function whose `None` stands for a feedback task that raised.
 */
module Session {
  import opened Wrappers
  import opened Common
  import opened Stats

  /** A stored `Metric` row: its name, raw value and score. */
  datatype StoredMetric = StoredMetric(name: string, value: real, score: real)

  /** One `DimensionResponse`. */
  datatype DimensionResponse = DimensionResponse(
    name: string,
    score: real,
    feedback: string,
    metrics: Option<map<string, MetricScore>>)

  /** `generate_dimension_feedback(name, score, metrics)`; `None` when it raises. */
  type Feedback = (string, real, Option<map<string, MetricScore>>) -> Option<string>

  const ClarityName: string := "clarity"
  const RhythmName: string := "rhythm"
  const VocabularyName: string := "vocabulary"
  const OverallName: string := "overall"

  // ---------------------------------------------------------------
  // Grouping by name
  // ---------------------------------------------------------------

  /** The `(value, score)` pairs of the records with the given name, in order. */
  function Matching(records: seq<StoredMetric>, name: string): (r: seq<(real, real)>)
    ensures |r| <= |records|
  {
    if records == [] then []
    else
      var last := records[|records| - 1];
      Matching(records[..|records| - 1], name) + (if last.name == name then [(last.value, last.score)] else [])
  }

  /** One step of the grouping loop: open the record's group if needed, then append to it. */
  function AddRecord(groups: map<string, seq<(real, real)>>, m: StoredMetric): map<string, seq<(real, real)>> {
    var g := if m.name in groups then groups else groups[m.name := []];
    g[m.name := g[m.name] + [(m.value, m.score)]]
  }

  /** `metrics_by_name` after the whole session has been read. */
  function Group(records: seq<StoredMetric>): map<string, seq<(real, real)>> {
    if records == [] then map[]
    else AddRecord(Group(records[..|records| - 1]), records[|records| - 1])
  }

  ghost predicate Named(records: seq<StoredMetric>, name: string) {
    exists i :: 0 <= i < |records| && records[i].name == name
  }

  /**
   * Every record lands in exactly its own name's group, in encounter order: a
   * group exists exactly for the names that occur, and holds the pairs of the
   * records with that name and no others.
   */
  lemma {:induction false} GroupSpec(records: seq<StoredMetric>, name: string)
    ensures name in Group(records) <==> Named(records, name)
    ensures name in Group(records) ==> Group(records)[name] == Matching(records, name)
    ensures name in Group(records) ==> Group(records)[name] != []
    ensures name !in Group(records) ==> Matching(records, name) == []
  {
    if records != [] {
      var init, last := records[..|records| - 1], records[|records| - 1];
      GroupSpec(init, name);
      if Named(records, name) && last.name != name {
        var i :| 0 <= i < |records| && records[i].name == name;
        assert init[i].name == name;
      }
      if Named(init, name) {
        var i :| 0 <= i < |init| && init[i].name == name;
        assert records[i].name == name;
      }
      var tail: seq<(real, real)> := if last.name == name then [(last.value, last.score)] else [];
      assert Matching(records, name) == Matching(init, name) + tail;
      assert Group(records) == AddRecord(Group(init), last);
      if last.name == name {
        var before := if name in Group(init) then Group(init)[name] else [];
        assert before == Matching(init, name);
        assert Group(records)[name] == before + tail;
      } else if name in Group(init) {
        assert Group(records)[name] == Group(init)[name];
      }
    }
  }

  /** The grouping loop; `names` is the groups' insertion order. */
  method GroupByName(records: seq<StoredMetric>) returns (names: seq<string>, groups: map<string, seq<(real, real)>>)
    ensures groups == Group(records)
    ensures forall k :: k in groups <==> k in names
  {
    names, groups := [], map[];
    for i := 0 to |records|
      invariant groups == Group(records[..i])
      invariant forall k :: k in groups <==> k in names
    {
      var m := records[i];
      assert records[..i + 1][..i] == records[..i];
      if m.name !in groups {
        groups := groups[m.name := []];
        names := names + [m.name];
      }
      groups := groups[m.name := groups[m.name] + [(m.value, m.score)]];
    }
    assert records[..|records|] == records;
  }

  // ---------------------------------------------------------------
  // Averaging
  // ---------------------------------------------------------------

  function Raws(pairs: seq<(real, real)>): (r: seq<real>)
    ensures |r| == |pairs| && forall i :: 0 <= i < |pairs| ==> r[i] == pairs[i].0
  {
    seq(|pairs|, i requires 0 <= i < |pairs| => pairs[i].0)
  }

  function Scores(pairs: seq<(real, real)>): (r: seq<real>)
    ensures |r| == |pairs| && forall i :: 0 <= i < |pairs| ==> r[i] == pairs[i].1
  {
    seq(|pairs|, i requires 0 <= i < |pairs| => pairs[i].1)
  }

  /** `sum(xs) / len(xs) if xs else 0.0` */
  function MeanOrZero(xs: seq<real>): real {
    if xs == [] then 0.0 else Mean(xs)
  }

  /** The averaged `MetricScore` of one group. */
  function Averaged(pairs: seq<(real, real)>): MetricScore {
    MetricScore(MeanOrZero(Raws(pairs)), MeanOrZero(Scores(pairs)))
  }

  /** `metrics_averages`: one entry per group whose name is configured. */
  function Averages(groups: map<string, seq<(real, real)>>, metricsCfg: map<string, MetricConfig>)
    : (r: map<string, MetricScore>)
    ensures forall k :: k in r <==> k in groups && k in metricsCfg
    ensures forall k :: k in r ==> r[k] == Averaged(groups[k])
  {
    map k | k in groups && k in metricsCfg :: Averaged(groups[k])
  }

  /** A group's averaged raw value and score lie within the group's own range. */
  lemma AveragedWithin(pairs: seq<(real, real)>, lo: real, hi: real, rawLo: real, rawHi: real)
    requires pairs != []
    requires Within(Scores(pairs), lo, hi) && Within(Raws(pairs), rawLo, rawHi)
    ensures lo <= Averaged(pairs).score <= hi
    ensures rawLo <= Averaged(pairs).raw <= rawHi
  {
    MeanBounds(Scores(pairs), lo, hi);
    MeanBounds(Raws(pairs), rawLo, rawHi);
  }

  /** The averaging loop over the groups in insertion order. */
  method AverageGroups(names: seq<string>, groups: map<string, seq<(real, real)>>, metricsCfg: map<string, MetricConfig>)
    returns (averages: map<string, MetricScore>)
    requires forall k :: k in groups <==> k in names
    ensures averages == Averages(groups, metricsCfg)
  {
    averages := map[];
    for i := 0 to |names|
      invariant forall k :: k in averages <==> k in names[..i] && k in metricsCfg
      invariant forall k :: k in averages ==> k in groups && averages[k] == Averaged(groups[k])
    {
      var name := names[i];
      assert names[..i + 1] == names[..i] + [name];
      if name in metricsCfg {
        var rawValues := Raws(groups[name]);
        var scores := Scores(groups[name]);
        var avgRaw := if rawValues != [] then Sum(rawValues) / |rawValues| as real else 0.0;
        var avgScore := if scores != [] then Sum(scores) / |scores| as real else 0.0;
        averages := averages[name := MetricScore(avgRaw, avgScore)];
      }
    }
    assert names[..|names|] == names;
  }

  // ---------------------------------------------------------------
  // Dimensions
  // ---------------------------------------------------------------

  /** The dimension scores and the metrics attached to each. */
  datatype SessionScores = SessionScores(
    clarity: Option<real>,
    clarityMetrics: Option<map<string, MetricScore>>,
    rhythm: Option<real>,
    rhythmMetrics: Option<map<string, MetricScore>>,
    vocabulary: Option<real>,
    vocabularyMetrics: Option<map<string, MetricScore>>,
    overall: Option<real>)

  /** `len(metrics_by_name.get(name, []))` */
  function GroupSize(groups: map<string, seq<(real, real)>>, name: string): nat {
    if name in groups then |groups[name]| else 0
  }

  /** A metric's averaged score repeated once per stored record of it, or
      nothing when the metric has no average. */
  function Repeated(groups: map<string, seq<(real, real)>>, averages: map<string, MetricScore>, name: string): seq<real> {
    if name in averages then Repeat(averages[name].score, GroupSize(groups, name)) else []
  }

  function SingleMetric(averages: map<string, MetricScore>, name: string): Option<map<string, MetricScore>> {
    if name in averages then Some(map[name := averages[name]]) else None
  }

  /** The rate metrics that have an average, or `None` when neither has. */
  function RhythmMetrics(averages: map<string, MetricScore>): (r: Option<map<string, MetricScore>>)
    ensures r.None? <==> WordsPerMinuteName !in averages && FillersPerMinuteName !in averages
    ensures r.Some? ==> forall k :: k in r.value <==> k in averages && (k == WordsPerMinuteName || k == FillersPerMinuteName)
    ensures r.Some? ==> forall k :: k in r.value ==> r.value[k] == averages[k]
  {
    var empty: map<string, MetricScore> := map[];
    var withWords := if WordsPerMinuteName in averages then empty[WordsPerMinuteName := averages[WordsPerMinuteName]] else empty;
    var d := if FillersPerMinuteName in averages then withWords[FillersPerMinuteName := averages[FillersPerMinuteName]] else withWords;
    assert WordsPerMinuteName in averages ==> WordsPerMinuteName in d;
    assert FillersPerMinuteName in averages ==> FillersPerMinuteName in d;
    if d == map[] then None else Some(d)
  }

  /** The present values among three, in order. */
  function PresentValues(a: Option<real>, b: Option<real>, c: Option<real>): (r: seq<real>)
    ensures r == [] <==> a.None? && b.None? && c.None?
  {
    (if a.Some? then [a.value] else []) + (if b.Some? then [b.value] else []) + (if c.Some? then [c.value] else [])
  }

  /** The dimension section of `calculate_final_scores`. */
  function Combine(groups: map<string, seq<(real, real)>>, averages: map<string, MetricScore>): SessionScores {
    var clarity := MeanOrNone(Repeated(groups, averages, PrecisionName));
    var rhythm := MeanOrNone(Repeated(groups, averages, WordsPerMinuteName) + Repeated(groups, averages, FillersPerMinuteName));
    var vocabulary := MeanOrNone(Repeated(groups, averages, LexicalName));
    var overall := MeanOrNone(PresentValues(clarity, rhythm, vocabulary));
    SessionScores(clarity, SingleMetric(averages, PrecisionName), rhythm, RhythmMetrics(averages),
                  vocabulary, SingleMetric(averages, LexicalName), overall)
  }

  /** The groups behind the averages are never empty. */
  ghost predicate Backed(groups: map<string, seq<(real, real)>>, averages: map<string, MetricScore>) {
    forall k :: k in averages ==> k in groups && groups[k] != []
  }

  /** Repeating an average once per record and averaging again gives the
      average back: a single-metric dimension is that metric's average. */
  lemma SingleDimension(groups: map<string, seq<(real, real)>>, averages: map<string, MetricScore>, name: string)
    requires Backed(groups, averages)
    ensures MeanOrNone(Repeated(groups, averages, name))
            == if name in averages then Some(averages[name].score) else None
  {
    if name in averages {
      MeanRepeat(averages[name].score, GroupSize(groups, name));
    }
  }

  /** Clarity is the averaged precision score and vocabulary the averaged
      lexical score, each `None` when its metric has no average. */
  lemma ClarityAndVocabulary(groups: map<string, seq<(real, real)>>, averages: map<string, MetricScore>)
    requires Backed(groups, averages)
    ensures Combine(groups, averages).clarity
            == if PrecisionName in averages then Some(averages[PrecisionName].score) else None
    ensures Combine(groups, averages).vocabulary
            == if LexicalName in averages then Some(averages[LexicalName].score) else None
  {
    SingleDimension(groups, averages, PrecisionName);
    SingleDimension(groups, averages, LexicalName);
  }

  /** The mean of `a` taken with weight `m` and `b` taken with weight `n`. */
  function WeightedMean(a: real, m: nat, b: real, n: nat): real
    requires m + n > 0
  {
    (m as real * a + n as real * b) / (m as real + n as real)
  }

  /** The mean of `a` repeated `m` times followed by `b` repeated `n` times. */
  lemma WeightedRepeat(a: real, m: nat, b: real, n: nat)
    requires m + n > 0
    ensures Mean(Repeat(a, m) + Repeat(b, n)) == WeightedMean(a, m, b, n)
  {
    SumAppend(Repeat(a, m), Repeat(b, n));
    SumRepeat(a, m);
    SumRepeat(b, n);
  }

  /**
   * Rhythm is the record-count-weighted mean of the averaged words-per-minute
   * and fillers-per-minute scores, one of them alone when only it is
   * averaged, and `None` when neither is.
   */
  lemma RhythmWeighted(groups: map<string, seq<(real, real)>>, averages: map<string, MetricScore>)
    requires Backed(groups, averages)
    ensures Combine(groups, averages).rhythm.None?
            <==> WordsPerMinuteName !in averages && FillersPerMinuteName !in averages
    ensures WordsPerMinuteName in averages && FillersPerMinuteName in averages ==>
              Combine(groups, averages).rhythm
              == Some(WeightedMean(averages[WordsPerMinuteName].score, |groups[WordsPerMinuteName]|,
                                   averages[FillersPerMinuteName].score, |groups[FillersPerMinuteName]|))
    ensures WordsPerMinuteName in averages && FillersPerMinuteName !in averages ==>
              Combine(groups, averages).rhythm == Some(averages[WordsPerMinuteName].score)
    ensures WordsPerMinuteName !in averages && FillersPerMinuteName in averages ==>
              Combine(groups, averages).rhythm == Some(averages[FillersPerMinuteName].score)
  {
    var w, f := WordsPerMinuteName, FillersPerMinuteName;
    var rw, rf := Repeated(groups, averages, w), Repeated(groups, averages, f);
    if w in averages && f in averages {
      var a, b, m, n := averages[w].score, averages[f].score, |groups[w]|, |groups[f]|;
      assert rw == Repeat(a, m) && rf == Repeat(b, n);
      WeightedRepeat(a, m, b, n);
      assert |rw + rf| == m + n > 0;
    } else if w in averages {
      assert rw + rf == rw;
      MeanRepeat(averages[w].score, |groups[w]|);
    } else if f in averages {
      assert rw + rf == rf;
      MeanRepeat(averages[f].score, |groups[f]|);
    } else {
      assert rw + rf == [];
    }
  }

  /** Overall is the mean of the dimensions that are present and `None` exactly
      when all three are absent. */
  lemma OverallSpec(groups: map<string, seq<(real, real)>>, averages: map<string, MetricScore>)
    ensures var s := Combine(groups, averages);
            && (s.overall.None? <==> s.clarity.None? && s.rhythm.None? && s.vocabulary.None?)
            && (s.overall.Some? ==> s.overall.value == Mean(PresentValues(s.clarity, s.rhythm, s.vocabulary)))
  {
  }

  /** Present values within [lo, hi] stay within [lo, hi]. */
  lemma PresentValuesWithin(a: Option<real>, b: Option<real>, c: Option<real>, lo: real, hi: real)
    requires a.Some? ==> lo <= a.value <= hi
    requires b.Some? ==> lo <= b.value <= hi
    requires c.Some? ==> lo <= c.value <= hi
    ensures Within(PresentValues(a, b, c), lo, hi)
  {
  }

  /** Averages within [lo, hi] give dimension scores within [lo, hi]. */
  lemma CombineWithin(groups: map<string, seq<(real, real)>>, averages: map<string, MetricScore>, lo: real, hi: real)
    requires Backed(groups, averages)
    requires forall k :: k in averages ==> lo <= averages[k].score <= hi
    ensures ScoresWithin(Combine(groups, averages), lo, hi)
  {
    var s := Combine(groups, averages);
    ClarityAndVocabulary(groups, averages);
    var rs := Repeated(groups, averages, WordsPerMinuteName) + Repeated(groups, averages, FillersPerMinuteName);
    assert Within(rs, lo, hi);
    if rs != [] {
      MeanBounds(rs, lo, hi);
    }
    var xs := PresentValues(s.clarity, s.rhythm, s.vocabulary);
    PresentValuesWithin(s.clarity, s.rhythm, s.vocabulary, lo, hi);
    if xs != [] {
      MeanBounds(xs, lo, hi);
    }
  }

  /** The rhythm block: each averaged rate's score once per stored record, and
      the averaged rates themselves. */
  method RhythmDimension(groups: map<string, seq<(real, real)>>, averages: map<string, MetricScore>)
    returns (rhythm: Option<real>, rhythmMetrics: Option<map<string, MetricScore>>)
    ensures rhythm == MeanOrNone(Repeated(groups, averages, WordsPerMinuteName) + Repeated(groups, averages, FillersPerMinuteName))
    ensures rhythmMetrics == RhythmMetrics(averages)
  {
    var scores: seq<real> := [];
    var metrics: map<string, MetricScore> := map[];
    if WordsPerMinuteName in averages {
      scores := scores + Repeat(averages[WordsPerMinuteName].score, GroupSize(groups, WordsPerMinuteName));
      metrics := metrics[WordsPerMinuteName := averages[WordsPerMinuteName]];
    }
    assert scores == Repeated(groups, averages, WordsPerMinuteName);
    if FillersPerMinuteName in averages {
      scores := scores + Repeat(averages[FillersPerMinuteName].score, GroupSize(groups, FillersPerMinuteName));
      metrics := metrics[FillersPerMinuteName := averages[FillersPerMinuteName]];
    }
    assert scores == Repeated(groups, averages, WordsPerMinuteName) + Repeated(groups, averages, FillersPerMinuteName);
    rhythm := if scores != [] then Some(Sum(scores) / |scores| as real) else None;
    rhythmMetrics := if metrics == map[] then None else Some(metrics);
  }

  /** The overall block: the mean of the dimensions that are present. */
  method OverallDimension(clarity: Option<real>, rhythm: Option<real>, vocabulary: Option<real>)
    returns (overall: Option<real>)
    ensures overall == MeanOrNone(PresentValues(clarity, rhythm, vocabulary))
  {
    var forOverall: seq<real> := [];
    if clarity.Some? {
      forOverall := forOverall + [clarity.value];
    }
    if rhythm.Some? {
      forOverall := forOverall + [rhythm.value];
    }
    if vocabulary.Some? {
      forOverall := forOverall + [vocabulary.value];
    }
    assert forOverall == PresentValues(clarity, rhythm, vocabulary);
    overall := if forOverall != [] then Some(Sum(forOverall) / |forOverall| as real) else None;
  }

  /** The dimension section as the service runs it, statement by statement. */
  method CombineDimensions(groups: map<string, seq<(real, real)>>, averages: map<string, MetricScore>)
    returns (s: SessionScores)
    ensures s == Combine(groups, averages)
  {
    var clarityScores := Repeated(groups, averages, PrecisionName);
    var clarity := if clarityScores != [] then Some(Sum(clarityScores) / |clarityScores| as real) else None;
    var clarityMetrics := SingleMetric(averages, PrecisionName);

    var rhythm, rhythmMetrics := RhythmDimension(groups, averages);

    var vocabularyScores := Repeated(groups, averages, LexicalName);
    var vocabulary := if vocabularyScores != [] then Some(Sum(vocabularyScores) / |vocabularyScores| as real) else None;
    var vocabularyMetrics := SingleMetric(averages, LexicalName);

    var overall := OverallDimension(clarity, rhythm, vocabulary);
    s := SessionScores(clarity, clarityMetrics, rhythm, rhythmMetrics, vocabulary, vocabularyMetrics, overall);
  }

  // ---------------------------------------------------------------
  // Response
  // ---------------------------------------------------------------

  /** An entry of `dimension_data`. */
  datatype DimensionEntry = DimensionEntry(name: string, score: real, metrics: Option<map<string, MetricScore>>)

  /** One conditional append to `dimension_data`: the dimension joins when its score is present. */
  function AppendIf(es: seq<DimensionEntry>, name: string, score: Option<real>, metrics: Option<map<string, MetricScore>>)
    : seq<DimensionEntry>
  {
    if score.Some? then es + [DimensionEntry(name, score.value, metrics)] else es
  }

  /** `dimension_data`: clarity, rhythm, vocabulary and overall, each when present. */
  function Entries(s: SessionScores): seq<DimensionEntry> {
    var withClarity := AppendIf([], ClarityName, s.clarity, s.clarityMetrics);
    var withRhythm := AppendIf(withClarity, RhythmName, s.rhythm, s.rhythmMetrics);
    var withVocabulary := AppendIf(withRhythm, VocabularyName, s.vocabulary, s.vocabularyMetrics);
    AppendIf(withVocabulary, OverallName, s.overall, None)
  }

  /** A dimension's response: the feedback text, or "" when its task raised;
      overall never carries metrics. */
  function Respond(e: DimensionEntry, feedback: Feedback): DimensionResponse {
    var text := feedback(e.name, e.score, e.metrics);
    DimensionResponse(e.name, e.score, if text.Some? then text.value else "",
                      if e.name == OverallName then None else e.metrics)
  }

  /** The response list built entry by entry. */
  function Responses(entries: seq<DimensionEntry>, feedback: Feedback): (r: seq<DimensionResponse>)
    ensures |r| == |entries|
    ensures forall i :: 0 <= i < |entries| ==> r[i] == Respond(entries[i], feedback)
  {
    if entries == [] then []
    else Responses(entries[..|entries| - 1], feedback) + [Respond(entries[|entries| - 1], feedback)]
  }

  /** The position of each dimension name in the response. */
  function Rank(name: string): nat {
    if name == ClarityName then 0 else if name == RhythmName then 1 else if name == VocabularyName then 2 else 3
  }

  /** The score a dimension name stands for. */
  function ScoreFor(s: SessionScores, name: string): Option<real> {
    if name == ClarityName then s.clarity
    else if name == RhythmName then s.rhythm
    else if name == VocabularyName then s.vocabulary
    else if name == OverallName then s.overall
    else None
  }

  ghost function EntryNames(es: seq<DimensionEntry>): seq<string> {
    seq(|es|, i requires 0 <= i < |es| => es[i].name)
  }

  ghost function ResponseNames(r: seq<DimensionResponse>): seq<string> {
    seq(|r|, i requires 0 <= i < |r| => r[i].name)
  }

  /** The entries so far each carry their dimension's score, in rank order, all below rank `k`. */
  ghost predicate ListedBelow(s: SessionScores, es: seq<DimensionEntry>, k: nat) {
    && (forall i :: 0 <= i < |es| ==> ScoreFor(s, es[i].name) == Some(es[i].score) && Rank(es[i].name) < k)
    && (forall i, j :: 0 <= i < j < |es| ==> Rank(es[i].name) < Rank(es[j].name))
  }

  /** One conditional append keeps the entries in rank order and adds the name exactly when its score is present. */
  lemma AppendStep(s: SessionScores, es: seq<DimensionEntry>, name: string, metrics: Option<map<string, MetricScore>>)
    requires ListedBelow(s, es, Rank(name))
    ensures ListedBelow(s, AppendIf(es, name, ScoreFor(s, name), metrics), Rank(name) + 1)
    ensures forall n :: n in EntryNames(AppendIf(es, name, ScoreFor(s, name), metrics))
                        <==> n in EntryNames(es) || (n == name && ScoreFor(s, name).Some?)
  {
    var es' := AppendIf(es, name, ScoreFor(s, name), metrics);
    if ScoreFor(s, name).Some? {
      assert EntryNames(es') == EntryNames(es) + [name];
    }
  }

  /** `dimension_data` lists exactly the present dimensions, each with its score, in rank order. */
  lemma EntriesSpec(s: SessionScores)
    ensures ListedBelow(s, Entries(s), 4)
    ensures forall name :: name in EntryNames(Entries(s)) <==> ScoreFor(s, name).Some?
  {
    var e0: seq<DimensionEntry> := [];
    AppendStep(s, e0, ClarityName, s.clarityMetrics);
    var e1 := AppendIf(e0, ClarityName, s.clarity, s.clarityMetrics);
    AppendStep(s, e1, RhythmName, s.rhythmMetrics);
    var e2 := AppendIf(e1, RhythmName, s.rhythm, s.rhythmMetrics);
    AppendStep(s, e2, VocabularyName, s.vocabularyMetrics);
    var e3 := AppendIf(e2, VocabularyName, s.vocabulary, s.vocabularyMetrics);
    AppendStep(s, e3, OverallName, None);
  }

  /**
   * The response lists a dimension exactly when its score is present, with
   * that score, strictly in the order clarity, rhythm, vocabulary, overall;
   * overall carries no metrics; a feedback task that raised gives "".
   */
  lemma ResponsesSpec(s: SessionScores, feedback: Feedback)
    ensures forall name :: name in ResponseNames(Responses(Entries(s), feedback)) <==> ScoreFor(s, name).Some?
    ensures forall i :: 0 <= i < |Responses(Entries(s), feedback)| ==>
              ScoreFor(s, Responses(Entries(s), feedback)[i].name) == Some(Responses(Entries(s), feedback)[i].score)
    ensures forall i, j :: 0 <= i < j < |Responses(Entries(s), feedback)| ==>
              Rank(Responses(Entries(s), feedback)[i].name) < Rank(Responses(Entries(s), feedback)[j].name)
    ensures forall i :: 0 <= i < |Responses(Entries(s), feedback)| && Responses(Entries(s), feedback)[i].name == OverallName ==>
              Responses(Entries(s), feedback)[i].metrics.None?
    ensures forall i :: 0 <= i < |Responses(Entries(s), feedback)| &&
                        feedback(Entries(s)[i].name, Entries(s)[i].score, Entries(s)[i].metrics).None? ==>
              Responses(Entries(s), feedback)[i].feedback == ""
  {
    EntriesSpec(s);
    ResponsesOfListed(s, Entries(s), feedback);
  }

  /** Responding entry by entry keeps each entry's name and score, hence the listing facts. */
  lemma ResponsesOfListed(s: SessionScores, es: seq<DimensionEntry>, feedback: Feedback)
    requires ListedBelow(s, es, 4)
    requires forall name :: name in EntryNames(es) <==> ScoreFor(s, name).Some?
    ensures forall name :: name in ResponseNames(Responses(es, feedback)) <==> ScoreFor(s, name).Some?
    ensures forall i :: 0 <= i < |Responses(es, feedback)| ==>
              ScoreFor(s, Responses(es, feedback)[i].name) == Some(Responses(es, feedback)[i].score)
    ensures forall i, j :: 0 <= i < j < |Responses(es, feedback)| ==>
              Rank(Responses(es, feedback)[i].name) < Rank(Responses(es, feedback)[j].name)
  {
    var r := Responses(es, feedback);
    forall i | 0 <= i < |r|
      ensures r[i].name == es[i].name && r[i].score == es[i].score
    {
      assert r[i] == Respond(es[i], feedback);
    }
    assert ResponseNames(r) == EntryNames(es);
  }

  /** The response loop over `dimension_data`. */
  method RespondAll(entries: seq<DimensionEntry>, feedback: Feedback) returns (dimensions: seq<DimensionResponse>)
    ensures dimensions == Responses(entries, feedback)
  {
    dimensions := [];
    for i := 0 to |entries|
      invariant dimensions == Responses(entries[..i], feedback)
    {
      assert entries[..i + 1][..i] == entries[..i];
      var e := entries[i];
      var text := feedback(e.name, e.score, e.metrics);
      var fb := if text.Some? then text.value else "";
      if e.name == OverallName {
        dimensions := dimensions + [DimensionResponse(e.name, e.score, fb, None)];
      } else {
        dimensions := dimensions + [DimensionResponse(e.name, e.score, fb, e.metrics)];
      }
    }
    assert entries[..|entries|] == entries;
  }

  // ---------------------------------------------------------------
  // The whole computation
  // ---------------------------------------------------------------

  /** `calculate_final_scores` after the database query, as one function. */
  function FinalScores(records: seq<StoredMetric>, metricsCfg: map<string, MetricConfig>, feedback: Feedback)
    : seq<DimensionResponse>
  {
    var groups := Group(records);
    Responses(Entries(Combine(groups, Averages(groups, metricsCfg))), feedback)
  }

  /** The averages built from a session's records are backed by non-empty groups. */
  lemma AveragesBacked(records: seq<StoredMetric>, metricsCfg: map<string, MetricConfig>)
    ensures Backed(Group(records), Averages(Group(records), metricsCfg))
  {
    forall k | k in Averages(Group(records), metricsCfg)
      ensures k in Group(records) && Group(records)[k] != []
    {
      GroupSpec(records, k);
    }
  }

  /** The pairs of a name's records keep the records' bounds. */
  lemma {:induction false} MatchingWithin(records: seq<StoredMetric>, name: string, lo: real, hi: real)
    requires forall i :: 0 <= i < |records| ==> lo <= records[i].score <= hi
    ensures Within(Scores(Matching(records, name)), lo, hi)
  {
    if records != [] {
      var init, last := records[..|records| - 1], records[|records| - 1];
      MatchingWithin(init, name, lo, hi);
      var tail: seq<(real, real)> := if last.name == name then [(last.value, last.score)] else [];
      assert Matching(records, name) == Matching(init, name) + tail;
    }
  }

  /** Record scores within [lo, hi] give averaged scores within [lo, hi]. */
  lemma AveragesWithin(records: seq<StoredMetric>, metricsCfg: map<string, MetricConfig>, lo: real, hi: real)
    requires forall i :: 0 <= i < |records| ==> lo <= records[i].score <= hi
    ensures forall k :: k in Averages(Group(records), metricsCfg) ==>
              lo <= Averages(Group(records), metricsCfg)[k].score <= hi
  {
    var groups := Group(records);
    forall k | k in Averages(groups, metricsCfg)
      ensures lo <= Averaged(groups[k]).score <= hi
    {
      GroupSpec(records, k);
      MatchingWithin(records, k, lo, hi);
      MeanBounds(Scores(groups[k]), lo, hi);
    }
  }

  /** Every present dimension score within [lo, hi]. */
  ghost predicate ScoresWithin(s: SessionScores, lo: real, hi: real) {
    && (s.clarity.Some? ==> lo <= s.clarity.value <= hi)
    && (s.rhythm.Some? ==> lo <= s.rhythm.value <= hi)
    && (s.vocabulary.Some? ==> lo <= s.vocabulary.value <= hi)
    && (s.overall.Some? ==> lo <= s.overall.value <= hi)
  }

  /** Every entry's score within [lo, hi]. */
  ghost predicate EntriesWithin(es: seq<DimensionEntry>, lo: real, hi: real) {
    forall i :: 0 <= i < |es| ==> lo <= es[i].score <= hi
  }

  lemma AppendWithin(es: seq<DimensionEntry>, name: string, score: Option<real>,
                     metrics: Option<map<string, MetricScore>>, lo: real, hi: real)
    requires EntriesWithin(es, lo, hi)
    requires score.Some? ==> lo <= score.value <= hi
    ensures EntriesWithin(AppendIf(es, name, score, metrics), lo, hi)
  {
  }

  /** Responses built from bounded dimension scores are bounded. */
  lemma ResponsesWithin(s: SessionScores, feedback: Feedback, lo: real, hi: real)
    requires ScoresWithin(s, lo, hi)
    ensures forall i :: 0 <= i < |Responses(Entries(s), feedback)| ==>
              lo <= Responses(Entries(s), feedback)[i].score <= hi
  {
    var e0: seq<DimensionEntry> := [];
    var e1 := AppendIf(e0, ClarityName, s.clarity, s.clarityMetrics);
    AppendWithin(e0, ClarityName, s.clarity, s.clarityMetrics, lo, hi);
    var e2 := AppendIf(e1, RhythmName, s.rhythm, s.rhythmMetrics);
    AppendWithin(e1, RhythmName, s.rhythm, s.rhythmMetrics, lo, hi);
    var e3 := AppendIf(e2, VocabularyName, s.vocabulary, s.vocabularyMetrics);
    AppendWithin(e2, VocabularyName, s.vocabulary, s.vocabularyMetrics, lo, hi);
    AppendWithin(e3, OverallName, s.overall, None, lo, hi);
    assert Entries(s) == AppendIf(e3, OverallName, s.overall, None);
  }

  /** Record scores within [0, 100] give response scores within [0, 100]. */
  lemma FinalScoresWithin(records: seq<StoredMetric>, metricsCfg: map<string, MetricConfig>, feedback: Feedback)
    requires forall i :: 0 <= i < |records| ==> 0.0 <= records[i].score <= 100.0
    ensures forall i :: 0 <= i < |FinalScores(records, metricsCfg, feedback)| ==>
              0.0 <= FinalScores(records, metricsCfg, feedback)[i].score <= 100.0
  {
    var groups := Group(records);
    var averages := Averages(groups, metricsCfg);
    AveragesBacked(records, metricsCfg);
    AveragesWithin(records, metricsCfg, 0.0, 100.0);
    var s := Combine(groups, averages);
    CombineWithin(groups, averages, 0.0, 100.0);
    assert ScoresWithin(s, 0.0, 100.0);
    ResponsesWithin(s, feedback, 0.0, 100.0);
    assert FinalScores(records, metricsCfg, feedback) == Responses(Entries(s), feedback);
  }

  /** The service's computation, step by step. */
  method CalculateFinalScores(records: seq<StoredMetric>, metricsCfg: map<string, MetricConfig>, feedback: Feedback)
    returns (dimensions: seq<DimensionResponse>)
    ensures dimensions == FinalScores(records, metricsCfg, feedback)
  {
    var names, groups := GroupByName(records);
    var averages := AverageGroups(names, groups, metricsCfg);
    var s := CombineDimensions(groups, averages);
    var entries: seq<DimensionEntry> := [];
    if s.clarity.Some? {
      entries := entries + [DimensionEntry(ClarityName, s.clarity.value, s.clarityMetrics)];
    }
    assert entries == AppendIf([], ClarityName, s.clarity, s.clarityMetrics);
    ghost var withClarity := entries;
    if s.rhythm.Some? {
      entries := entries + [DimensionEntry(RhythmName, s.rhythm.value, s.rhythmMetrics)];
    }
    assert entries == AppendIf(withClarity, RhythmName, s.rhythm, s.rhythmMetrics);
    ghost var withRhythm := entries;
    if s.vocabulary.Some? {
      entries := entries + [DimensionEntry(VocabularyName, s.vocabulary.value, s.vocabularyMetrics)];
    }
    assert entries == AppendIf(withRhythm, VocabularyName, s.vocabulary, s.vocabularyMetrics);
    ghost var withVocabulary := entries;
    if s.overall.Some? {
      entries := entries + [DimensionEntry(OverallName, s.overall.value, None)];
    }
    assert entries == AppendIf(withVocabulary, OverallName, s.overall, None);
    dimensions := RespondAll(entries, feedback);
  }
}
