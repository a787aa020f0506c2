/**
 * The resource cache of `backend/app/services/metrics_service.py`: three
 * module-level slots (the spaCy model, the parsed `parameters.json` and the
 * filler-word set), each loaded at most once, and the synchronous entry point
 * that checks them and fills in the filler count before the metrics are
 * computed.
 *
 * Loading the spaCy model and reading `parameters.json` are foreign calls and
 * I/O: each attempt's outcome is an input, `None` when the attempt raises. The
 * filler lexicon goes through the modelled loader `LoadFillerWordsSet`.
 */
module Resources {
  import opened Wrappers
  import opened Common
  import opened Fillers
  import opened Lexical
  import opened Measure

  /** `get_resources_status`: which slots are filled. */
  datatype ResourcesStatus = ResourcesStatus(spacyModel: bool, parameters: bool, fillerWords: bool)

  /** The `RuntimeError` raised when a required slot is empty. */
  datatype ComputeError = ResourcesNotLoaded

  /** What `_compute_metrics_sync` hands to the metric computation: the cached
      resources and the raw counts to use. */
  datatype Prepared = Prepared(
    nlp: Option<Analyzer>,
    parameters: Parameters,
    fillerWords: set<string>,
    rawCounts: map<string, Option<int>>)

  /**
   * The counts passed on: the caller's map, plus the filler count against the
   * cached set when there is a transcription and the caller supplied no
   * `num_filler_words` key at all (a key holding `None` is kept as given).
   */
  function PreparedCounts(rawCounts: map<string, Option<int>>, transcription: string, fillers: set<string>)
    : (r: map<string, Option<int>>)
    ensures forall k :: k != NumFillersKey ==> (k in r <==> k in rawCounts)
    ensures forall k :: k in rawCounts ==> k in r && r[k] == rawCounts[k]
    ensures NumFillersKey !in rawCounts ==> (NumFillersKey in r <==> transcription != [])
    ensures NumFillersKey !in rawCounts && transcription != [] ==>
              r[NumFillersKey] == Some(CountFillerWordsCached(transcription, fillers))
  {
    if transcription != [] && NumFillersKey !in rawCounts then
      rawCounts[NumFillersKey := Some(CountFillerWordsCached(transcription, fillers))]
    else rawCounts
  }

  /**
   * Counting ahead against the cached set changes nothing downstream: the
   * filler count the metric computation settles on is the one it would have
   * computed from the lexicon file itself.
   */
  lemma PreparedCountsAgree(rawCounts: map<string, Option<int>>, transcription: string, file: FillerFile)
    requires LoadFillerWordsSet(file).Success?
    ensures FillerCount(PreparedCounts(rawCounts, transcription, LoadFillerWordsSet(file).value), transcription, file)
            == FillerCount(rawCounts, transcription, file)
  {
    var fillers := LoadFillerWordsSet(file).value;
    var prepared := PreparedCounts(rawCounts, transcription, fillers);
    if transcription != [] && NumFillersKey !in rawCounts {
      CountersAgree(transcription, file);
      assert CountOf(prepared, NumFillersKey) == Some(CountFillerWordsCached(transcription, fillers));
    }
  }

  /** The module-level slots `_nlp`, `_parameters` and `_filler_words`. */
  class ResourceCache {
    var nlp: Option<Analyzer>
    var parameters: Option<Parameters>
    var fillerWords: Option<set<string>>

    /** All three slots start empty. */
    constructor ()
      ensures nlp.None? && parameters.None? && fillerWords.None?
    {
      nlp := None;
      parameters := None;
      fillerWords := None;
    }

    /**
     * `_load_resources`: every empty slot is loaded, a filled slot is never
     * reloaded or replaced, and a failed load leaves its slot empty without
     * affecting the other slots.
     */
    method LoadResources(nlpLoad: Option<Analyzer>, parametersLoad: Option<Parameters>, fillerFile: FillerFile)
      modifies this
      ensures nlp == if old(nlp).Some? then old(nlp) else nlpLoad
      ensures parameters == if old(parameters).Some? then old(parameters) else parametersLoad
      ensures fillerWords == if old(fillerWords).Some? then old(fillerWords)
                             else LoadFillerWordsSet(fillerFile).ToOption()
    {
      if nlp.None? {
        nlp := nlpLoad;
      }
      if parameters.None? {
        parameters := parametersLoad;
      }
      if fillerWords.None? {
        var loaded := LoadFillerWordsSet(fillerFile);
        if loaded.Success? {
          fillerWords := Some(loaded.value);
        }
      }
    }

    /** `get_resources_status` */
    function Status(): (s: ResourcesStatus)
      reads this
      ensures s.spacyModel <==> nlp.Some?
      ensures s.parameters <==> parameters.Some?
      ensures s.fillerWords <==> fillerWords.Some?
    {
      ResourcesStatus(nlp.Some?, parameters.Some?, fillerWords.Some?)
    }

    /**
     * `_compute_metrics_sync` up to the metric computation: an empty parameters
     * or filler-word slot is an error, an empty spaCy slot is passed on, and the
     * raw counts are extended as `PreparedCounts` says. The caller's map is a
     * value and is left as it was.
     */
    method ComputeMetricsSync(transcription: string, rawCounts: map<string, Option<int>>)
      returns (r: Result<Prepared, ComputeError>)
      ensures r.Failure? <==> parameters.None? || fillerWords.None?
      ensures r.Success? ==>
                r.value == Prepared(nlp, parameters.value, fillerWords.value,
                                    PreparedCounts(rawCounts, transcription, fillerWords.value))
    {
      var model, params, fillers := nlp, parameters, fillerWords;
      if params.None? || fillers.None? {
        return Failure(ResourcesNotLoaded);
      }
      var computed := rawCounts;
      if transcription != [] && NumFillersKey !in computed {
        computed := computed[NumFillersKey := Some(CountFillerWordsCached(transcription, fillers.value))];
      }
      r := Success(Prepared(model, params.value, fillers.value, computed));
    }
  }
}
