/**
 * Filler-word lexicon loading and counting: the list loader and file counter of
 * `metrics/count_filler_words.py` and the set loader and cached counter of
 * `backend/app/services/metrics_service.py`. Reading `filler_words.json` is
 * abstracted to its outcome: missing, not valid JSON, or a parsed value.
 */
module Fillers {
  import opened Wrappers
  import opened Text

  /** A parsed JSON value. Objects keep their members in file order. */
  datatype Json =
    | JNull
    | JBool(b: bool)
    | JNumber(n: real)
    | JString(s: string)
    | JArray(items: seq<Json>)
    | JObject(members: seq<(string, Json)>)

  datatype FillerFile = Missing | Unparsable | Parsed(data: Json)

  datatype LoadError =
    | FileNotFound        // FileNotFoundError
    | InvalidJson         // json.JSONDecodeError
    | UnsupportedFormat   // ValueError: neither a list nor an object
    | NotIterable         // TypeError: "filler_words" holds a scalar

  /** `dict.get(key)` on a parsed object: a repeated key keeps its last value. */
  function Lookup(members: seq<(string, Json)>, key: string): (r: Option<Json>)
    ensures r.None? <==> forall i :: 0 <= i < |members| ==> members[i].0 != key
  {
    if members == [] then None
    else if members[|members| - 1].0 == key then Some(members[|members| - 1].1)
    else Lookup(members[..|members| - 1], key)
  }

  ghost predicate HasKey(members: seq<(string, Json)>, k: string) {
    exists i :: 0 <= i < |members| && members[i].0 == k
  }

  /** Iteration order of a parsed object's keys: first occurrence, no repeats. */
  function KeyOrder(members: seq<(string, Json)>): (r: seq<string>)
    ensures forall k :: k in r <==> HasKey(members, k)
  {
    if members == [] then []
    else
      var init := members[..|members| - 1];
      var prev := KeyOrder(init);
      var k := members[|members| - 1].0;
      assert forall k' :: HasKey(init, k') ==> HasKey(members, k') by {
        forall k' | HasKey(init, k') ensures HasKey(members, k') {
          var i :| 0 <= i < |init| && init[i].0 == k';
          assert members[i] == init[i];
        }
      }
      assert forall k' :: HasKey(members, k') ==> HasKey(init, k') || k' == k by {
        forall k' | HasKey(members, k') ensures HasKey(init, k') || k' == k {
          var i :| 0 <= i < |members| && members[i].0 == k';
          if i < |init| { assert init[i] == members[i]; }
        }
      }
      if k in prev then prev else prev + [k]
  }

  /** What `for w in value` visits: list items, the one-character strings of
      a string, the keys of an object; other values raise `TypeError`. */
  function Elements(j: Json): (r: Result<seq<Json>, LoadError>)
    ensures r.Failure? <==> !(j.JArray? || j.JString? || j.JObject?)
  {
    match j
    case JArray(xs) => Success(xs)
    case JString(s) => Success(seq(|s|, i requires 0 <= i < |s| => JString([s[i]])))
    case JObject(ms) => var ks := KeyOrder(ms); Success(seq(|ks|, i requires 0 <= i < |ks| => JString(ks[i])))
    case _ => Failure(NotIterable)
  }

  /**
   * The raw entry list of either accepted format: `{"filler_words": [...]}`
   * (a missing key means an empty list) or a top-level list; anything else is
   * a `ValueError`.
   */
  function FillerEntries(file: FillerFile): (r: Result<seq<Json>, LoadError>)
    ensures r == Failure(FileNotFound) <==> file.Missing?
    ensures r == Failure(InvalidJson) <==> file.Unparsable?
    ensures r == Failure(UnsupportedFormat) <==> file.Parsed? && !(file.data.JArray? || file.data.JObject?)
    ensures file.Parsed? && file.data.JArray? ==> r == Success(file.data.items)
    ensures file.Parsed? && file.data.JObject? && Lookup(file.data.members, "filler_words").None?
            ==> r == Success([])
    ensures file.Parsed? && file.data.JObject? && Lookup(file.data.members, "filler_words").Some?
            ==> r == Elements(Lookup(file.data.members, "filler_words").value)
  {
    match file
    case Missing => Failure(FileNotFound)
    case Unparsable => Failure(InvalidJson)
    case Parsed(data) =>
      match data
      case JObject(ms) => Elements(Lookup(ms, "filler_words").GetOr(JArray([])))
      case JArray(xs) => Success(xs)
      case _ => Failure(UnsupportedFormat)
  }

  /** A loaded lexicon entry: non-empty, lower-case, no surrounding whitespace. */
  ghost predicate IsFillerEntry(w: string) {
    w != [] && IsLowerCase(w) && IsStripped(w)
  }

  lemma NormalizedEntry(s: string)
    requires Strip(s) != []
    ensures IsFillerEntry(Lower(Strip(s)))
  {
    StripOfLower(s);
    StripSpec(Lower(s));
    LowerIdempotent(Strip(s));
  }

  /** What one raw entry contributes: `w.strip().lower()` for a string whose
      stripped form is non-empty, nothing otherwise. */
  function EntryWord(j: Json): (r: Option<string>)
    ensures r.Some? ==> IsFillerEntry(r.value)
  {
    if j.JString? && Strip(j.s) != [] then
      NormalizedEntry(j.s);
      Some(Lower(Strip(j.s)))
    else None
  }

  /** The values `f` yields on `items`, in order: a list comprehension with a filter. */
  function Collect(items: seq<Json>, f: Json -> Option<string>): seq<string> {
    if items == [] then []
    else
      var rest := Collect(items[1..], f);
      match f(items[0])
      case Some(w) => [w] + rest
      case None => rest
  }

  /** The collected list holds exactly the values `f` yields on some item. */
  lemma {:induction false} CollectMembers(items: seq<Json>, f: Json -> Option<string>, w: string)
    ensures w in Collect(items, f) <==> exists j :: j in items && f(j) == Some(w)
  {
    if items != [] {
      CollectMembers(items[1..], f, w);
      if exists j :: j in items && f(j) == Some(w) {
        var j :| j in items && f(j) == Some(w);
        if j != items[0] {
          assert j in items[1..];
        }
      }
      if exists j :: j in items[1..] && f(j) == Some(w) {
        var j :| j in items[1..] && f(j) == Some(w);
        assert j in items;
      }
    }
  }

  /** `[w.strip().lower() for w in filler_list if isinstance(w, str) and w.strip()]` */
  function NormalizeFillers(items: seq<Json>): (r: seq<string>)
    ensures forall i :: 0 <= i < |r| ==> IsFillerEntry(r[i])
  {
    var r := Collect(items, EntryWord);
    assert forall i :: 0 <= i < |r| ==> IsFillerEntry(r[i]) by {
      forall i | 0 <= i < |r| ensures IsFillerEntry(r[i]) {
        CollectMembers(items, EntryWord, r[i]);
      }
    }
    r
  }

  /** The normalised list holds exactly the words some raw entry yields. */
  lemma NormalizeFillersMembers(items: seq<Json>, w: string)
    ensures w in NormalizeFillers(items) <==> exists j :: j in items && EntryWord(j) == Some(w)
  {
    CollectMembers(items, EntryWord, w);
  }

  /** `_load_filler_words` (list version). */
  function LoadFillerWords(file: FillerFile): (r: Result<seq<string>, LoadError>)
    ensures r.Failure? <==> FillerEntries(file).Failure?
    ensures r.Success? ==> forall i :: 0 <= i < |r.value| ==> IsFillerEntry(r.value[i])
  {
    var entries :- FillerEntries(file);
    Success(NormalizeFillers(entries))
  }

  /** `{w.strip().lower() for w in filler_list if isinstance(w, str) and w.strip()}` */
  function FillerSet(items: seq<Json>): (r: set<string>)
    ensures forall w :: w in r ==> IsFillerEntry(w)
  {
    set j | j in items && EntryWord(j).Some? :: EntryWord(j).value
  }

  /** `_load_filler_words_set` (set version). */
  function LoadFillerWordsSet(file: FillerFile): (r: Result<set<string>, LoadError>)
    ensures r.Failure? <==> FillerEntries(file).Failure?
    ensures r.Success? ==> forall w :: w in r.value ==> IsFillerEntry(w)
  {
    var entries :- FillerEntries(file);
    Success(FillerSet(entries))
  }

  /** The two loaders agree: the set loader yields exactly the words of the
      list loader, and both fail with the same error. */
  lemma LoadersAgree(file: FillerFile)
    ensures LoadFillerWordsSet(file).Failure? ==> LoadFillerWords(file) == Failure(LoadFillerWordsSet(file).error)
    ensures LoadFillerWordsSet(file).Success? ==>
              LoadFillerWords(file).Success?
              && forall w :: w in LoadFillerWordsSet(file).value <==> w in LoadFillerWords(file).value
  {
    var entries := FillerEntries(file);
    if entries.Success? {
      var items := entries.value;
      forall w ensures w in FillerSet(items) <==> w in NormalizeFillers(items) {
        NormalizeFillersMembers(items, w);
      }
    }
  }

  // ---------------------------------------------------------------
  // Counting
  // ---------------------------------------------------------------

  /** `sum(1 for tok in tokens if tok.lower() in filler_words)` */
  function CountFillers(tokens: seq<string>, fillers: set<string>): (n: nat)
    ensures n <= |tokens|
  {
    if tokens == [] then 0
    else (if Lower(tokens[0]) in fillers then 1 else 0) + CountFillers(tokens[1..], fillers)
  }

  lemma {:induction false} CountFillersAppend(a: seq<string>, b: seq<string>, fillers: set<string>)
    ensures CountFillers(a + b, fillers) == CountFillers(a, fillers) + CountFillers(b, fillers)
  {
    if a == [] {
      assert a + b == b;
    } else {
      assert (a + b)[0] == a[0];
      assert (a + b)[1..] == a[1..] + b;
      CountFillersAppend(a[1..], b, fillers);
    }
  }

  /** Every token is counted exactly when every token is a filler word. */
  lemma {:induction false} CountFillersAll(tokens: seq<string>, fillers: set<string>)
    ensures CountFillers(tokens, fillers) == |tokens|
            <==> forall i :: 0 <= i < |tokens| ==> Lower(tokens[i]) in fillers
  {
    if tokens != [] {
      CountFillersAll(tokens[1..], fillers);
      assert forall i :: 1 <= i < |tokens| ==> tokens[i] == tokens[1..][i - 1];
    }
  }

  /** No token is counted exactly when no token is a filler word. */
  lemma {:induction false} CountFillersNone(tokens: seq<string>, fillers: set<string>)
    ensures CountFillers(tokens, fillers) == 0
            <==> forall i :: 0 <= i < |tokens| ==> Lower(tokens[i]) !in fillers
  {
    if tokens != [] {
      CountFillersNone(tokens[1..], fillers);
      assert forall i :: 1 <= i < |tokens| ==> tokens[i] == tokens[1..][i - 1];
    }
  }

  /**
   * `count_filler_words_from_file`: an empty transcription counts 0 before the
   * lexicon is even opened; otherwise a loading error propagates, and the count
   * is the number of tokens in the lexicon.
   */
  function CountFillerWordsFromFile(transcription: string, file: FillerFile): (r: Result<nat, LoadError>)
    ensures transcription == [] ==> r == Success(0)
    ensures transcription != [] ==> (r.Failure? <==> LoadFillerWords(file).Failure?)
    ensures transcription != [] && r.Failure? ==> r.error == LoadFillerWords(file).error
    ensures r.Success? ==> r.value <= |Tokenize(transcription)|
  {
    if transcription == [] then Success(0)
    else
      var fillerWords :- LoadFillerWords(file);
      var lexicon := set w | w in fillerWords;
      Success(CountFillers(Tokenize(transcription), lexicon))
  }

  /** `_count_filler_words_cached`: the same count against an already loaded set. */
  function CountFillerWordsCached(transcription: string, fillers: set<string>): (n: nat)
    ensures transcription == [] ==> n == 0
    ensures n <= |Tokenize(transcription)|
  {
    if transcription == [] then 0 else CountFillers(Tokenize(transcription), fillers)
  }

  /** Counting through the file and counting against the cached set agree. */
  lemma CountersAgree(transcription: string, file: FillerFile)
    requires LoadFillerWordsSet(file).Success?
    ensures CountFillerWordsFromFile(transcription, file)
            == Success(CountFillerWordsCached(transcription, LoadFillerWordsSet(file).value))
  {
    LoadersAgree(file);
    if transcription != [] {
      var lexicon := set w | w in LoadFillerWords(file).value;
      assert lexicon == LoadFillerWordsSet(file).value;
    }
  }

  /** Matching ignores case: transcriptions that differ only in letter case
      have the same filler count. */
  lemma CountIgnoresCase(a: string, b: string, fillers: set<string>)
    requires Lower(a) == Lower(b)
    ensures CountFillerWordsCached(a, fillers) == CountFillerWordsCached(b, fillers)
  {
    TokenizeIgnoresCase(a, b);
  }
}
