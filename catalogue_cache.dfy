/**
 * The indexer's in-memory catalogues (`ModelManager.catalogues`, `load_catalogues` and
 * `get_catalogue`). Indexing and searching both read the catalogue texts from this cache.
 * Only a load fetches them again: once at startup, and the real ones on
 * `/updateRealCatalogues`.
 */
module CatalogueCache {
  import opened Wrappers
  import opened Strings
  import opened Catalogue

  /** The configured catalogue URLs: per modality the synthetic one and the real one. */
  datatype Sources = Sources(faceSynthetic: string, face: string, fingerSynthetic: string, finger: string,
                             voiceSynthetic: string, voice: string)

  /** A GET through the session: the status and text of the answer, or None when the request raises. */
  type Fetch = string -> Option<(int, string)>

  predicate IsSyntheticKey(key: string)
  {
    key == "face_synthetic" || key == "finger_synthetic" || key == "voice_synthetic"
  }

  /** The loads of one modality: the synthetic catalogue (on a full load only), then the real one. */
  function ModalityPlan(syntheticKey: string, syntheticUrl: string, realKey: string, realUrl: string,
                        reloadRealOnly: bool): seq<(string, string)>
  {
    (if reloadRealOnly then [] else [(syntheticKey, syntheticUrl)]) + [(realKey, realUrl)]
  }

  /**
   * The loads `load_catalogues` performs, in order, each as the key it fills and the URL
   * it fetches: face, fingerprint, voice, each synthetic before real, the synthetic ones
   * only on a full load.
   */
  function LoadPlan(src: Sources, reloadRealOnly: bool): (plan: seq<(string, string)>)
    ensures |plan| == if reloadRealOnly then 3 else 6
    ensures ("face_real", src.face) in plan && ("finger_real", src.finger) in plan && ("voice_real", src.voice) in plan
    ensures !reloadRealOnly ==>
      ("face_synthetic", src.faceSynthetic) in plan && ("finger_synthetic", src.fingerSynthetic) in plan
      && ("voice_synthetic", src.voiceSynthetic) in plan
    ensures reloadRealOnly ==> forall i | 0 <= i < |plan| :: !IsSyntheticKey(plan[i].0)
    ensures forall i, j | 0 <= i < j < |plan| :: plan[i].0 != plan[j].0
  {
    ModalityPlan("face_synthetic", src.faceSynthetic, "face_real", src.face, reloadRealOnly)
    + ModalityPlan("finger_synthetic", src.fingerSynthetic, "finger_real", src.finger, reloadRealOnly)
    + ModalityPlan("voice_synthetic", src.voiceSynthetic, "voice_real", src.voice, reloadRealOnly)
  }

  /** What is cached from an answer: its text when the status is 200, "" otherwise. */
  function AnswerText(answer: (int, string)): string
  {
    if answer.0 == 200 then answer.1 else ""
  }

  /**
   * The cache after the loads of `plan`, starting from `cats`. A request that raises
   * ends the loading (the exception is caught), and the keys after it keep their values.
   */
  function Loaded(cats: map<string, string>, fetch: Fetch, plan: seq<(string, string)>): map<string, string>
    decreases |plan|
  {
    if |plan| == 0 then cats
    else
      match fetch(plan[0].1)
      case None => cats
      case Some(answer) => Loaded(cats[plan[0].0 := AnswerText(answer)], fetch, plan[1..])
  }

  /** A key no load of the plan fills keeps its value, or stays absent. */
  lemma {:induction false} LoadedElsewhere(cats: map<string, string>, fetch: Fetch, plan: seq<(string, string)>, key: string)
    requires forall i | 0 <= i < |plan| :: plan[i].0 != key
    decreases |plan|
    ensures var r := Loaded(cats, fetch, plan);
      && (key in r <==> key in cats)
      && (key in cats ==> r[key] == cats[key])
  {
    if |plan| > 0 && fetch(plan[0].1).Some? {
      var next := cats[plan[0].0 := AnswerText(fetch(plan[0].1).value)];
      assert forall i | 0 <= i < |plan[1..]| :: plan[1..][i] == plan[i + 1];
      LoadedElsewhere(next, fetch, plan[1..], key);
    }
  }

  /**
   * When no request of the plan raises, every key of the plan holds the text of its own
   * answer (the keys being distinct).
   */
  lemma {:induction false} LoadedComplete(cats: map<string, string>, fetch: Fetch, plan: seq<(string, string)>, i: nat)
    requires i < |plan|
    requires forall j | 0 <= j < |plan| :: fetch(plan[j].1).Some?
    requires forall j, k | 0 <= j < k < |plan| :: plan[j].0 != plan[k].0
    decreases i
    ensures var r := Loaded(cats, fetch, plan);
      plan[i].0 in r && r[plan[i].0] == AnswerText(fetch(plan[i].1).value)
  {
    var next := cats[plan[0].0 := AnswerText(fetch(plan[0].1).value)];
    assert forall j | 0 <= j < |plan[1..]| :: plan[1..][j] == plan[j + 1];
    if i == 0 {
      LoadedElsewhere(next, fetch, plan[1..], plan[0].0);
    } else {
      LoadedComplete(next, fetch, plan[1..], i - 1);
    }
  }

  /** `/updateRealCatalogues` leaves the synthetic catalogues as they were loaded at startup. */
  lemma ReloadKeepsSynthetic(cats: map<string, string>, fetch: Fetch, src: Sources, key: string)
    requires IsSyntheticKey(key)
    ensures var r := Loaded(cats, fetch, LoadPlan(src, true));
      && (key in r <==> key in cats)
      && (key in cats ==> r[key] == cats[key])
  {
    LoadedElsewhere(cats, fetch, LoadPlan(src, true), key);
  }

  /** The manager's catalogue cache. */
  class ModelManager {
    var catalogues: map<string, string>

    /** Startup: an empty cache, then a full load. */
    constructor (fetch: Fetch, src: Sources)
      ensures catalogues == Loaded(map[], fetch, LoadPlan(src, false))
    {
      catalogues := map[];
      new;
      LoadCatalogues(fetch, src, false);
    }

    /** `get_catalogue`: the cached text, or None for a key that was never loaded. */
    function GetCatalogue(name: string): (r: Option<string>)
      reads this
      ensures r.Some? <==> name in catalogues
      ensures r.Some? ==> r.value == catalogues[name]
    {
      if name in catalogues then Some(catalogues[name]) else None
    }

    /** One load: fetch `url` and cache the answer's text under `key`, unless the request raises. */
    method LoadOne(fetch: Fetch, key: string, url: string) returns (raised: bool)
      modifies this
      ensures raised <==> fetch(url).None?
      ensures catalogues == if raised then old(catalogues) else old(catalogues)[key := AnswerText(fetch(url).value)]
    {
      var answer := fetch(url);
      if answer.None? {
        return true;
      }
      catalogues := catalogues[key := AnswerText(answer.value)];
      raised := false;
    }

    /**
     * One modality's block of `load_catalogues`: the synthetic load (on a full load only),
     * then the real one. When a request raises, the loading ends there, whatever loads
     * `rest` would have followed; otherwise the loads of `rest` continue from the new cache.
     */
    method LoadModality(fetch: Fetch, syntheticKey: string, syntheticUrl: string, realKey: string, realUrl: string,
                        reloadRealOnly: bool, ghost rest: seq<(string, string)>)
      returns (raised: bool)
      modifies this
      ensures var plan := ModalityPlan(syntheticKey, syntheticUrl, realKey, realUrl, reloadRealOnly);
        && (raised ==> catalogues == Loaded(old(catalogues), fetch, plan + rest))
        && (!raised ==> Loaded(old(catalogues), fetch, plan + rest) == Loaded(catalogues, fetch, rest))
    {
      ghost var tail := [(realKey, realUrl)] + rest;
      if !reloadRealOnly {
        ghost var whole := [(syntheticKey, syntheticUrl)] + tail;
        assert whole[0] == (syntheticKey, syntheticUrl) && whole[1..] == tail;
        raised := LoadOne(fetch, syntheticKey, syntheticUrl);
        if raised {
          return;
        }
      }
      assert tail[0] == (realKey, realUrl) && tail[1..] == rest;
      raised := LoadOne(fetch, realKey, realUrl);
    }

    /** `load_catalogues`: the loads of the plan in order, stopping at the first request that raises. */
    method LoadCatalogues(fetch: Fetch, src: Sources, reloadRealOnly: bool)
      modifies this
      ensures catalogues == Loaded(old(catalogues), fetch, LoadPlan(src, reloadRealOnly))
    {
      ghost var face := ModalityPlan("face_synthetic", src.faceSynthetic, "face_real", src.face, reloadRealOnly);
      ghost var finger := ModalityPlan("finger_synthetic", src.fingerSynthetic, "finger_real", src.finger, reloadRealOnly);
      ghost var voice := ModalityPlan("voice_synthetic", src.voiceSynthetic, "voice_real", src.voice, reloadRealOnly);
      assert LoadPlan(src, reloadRealOnly) == face + (finger + (voice + []));
      var raised := LoadModality(fetch, "face_synthetic", src.faceSynthetic, "face_real", src.face, reloadRealOnly,
                                 finger + (voice + []));
      if raised {
        return;
      }
      raised := LoadModality(fetch, "finger_synthetic", src.fingerSynthetic, "finger_real", src.finger, reloadRealOnly,
                             voice + []);
      if raised {
        return;
      }
      raised := LoadModality(fetch, "voice_synthetic", src.voiceSynthetic, "voice_real", src.voice, reloadRealOnly, []);
    }

    /**
     * An index call with the cache refreshed: the upload is built from the cached real
     * catalogue as `indexVoice`, `indexFinger` and `indexFace` build it, and afterwards the
     * cache holds the uploaded text, which a reload would fetch once the upload has landed.
     */
    method IndexRefreshing(key: string, newLine: string, url: string, isErrorObject: string -> bool)
      returns (u: Upload)
      modifies this
      ensures u == CatalogueUpload(old(GetCatalogue(key)), isErrorObject, newLine, url)
      ensures catalogues == old(catalogues)[key := u.content]
    {
      u := CatalogueUpload(GetCatalogue(key), isErrorObject, newLine, url);
      catalogues := catalogues[key := u.content];
    }
  }

  /**
   * As written, indexing reads the cached catalogue and never writes it, so two index
   * calls in a row start from the same text. Starting from an empty catalogue, the
   * second upload (which replaces the stored file) no longer holds the first line.
   */
  lemma AsWrittenSecondIndexDropsFirst(first: string, second: string, url: string, isErrorObject: string -> bool)
    requires |first| > 0 && NoBreak(first) && |second| > 0 && NoBreak(second) && first != second
    ensures var u1 := CatalogueUpload(Some(""), isErrorObject, first, url);
      var u2 := CatalogueUpload(Some(""), isErrorObject, second, url);
      && first in SplitLines(u1.content)
      && SplitLines(u2.content) == ["", second]
      && first !in SplitLines(u2.content)
  {
    assert ExistingCatalogue(Some(""), isErrorObject) == "";
    EmptyUpdated(first);
    EmptyUpdated(second);
    assert CatalogueUpload(Some(""), isErrorObject, first, url).content == "\n" + first;
    assert CatalogueUpload(Some(""), isErrorObject, second, url).content == "\n" + second;
    BreakThenLine(first);
    BreakThenLine(second);
  }

  /** The update of an empty catalogue: a newline, then the line. */
  lemma EmptyUpdated(line: string)
    ensures UpdatedCatalogue("", line) == "\n" + line
  {
    assert Strip("") == "";
  }

  /** A newline followed by a line without breaks splits into an empty line and that line. */
  lemma BreakThenLine(line: string)
    requires |line| > 0 && NoBreak(line)
    ensures SplitLines("\n" + line) == ["", line]
  {
    var s := "\n" + line;
    assert FirstBreak(s, 0) == 0;
    SplitLinesStep(s, 0, 1);
    assert s[1..] == line;
    SingleLine(line);
  }

  /** `text` ends, with no line break after it, in the line `line`. */
  ghost predicate EndsWithLine(text: string, line: string)
  {
    && |text| > 0 && !IsLineBreak(text[|text| - 1])
    && var lines := SplitLines(text); |lines| >= 1 && lines[|lines| - 1] == line
  }

  /** `kept` is one of the lines of `text`, and `last` is its last line. */
  ghost predicate KeepsAndEnds(text: string, kept: string, last: string)
  {
    var lines := SplitLines(text);
    kept in lines && |lines| >= 1 && lines[|lines| - 1] == last
  }

  /**
   * With the cache refreshed after each upload, a second index call keeps the first
   * call's line and appends its own as the last line.
   */
  lemma RefreshedIndexKeepsBoth(existing: string, first: string, second: string)
    requires |first| > 0 && NoBreak(first) && !IsPySpace(first[0]) && !IsPySpace(first[|first| - 1])
    requires |second| > 0 && NoBreak(second)
    ensures KeepsAndEnds(UpdatedCatalogue(UpdatedCatalogue(existing, first), second), first, second)
  {
    StrippedEndsWithLine(existing, first);
    AppendKeepsLast(UpdatedCatalogue(existing, first), first, second);
  }

  /** An updated catalogue, stripped again, still ends with its new line. */
  lemma StrippedEndsWithLine(existing: string, line: string)
    requires |line| > 0 && NoBreak(line) && !IsPySpace(line[0]) && !IsPySpace(line[|line| - 1])
    ensures EndsWithLine(Strip(UpdatedCatalogue(existing, line)), line)
  {
    var once := UpdatedCatalogue(existing, line);
    StripUpdated(existing, line);
    if Strip(existing) == "" {
      SingleLine(line);
    } else {
      NewLineIsLast(existing, line);
      assert once[|once| - 1] == line[|line| - 1];
    }
  }

  /** Updating a catalogue whose stripped text ends in `last` keeps `last` as a line and ends in the new line. */
  lemma AppendKeepsLast(existing: string, last: string, next: string)
    requires EndsWithLine(Strip(existing), last)
    requires |next| > 0 && NoBreak(next)
    ensures KeepsAndEnds(UpdatedCatalogue(existing, next), last, next)
  {
    var text := Strip(existing);
    NewLineIsLast(existing, next);
    ConcatLines(text, next);
    var lines := SplitLines(text);
    assert last == lines[|lines| - 1];
  }

  /**
   * Stripping an updated catalogue whose new line has no whitespace at its ends leaves
   * it alone, except that an empty existing catalogue leaves only the line.
   */
  lemma StripUpdated(existing: string, line: string)
    requires |line| > 0 && !IsPySpace(line[0]) && !IsPySpace(line[|line| - 1])
    ensures Strip(UpdatedCatalogue(existing, line)) == if Strip(existing) == "" then line else UpdatedCatalogue(existing, line)
  {
    var s := Strip(existing);
    var x := s + "\n" + line;
    assert x[|x| - 1] == line[|line| - 1];
    assert StripEnd(line) == line;
    assert StripEnd(x) == x;
    if s == "" {
      assert x == "\n" + line;
      assert StripStart(x) == StripStart(line) by { assert x[1..] == line; }
      assert StripStart(line) == line;
    } else {
      assert StripStart(x) == x by { assert x[0] == s[0]; }
    }
  }
}
