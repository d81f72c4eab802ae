/**
 * The indexer's voice comparator (`voice_comparator.py`): indexing a voice sample's
 * encrypted binary code into the `voice_real` catalogue, and searching the real and
 * synthetic catalogues for the ids whose codes are closest to a query code.
 */
module VoiceComparator {
  import opened Wrappers
  import opened Strings
  import opened Catalogue

  /** `top_n`'s default. */
  const DefaultTopN := 10

  /**
   * `indexVoice`: the encrypted code of the sample (None when computing it raised),
   * and the catalogue uploaded with the line `<id> <code> <sensitivity>` appended to
   * what was fetched; the upload's own answer is ignored.
   */
  function IndexVoice(encryptedCodes: Option<string>, suspectId: string, sensitive: bool,
                      fetched: Option<string>, isErrorObject: string -> bool, voiceUrl: string)
    : (r: Result<(string, Upload)>)
    ensures encryptedCodes.None? <==> r.Err?
    ensures r.Ok? ==> (
      && r.value.0 == encryptedCodes.value
      && r.value.1.postUrl + r.value.1.fileName == voiceUrl
      && r.value.1.content == UpdatedCatalogue(ExistingCatalogue(fetched, isErrorObject),
                                               SpacedLine(suspectId, encryptedCodes.value, sensitive)))
  {
    if encryptedCodes.None? then Err("RequestException")
    else
      var newLine := SpacedLine(suspectId, encryptedCodes.value, sensitive);
      Ok((encryptedCodes.value, CatalogueUpload(fetched, isErrorObject, newLine, voiceUrl)))
  }

  /**
   * `searchForMatchesVoice`: the fetched real and synthetic catalogues searched with
   * the Hamming-distance service, ranked by `argsort` and cut to `topN`. A catalogue
   * that could not be fetched fails the search.
   */
  method SearchForMatchesVoice(hamming: (string, string) -> Option<int>, argsort: seq<real> -> seq<nat>,
                               hashcode: string, originator: string, lea: string,
                               realCatalogue: Option<string>, syntheticCatalogue: Option<string>, topN: nat)
    returns (r: Result<(seq<string>, seq<real>)>)
    requires Ranks(argsort)
    ensures realCatalogue.None? || syntheticCatalogue.None? ==> r == Err("RequestException")
    ensures realCatalogue.Some? && syntheticCatalogue.Some? ==>
      r == Ranked(HammingSimilarity(hamming), argsort, hashcode, originator, lea,
                  SplitLines(realCatalogue.value + "\n" + syntheticCatalogue.value), topN)
  {
    if realCatalogue.None? || syntheticCatalogue.None? {
      return Err("RequestException");
    }
    var best := SearchCatalogue(HammingSimilarity(hamming), hashcode, originator, lea,
                                realCatalogue.value, syntheticCatalogue.value);
    match best {
      case Err(e) =>
        r := Err(e);
      case Ok(b) =>
        var sIdx := argsort(b.scores);
        r := Ok(Top(b, sIdx, topN));
    }
  }

  /**
   * A voice sample indexed and then searched for, over the uploaded catalogue, by a
   * requester allowed to see it: if the search succeeds, the sample's id is scored, at
   * least as similar as its own code is to the query, and either returned or outscored
   * by every id returned. The search reads the cached catalogue, which holds the upload
   * only after a reload or a refreshing index call.
   */
  lemma IndexedVoiceFound(hamming: (string, string) -> Option<int>, argsort: seq<real> -> seq<nat>,
                          hashcode: string, originator: string, lea: string, suspectId: string,
                          code: string, sensitive: bool, fetched: Option<string>,
                          isErrorObject: string -> bool, voiceUrl: string, synthetic: string, topN: nat)
    requires Ranks(argsort)
    requires |suspectId| > 0 && NoSpace(suspectId) && NoSpace(code)
    requires !sensitive || originator == lea
    requires var upload := IndexVoice(Some(code), suspectId, sensitive, fetched, isErrorObject, voiceUrl).value.1;
      Ranked(HammingSimilarity(hamming), argsort, hashcode, originator, lea,
             SplitLines(upload.content + "\n" + synthetic), topN).Ok?
    ensures var upload := IndexVoice(Some(code), suspectId, sensitive, fetched, isErrorObject, voiceUrl).value.1;
      var (names, scores) := Ranked(HammingSimilarity(hamming), argsort, hashcode, originator, lea,
                                    SplitLines(upload.content + "\n" + synthetic), topN).value;
      && hamming(hashcode, code).Some?
      && (suspectId in names || forall i | 0 <= i < |scores| :: SimilarityPercent(hamming(hashcode, code).value) <= scores[i])
  {
    var sim := HammingSimilarity(hamming);
    var existing := ExistingCatalogue(fetched, isErrorObject);
    var lines := SplitLines(UpdatedCatalogue(existing, SpacedLine(suspectId, code, sensitive)) + "\n" + synthetic);
    IndexedEntryFound(sim, hashcode, originator, lea, existing, suspectId, code, sensitive, synthetic);
    RankedMeaning(sim, argsort, hashcode, originator, lea, lines, topN);
  }
}
