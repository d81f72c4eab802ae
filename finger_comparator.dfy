/**
 * The indexer's fingerprint comparator (`finger_comparator.py`): the voice comparator's
 * catalogue and search over the `finger_real` and `finger_synthetic` catalogues, with
 * every returned score after the first lowered by 5.
 */
module FingerComparator {
  import opened Wrappers
  import opened Strings
  import opened Catalogue

  /**
   * `indexFinger`: the encrypted code of the sample (None when computing it raised),
   * and the catalogue uploaded with the line `<id> <code> <sensitivity>` appended.
   */
  function IndexFinger(encryptedCodes: Option<string>, suspectId: string, sensitive: bool,
                       fetched: Option<string>, isErrorObject: string -> bool, fingerUrl: string)
    : (r: Result<(string, Upload)>)
    ensures encryptedCodes.None? <==> r.Err?
    ensures r.Ok? ==> (
      && r.value.0 == encryptedCodes.value
      && r.value.1.postUrl + r.value.1.fileName == fingerUrl
      && r.value.1.content == UpdatedCatalogue(ExistingCatalogue(fetched, isErrorObject),
                                               SpacedLine(suspectId, encryptedCodes.value, sensitive)))
  {
    if encryptedCodes.None? then Err("RequestException")
    else
      var newLine := SpacedLine(suspectId, encryptedCodes.value, sensitive);
      Ok((encryptedCodes.value, CatalogueUpload(fetched, isErrorObject, newLine, fingerUrl)))
  }

  /** `top_similarity[1:] -= 5`: every score but the first lowered by 5. */
  function Offset(scores: seq<real>): (r: seq<real>)
    ensures |r| == |scores|
    ensures forall i | 0 <= i < |scores| :: r[i] == if i == 0 then scores[0] else scores[i] - 5.0
  {
    seq(|scores|, i requires 0 <= i < |scores| => if i == 0 then scores[0] else scores[i] - 5.0)
  }

  /**
   * The lowered scores stay in descending order, and the first leads the second by at
   * least 5.
   */
  lemma OffsetDescending(scores: seq<real>)
    requires forall i, j | 0 <= i < j < |scores| :: scores[i] >= scores[j]
    ensures var r := Offset(scores);
      && (forall i, j | 0 <= i < j < |r| :: r[i] >= r[j])
      && (|r| >= 2 ==> r[0] >= r[1] + 5.0)
  {
  }

  /** What `searchForMatchesFinger` returns for the fetched catalogues. */
  function FingerResult(hamming: (string, string) -> Option<int>, argsort: seq<real> -> seq<nat>,
                        hashcode: string, original: string, lea: string, lines: seq<string>, topN: nat)
    : Result<(seq<string>, seq<real>)>
    requires Ranks(argsort)
  {
    match Ranked(HammingSimilarity(hamming), argsort, hashcode, original, lea, lines, topN)
    case Err(e) => Err(e)
    case Ok((names, scores)) => Ok((names, Offset(scores)))
  }

  /**
   * `searchForMatchesFinger`: the fetched real and synthetic catalogues searched with
   * the Hamming-distance service, ranked, cut to `topN`, and offset. A catalogue that
   * could not be fetched fails the search.
   */
  method SearchForMatchesFinger(hamming: (string, string) -> Option<int>, argsort: seq<real> -> seq<nat>,
                                hashcode: string, original: string, lea: string,
                                realCatalogue: Option<string>, syntheticCatalogue: Option<string>, topN: nat)
    returns (r: Result<(seq<string>, seq<real>)>)
    requires Ranks(argsort)
    ensures realCatalogue.None? || syntheticCatalogue.None? ==> r == Err("RequestException")
    ensures realCatalogue.Some? && syntheticCatalogue.Some? ==>
      r == FingerResult(hamming, argsort, hashcode, original, lea,
                        SplitLines(realCatalogue.value + "\n" + syntheticCatalogue.value), topN)
  {
    if realCatalogue.None? || syntheticCatalogue.None? {
      return Err("RequestException");
    }
    var best := SearchCatalogue(HammingSimilarity(hamming), hashcode, original, lea,
                                realCatalogue.value, syntheticCatalogue.value);
    match best {
      case Err(e) =>
        r := Err(e);
      case Ok(b) =>
        var sIdx := argsort(b.scores);
        var (topFilenames, topSimilarity) := Top(b, sIdx, topN);
        r := Ok((topFilenames, Offset(topSimilarity)));
    }
  }

  /**
   * A successful fingerprint search returns at most `topN` distinct ids in descending
   * order of the reported score; the first score is the best similarity of its id and
   * every later one is 5 below its id's best similarity.
   */
  lemma FingerResultMeaning(hamming: (string, string) -> Option<int>, argsort: seq<real> -> seq<nat>,
                            hashcode: string, original: string, lea: string, lines: seq<string>, topN: nat)
    requires Ranks(argsort)
    requires FingerResult(hamming, argsort, hashcode, original, lea, lines, topN).Ok?
    ensures var ps := Scored(HammingSimilarity(hamming), hashcode, original, lea, lines).value;
      var (names, scores) := FingerResult(hamming, argsort, hashcode, original, lea, lines, topN).value;
      && |names| == |scores| <= topN
      && (forall i, j | 0 <= i < j < |names| :: names[i] != names[j])
      && (forall i, j | 0 <= i < j < |scores| :: scores[i] >= scores[j])
      && (forall i | 0 <= i < |names| :: names[i] in Names(ps)
            && scores[i] == (if i == 0 then MaxScore(ps, names[i]) else MaxScore(ps, names[i]) - 5.0))
  {
    var sim := HammingSimilarity(hamming);
    RankedMeaning(sim, argsort, hashcode, original, lea, lines, topN);
    var (names, scores) := Ranked(sim, argsort, hashcode, original, lea, lines, topN).value;
    OffsetOfRanked(Scored(sim, hashcode, original, lea, lines).value, names, scores, topN);
  }

  /** Offsetting ranked scores keeps the order and the distinct names, and lowers each later score by 5. */
  lemma OffsetOfRanked(ps: seq<(string, real)>, names: seq<string>, scores: seq<real>, topN: nat)
    requires |names| == |scores| <= topN
    requires forall i, j | 0 <= i < j < |names| :: names[i] != names[j]
    requires forall i, j | 0 <= i < j < |scores| :: scores[i] >= scores[j]
    requires forall i | 0 <= i < |names| :: names[i] in Names(ps) && scores[i] == MaxScore(ps, names[i])
    ensures var r := Offset(scores);
      && |names| == |r| <= topN
      && (forall i, j | 0 <= i < j < |r| :: r[i] >= r[j])
      && (forall i | 0 <= i < |names| :: names[i] in Names(ps)
            && r[i] == (if i == 0 then MaxScore(ps, names[i]) else MaxScore(ps, names[i]) - 5.0))
  {
    OffsetDescending(scores);
  }
}
