/**
 * The indexer's face comparator (`comparator.py`): indexing a face's encrypted
 * product-quantisation code into the `face_real` catalogue, and collecting the
 * catalogue entries a requester may search, whose decrypted codes the encrypted
 * distance service then ranks.
 */
module FaceComparator {
  import opened Wrappers
  import opened Strings
  import opened Catalogue

  /** A decrypted product-quantisation code: one codeword index per sub-vector. */
  type Codes = seq<int>

  /** A face catalogue line: skipped, or its three leading comma-separated fields. */
  datatype FaceLine = FaceSkipped | FaceEntry(id: string, code: string, sensitive: bool)

  /**
   * A face catalogue line is read as it stands, not stripped: the empty line and lines
   * of fewer than three comma-separated fields are skipped, fields after the third are
   * ignored, and the entry is sensitive when its third field, lower-cased, is "true".
   */
  function ParseFaceLine(line: string): (r: FaceLine)
    ensures r.FaceSkipped? <==> line == "" || |Fields(line, ',')| < 3
    ensures r.FaceEntry? ==> (
      && r.id == Fields(line, ',')[0]
      && r.code == Fields(line, ',')[1]
      && (r.sensitive <==> Lower(Fields(line, ',')[2]) == "true"))
  {
    if line == "" then FaceSkipped
    else
      var data := Fields(line, ',');
      if |data| < 3 then FaceSkipped
      else FaceEntry(data[0], data[1], Lower(data[2]) == "true")
  }

  /** The line `indexFace` appends: `f"{suspect_id},{encrypted_codes},{sensitivity}"`. */
  function CommaLine(id: string, code: string, sensitive: bool): string
  {
    id + "," + code + "," + PyBool(sensitive)
  }

  /** An indexed face line reads back as the entry it was written from when id and code hold no comma. */
  lemma CommaRoundTrip(id: string, code: string, sensitive: bool)
    requires ',' !in id && ',' !in code
    ensures ParseFaceLine(CommaLine(id, code, sensitive)) == FaceEntry(id, code, sensitive)
  {
    var flag := PyBool(sensitive);
    var fs := [id, code, flag];
    assert fs[1..] == [code, flag] && fs[1..][1..] == [flag];
    assert Join([flag], ',') == flag;
    assert Join([code, flag], ',') == code + "," + flag;
    assert CommaLine(id, code, sensitive) == Join(fs, ',');
    FieldsOfJoin(fs, ',');
    LowerFlags();
  }

  /** An indexed face line holds no line break when its id and code hold none. */
  lemma CommaLineUnbroken(id: string, code: string, sensitive: bool)
    requires NoBreak(id) && NoBreak(code)
    ensures NoBreak(CommaLine(id, code, sensitive))
  {
    var line := CommaLine(id, code, sensitive);
    forall i | 0 <= i < |line|
      ensures !IsLineBreak(line[i])
    {
      if i < |id| {
        assert line[i] == id[i];
      } else if |id| < i < |id| + 1 + |code| {
        assert line[i] == code[i - |id| - 1];
      }
    }
  }

  /**
   * `indexFace`: the catalogue uploaded with the face's line appended (None for the
   * encrypted code when the encryption request raised).
   */
  function IndexFace(encryptedCodes: Option<string>, suspectId: string, sensitive: bool,
                     fetched: Option<string>, isErrorObject: string -> bool, faceUrl: string)
    : (r: Result<Upload>)
    ensures encryptedCodes.None? <==> r.Err?
    ensures r.Ok? ==> (
      && r.value.postUrl + r.value.fileName == faceUrl
      && r.value.content == UpdatedCatalogue(ExistingCatalogue(fetched, isErrorObject),
                                             CommaLine(suspectId, encryptedCodes.value, sensitive)))
  {
    if encryptedCodes.None? then Err("RequestException")
    else Ok(CatalogueUpload(fetched, isErrorObject, CommaLine(suspectId, encryptedCodes.value, sensitive), faceUrl))
  }

  /**
   * The (id, decrypted code) pairs the search collects (`pq_data`), in catalogue order.
   * The id is parsed as an integer before the sensitivity is looked at, so a malformed id
   * fails the search even on a line the requester may not see; sensitive entries are
   * left out unless the requester is the holder; a failed decryption request fails the
   * search.
   */
  function Collected(parseInt: string -> Option<int>, decrypt: string -> Option<Codes>,
                     originator: string, lea: string, lines: seq<string>): Result<seq<(int, Codes)>>
  {
    if |lines| == 0 then Ok([])
    else
      match Collected(parseInt, decrypt, originator, lea, lines[..|lines| - 1])
      case Err(e) => Err(e)
      case Ok(pq) =>
        match ParseFaceLine(lines[|lines| - 1])
        case FaceSkipped => Ok(pq)
        case FaceEntry(id, code, sensitive) =>
          if parseInt(id).None? then Err("ValueError")
          else if sensitive && originator != lea then Ok(pq)
          else if decrypt(code).None? then Err("RequestException")
          else Ok(pq + [(parseInt(id).value, decrypt(code).value)])
  }

  /** Once a line has failed the collection, the lines after it change nothing. */
  lemma {:induction false} CollectedFailureSticks(parseInt: string -> Option<int>, decrypt: string -> Option<Codes>,
                                                  originator: string, lea: string, lines: seq<string>, i: nat, e: string)
    requires i <= |lines| && Collected(parseInt, decrypt, originator, lea, lines[..i]) == Err(e)
    ensures Collected(parseInt, decrypt, originator, lea, lines) == Err(e)
    decreases |lines| - i
  {
    if i == |lines| {
      assert lines[..i] == lines;
    } else {
      assert lines[..i + 1][..i] == lines[..i];
      CollectedFailureSticks(parseInt, decrypt, originator, lea, lines, i + 1, e);
    }
  }

  /** The collection loop of `searchForMatchesFace` over the catalogue's lines. */
  method CollectLines(parseInt: string -> Option<int>, decrypt: string -> Option<Codes>,
                      originator: string, lea: string, lines: seq<string>) returns (r: Result<seq<(int, Codes)>>)
    ensures r == Collected(parseInt, decrypt, originator, lea, lines)
  {
    var pqData: seq<(int, Codes)> := [];
    for i := 0 to |lines|
      invariant Collected(parseInt, decrypt, originator, lea, lines[..i]) == Ok(pqData)
    {
      assert lines[..i + 1][..i] == lines[..i];
      match ParseFaceLine(lines[i]) {
        case FaceSkipped =>
        case FaceEntry(id, code, sensitive) =>
          var imageId := parseInt(id);
          if imageId.None? {
            CollectedFailureSticks(parseInt, decrypt, originator, lea, lines, i + 1, "ValueError");
            return Err("ValueError");
          }
          if sensitive && originator != lea {
            continue;
          }
          var decryptedCodes := decrypt(code);
          if decryptedCodes.None? {
            CollectedFailureSticks(parseInt, decrypt, originator, lea, lines, i + 1, "RequestException");
            return Err("RequestException");
          }
          pqData := pqData + [(imageId.value, decryptedCodes.value)];
      }
    }
    assert lines[..|lines|] == lines;
    return Ok(pqData);
  }

  /** Every visible entry of a successful collection is collected with its id and decrypted code. */
  lemma {:induction false} CollectedIncludes(parseInt: string -> Option<int>, decrypt: string -> Option<Codes>,
                                             originator: string, lea: string, lines: seq<string>, j: nat)
    requires j < |lines| && ParseFaceLine(lines[j]).FaceEntry?
    requires !ParseFaceLine(lines[j]).sensitive || originator == lea
    requires Collected(parseInt, decrypt, originator, lea, lines).Ok?
    ensures var e := ParseFaceLine(lines[j]);
      && parseInt(e.id).Some? && decrypt(e.code).Some?
      && (parseInt(e.id).value, decrypt(e.code).value) in Collected(parseInt, decrypt, originator, lea, lines).value
  {
    var prefix := lines[..|lines| - 1];
    if j < |lines| - 1 {
      assert prefix[j] == lines[j];
      CollectedIncludes(parseInt, decrypt, originator, lea, prefix, j);
    }
  }

  /** Only visible entries are collected: each pair comes from a line the requester may see. */
  lemma {:induction false} CollectedOnlyVisible(parseInt: string -> Option<int>, decrypt: string -> Option<Codes>,
                                                originator: string, lea: string, lines: seq<string>)
    requires Collected(parseInt, decrypt, originator, lea, lines).Ok?
    ensures forall p | p in Collected(parseInt, decrypt, originator, lea, lines).value ::
      exists j | 0 <= j < |lines| :: VisibleSource(parseInt, decrypt, originator, lea, lines[j], p)
  {
    if |lines| > 0 {
      var prefix := lines[..|lines| - 1];
      CollectedOnlyVisible(parseInt, decrypt, originator, lea, prefix);
      forall p | p in Collected(parseInt, decrypt, originator, lea, lines).value
        ensures exists j | 0 <= j < |lines| :: VisibleSource(parseInt, decrypt, originator, lea, lines[j], p)
      {
        if p in Collected(parseInt, decrypt, originator, lea, prefix).value {
          var j :| 0 <= j < |prefix| && VisibleSource(parseInt, decrypt, originator, lea, prefix[j], p);
          assert lines[j] == prefix[j];
        } else {
          assert VisibleSource(parseInt, decrypt, originator, lea, lines[|lines| - 1], p);
        }
      }
    }
  }

  /** Line `line` is a visible entry whose id and decrypted code make the pair `p`. */
  predicate VisibleSource(parseInt: string -> Option<int>, decrypt: string -> Option<Codes>,
                          originator: string, lea: string, line: string, p: (int, Codes))
  {
    var e := ParseFaceLine(line);
    && e.FaceEntry?
    && (!e.sensitive || originator == lea)
    && parseInt(e.id) == Some(p.0)
    && decrypt(e.code) == Some(p.1)
  }

  /**
   * A face indexed and then searched for by a requester allowed to see it: if the
   * collection over the uploaded catalogue and any synthetic one succeeds, the face's
   * id and decrypted code are among the pairs ranked. The search reads the cached
   * catalogue, which holds the upload only after a reload or a refreshing index call.
   */
  lemma IndexedFaceCollected(parseInt: string -> Option<int>, decrypt: string -> Option<Codes>,
                             originator: string, lea: string, existing: string, suspectId: string,
                             code: string, sensitive: bool, synthetic: string)
    requires ',' !in suspectId && ',' !in code && NoBreak(suspectId) && NoBreak(code)
    requires !sensitive || originator == lea
    requires var lines := SplitLines(UpdatedCatalogue(existing, CommaLine(suspectId, code, sensitive)) + "\n" + synthetic);
      Collected(parseInt, decrypt, originator, lea, lines).Ok?
    ensures var lines := SplitLines(UpdatedCatalogue(existing, CommaLine(suspectId, code, sensitive)) + "\n" + synthetic);
      && parseInt(suspectId).Some? && decrypt(code).Some?
      && (parseInt(suspectId).value, decrypt(code).value) in Collected(parseInt, decrypt, originator, lea, lines).value
  {
    var line := CommaLine(suspectId, code, sensitive);
    var lines := SplitLines(UpdatedCatalogue(existing, line) + "\n" + synthetic);
    CommaLineUnbroken(suspectId, code, sensitive);
    assert line[|line| - 1] == 'e';
    IndexedLineSearched(existing, line, synthetic);
    CommaRoundTrip(suspectId, code, sensitive);
    var j :| 0 <= j < |lines| && lines[j] == line;
    CollectedIncludes(parseInt, decrypt, originator, lea, lines, j);
  }

  // ---------------------------------------------------------------------------
  // Naming the ranked columns.

  /**
   * Python's `xs[k]` for an index that may be negative: counted from the end when
   * negative, and None (an IndexError) outside `-|xs| <= k < |xs|`.
   */
  function PyIndex(xs: seq<int>, k: int): (r: Option<int>)
    ensures r.Some? <==> -|xs| <= k < |xs|
    ensures 0 <= k < |xs| ==> r == Some(xs[k])
    ensures -|xs| <= k < 0 ==> r == Some(xs[|xs| + k])
  {
    if 0 <= k < |xs| then Some(xs[k]) else if -|xs| <= k < 0 then Some(xs[|xs| + k]) else None
  }

  /**
   * The names `searchForMatchesFace` reports for the ranked columns of its index table,
   * as written: `folder_names[i - 1]` for each column `i`. The table holds the catalogue
   * entries in columns 0 to N - 1 and the query's own code in column N.
   */
  function AsWrittenNames(folderNames: seq<int>, topResults: seq<nat>): Option<seq<int>>
  {
    if |topResults| == 0 then Some([])
    else
      match (PyIndex(folderNames, topResults[0] as int - 1), AsWrittenNames(folderNames, topResults[1..]))
      case (Some(n), Some(rest)) => Some([n] + rest)
      case _ => None
  }

  /**
   * As written, a catalogue column is reported under the previous entry's id, and
   * column 0 under the last entry's: with ids [7, 8], the column of id 7 comes back as 8.
   */
  lemma AsWrittenNamesShifted()
    ensures AsWrittenNames([7, 8], [0]) == Some([8])
    ensures AsWrittenNames([7, 8], [1]) == Some([7])
  {
    var none: seq<nat> := [];
    assert AsWrittenNames([7, 8], none) == Some([]);
    assert [0][1..] == none && [1][1..] == none;
    assert PyIndex([7, 8], -1) == Some(8);
    assert PyIndex([7, 8], 0) == Some(7);
    assert [8] + [] == [8] && [7] + [] == [7];
  }

  /**
   * The names of the ranked columns: the id of each catalogue column, in rank order,
   * the query's own column (and any beyond the table) having no id.
   */
  function ColumnNames(folderNames: seq<int>, topResults: seq<nat>): (r: seq<int>)
    ensures |r| <= |topResults|
    ensures forall t | 0 <= t < |r| :: r[t] in folderNames
    ensures (forall t | 0 <= t < |topResults| :: topResults[t] < |folderNames|) ==>
      |r| == |topResults| && forall t | 0 <= t < |r| :: r[t] == folderNames[topResults[t]]
  {
    if |topResults| == 0 then []
    else
      var rest := ColumnNames(folderNames, topResults[1..]);
      if topResults[0] < |folderNames| then [folderNames[topResults[0]]] + rest else rest
  }

  /** The ids of the collected pairs (`folder_names`). */
  function Ids(pq: seq<(int, Codes)>): (r: seq<int>)
    ensures |r| == |pq| && forall i | 0 <= i < |pq| :: r[i] == pq[i].0
  {
    if |pq| == 0 then [] else Ids(pq[..|pq| - 1]) + [pq[|pq| - 1].0]
  }

  /**
   * `searchForMatchesFace`: the entries collected from the fetched real and synthetic
   * catalogues, ranked by the encrypted distance service (`rank`, given the collected
   * codes, returns the table columns in its chosen order after the best one), and the
   * ids of the ranked catalogue columns. A catalogue that could not be fetched fails
   * the search.
   */
  method SearchForMatchesFace(parseInt: string -> Option<int>, decrypt: string -> Option<Codes>,
                              rank: seq<Codes> -> seq<nat>, originator: string, lea: string,
                              realCatalogue: Option<string>, syntheticCatalogue: Option<string>)
    returns (r: Result<seq<int>>)
    ensures realCatalogue.None? || syntheticCatalogue.None? ==> r == Err("RequestException")
    ensures realCatalogue.Some? && syntheticCatalogue.Some? ==>
      var lines := SplitLines(realCatalogue.value + "\n" + syntheticCatalogue.value);
      match Collected(parseInt, decrypt, originator, lea, lines)
      case Err(e) => r == Err(e)
      case Ok(pq) => r == Ok(ColumnNames(Ids(pq), rank(seq(|pq|, i requires 0 <= i < |pq| => pq[i].1))))
  {
    if realCatalogue.None? || syntheticCatalogue.None? {
      return Err("RequestException");
    }
    var fileContent := realCatalogue.value + "\n" + syntheticCatalogue.value;
    var pqData := CollectLines(parseInt, decrypt, originator, lea, SplitLines(fileContent));
    match pqData {
      case Err(e) =>
        r := Err(e);
      case Ok(pq) =>
        var folderNames := Ids(pq);
        var index := seq(|pq|, i requires 0 <= i < |pq| => pq[i].1);
        var topResults := rank(index);
        r := Ok(ColumnNames(folderNames, topResults));
    }
  }
}
