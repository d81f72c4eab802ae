/**
 * The consumer side's evidence display (`DisplayEvidenceServiceImpl`): choose the newest
 * encrypted bundle listed for a request, download and decrypt it, and unpack it into one
 * JSON object with the case's descriptive text and one data URI per biometric category.
 */
module DisplayEvidence {
  import opened Wrappers
  import opened Strings
  import opened Octets
  import opened Json
  import opened Scans
  import opened EvidenceArchive
  import opened EncryptorProtocol

  // ---------------------------------------------------------------------------
  // The latest evidence bundle.

  /** What one `@graph` item contributes to the search for the latest bundle. */
  datatype Verdict = Raises | Ignored | Candidate(id: string, time: int)

  /**
   * An item raises when it is not a JSON object, when `@id`, `dc:modified` or `@value` has
   * the wrong type, or when the timestamp does not parse; it is a candidate when its `@id`
   * ends with `.zip.enc` and it carries a `dc:modified.@value` timestamp.
   */
  function Classify(parseDate: string -> Option<int>, item: Json): Verdict
  {
    match AsObject(item)
    case Err(_) => Raises
    case Ok(None) => Raises
    case Ok(Some(m)) =>
      match AsString(Get(m, "@id"))
      case Err(_) => Raises
      case Ok(None) => Ignored
      case Ok(Some(id)) =>
        if !EndsWith(id, ".zip.enc") then Ignored
        else
          match AsObject(Get(m, "dc:modified"))
          case Err(_) => Raises
          case Ok(None) => Ignored
          case Ok(Some(modified)) =>
            match AsString(Get(modified, "@value"))
            case Err(_) => Raises
            case Ok(None) => Ignored
            case Ok(Some(text)) =>
              match parseDate(text)
              case None => Raises
              case Some(t) => Candidate(id, t)
  }

  /** The best bundle so far: its id and its timestamp in milliseconds. */
  type Latest = Option<(string, int)>

  /** A candidate replaces the best so far only when its timestamp is strictly later. */
  function LatestStep(parseDate: string -> Option<int>): (Latest, Json) -> Scan<Latest>
  {
    (best: Latest, item: Json) =>
      match Classify(parseDate, item)
      case Raises => Scan(best, true)
      case Ignored => Scan(best, false)
      case Candidate(id, t) => Scan(if best.None? || t > best.value.1 then Some((id, t)) else best, false)
  }

  function RaisesItem(parseDate: string -> Option<int>): Json -> bool
  {
    (item: Json) => Classify(parseDate, item).Raises?
  }

  /**
   * The scan of `getLatestEvidence`: a missing listing or a `@graph` that is not an array
   * raises at once (the cast or the loop fails), and an item that raises ends the scan.
   */
  function LatestScan(parseDate: string -> Option<int>, suspectEvidence: Option<map<string, Json>>): Scan<Latest>
  {
    if suspectEvidence.None? then Scan(None, true)
    else
      match Get(suspectEvidence.value, "@graph")
      case JArr(items) => Fold(LatestStep(parseDate), None, items)
      case _ => Scan(None, true)
  }

  function LatestId(parseDate: string -> Option<int>, suspectEvidence: Option<map<string, Json>>): Option<string>
  {
    var s := LatestScan(parseDate, suspectEvidence).state;
    if s.None? then None else Some(s.value.0)
  }

  /** The best bundle the variables of `getLatestEvidence` denote. */
  function Denoted(parseDate: string -> Option<int>, latestZip: Option<string>, latestDateStr: Option<string>): Latest
  {
    if latestZip.Some? && latestDateStr.Some? && parseDate(latestDateStr.value).Some?
    then Some((latestZip.value, parseDate(latestDateStr.value).value))
    else None
  }

  /** `getLatestEvidence`: the id of the latest `.zip.enc` bundle, or null. */
  method GetLatestEvidence(parseDate: string -> Option<int>, suspectEvidence: Option<map<string, Json>>)
    returns (latestZip: Option<string>)
    ensures latestZip == LatestId(parseDate, suspectEvidence)
  {
    latestZip := None;
    if suspectEvidence.None? {
      return;   // NullPointerException, caught
    }
    var graph := Get(suspectEvidence.value, "@graph");
    if !graph.JArr? {
      return;   // the cast or the loop raises, caught
    }
    var items := graph.items;
    var latestDateStr: Option<string> := None;
    ghost var step := LatestStep(parseDate);
    var i := 0;
    while i < |items|
      invariant 0 <= i <= |items|
      invariant latestZip.Some? <==> latestDateStr.Some?
      invariant latestDateStr.Some? ==> parseDate(latestDateStr.value).Some?
      invariant Fold(step, None, items[..i]) == Scan(Denoted(parseDate, latestZip, latestDateStr), false)
    {
      FoldSnoc(step, None, items, i);
      ghost var before := Denoted(parseDate, latestZip, latestDateStr);
      ghost var v := Classify(parseDate, items[i]);
      var raised := false;
      var item := items[i];
      if !item.JObj? {
        raised := true;
        assert v == Raises;
      } else {
        var id := Get(item.fields, "@id");
        if !(id.JNull? || id.JStr?) {
          raised := true;
          assert v == Raises;
        } else if id.JStr? && EndsWith(id.s, ".zip.enc") {
          var modifiedObj := Get(item.fields, "dc:modified");
          if !(modifiedObj.JNull? || modifiedObj.JObj?) {
            raised := true;
            assert v == Raises;
          } else if modifiedObj.JObj? {
            var modifiedDate := Get(modifiedObj.fields, "@value");
            if !(modifiedDate.JNull? || modifiedDate.JStr?) {
              raised := true;
              assert v == Raises;
            } else if modifiedDate.JStr? {
              var currentDate := parseDate(modifiedDate.s);
              if currentDate.None? {
                raised := true;
                assert v == Raises;
              } else {
                assert v == Candidate(id.s, currentDate.value);
                var latestDate := if latestDateStr.Some? then parseDate(latestDateStr.value) else None;
                CandidateDenoted(parseDate, latestZip, latestDateStr, id.s, modifiedDate.s, currentDate.value);
                if latestDate.None? || currentDate.value > latestDate.value {
                  latestZip := Some(id.s);
                  latestDateStr := Some(modifiedDate.s);
                }
                assert Scan(Denoted(parseDate, latestZip, latestDateStr), false) == step(before, items[i]);
              }
            } else {
              assert v == Ignored;
            }
          } else {
            assert v == Ignored;
          }
        } else {
          assert v == Ignored;
        }
      }
      if raised {
        FoldFailedSticky(step, None, items, i + 1);
        return;
      }
      i := i + 1;
    }
    assert items[..i] == items;
  }

  /** The date test of `getLatestEvidence` is the later-than test on the denoted best, and a replacement denotes the candidate. */
  lemma CandidateDenoted(parseDate: string -> Option<int>, latestZip: Option<string>, latestDateStr: Option<string>,
                         id: string, text: string, t: int)
    requires latestZip.Some? <==> latestDateStr.Some?
    requires latestDateStr.Some? ==> parseDate(latestDateStr.value).Some?
    requires parseDate(text) == Some(t)
    ensures var latestDate := if latestDateStr.Some? then parseDate(latestDateStr.value) else None;
      var before := Denoted(parseDate, latestZip, latestDateStr);
      (latestDate.None? || t > latestDate.value) <==> (before.None? || t > before.value.1)
    ensures Denoted(parseDate, Some(id), Some(text)) == Some((id, t))
  {
  }

  /**
   * Candidate `k` holds the first maximal timestamp: every earlier candidate is strictly
   * older and no later candidate is newer.
   */
  ghost predicate IsFirstLatest(parseDate: string -> Option<int>, items: seq<Json>, k: nat, id: string, t: int)
  {
    && k < |items|
    && Classify(parseDate, items[k]) == Candidate(id, t)
    && (forall j :: 0 <= j < k && Classify(parseDate, items[j]).Candidate? ==> Classify(parseDate, items[j]).time < t)
    && (forall j :: k < j < |items| && Classify(parseDate, items[j]).Candidate? ==> Classify(parseDate, items[j]).time <= t)
  }

  lemma LatestStepRaisesOn(parseDate: string -> Option<int>)
    ensures RaisesOn(LatestStep(parseDate), RaisesItem(parseDate))
  {
    forall best: Latest, item: Json
      ensures LatestStep(parseDate)(best, item).failed == RaisesItem(parseDate)(item)
      ensures RaisesItem(parseDate)(item) ==> LatestStep(parseDate)(best, item).state == best
    {
      var v := Classify(parseDate, item);
      if v.Raises? {
        assert LatestStep(parseDate)(best, item) == Scan(best, true);
      }
    }
  }

  /** Every candidate of a first-latest choice is no newer than the chosen one. */
  lemma FirstLatestBounds(parseDate: string -> Option<int>, items: seq<Json>, k: nat, id: string, t: int)
    requires IsFirstLatest(parseDate, items, k, id, t)
    ensures forall j :: 0 <= j < |items| && Classify(parseDate, items[j]).Candidate? ==> Classify(parseDate, items[j]).time <= t
  {
  }

  /** An item that is not newer keeps the choice. */
  lemma FirstLatestKept(parseDate: string -> Option<int>, items: seq<Json>, k: nat, id: string, t: int)
    requires |items| > 0
    requires IsFirstLatest(parseDate, items[..|items| - 1], k, id, t)
    requires var v := Classify(parseDate, items[|items| - 1]); v.Candidate? ==> v.time <= t
    ensures IsFirstLatest(parseDate, items, k, id, t)
  {
    var n := |items| - 1;
    var pre := items[..n];
    assert items[k] == pre[k];
    forall j | 0 <= j < k && Classify(parseDate, items[j]).Candidate?
      ensures Classify(parseDate, items[j]).time < t
    {
      assert items[j] == pre[j];
    }
    forall j | k < j < |items| && Classify(parseDate, items[j]).Candidate?
      ensures Classify(parseDate, items[j]).time <= t
    {
      if j < n {
        assert items[j] == pre[j];
      }
    }
  }

  /** A last item strictly newer than every earlier candidate becomes the choice. */
  lemma FirstLatestLast(parseDate: string -> Option<int>, items: seq<Json>, id: string, t: int)
    requires |items| > 0
    requires Classify(parseDate, items[|items| - 1]) == Candidate(id, t)
    requires forall j :: 0 <= j < |items| - 1 && Classify(parseDate, items[j]).Candidate? ==> Classify(parseDate, items[j]).time < t
    ensures IsFirstLatest(parseDate, items, |items| - 1, id, t)
  {
  }

  /** Over items none of which raises, the scan finds the first latest candidate, if any. */
  lemma {:induction false} FoldFindsFirstLatest(parseDate: string -> Option<int>, items: seq<Json>) returns (k: nat)
    requires forall j :: 0 <= j < |items| ==> !Classify(parseDate, items[j]).Raises?
    ensures var r := Fold(LatestStep(parseDate), None, items);
      && !r.failed
      && (r.state.None? <==> forall j :: 0 <= j < |items| ==> !Classify(parseDate, items[j]).Candidate?)
      && (r.state.Some? ==> IsFirstLatest(parseDate, items, k, r.state.value.0, r.state.value.1))
  {
    k := 0;
    if |items| == 0 {
      return;
    }
    var n := |items| - 1;
    var pre := items[..n];
    assert forall j :: 0 <= j < n ==> pre[j] == items[j];
    var k0 := FoldFindsFirstLatest(parseDate, pre);
    var p := Fold(LatestStep(parseDate), None, pre);
    assert Fold(LatestStep(parseDate), None, items) == LatestStep(parseDate)(p.state, items[n]);
    k := LatestStepChoice(parseDate, items, k0, p.state);
  }

  /** One item that does not raise keeps the choice the first latest candidate of the items read. */
  lemma LatestStepChoice(parseDate: string -> Option<int>, items: seq<Json>, k0: nat, best: Latest) returns (k: nat)
    requires |items| > 0 && !Classify(parseDate, items[|items| - 1]).Raises?
    requires var pre := items[..|items| - 1];
      && (best.None? <==> forall j :: 0 <= j < |pre| ==> !Classify(parseDate, pre[j]).Candidate?)
      && (best.Some? ==> IsFirstLatest(parseDate, pre, k0, best.value.0, best.value.1))
    ensures var r := LatestStep(parseDate)(best, items[|items| - 1]);
      && !r.failed
      && (r.state.None? <==> forall j :: 0 <= j < |items| ==> !Classify(parseDate, items[j]).Candidate?)
      && (r.state.Some? ==> IsFirstLatest(parseDate, items, k, r.state.value.0, r.state.value.1))
  {
    var n := |items| - 1;
    var pre := items[..n];
    assert forall j :: 0 <= j < n ==> pre[j] == items[j];
    var r := LatestStep(parseDate)(best, items[n]);
    var v := Classify(parseDate, items[n]);
    if v.Candidate? && (best.None? || v.time > best.value.1) {
      k := n;
      assert r.state == Some((v.id, v.time));
      if best.Some? {
        FirstLatestBounds(parseDate, pre, k0, best.value.0, best.value.1);
      }
      FirstLatestLast(parseDate, items, v.id, v.time);
    } else {
      k := k0;
      assert r.state == best;
      if best.Some? {
        FirstLatestKept(parseDate, items, k0, best.value.0, best.value.1);
      }
    }
  }

  /**
   * `getLatestEvidence` returns the first candidate with the latest timestamp among the
   * items before the first one that raises, and null when there is none; a missing listing
   * or a `@graph` that is not an array gives null.
   */
  lemma LatestEvidenceRule(parseDate: string -> Option<int>, suspectEvidence: Option<map<string, Json>>) returns (k: nat)
    ensures suspectEvidence.None? ==> LatestId(parseDate, suspectEvidence).None?
    ensures suspectEvidence.Some? && !Get(suspectEvidence.value, "@graph").JArr? ==> LatestId(parseDate, suspectEvidence).None?
    ensures suspectEvidence.Some? && Get(suspectEvidence.value, "@graph").JArr? ==>
      var items := Get(suspectEvidence.value, "@graph").items;
      var f := FirstRaise(RaisesItem(parseDate), items);
      var latest := LatestScan(parseDate, suspectEvidence).state;
      && (latest.None? <==> forall j :: 0 <= j < f ==> !Classify(parseDate, items[j]).Candidate?)
      && (latest.Some? ==> IsFirstLatest(parseDate, items[..f], k, latest.value.0, latest.value.1))
  {
    k := 0;
    if suspectEvidence.Some? && Get(suspectEvidence.value, "@graph").JArr? {
      var items := Get(suspectEvidence.value, "@graph").items;
      var f := FirstRaise(RaisesItem(parseDate), items);
      LatestStepRaisesOn(parseDate);
      FoldUpToFirstRaise(LatestStep(parseDate), RaisesItem(parseDate), None, items);
      assert forall j :: 0 <= j < f ==> items[..f][j] == items[j];
      k := FoldFindsFirstLatest(parseDate, items[..f]);
    }
  }

  // ---------------------------------------------------------------------------
  // Unpacking the bundle.

  const CaseInfoName: string := "info/caseInfo.json"

  /**
   * One entry: the case description sets `descriptiveText` (and raises when it is not a
   * JSON object), empty entries are skipped, and a category entry sets its single key.
   */
  function DisplayStep(c: Codecs): (map<string, Json>, Entry) -> Scan<map<string, Json>>
  {
    (suspectInfo: map<string, Json>, e: Entry) =>
      if e.name == CaseInfoName then
        match c.parseJson(e.data)
        case Some(JObj(m)) => Scan(suspectInfo["descriptiveText" := Get(m, "caseDescriptiveText")], false)
        case _ => Scan(suspectInfo, true)
      else if |e.data| == 0 then Scan(suspectInfo, false)
      else
        match CategoryOf(e.name)
        case None => Scan(suspectInfo, false)
        case Some(k) => Scan(suspectInfo[k.Key() := JStr(EntryUri(c, e, k))], false)
  }

  /** The entries on which the unpacking raises: a case description that is not a JSON object. */
  function DisplayRaises(c: Codecs): Entry -> bool
  {
    (e: Entry) => e.name == CaseInfoName && !(c.parseJson(e.data).Some? && c.parseJson(e.data).value.JObj?)
  }

  /** The object `extractZipContents` returns: empty for a non-ZIP input, else the scan's state. */
  function DisplayContents(c: Codecs, zipFile: Option<seq<byte>>): map<string, Json>
  {
    if !IsZipFile(zipFile) then map[]
    else Fold(DisplayStep(c), map[], c.unzip(zipFile.value).entries).state
  }

  /** `extractZipContents` of the display service. */
  method ExtractZipContents(c: Codecs, zipFile: Option<seq<byte>>) returns (suspectInfo: map<string, Json>)
    ensures !IsZipFile(zipFile) ==> suspectInfo == map[]
    ensures suspectInfo == DisplayContents(c, zipFile)
  {
    suspectInfo := map[];
    if !IsZipFile(zipFile) {
      return;
    }
    var entries := c.unzip(zipFile.value).entries;
    ghost var step := DisplayStep(c);
    var i := 0;
    while i < |entries|
      invariant 0 <= i <= |entries|
      invariant Fold(step, map[], entries[..i]) == Scan(suspectInfo, false)
    {
      FoldSnoc(step, map[], entries, i);
      var fileName := entries[i].name;
      var data := entries[i].data;
      if fileName == CaseInfoName {
        var caseDescription := c.parseJson(data);
        if !(caseDescription.Some? && caseDescription.value.JObj?) {
          FoldFailedSticky(step, map[], entries, i + 1);
          return;   // ParseException or ClassCastException, caught
        }
        suspectInfo := suspectInfo["descriptiveText" := Get(caseDescription.value.fields, "caseDescriptiveText")];
      } else if |data| > 0 {
        var mimeType := c.sniff(data);
        if StartsWith(fileName, "face/") {
          suspectInfo := suspectInfo["face" := JStr(DataUri(mimeType.UnwrapOr("image/png"), c.base64(data)))];
        } else if StartsWith(fileName, "voice/") {
          suspectInfo := suspectInfo["voice" := JStr(DataUri(mimeType.UnwrapOr("audio/flac"), c.base64(data)))];
        } else if StartsWith(fileName, "finger/") {
          suspectInfo := suspectInfo["fingerprint" := JStr(DataUri(mimeType.UnwrapOr("image/jpeg"), c.base64(data)))];
        }
      }
      i := i + 1;
    }
    assert entries[..i] == entries;
  }

  /** The data URI of the last non-empty entry of category `k` in `es`. */
  function LastUri(c: Codecs, es: seq<Entry>, k: Category): Option<string>
  {
    if |es| == 0 then None
    else
      var e := es[|es| - 1];
      if e.name != CaseInfoName && |e.data| > 0 && CategoryOf(e.name) == Some(k) then Some(EntryUri(c, e, k))
      else LastUri(c, es[..|es| - 1], k)
  }

  /** The description of the last case-description entry in `es`. */
  function LastDescription(c: Codecs, es: seq<Entry>): Option<Json>
  {
    if |es| == 0 then None
    else
      var e := es[|es| - 1];
      if e.name == CaseInfoName && c.parseJson(e.data).Some? && c.parseJson(e.data).value.JObj?
      then Some(Get(c.parseJson(e.data).value.fields, "caseDescriptiveText"))
      else LastDescription(c, es[..|es| - 1])
  }

  const DisplayKeys: set<string> := {"descriptiveText", "face", "voice", "fingerprint"}

  /**
   * Over entries none of which raises: each category key holds the URI of the category's
   * last non-empty entry, `descriptiveText` holds the last description, and no other key
   * is set.
   */
  lemma {:induction false} DisplayFoldMeaning(c: Codecs, es: seq<Entry>)
    requires forall j :: 0 <= j < |es| ==> !DisplayRaises(c)(es[j])
    ensures var s := Fold(DisplayStep(c), map[], es);
      && !s.failed
      && s.state.Keys <= DisplayKeys
      && (forall k: Category :: (k.Key() in s.state <==> LastUri(c, es, k).Some?)
                                && (k.Key() in s.state ==> s.state[k.Key()] == JStr(LastUri(c, es, k).value)))
      && ("descriptiveText" in s.state <==> LastDescription(c, es).Some?)
      && ("descriptiveText" in s.state ==> s.state["descriptiveText"] == LastDescription(c, es).value)
  {
    if |es| > 0 {
      var n := |es| - 1;
      assert forall j :: 0 <= j < n ==> es[..n][j] == es[j];
      DisplayFoldMeaning(c, es[..n]);
      var p := Fold(DisplayStep(c), map[], es[..n]);
      assert Fold(DisplayStep(c), map[], es) == DisplayStep(c)(p.state, es[n]);
      DisplayStepReflects(c, es, p.state);
    } else {
      assert DisplayReflects(c, es, map[]);
    }
  }

  /** The object holds exactly the last URI of each category and the last description of `es`. */
  predicate DisplayReflects(c: Codecs, es: seq<Entry>, m: map<string, Json>)
  {
    && m.Keys <= DisplayKeys
    && (forall k: Category :: (k.Key() in m <==> LastUri(c, es, k).Some?)
                              && (k.Key() in m ==> m[k.Key()] == JStr(LastUri(c, es, k).value)))
    && ("descriptiveText" in m <==> LastDescription(c, es).Some?)
    && ("descriptiveText" in m ==> m["descriptiveText"] == LastDescription(c, es).value)
  }

  /** A step over an entry that does not raise keeps the object reflecting the entries read. */
  lemma DisplayStepReflects(c: Codecs, es: seq<Entry>, m: map<string, Json>)
    requires |es| > 0 && !DisplayRaises(c)(es[|es| - 1])
    requires DisplayReflects(c, es[..|es| - 1], m)
    ensures !DisplayStep(c)(m, es[|es| - 1]).failed
    ensures DisplayReflects(c, es, DisplayStep(c)(m, es[|es| - 1]).state)
  {
    var e := es[|es| - 1];
    var r := DisplayStep(c)(m, e);
    forall k: Category ensures CategoryOf(e.name) == Some(k) <==> StartsWith(e.name, k.Prefix()) {
      if StartsWith(e.name, k.Prefix()) { CategoryUnique(e.name, k); }
    }
    forall k: Category ensures k.Key() in DisplayKeys {
      match k
      case Face =>
      case Voice =>
      case Finger =>
    }
    if e.name == CaseInfoName {
      assert r.state == m["descriptiveText" := LastDescription(c, es).value];
    } else if |e.data| == 0 || CategoryOf(e.name).None? {
      assert r.state == m;
    } else {
      var k := CategoryOf(e.name).value;
      assert r.state == m[k.Key() := JStr(EntryUri(c, e, k))];
      assert k.Key() != "descriptiveText";
    }
  }

  lemma DisplayStepRaisesOn(c: Codecs)
    ensures RaisesOn(DisplayStep(c), DisplayRaises(c))
  {
    forall s: map<string, Json>, e: Entry
      ensures DisplayStep(c)(s, e).failed == DisplayRaises(c)(e)
      ensures DisplayRaises(c)(e) ==> DisplayStep(c)(s, e).state == s
    {
      if e.name == CaseInfoName {
        var parsed := c.parseJson(e.data);
        if parsed.Some? && parsed.value.JObj? {
          assert DisplayStep(c)(s, e) == Scan(s["descriptiveText" := Get(parsed.value.fields, "caseDescriptiveText")], false);
        } else {
          assert DisplayStep(c)(s, e) == Scan(s, true);
        }
      }
    }
  }

  /**
   * The rule of `extractZipContents`: the object reflects the entries before the first
   * one that raises; each category key holds the data URI of the last non-empty entry of
   * that category there, with later entries overwriting earlier ones.
   */
  lemma DisplayContentsRule(c: Codecs, zipFile: Option<seq<byte>>, k: Category)
    ensures !IsZipFile(zipFile) ==> DisplayContents(c, zipFile) == map[]
    ensures IsZipFile(zipFile) ==>
      var es := c.unzip(zipFile.value).entries;
      var pre := es[..FirstRaise(DisplayRaises(c), es)];
      var obj := DisplayContents(c, zipFile);
      && obj.Keys <= DisplayKeys
      && (k.Key() in obj <==> LastUri(c, pre, k).Some?)
      && (k.Key() in obj ==> obj[k.Key()] == JStr(LastUri(c, pre, k).value))
      && ("descriptiveText" in obj <==> LastDescription(c, pre).Some?)
      && ("descriptiveText" in obj ==> obj["descriptiveText"] == LastDescription(c, pre).value)
  {
    if IsZipFile(zipFile) {
      var es := c.unzip(zipFile.value).entries;
      var f := FirstRaise(DisplayRaises(c), es);
      DisplayStepRaisesOn(c);
      FoldUpToFirstRaise(DisplayStep(c), DisplayRaises(c), map[], es);
      assert forall j :: 0 <= j < f ==> es[..f][j] == es[j];
      DisplayFoldMeaning(c, es[..f]);
    }
  }

  // ---------------------------------------------------------------------------
  // The endpoint.

  /**
   * `getEvidenceFiles`: the requestor's folder for the suspect, or null when the GET fails
   * or its body is not a JSON object.
   */
  function EvidenceFiles(c: Codecs, p: Platform, suspectProfileID: string, requestorID: string): Option<map<string, Json>>
  {
    match p.fetch(EvidenceListUrl(p.api, JavaText(p.podOf(requestorID)), suspectProfileID))
    case None => None
    case Some(body) =>
      match c.parseJson(body)
      case Some(JObj(m)) => Some(m)
      case _ => None
  }

  /**
   * `createDisplayEvidence` around `getSuspectEvidence`: with no latest bundle the reply is
   * an empty object and nothing is downloaded; otherwise the bundle is downloaded from the
   * requestor's folder, decrypted in mode "face" under its own name for the requestor, and
   * unpacked. An exception from the encryptor call becomes the 500 reply.
   */
  method CreateDisplayEvidence(c: Codecs, parseDate: string -> Option<int>, p: Platform,
                               encryptor: EncryptorCall -> Result<Option<seq<byte>>>,
                               suspectProfileID: string, requestorID: string)
    returns (reply: Reply, downloaded: Option<string>)
    ensures downloaded == LatestId(parseDate, EvidenceFiles(c, p, suspectProfileID, requestorID))
    ensures downloaded.None? ==> reply == Reply(200, JObj(map[]))
    ensures downloaded.Some? ==>
      var file := p.fetch(EvidenceFileUrl(p.api, JavaText(p.podOf(requestorID)), suspectProfileID, downloaded.value));
      var outcome := encryptor(EncryptorCall("decrypt", "face", file, downloaded.value, requestorID));
      reply == (if outcome.Err? then Reply(500, ProcessingFailure) else Reply(200, JObj(DisplayContents(c, outcome.value))))
  {
    var suspectInfo: map<string, Json> := map[];
    var suspectEvidence := EvidenceFiles(c, p, suspectProfileID, requestorID);
    var latestEvidence := GetLatestEvidence(parseDate, suspectEvidence);
    downloaded := latestEvidence;
    if latestEvidence.Some? {
      var pod := JavaText(p.podOf(requestorID));
      var encryptedFile := p.fetch(EvidenceFileUrl(p.api, pod, suspectProfileID, latestEvidence.value));
      var decryptedFile := encryptor(EncryptorCall("decrypt", "face", encryptedFile, latestEvidence.value, requestorID));
      if decryptedFile.Err? {
        return Reply(500, ProcessingFailure), downloaded;
      }
      suspectInfo := ExtractZipContents(c, decryptedFile.value);
    }
    reply := Reply(200, JObj(suspectInfo));
  }
}
