/**
 * The provider side's profile export (`CriminalProfileServiceImpl`): download a suspect's
 * encrypted profile from the provider's pod, decrypt it and unpack the bundle into the
 * suspect's `info` object and three arrays of data URIs, one per biometric category.
 */
module CriminalProfile {
  import opened Wrappers
  import opened Strings
  import opened Octets
  import opened Json
  import opened Scans
  import opened EvidenceArchive
  import opened EncryptorProtocol

  /** Entry names are compared with backslashes turned into slashes and in lower case. */
  function NormalName(name: string): string
  {
    Lower(ReplaceChar(name, '\\', '/'))
  }

  /** The media type guessed from the file extension when sniffing the content fails. */
  function MimeByExtension(fileName: string): (r: string)
    ensures EndsWith(fileName, ".png") ==> r == "image/png"
    ensures !EndsWith(fileName, ".png") && (EndsWith(fileName, ".jpg") || EndsWith(fileName, ".jpeg")) ==> r == "image/jpeg"
    ensures r in {"image/png", "image/jpeg", "audio/flac", "application/json", "application/octet-stream"}
    ensures var other := !EndsWith(fileName, ".png") && !EndsWith(fileName, ".jpg") && !EndsWith(fileName, ".jpeg");
      && (other && EndsWith(fileName, ".flac") ==> r == "audio/flac")
      && (other && !EndsWith(fileName, ".flac") && EndsWith(fileName, ".json") ==> r == "application/json")
      && (other && !EndsWith(fileName, ".flac") && !EndsWith(fileName, ".json") ==> r == "application/octet-stream")
  {
    if EndsWith(fileName, ".png") then "image/png"
    else if EndsWith(fileName, ".jpg") || EndsWith(fileName, ".jpeg") then "image/jpeg"
    else if EndsWith(fileName, ".flac") then "audio/flac"
    else if EndsWith(fileName, ".json") then "application/json"
    else "application/octet-stream"
  }

  /** The data URI of a non-empty entry with normalised name `fileName`. */
  function ProfileUri(c: Codecs, fileName: string, data: seq<byte>): string
  {
    DataUri(c.sniff(data).UnwrapOr(MimeByExtension(fileName)), c.base64(data))
  }

  /** An entry that is read as a file of the profile: not a directory and not empty. */
  predicate IsContentEntry(e: Entry)
  {
    !IsDirectory(e) && |e.data| > 0
  }

  /** A content entry that is the `info.json` file. */
  predicate IsInfoEntry(e: Entry)
  {
    IsContentEntry(e) && NormalName(e.name) == "info.json"
  }

  /**
   * One entry: directories and empty files are skipped; `info.json` becomes the `info`
   * object (and raises when it does not parse or is not an object); any other file whose
   * name starts with a category prefix is appended to that category's array.
   */
  function ProfileStepAt(c: Codecs, col: Collected, e: Entry): Scan<Collected>
  {
    if !IsContentEntry(e) then Scan(col, false)
    else if IsInfoEntry(e) then
      match c.parseJson(e.data)
      case Some(JObj(m)) => Scan(col.(obj := col.obj["info" := JObj(m)]), false)
      case Some(JNull) => Scan(col.(obj := col.obj["info" := JNull]), false)
      case _ => Scan(col, true)
    else
      var fileName := NormalName(e.name);
      var uri := ProfileUri(c, fileName, e.data);
      if StartsWith(fileName, "face/") then Scan(col.(face := col.face + [uri]), false)
      else if StartsWith(fileName, "voice/") then Scan(col.(voice := col.voice + [uri]), false)
      else if StartsWith(fileName, "finger/") then Scan(col.(finger := col.finger + [uri]), false)
      else Scan(col, false)
  }

  function ProfileStep(c: Codecs): (Collected, Entry) -> Scan<Collected>
  {
    (col: Collected, e: Entry) => ProfileStepAt(c, col, e)
  }

  /** The entries on which the unpacking raises: an `info.json` that is neither an object nor null. */
  function ProfileRaises(c: Codecs): Entry -> bool
  {
    (e: Entry) =>
      IsInfoEntry(e) && !(c.parseJson(e.data).Some? && (c.parseJson(e.data).value.JObj? || c.parseJson(e.data).value.JNull?))
  }

  /**
   * The object `extractZipContents` returns. A null input raises at once (so the object
   * is empty); a listing that breaks off raises after its last entry.
   */
  function ProfileContents(c: Codecs, zipFile: Option<seq<byte>>): map<string, Json>
  {
    if zipFile.None? then map[]
    else
      var listing := c.unzip(zipFile.value);
      var s := Fold(ProfileStep(c), NoneCollected, listing.entries);
      Published(s.state, s.failed || listing.endsInError)
  }

  /** `extractZipContents` of the profile service. */
  method ExtractZipContents(c: Codecs, zipFile: Option<seq<byte>>) returns (suspectInfo: map<string, Json>)
    ensures suspectInfo == ProfileContents(c, zipFile)
  {
    suspectInfo := map[];
    var faceImagesArray: seq<string> := [];
    var voiceFilesArray: seq<string> := [];
    var fingerprintFilesArray: seq<string> := [];
    if zipFile.None? {
      return;   // NullPointerException, caught
    }
    var listing := c.unzip(zipFile.value);
    var entries := listing.entries;
    ghost var step := ProfileStep(c);
    var i := 0;
    while i < |entries|
      invariant 0 <= i <= |entries|
      invariant Fold(step, NoneCollected, entries[..i])
        == Scan(Collected(suspectInfo, faceImagesArray, voiceFilesArray, fingerprintFilesArray), false)
    {
      FoldSnoc(step, NoneCollected, entries, i);
      var entry := entries[i];
      ghost var before := Collected(suspectInfo, faceImagesArray, voiceFilesArray, fingerprintFilesArray);
      assert Fold(step, NoneCollected, entries[..i + 1]) == ProfileStepAt(c, before, entry);
      i := i + 1;
      if IsDirectory(entry) {
        assert ProfileStepAt(c, before, entry) == Scan(before, false);
        continue;
      }
      var fileName := NormalName(entry.name);
      var data := entry.data;
      if |data| == 0 {
        assert ProfileStepAt(c, before, entry) == Scan(before, false);
        continue;
      }
      var mimeType := c.sniff(data).UnwrapOr(MimeByExtension(fileName));
      assert IsContentEntry(entry) && (IsInfoEntry(entry) <==> fileName == "info.json");
      if fileName == "info.json" {
        var info := c.parseJson(data);
        if !(info.Some? && (info.value.JObj? || info.value.JNull?)) {
          FoldFailedSticky(step, NoneCollected, entries, i);
          return;   // ParseException or ClassCastException, caught
        }
        suspectInfo := suspectInfo["info" := info.value];
        assert ProfileStepAt(c, before, entry) == Scan(before.(obj := suspectInfo), false);
      } else {
        var encodedResource := DataUri(mimeType, c.base64(data));
        if StartsWith(fileName, "face/") {
          faceImagesArray := faceImagesArray + [encodedResource];
        } else if StartsWith(fileName, "voice/") {
          voiceFilesArray := voiceFilesArray + [encodedResource];
        } else if StartsWith(fileName, "finger/") {
          fingerprintFilesArray := fingerprintFilesArray + [encodedResource];
        }
        assert ProfileStepAt(c, before, entry) == Scan(Collected(suspectInfo, faceImagesArray, voiceFilesArray, fingerprintFilesArray), false);
      }
    }
    assert entries[..i] == entries;
    if listing.endsInError {
      return;   // the stream breaks off: ZipException, caught
    }
    suspectInfo := suspectInfo["face" := StrArray(faceImagesArray)]["voice" := StrArray(voiceFilesArray)]
                              ["fingerprint" := StrArray(fingerprintFilesArray)];
  }

  /** The URI an entry contributes to the array of `prefix`: one or none. */
  function Appended(c: Codecs, e: Entry, prefix: string): seq<string>
  {
    if IsContentEntry(e) && !IsInfoEntry(e) && StartsWith(NormalName(e.name), prefix)
    then [ProfileUri(c, NormalName(e.name), e.data)] else []
  }

  /**
   * The reference for one array: the data URIs of the content entries whose normalised
   * name starts with `prefix` (and is not `info.json`), in archive order.
   */
  function Uris(c: Codecs, es: seq<Entry>, prefix: string): seq<string>
  {
    if |es| == 0 then []
    else Uris(c, es[..|es| - 1], prefix) + Appended(c, es[|es| - 1], prefix)
  }

  /** Whether some entry is the `info.json` file. */
  predicate HasInfo(es: seq<Entry>)
  {
    exists j :: 0 <= j < |es| && IsInfoEntry(es[j])
  }

  /** A name starts with at most one category prefix. */
  lemma PrefixesExclusive(s: string)
    ensures StartsWith(s, "face/") ==> !StartsWith(s, "voice/") && !StartsWith(s, "finger/")
    ensures StartsWith(s, "voice/") ==> !StartsWith(s, "finger/")
  {
    if StartsWith(s, "face/") {
      assert s[1] == 'a';
    }
    if StartsWith(s, "voice/") {
      assert s[0] == 'v';
    }
  }

  /**
   * The value `info` ends up holding: the parse of the last `info.json` entry (null when
   * there is none).
   */
  function LastInfo(c: Codecs, es: seq<Entry>): Json
  {
    if |es| == 0 then JNull
    else if IsInfoEntry(es[|es| - 1]) then c.parseJson(es[|es| - 1].data).UnwrapOr(JNull)
    else LastInfo(c, es[..|es| - 1])
  }

  /**
   * One step that does not raise appends the entry's URI to its category's array only, or
   * stores the parsed `info.json` under `info`.
   */
  lemma ProfileStepEffect(c: Codecs, col: Collected, e: Entry)
    requires !ProfileRaises(c)(e)
    ensures var r := ProfileStep(c)(col, e);
      && !r.failed
      && r.state.face == col.face + Appended(c, e, "face/")
      && r.state.voice == col.voice + Appended(c, e, "voice/")
      && r.state.finger == col.finger + Appended(c, e, "finger/")
      && r.state.obj.Keys == col.obj.Keys + (if IsInfoEntry(e) then {"info"} else {})
      && (IsInfoEntry(e) ==> c.parseJson(e.data).Some? && r.state.obj["info"] == c.parseJson(e.data).value)
      && (!IsInfoEntry(e) ==> r.state.obj == col.obj)
  {
    var r := ProfileStep(c)(col, e);
    if !IsContentEntry(e) {
      assert r == Scan(col, false);
    } else if IsInfoEntry(e) {
      assert r.state.obj.Keys == col.obj.Keys + {"info"};
    } else {
      var fileName := NormalName(e.name);
      var uri := ProfileUri(c, fileName, e.data);
      PrefixesExclusive(fileName);
      if StartsWith(fileName, "face/") {
        assert r == Scan(col.(face := col.face + [uri]), false);
      } else if StartsWith(fileName, "voice/") {
        assert r == Scan(col.(voice := col.voice + [uri]), false);
      } else if StartsWith(fileName, "finger/") {
        assert r == Scan(col.(finger := col.finger + [uri]), false);
      } else {
        assert r == Scan(col, false);
      }
    }
  }

  lemma HasInfoSnoc(es: seq<Entry>)
    requires |es| > 0
    ensures HasInfo(es) <==> HasInfo(es[..|es| - 1]) || IsInfoEntry(es[|es| - 1])
  {
    SomeSnoc(es, es[..|es| - 1], IsInfoEntry);
  }

  /** Some element of a non-empty sequence satisfies `p` exactly when its last one or one of the others does. */
  lemma SomeSnoc<T>(s: seq<T>, init: seq<T>, p: T -> bool)
    requires |s| > 0 && init == s[..|s| - 1]
    ensures (exists j :: 0 <= j < |s| && p(s[j]))
      <==> (exists j :: 0 <= j < |init| && p(init[j])) || p(s[|s| - 1])
  {
    if exists j :: 0 <= j < |init| && p(init[j]) {
      var j :| 0 <= j < |init| && p(init[j]);
      assert s[j] == init[j];
    }
    if exists j :: 0 <= j < |s| && p(s[j]) {
      var j :| 0 <= j < |s| && p(s[j]);
      if j < |init| {
        assert init[j] == s[j];
      }
    }
  }

  /**
   * Over entries none of which raises, each array collects exactly the category's URIs in
   * archive order, and the object holds `info` exactly when an `info.json` was read,
   * holding the parse of the last one.
   */
  lemma {:induction false} ProfileFoldMeaning(c: Codecs, es: seq<Entry>)
    requires forall j :: 0 <= j < |es| ==> !ProfileRaises(c)(es[j])
    ensures var s := Fold(ProfileStep(c), NoneCollected, es);
      && !s.failed
      && s.state.face == Uris(c, es, "face/")
      && s.state.voice == Uris(c, es, "voice/")
      && s.state.finger == Uris(c, es, "finger/")
      && s.state.obj.Keys == (if HasInfo(es) then {"info"} else {})
      && (HasInfo(es) ==> s.state.obj["info"] == LastInfo(c, es))
  {
    if |es| > 0 {
      var n := |es| - 1;
      var e := es[n];
      assert forall j :: 0 <= j < n ==> es[..n][j] == es[j];
      ProfileFoldMeaning(c, es[..n]);
      var p := Fold(ProfileStep(c), NoneCollected, es[..n]);
      assert Fold(ProfileStep(c), NoneCollected, es) == ProfileStep(c)(p.state, e);
      ProfileStepEffect(c, p.state, e);
      ProfileInfoStep(c, es, p.state.obj, Fold(ProfileStep(c), NoneCollected, es).state.obj);
    }
  }

  /** The `info` part of one step of the fold: the key and the last parse carry over. */
  lemma ProfileInfoStep(c: Codecs, es: seq<Entry>, before: map<string, Json>, after: map<string, Json>)
    requires |es| > 0
    requires var n := |es| - 1;
      && before.Keys == (if HasInfo(es[..n]) then {"info"} else {})
      && (HasInfo(es[..n]) ==> before["info"] == LastInfo(c, es[..n]))
    requires var e := es[|es| - 1];
      && after.Keys == before.Keys + (if IsInfoEntry(e) then {"info"} else {})
      && (IsInfoEntry(e) ==> c.parseJson(e.data).Some? && after["info"] == c.parseJson(e.data).value)
      && (!IsInfoEntry(e) ==> after == before)
    ensures after.Keys == (if HasInfo(es) then {"info"} else {})
    ensures HasInfo(es) ==> after["info"] == LastInfo(c, es)
  {
    LastInfoSnoc(c, es);
  }

  /** Whether there is an info file, and the last one's parse, after one more entry. */
  lemma LastInfoSnoc(c: Codecs, es: seq<Entry>)
    requires |es| > 0
    ensures var e := es[|es| - 1];
      && (HasInfo(es) <==> HasInfo(es[..|es| - 1]) || IsInfoEntry(e))
      && (IsInfoEntry(e) ==> LastInfo(c, es) == c.parseJson(e.data).UnwrapOr(JNull))
      && (!IsInfoEntry(e) ==> LastInfo(c, es) == LastInfo(c, es[..|es| - 1]))
  {
    HasInfoSnoc(es);
  }

  /** Attaching the arrays adds exactly the three array keys. */
  lemma PublishedArrays(col: Collected)
    ensures var obj := Published(col, false);
      && obj.Keys == col.obj.Keys + {"face", "voice", "fingerprint"}
      && obj["face"] == StrArray(col.face)
      && obj["voice"] == StrArray(col.voice)
      && obj["fingerprint"] == StrArray(col.finger)
      && ("info" in col.obj ==> obj["info"] == col.obj["info"])
  {
  }

  lemma ProfileRaisesOn(c: Codecs)
    ensures RaisesOn(ProfileStep(c), ProfileRaises(c))
  {
    forall col: Collected, e: Entry ensures ProfileStep(c)(col, e).failed == ProfileRaises(c)(e)
      && (ProfileRaises(c)(e) ==> ProfileStep(c)(col, e).state == col)
    {
      assert ProfileStep(c)(col, e) == ProfileStepAt(c, col, e);
      if IsInfoEntry(e) {
        match c.parseJson(e.data)
        case Some(JObj(m)) =>
        case Some(JNull) =>
        case _ =>
      }
    }
  }

  /** The scan over an archive ends in the state reached on the entries before the first one that raises. */
  lemma ProfileScanPrefix(c: Codecs, es: seq<Entry>)
    ensures var f := FirstRaise(ProfileRaises(c), es);
      var s := Fold(ProfileStep(c), NoneCollected, es);
      && (s.failed <==> f < |es|)
      && s.state.face == Uris(c, es[..f], "face/")
      && s.state.voice == Uris(c, es[..f], "voice/")
      && s.state.finger == Uris(c, es[..f], "finger/")
      && s.state.obj.Keys == (if HasInfo(es[..f]) then {"info"} else {})
      && (HasInfo(es[..f]) ==> s.state.obj["info"] == LastInfo(c, es[..f]))
  {
    var f := FirstRaise(ProfileRaises(c), es);
    ProfileRaisesOn(c);
    FoldUpToFirstRaise(ProfileStep(c), ProfileRaises(c), NoneCollected, es);
    assert forall j :: 0 <= j < f ==> es[..f][j] == es[j];
    ProfileFoldMeaning(c, es[..f]);
  }

  /**
   * When every entry of the archive is read without an exception, the three arrays hold
   * the category URIs in archive order, next to `info` when an `info.json` was read,
   * holding the last one's parse.
   */
  lemma ProfileContentsComplete(c: Codecs, zipFile: seq<byte>)
    requires var listing := c.unzip(zipFile);
      FirstRaise(ProfileRaises(c), listing.entries) == |listing.entries| && !listing.endsInError
    ensures var es := c.unzip(zipFile).entries;
      var obj := ProfileContents(c, Some(zipFile));
      && obj.Keys == (if HasInfo(es) then {"info"} else {}) + {"face", "voice", "fingerprint"}
      && obj["face"] == StrArray(Uris(c, es, "face/"))
      && obj["voice"] == StrArray(Uris(c, es, "voice/"))
      && obj["fingerprint"] == StrArray(Uris(c, es, "finger/"))
      && (HasInfo(es) ==> obj["info"] == LastInfo(c, es))
  {
    var es := c.unzip(zipFile).entries;
    ProfileScanPrefix(c, es);
    assert es[..|es|] == es;
    PublishedArrays(Fold(ProfileStep(c), NoneCollected, es).state);
  }

  /**
   * When some entry raises or the archive breaks off, no array is attached: the object
   * holds only `info`, and only when an `info.json` was read before the exception: the
   * parse of the last one read.
   */
  lemma ProfileContentsBroken(c: Codecs, zipFile: seq<byte>)
    requires var listing := c.unzip(zipFile);
      FirstRaise(ProfileRaises(c), listing.entries) < |listing.entries| || listing.endsInError
    ensures var es := c.unzip(zipFile).entries;
      var f := FirstRaise(ProfileRaises(c), es);
      var obj := ProfileContents(c, Some(zipFile));
      && obj.Keys == (if HasInfo(es[..f]) then {"info"} else {})
      && (HasInfo(es[..f]) ==> obj["info"] == LastInfo(c, es[..f]))
  {
    ProfileScanPrefix(c, c.unzip(zipFile).entries);
  }

  /**
   * `createCriminalProfile` around `getSuspectProfile`: the profile is downloaded from the
   * provider's pod and decrypted in mode "face" for the provider. An exception from the
   * encryptor call, or a null decryption (which `new String` dereferences), becomes the
   * 500 reply.
   */
  method CreateCriminalProfile(c: Codecs, p: Platform, encryptor: EncryptorCall -> Result<Option<seq<byte>>>,
                               suspectProfileID: string, providerID: string)
    returns (reply: Reply)
    ensures var file := p.fetch(SuspectProfileUrl(p.api, JavaText(p.podOf(providerID)), suspectProfileID));
      var outcome := encryptor(EncryptorCall("decrypt", "face", file, suspectProfileID + ".zip.enc", providerID));
      reply == (if outcome.Err? || outcome.value.None? then Reply(500, ProcessingFailure)
                else Reply(200, JObj(ProfileContents(c, outcome.value))))
  {
    var providerPod := JavaText(p.podOf(providerID));
    var encryptedFile := p.fetch(SuspectProfileUrl(p.api, providerPod, suspectProfileID));
    var decryptedFile := encryptor(EncryptorCall("decrypt", "face", encryptedFile, suspectProfileID + ".zip.enc", providerID));
    if decryptedFile.Err? || decryptedFile.value.None? {
      return Reply(500, ProcessingFailure);
    }
    var suspectInfo := ExtractZipContents(c, decryptedFile.value);
    reply := Reply(200, JObj(suspectInfo));
  }
}
