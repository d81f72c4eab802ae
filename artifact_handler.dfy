/**
 * The provider connector's handler of IDS artifact requests (`ArtifactMessageHandler`):
 * the requested artifact names a suspect profile, which is downloaded from the
 * provider's pod, decrypted and unpacked into an `info` object and three arrays of
 * data URIs; over WebSocket the artifact is instead read from the data lake as Base64.
 */
module ArtifactHandler {
  import opened Wrappers
  import opened Strings
  import opened Octets
  import opened Json
  import opened Scans
  import opened EvidenceArchive
  import opened EncryptorProtocol

  // ---------------------------------------------------------------------------
  // The requested artifact.

  /** The last segment of the requested artifact's path: everything after its last '/'. */
  function ArtifactId(path: string): (r: string)
    ensures '/' !in r
    ensures '/' !in path ==> r == path
    ensures '/' in path ==> exists i | 0 <= i < |path| :: path[i] == '/' && r == path[i + 1..]
  {
    path[LastIndexOf(path, '/') + 1..]
  }

  /**
   * `isBigPayload`: whether the path from its last '/' on is "/big"; a path without '/'
   * makes `substring(-1)` raise.
   */
  function IsBigPayload(path: string): (r: Result<bool>)
    ensures r.Err? <==> '/' !in path
    ensures r == Ok(true) <==> EndsWith(path, "/big")
  {
    var i := LastIndexOf(path, '/');
    BigTail(path);
    if i < 0 then Err("StringIndexOutOfBoundsException")
    else Ok(path[i..] == "/big")
  }

  /** The path from its last '/' on is "/big" exactly when the path ends with "/big". */
  lemma BigTail(path: string)
    ensures EndsWith(path, "/big") ==> '/' in path
    ensures '/' in path ==> (path[LastIndexOf(path, '/')..] == "/big" <==> EndsWith(path, "/big"))
  {
    var i := LastIndexOf(path, '/');
    if EndsWith(path, "/big") {
      BigTailSuffix(path, i);
    }
    if i >= 0 && path[i..] == "/big" {
      assert |path[i..]| == 4;
      assert path[|path| - 4..] == path[i..];
    }
  }

  /** A path ending with "/big" has its last '/' four characters from the end. */
  lemma BigTailSuffix(path: string, i: int)
    requires EndsWith(path, "/big") && i == LastIndexOf(path, '/')
    ensures '/' in path && i == |path| - 4 && path[i..] == "/big"
  {
    var n := |path|;
    var tail := path[n - 4..];
    assert tail == "/big";
    assert path[n - 4] == tail[0] == '/';
    assert path[n - 3..] == tail[1..];
    assert '/' !in tail[1..];
  }

  // ---------------------------------------------------------------------------
  // Unpacking the profile.

  const InfoName: string := "info.json"

  /** The array a category collects into. */
  function Field(col: Collected, k: Category): seq<string>
  {
    match k
    case Face => col.face
    case Voice => col.voice
    case Finger => col.finger
  }

  /** Appends a URI to the array of category `k`. */
  function Add(col: Collected, k: Category, uri: string): (r: Collected)
    ensures r.obj == col.obj
    ensures forall k' :: Field(r, k') == Field(col, k') + (if k' == k then [uri] else [])
  {
    match k
    case Face => col.(face := col.face + [uri])
    case Voice => col.(voice := col.voice + [uri])
    case Finger => col.(finger := col.finger + [uri])
  }

  /**
   * One entry, by its name as stored: `info.json` becomes the `info` object (read even when
   * empty, and raising when it does not parse or is not an object); any other empty entry
   * is skipped; a category entry is appended to its array with the category's fallback
   * media type; the rest are ignored.
   */
  function ArtifactStepAt(c: Codecs, col: Collected, e: Entry): Scan<Collected>
  {
    if e.name == InfoName then
      match c.parseJson(e.data)
      case Some(JObj(m)) => Scan(col.(obj := col.obj["info" := JObj(m)]), false)
      case Some(JNull) => Scan(col.(obj := col.obj["info" := JNull]), false)
      case _ => Scan(col, true)
    else if |e.data| == 0 then Scan(col, false)
    else
      match CategoryOf(e.name)
      case None => Scan(col, false)
      case Some(k) => Scan(Add(col, k, EntryUri(c, e, k)), false)
  }

  function ArtifactStep(c: Codecs): (Collected, Entry) -> Scan<Collected>
  {
    (col: Collected, e: Entry) => ArtifactStepAt(c, col, e)
  }

  /** The entries on which the unpacking raises: an `info.json` that is neither an object nor null. */
  function ArtifactRaises(c: Codecs): Entry -> bool
  {
    (e: Entry) => e.name == InfoName && !(c.parseJson(e.data).Some? && (c.parseJson(e.data).value.JObj? || c.parseJson(e.data).value.JNull?))
  }

  /** The object `extractZipContents` returns for a decrypted profile. */
  function ArtifactContents(c: Codecs, zipFile: seq<byte>): map<string, Json>
  {
    var listing := c.unzip(zipFile);
    var s := Fold(ArtifactStep(c), NoneCollected, listing.entries);
    Published(s.state, s.failed || listing.endsInError)
  }

  /** `extractZipContents` of the artifact handler. */
  method ExtractZipContents(c: Codecs, zipFile: seq<byte>) returns (suspectInfo: map<string, Json>)
    ensures suspectInfo == ArtifactContents(c, zipFile)
  {
    suspectInfo := map[];
    var faceImagesArray: seq<string> := [];
    var voiceFilesArray: seq<string> := [];
    var fingerprintFilesArray: seq<string> := [];
    var listing := c.unzip(zipFile);
    var entries := listing.entries;
    ghost var step := ArtifactStep(c);
    var i := 0;
    while i < |entries|
      invariant 0 <= i <= |entries|
      invariant Fold(step, NoneCollected, entries[..i])
        == Scan(Collected(suspectInfo, faceImagesArray, voiceFilesArray, fingerprintFilesArray), false)
    {
      FoldSnoc(step, NoneCollected, entries, i);
      var fileName := entries[i].name;
      var data := entries[i].data;
      ghost var before := Collected(suspectInfo, faceImagesArray, voiceFilesArray, fingerprintFilesArray);
      assert Fold(step, NoneCollected, entries[..i + 1]) == ArtifactStepAt(c, before, entries[i]);
      i := i + 1;
      if fileName == InfoName {
        var info := c.parseJson(data);
        if !(info.Some? && (info.value.JObj? || info.value.JNull?)) {
          FoldFailedSticky(step, NoneCollected, entries, i);
          return;   // ParseException or ClassCastException, caught
        }
        suspectInfo := suspectInfo["info" := info.value];
      } else {
        if |data| == 0 {
          continue;
        }
        var mimeType := c.sniff(data);
        if StartsWith(fileName, "face/") {
          faceImagesArray := faceImagesArray + [DataUri(mimeType.UnwrapOr("image/png"), c.base64(data))];
        } else if StartsWith(fileName, "voice/") {
          voiceFilesArray := voiceFilesArray + [DataUri(mimeType.UnwrapOr("audio/flac"), c.base64(data))];
        } else if StartsWith(fileName, "finger/") {
          fingerprintFilesArray := fingerprintFilesArray + [DataUri(mimeType.UnwrapOr("image/jpeg"), c.base64(data))];
        }
      }
    }
    assert entries[..i] == entries;
    if listing.endsInError {
      return;   // the stream breaks off: ZipException, caught
    }
    suspectInfo := suspectInfo["face" := StrArray(faceImagesArray)]["voice" := StrArray(voiceFilesArray)]
                              ["fingerprint" := StrArray(fingerprintFilesArray)];
  }

  /** The URI an entry contributes to the array of category `k`: one or none. */
  function Contributed(c: Codecs, e: Entry, k: Category): seq<string>
  {
    if e.name != InfoName && |e.data| > 0 && CategoryOf(e.name) == Some(k) then [EntryUri(c, e, k)] else []
  }

  /** The reference for one array: the URIs of the category's non-empty entries, in archive order. */
  function CategoryUris(c: Codecs, es: seq<Entry>, k: Category): seq<string>
  {
    if |es| == 0 then []
    else CategoryUris(c, es[..|es| - 1], k) + Contributed(c, es[|es| - 1], k)
  }

  /** Whether some entry is the `info.json` file. */
  predicate HasInfo(es: seq<Entry>)
  {
    exists j :: 0 <= j < |es| && es[j].name == InfoName
  }

  /**
   * The value `info` ends up holding: the parse of the last entry named `info.json`
   * (null when there is none).
   */
  function LastInfo(c: Codecs, es: seq<Entry>): Json
  {
    if |es| == 0 then JNull
    else if es[|es| - 1].name == InfoName then c.parseJson(es[|es| - 1].data).UnwrapOr(JNull)
    else LastInfo(c, es[..|es| - 1])
  }

  lemma ArtifactStepEffect(c: Codecs, col: Collected, e: Entry)
    requires !ArtifactRaises(c)(e)
    ensures var r := ArtifactStepAt(c, col, e);
      && !r.failed
      && (forall k :: Field(r.state, k) == Field(col, k) + Contributed(c, e, k))
      && r.state.obj.Keys == col.obj.Keys + (if e.name == InfoName then {"info"} else {})
      && (e.name == InfoName ==> r.state.obj["info"] == c.parseJson(e.data).value)
      && (e.name != InfoName ==> r.state.obj == col.obj)
  {
    if e.name == InfoName {
      match c.parseJson(e.data)
      case Some(JObj(m)) =>
      case Some(JNull) =>
      case _ =>
    }
  }

  lemma HasInfoSnoc(es: seq<Entry>)
    requires |es| > 0
    ensures HasInfo(es) <==> HasInfo(es[..|es| - 1]) || es[|es| - 1].name == InfoName
  {
    var n := |es| - 1;
    if HasInfo(es[..n]) {
      var j :| 0 <= j < n && es[..n][j].name == InfoName;
      assert es[j] == es[..n][j];
    }
    if HasInfo(es) {
      var j :| 0 <= j < |es| && es[j].name == InfoName;
      if j < n {
        assert es[..n][j] == es[j];
      }
    }
  }

  /**
   * Over entries none of which raises, each array collects exactly its category's URIs in
   * archive order, and the object holds `info` exactly when an `info.json` was read,
   * holding the parse of the last one.
   */
  lemma {:induction false} ArtifactFoldMeaning(c: Codecs, es: seq<Entry>)
    requires forall j :: 0 <= j < |es| ==> !ArtifactRaises(c)(es[j])
    ensures var s := Fold(ArtifactStep(c), NoneCollected, es);
      && !s.failed
      && (forall k :: Field(s.state, k) == CategoryUris(c, es, k))
      && s.state.obj.Keys == (if HasInfo(es) then {"info"} else {})
      && (HasInfo(es) ==> s.state.obj["info"] == LastInfo(c, es))
  {
    if |es| > 0 {
      var n := |es| - 1;
      var e := es[n];
      assert forall j :: 0 <= j < n ==> es[..n][j] == es[j];
      ArtifactFoldMeaning(c, es[..n]);
      var p := Fold(ArtifactStep(c), NoneCollected, es[..n]);
      assert Fold(ArtifactStep(c), NoneCollected, es) == ArtifactStepAt(c, p.state, e);
      ArtifactStepEffect(c, p.state, e);
      HasInfoSnoc(es);
    }
  }

  lemma ArtifactRaisesOn(c: Codecs)
    ensures RaisesOn(ArtifactStep(c), ArtifactRaises(c))
  {
    forall col: Collected, e: Entry ensures ArtifactStep(c)(col, e).failed == ArtifactRaises(c)(e)
      && (ArtifactRaises(c)(e) ==> ArtifactStep(c)(col, e).state == col)
    {
      assert ArtifactStep(c)(col, e) == ArtifactStepAt(c, col, e);
      if e.name == InfoName {
        match c.parseJson(e.data)
        case Some(JObj(m)) =>
        case Some(JNull) =>
        case _ =>
      }
    }
  }

  /** The scan ends in the state reached on the entries before the first one that raises. */
  lemma ArtifactScanPrefix(c: Codecs, es: seq<Entry>)
    ensures var f := FirstRaise(ArtifactRaises(c), es);
      var s := Fold(ArtifactStep(c), NoneCollected, es);
      && (s.failed <==> f < |es|)
      && (forall k :: Field(s.state, k) == CategoryUris(c, es[..f], k))
      && s.state.obj.Keys == (if HasInfo(es[..f]) then {"info"} else {})
      && (HasInfo(es[..f]) ==> s.state.obj["info"] == LastInfo(c, es[..f]))
  {
    var f := FirstRaise(ArtifactRaises(c), es);
    ArtifactRaisesOn(c);
    FoldUpToFirstRaise(ArtifactStep(c), ArtifactRaises(c), NoneCollected, es);
    assert forall j :: 0 <= j < f ==> es[..f][j] == es[j];
    ArtifactFoldMeaning(c, es[..f]);
  }

  /** Attaching the arrays adds the three category keys, each holding its category's array. */
  lemma PublishedField(col: Collected, k: Category)
    ensures var obj := Published(col, false);
      && obj.Keys == col.obj.Keys + {"face", "voice", "fingerprint"}
      && obj[k.Key()] == StrArray(Field(col, k))
      && ("info" in col.obj ==> obj["info"] == col.obj["info"])
  {
    match k
    case Face =>
    case Voice =>
    case Finger =>
  }

  /**
   * When every entry is read without an exception, each category's key holds its URIs in
   * archive order, next to `info` when an `info.json` was read, holding the last one's parse.
   */
  lemma ArtifactContentsComplete(c: Codecs, zipFile: seq<byte>, k: Category)
    requires var listing := c.unzip(zipFile);
      FirstRaise(ArtifactRaises(c), listing.entries) == |listing.entries| && !listing.endsInError
    ensures var es := c.unzip(zipFile).entries;
      var obj := ArtifactContents(c, zipFile);
      && obj.Keys == (if HasInfo(es) then {"info"} else {}) + {"face", "voice", "fingerprint"}
      && obj[k.Key()] == StrArray(CategoryUris(c, es, k))
      && (HasInfo(es) ==> obj["info"] == LastInfo(c, es))
  {
    var es := c.unzip(zipFile).entries;
    ArtifactScanPrefix(c, es);
    assert es[..|es|] == es;
    PublishedField(Fold(ArtifactStep(c), NoneCollected, es).state, k);
  }

  /**
   * When some entry raises or the archive breaks off, no array is attached: the object
   * holds only `info`, and only when an `info.json` was read before the exception: the
   * parse of the last one read.
   */
  lemma ArtifactContentsBroken(c: Codecs, zipFile: seq<byte>)
    requires var listing := c.unzip(zipFile);
      FirstRaise(ArtifactRaises(c), listing.entries) < |listing.entries| || listing.endsInError
    ensures var es := c.unzip(zipFile).entries;
      var f := FirstRaise(ArtifactRaises(c), es);
      var obj := ArtifactContents(c, zipFile);
      && obj.Keys == (if HasInfo(es[..f]) then {"info"} else {})
      && (HasInfo(es[..f]) ==> obj["info"] == LastInfo(c, es[..f]))
  {
    ArtifactScanPrefix(c, c.unzip(zipFile).entries);
  }

  // ---------------------------------------------------------------------------
  // Serving the artifact.

  /**
   * What `getSuspectProfile` yields: a failed download raises NotAuthorizedException; the
   * profile is decrypted in mode "face" under "<id>.zip.enc" for the provider, an exception
   * of the encryptor call propagates, a null decryption raises when its length is read,
   * and otherwise the decrypted bundle is unpacked.
   */
  function SuspectProfile(c: Codecs, p: Platform, encryptor: EncryptorCall -> Result<Option<seq<byte>>>,
                          providerPod: string, suspectProfileID: string, providerID: string): (r: Result<map<string, Json>>)
    ensures var file := p.fetch(SuspectProfileUrl(p.api, providerPod, suspectProfileID));
      && (file.None? ==> r == Err("NotAuthorizedException"))
      && (file.Some? ==>
            var outcome := encryptor(EncryptorCall("decrypt", "face", file, suspectProfileID + ".zip.enc", providerID));
            && (outcome.Err? ==> r == Err(outcome.error))
            && (outcome == Ok(None) ==> r == Err("NullPointerException"))
            && (outcome.Ok? && outcome.value.Some? ==> r == Ok(ArtifactContents(c, outcome.value.value))))
  {
    var file := p.fetch(SuspectProfileUrl(p.api, providerPod, suspectProfileID));
    if file.None? then Err("NotAuthorizedException")
    else
      match encryptor(EncryptorCall("decrypt", "face", file, suspectProfileID + ".zip.enc", providerID))
      case Err(e) => Err(e)
      case Ok(None) => Err("NullPointerException")
      case Ok(Some(decrypted)) => Ok(ArtifactContents(c, decrypted))
  }

  /** `getSuspectProfile`. */
  method GetSuspectProfile(c: Codecs, p: Platform, encryptor: EncryptorCall -> Result<Option<seq<byte>>>,
                           providerPod: string, suspectProfileID: string, providerID: string)
    returns (r: Result<map<string, Json>>)
    ensures r == SuspectProfile(c, p, encryptor, providerPod, suspectProfileID, providerID)
  {
    var encryptedFile := p.fetch(SuspectProfileUrl(p.api, providerPod, suspectProfileID));
    if encryptedFile.None? {
      return Err("NotAuthorizedException");
    }
    var decryptedFile := encryptor(EncryptorCall("decrypt", "face", encryptedFile, suspectProfileID + ".zip.enc", providerID));
    if decryptedFile.Err? {
      return Err(decryptedFile.error);
    }
    if decryptedFile.value.None? {
      return Err("NullPointerException");
    }
    var suspectInfo := ExtractZipContents(c, decryptedFile.value.value);
    return Ok(suspectInfo);
  }

  /** The payload of an artifact response: Base64 text over WebSocket, a JSON object over REST. */
  datatype Payload = Encoded(b64: string) | Object(fields: map<string, Json>)

  /**
   * The handler. Its configuration is fixed at construction; `providerPod` is the pod of
   * the last message handled, which the REST flow reads back when it answers.
   */
  class ArtifactMessageHandler {
    const contractNegotiationDemo: bool
    const codecs: Codecs
    const platform: Platform
    const encryptor: EncryptorCall -> Result<Option<seq<byte>>>
    const dataLake: string -> Option<seq<byte>>          // files of the data lake directory by name
    const inSelfDescription: string -> bool              // the artifact is offered in the self description
    var providerPod: Option<string>

    constructor (contractNegotiationDemo: bool, codecs: Codecs, platform: Platform,
                 encryptor: EncryptorCall -> Result<Option<seq<byte>>>, dataLake: string -> Option<seq<byte>>,
                 inSelfDescription: string -> bool)
      ensures this.contractNegotiationDemo == contractNegotiationDemo && this.codecs == codecs
      ensures this.platform == platform && this.encryptor == encryptor
      ensures this.dataLake == dataLake && this.inSelfDescription == inSelfDescription
      ensures providerPod.None?
    {
      this.contractNegotiationDemo := contractNegotiationDemo;
      this.codecs := codecs;
      this.platform := platform;
      this.encryptor := encryptor;
      this.dataLake := dataLake;
      this.inSelfDescription := inSelfDescription;
      providerPod := None;
    }

    /** Whether the artifact may be served: always in demo mode, else when it is self-described. */
    predicate Offered(artifactPath: string)
    {
      contractNegotiationDemo || inSelfDescription(artifactPath)
    }

    /**
     * The WebSocket answer: the Base64 text of the data-lake file named by the artifact's
     * last path segment; NotFoundException when it is not offered or cannot be read.
     */
    function WssPayload(artifactPath: string): (r: Result<Payload>)
      ensures r.Ok? <==> Offered(artifactPath) && dataLake(ArtifactId(artifactPath)).Some?
      ensures r.Ok? ==> r.value == Encoded(codecs.base64(dataLake(ArtifactId(artifactPath)).value))
      ensures r.Err? ==> r.error == "NotFoundException"
    {
      if !Offered(artifactPath) then Err("NotFoundException")
      else
        match dataLake(ArtifactId(artifactPath))
        case None => Err("NotFoundException")
        case Some(content) => Ok(Encoded(codecs.base64(content)))
    }

    /**
     * The REST answer: the suspect profile named by the artifact's last path segment,
     * fetched from the provider's pod for the connector the registry maps that pod to.
     */
    function RestPayload(artifactPath: string): (r: Result<Payload>)
      reads this
      ensures !Offered(artifactPath) ==> r == Err("NotFoundException")
      ensures Offered(artifactPath) ==>
        var pod := JavaText(providerPod);
        var profile := SuspectProfile(codecs, platform, encryptor, pod, ArtifactId(artifactPath), JavaText(platform.idOf(pod)));
        r == (if profile.Ok? then Ok(Object(profile.value)) else Err(profile.error))
    {
      if !Offered(artifactPath) then Err("NotFoundException")
      else
        var pod := JavaText(providerPod);
        match SuspectProfile(codecs, platform, encryptor, pod, ArtifactId(artifactPath), JavaText(platform.idOf(pod)))
        case Ok(profile) => Ok(Object(profile))
        case Err(e) => Err(e)
    }

    /** `handleWssFlow` with `readFile`. */
    method HandleWssFlow(artifactPath: string) returns (r: Result<Payload>)
      ensures r == WssPayload(artifactPath)
    {
      if !Offered(artifactPath) {
        r := Err("NotFoundException");
      } else {
        var fileContent := dataLake(ArtifactId(artifactPath));
        if fileContent.None? {
          r := Err("NotFoundException");
        } else {
          r := Ok(Encoded(codecs.base64(fileContent.value)));
        }
      }
    }

    /** `handleRestFlow` with `createResponsePayload`, which reads the provider pod back. */
    method HandleRestFlow(artifactPath: string) returns (r: Result<Payload>)
      ensures r == RestPayload(artifactPath)
    {
      var requestedArtifact := ArtifactId(artifactPath);
      if !(contractNegotiationDemo || inSelfDescription(artifactPath)) {
        return Err("NotFoundException");
      }
      var providerId := platform.idOf(JavaText(providerPod));
      var suspectProfile := GetSuspectProfile(codecs, platform, encryptor, JavaText(providerPod), requestedArtifact, JavaText(providerId));
      if suspectProfile.Err? {
        return Err(suspectProfile.error);
      }
      return Ok(Object(suspectProfile.value));
    }

    /**
     * `handleMessage`: remembers the pod of the message first, then rejects a request
     * without an artifact with BadParametersException, and answers the rest over the flow
     * the message arrived by.
     */
    method HandleMessage(requestedArtifact: Option<string>, wss: bool, solidPod: string) returns (r: Result<Payload>)
      modifies this
      ensures providerPod == Some(solidPod)
      ensures requestedArtifact.None? ==> r == Err("BadParametersException")
      ensures requestedArtifact.Some? && wss ==> r == WssPayload(requestedArtifact.value)
      ensures requestedArtifact.Some? && !wss ==> r == RestPayload(requestedArtifact.value)
    {
      providerPod := Some(solidPod);
      if requestedArtifact.None? {
        return Err("BadParametersException");
      }
      if wss {
        r := HandleWssFlow(requestedArtifact.value);
      } else {
        r := HandleRestFlow(requestedArtifact.value);
      }
    }
  }
}
