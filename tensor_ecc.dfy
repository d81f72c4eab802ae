/**
 * The provider connector's indexing of a suspect profile (`TensorECC`): the uploaded
 * bundle is grouped by top-level folder, and the files of the `face`, `fingerprint` and
 * `voice` folders are sent to the indexer one by one; the encrypted profile is stored in
 * the provider's pod under "<id>.zip.enc".
 */
module TensorEcc {
  import opened Wrappers
  import opened Strings
  import opened Octets
  import opened EvidenceArchive

  /** A file of the bundle: its last path segment, its content and its media type. */
  datatype BiometricFile = BiometricFile(fileName: string, content: Option<seq<byte>>, contentType: string)

  /** The media type guessed from the file name when sniffing the content fails. */
  function ContentTypeByExtension(fileName: string): (r: string)
    ensures EndsWith(fileName, ".flac") ==> r == "audio/flac"
    ensures !EndsWith(fileName, ".flac") && (EndsWith(fileName, ".tif") || EndsWith(fileName, ".tiff")) ==> r == "image/tiff"
    ensures r in {"audio/flac", "image/tiff", "application/octet-stream"}
    ensures !EndsWith(fileName, ".flac") && !EndsWith(fileName, ".tif") && !EndsWith(fileName, ".tiff")
      ==> r == "application/octet-stream"
  {
    if EndsWith(fileName, ".flac") then "audio/flac"
    else if EndsWith(fileName, ".tif") || EndsWith(fileName, ".tiff") then "image/tiff"
    else "application/octet-stream"
  }

  /**
   * Where an entry goes: nowhere for a directory or a name without '/'; otherwise to the
   * folder named by the first segment, as a file named by the last segment. Empty files
   * are kept.
   */
  function Classified(c: Codecs, e: Entry): Option<(string, BiometricFile)>
  {
    if IsDirectory(e) || '/' !in e.name then None
    else
      var parts := JavaSplit(e.name, '/');
      if |parts| < 2 then None
      else
        var fileName := parts[|parts| - 1];
        Some((parts[0], BiometricFile(fileName, Some(e.data), c.sniff(e.data).UnwrapOr(ContentTypeByExtension(fileName)))))
  }

  /**
   * For a file inside a folder, Java's split yields at least two segments: the folder is
   * the text before the first '/' and the file name the text after the last one.
   */
  lemma PathSegments(name: string)
    requires '/' in name && !EndsWith(name, "/")
    ensures var parts := JavaSplit(name, '/');
      && |parts| >= 2
      && parts[0] == name[..IndexOf(name, '/')]
      && parts[|parts| - 1] == name[LastIndexOf(name, '/') + 1..]
  {
    SplitKeepsFields(name);
    FieldsHead(name, '/');
    FieldsLast(name, '/');
  }

  /** Such a name splits into all its fields. */
  lemma SplitKeepsFields(name: string)
    requires '/' in name && !EndsWith(name, "/")
    ensures JavaSplit(name, '/') == Fields(name, '/')
  {
    var fs := Fields(name, '/');
    FieldsLast(name, '/');
    LastSegmentNonEmpty(name);
    assert fs[|fs| - 1] != "";
    KeptWhenLastNonEmpty(fs);
  }

  /** A name with a '/' that does not end in '/' has text after its last '/'. */
  lemma LastSegmentNonEmpty(name: string)
    requires '/' in name && !EndsWith(name, "/")
    ensures |name[LastIndexOf(name, '/') + 1..]| > 0
  {
    assert name[|name| - 1..] == [name[|name| - 1]];
  }

  /** Fields whose last one is not empty lose nothing to Java's trailing-empty rule. */
  lemma KeptWhenLastNonEmpty(fs: seq<string>)
    requires |fs| > 0 && fs[|fs| - 1] != ""
    ensures DropTrailingEmpty(fs) == fs
  {
  }

  /** So the check for fewer than two segments never skips an entry. */
  lemma ClassifiedParts(c: Codecs, e: Entry)
    ensures Classified(c, e).Some? <==> !IsDirectory(e) && '/' in e.name
    ensures Classified(c, e).Some? ==>
      && Classified(c, e).value.0 == e.name[..IndexOf(e.name, '/')]
      && Classified(c, e).value.1.fileName == e.name[LastIndexOf(e.name, '/') + 1..]
      && Classified(c, e).value.1.content == Some(e.data)
  {
    if !IsDirectory(e) && '/' in e.name {
      PathSegments(e.name);
      var parts := JavaSplit(e.name, '/');
      var fileName := parts[|parts| - 1];
      assert Classified(c, e) == Some((parts[0], BiometricFile(fileName, Some(e.data),
        c.sniff(e.data).UnwrapOr(ContentTypeByExtension(fileName)))));
    }
  }

  type Groups = map<string, seq<BiometricFile>>

  /** The groups of the entries `es`, each folder's files in archive order. */
  function Grouped(c: Codecs, es: seq<Entry>): Groups
  {
    if |es| == 0 then map[]
    else
      var g := Grouped(c, es[..|es| - 1]);
      match Classified(c, es[|es| - 1])
      case None => g
      case Some((dir, file)) => g[dir := (if dir in g then g[dir] else []) + [file]]
  }

  /** `prepareBiometricFilesList`: the groups, or the IOException it rethrows when the archive breaks off. */
  function Grouping(c: Codecs, zip: seq<byte>): Result<Groups>
  {
    var listing := c.unzip(zip);
    if listing.endsInError then Err("IOException") else Ok(Grouped(c, listing.entries))
  }

  /** `prepareBiometricFilesList`. */
  method PrepareBiometricFilesList(c: Codecs, zip: seq<byte>) returns (r: Result<Groups>)
    ensures r == Grouping(c, zip)
  {
    var biometricFilesList: Groups := map[];
    var listing := c.unzip(zip);
    var entries := listing.entries;
    var i := 0;
    while i < |entries|
      invariant 0 <= i <= |entries|
      invariant biometricFilesList == Grouped(c, entries[..i])
    {
      var entry := entries[i];
      assert entries[..i + 1][..i] == entries[..i];
      i := i + 1;
      if IsDirectory(entry) {
        continue;
      }
      var fullPath := entry.name;
      if '/' !in fullPath {
        continue;
      }
      var parts := JavaSplit(fullPath, '/');
      if |parts| < 2 {
        continue;
      }
      var dir := parts[0];
      var fileName := parts[|parts| - 1];
      var content := entry.data;
      var contentType := c.sniff(content).UnwrapOr(ContentTypeByExtension(fileName));
      var biometricFile := BiometricFile(fileName, Some(content), contentType);
      var files := if dir in biometricFilesList then biometricFilesList[dir] else [];
      biometricFilesList := biometricFilesList[dir := files + [biometricFile]];
    }
    assert entries[..i] == entries;
    if listing.endsInError {
      return Err("IOException");
    }
    return Ok(biometricFilesList);
  }

  /** The reference for one group: the files of the entries in folder `dir`, in archive order. */
  function FilesIn(c: Codecs, es: seq<Entry>, dir: string): seq<BiometricFile>
  {
    if |es| == 0 then []
    else
      var r := Classified(c, es[|es| - 1]);
      FilesIn(c, es[..|es| - 1], dir) + (if r.Some? && r.value.0 == dir then [r.value.1] else [])
  }

  /** A folder has a group exactly when some file lies in it, and the group holds exactly its files in order. */
  lemma {:induction false} GroupedMeaning(c: Codecs, es: seq<Entry>, dir: string)
    ensures dir in Grouped(c, es) <==> FilesIn(c, es, dir) != []
    ensures dir in Grouped(c, es) ==> Grouped(c, es)[dir] == FilesIn(c, es, dir)
  {
    if |es| > 0 {
      GroupedMeaning(c, es[..|es| - 1], dir);
    }
  }

  // ---------------------------------------------------------------------------
  // Indexing.

  /** `encodeBiometricSample`: the Base64 text of the content; IllegalArgumentException for a null file or content. */
  function EncodeBiometricSample(c: Codecs, file: Option<BiometricFile>): (r: Result<string>)
    ensures r.Err? <==> file.None? || file.value.content.None?
    ensures r.Ok? ==> r.value == c.base64(file.value.content.value)
  {
    if file.None? || file.value.content.None? then Err("IllegalArgumentException")
    else Ok(c.base64(file.value.content.value))
  }

  /** The JSON body posted to the indexer's `/indexLocalData` for one file. */
  datatype IndexBody = IndexBody(suspectId: string, biometricType: string, fullBiometricDataUrl: string,
                                 owner: string, sensitive: bool)

  /** The bodies sent for a group, one per file, in order; a file that cannot be encoded sends nothing. */
  function Bodies(c: Codecs, files: seq<BiometricFile>, biometricType: string, suspectProfileId: string,
                  user: string, sensitive: bool): seq<IndexBody>
  {
    if |files| == 0 then []
    else
      var last := EncodeBiometricSample(c, Some(files[|files| - 1]));
      Bodies(c, files[..|files| - 1], biometricType, suspectProfileId, user, sensitive)
        + (if last.Ok? then [IndexBody(suspectProfileId, biometricType, last.value, user, sensitive)] else [])
  }

  function GroupOf(g: Groups, dir: string): seq<BiometricFile>
  {
    if dir in g then g[dir] else []
  }

  /** The bodies `indexBiometricSamples` sends: face files as "image", then fingerprint files, then voice files. */
  function Dispatched(c: Codecs, g: Groups, suspectProfileId: string, user: string, sensitive: bool): seq<IndexBody>
  {
    Bodies(c, GroupOf(g, "face"), "image", suspectProfileId, user, sensitive)
      + Bodies(c, GroupOf(g, "fingerprint"), "fingerprint", suspectProfileId, user, sensitive)
      + Bodies(c, GroupOf(g, "voice"), "voice", suspectProfileId, user, sensitive)
  }

  /** The loop over one group, sending each file in turn. */
  method IndexGroup(c: Codecs, files: seq<BiometricFile>, biometricType: string, suspectProfileId: string,
                    user: string, sensitive: bool) returns (sent: seq<IndexBody>)
    ensures sent == Bodies(c, files, biometricType, suspectProfileId, user, sensitive)
  {
    sent := [];
    var i := 0;
    while i < |files|
      invariant 0 <= i <= |files|
      invariant sent == Bodies(c, files[..i], biometricType, suspectProfileId, user, sensitive)
    {
      assert files[..i + 1][..i] == files[..i];
      var encodedBiometricFile := EncodeBiometricSample(c, Some(files[i]));
      if encodedBiometricFile.Ok? {   // the IllegalArgumentException is caught inside sendRequest
        sent := sent + [IndexBody(suspectProfileId, biometricType, encodedBiometricFile.value, user, sensitive)];
      }
      i := i + 1;
    }
    assert files[..i] == files;
  }

  /**
   * `indexBiometricSamples`: true, after sending the face, fingerprint and voice groups in
   * that order, unless grouping raised, in which case nothing is sent and the answer is false.
   */
  method IndexBiometricSamples(c: Codecs, zip: seq<byte>, suspectProfileId: string, user: string, sensitive: bool)
    returns (ok: bool, sent: seq<IndexBody>)
    ensures ok <==> Grouping(c, zip).Ok?
    ensures ok ==> sent == Dispatched(c, Grouping(c, zip).value, suspectProfileId, user, sensitive)
    ensures !ok ==> sent == []
  {
    var files := PrepareBiometricFilesList(c, zip);
    if files.Err? {
      return false, [];
    }
    var faceSent := [];
    if "face" in files.value {
      faceSent := IndexGroup(c, files.value["face"], "image", suspectProfileId, user, sensitive);
    }
    var fingerprintSent := [];
    if "fingerprint" in files.value {
      fingerprintSent := IndexGroup(c, files.value["fingerprint"], "fingerprint", suspectProfileId, user, sensitive);
    }
    var voiceSent := [];
    if "voice" in files.value {
      voiceSent := IndexGroup(c, files.value["voice"], "voice", suspectProfileId, user, sensitive);
    }
    return true, faceSent + fingerprintSent + voiceSent;
  }

  /** Every file sent is encodable, so a group sends one body per file. */
  lemma {:induction false} BodiesCount(c: Codecs, files: seq<BiometricFile>, biometricType: string,
                                       suspectProfileId: string, user: string, sensitive: bool)
    requires forall i :: 0 <= i < |files| ==> files[i].content.Some?
    ensures |Bodies(c, files, biometricType, suspectProfileId, user, sensitive)| == |files|
    ensures forall i :: 0 <= i < |files| ==>
      Bodies(c, files, biometricType, suspectProfileId, user, sensitive)[i]
        == IndexBody(suspectProfileId, biometricType, c.base64(files[i].content.value), user, sensitive)
  {
    if |files| > 0 {
      var n := |files| - 1;
      assert forall i :: 0 <= i < n ==> files[..n][i] == files[i];
      BodiesCount(c, files[..n], biometricType, suspectProfileId, user, sensitive);
    }
  }

  lemma {:induction false} FilesInHaveContent(c: Codecs, es: seq<Entry>, dir: string)
    ensures forall i :: 0 <= i < |FilesIn(c, es, dir)| ==> FilesIn(c, es, dir)[i].content.Some?
  {
    if |es| > 0 {
      FilesInHaveContent(c, es[..|es| - 1], dir);
    }
  }

  /** Every body of a sequence is of the given biometric type. */
  predicate OfType(sent: seq<IndexBody>, biometricType: string)
  {
    forall i | 0 <= i < |sent| :: sent[i].biometricType == biometricType
  }

  /** A folder's group sends one body per file of that folder, each of the group's type. */
  lemma GroupBodies(c: Codecs, es: seq<Entry>, dir: string, biometricType: string,
                    suspectProfileId: string, user: string, sensitive: bool)
    ensures var sent := Bodies(c, GroupOf(Grouped(c, es), dir), biometricType, suspectProfileId, user, sensitive);
      |sent| == |FilesIn(c, es, dir)| && OfType(sent, biometricType)
  {
    var files := FilesIn(c, es, dir);
    GroupedMeaning(c, es, dir);
    assert GroupOf(Grouped(c, es), dir) == files;
    FilesInHaveContent(c, es, dir);
    BodiesOfFiles(c, files, biometricType, suspectProfileId, user, sensitive);
  }

  /** Bodies of files that all have content: one per file, each of the given type. */
  lemma BodiesOfFiles(c: Codecs, files: seq<BiometricFile>, biometricType: string,
                      suspectProfileId: string, user: string, sensitive: bool)
    requires forall i :: 0 <= i < |files| ==> files[i].content.Some?
    ensures var sent := Bodies(c, files, biometricType, suspectProfileId, user, sensitive);
      |sent| == |files| && OfType(sent, biometricType)
  {
    var sent := Bodies(c, files, biometricType, suspectProfileId, user, sensitive);
    BodiesCount(c, files, biometricType, suspectProfileId, user, sensitive);
    forall i | 0 <= i < |sent| ensures sent[i].biometricType == biometricType {
      assert sent[i] == IndexBody(suspectProfileId, biometricType, c.base64(files[i].content.value), user, sensitive);
    }
  }

  /** The bodies of the three groups, one after the other, carry only the three indexed types. */
  lemma ThreeGroupTypes(a: seq<IndexBody>, b: seq<IndexBody>, d: seq<IndexBody>)
    requires OfType(a, "image") && OfType(b, "fingerprint") && OfType(d, "voice")
    ensures forall i | 0 <= i < |a + b + d| :: (a + b + d)[i].biometricType in {"image", "fingerprint", "voice"}
  {
    var sent := a + b + d;
    forall i | 0 <= i < |sent| ensures sent[i].biometricType in {"image", "fingerprint", "voice"} {
      if i < |a| { assert sent[i] == a[i]; }
      else if i < |a| + |b| { assert sent[i] == b[i - |a|]; }
      else { assert sent[i] == d[i - |a| - |b|]; }
    }
  }

  /** What the three groups of some entries send. */
  lemma DispatchedEntries(c: Codecs, es: seq<Entry>, suspectProfileId: string, user: string, sensitive: bool)
    ensures var sent := Dispatched(c, Grouped(c, es), suspectProfileId, user, sensitive);
      && |sent| == |FilesIn(c, es, "face")| + |FilesIn(c, es, "fingerprint")| + |FilesIn(c, es, "voice")|
      && (forall i | 0 <= i < |sent| :: sent[i].biometricType in {"image", "fingerprint", "voice"})
  {
    var g := Grouped(c, es);
    GroupBodies(c, es, "face", "image", suspectProfileId, user, sensitive);
    GroupBodies(c, es, "fingerprint", "fingerprint", suspectProfileId, user, sensitive);
    GroupBodies(c, es, "voice", "voice", suspectProfileId, user, sensitive);
    ThreeGroupTypes(Bodies(c, GroupOf(g, "face"), "image", suspectProfileId, user, sensitive),
                    Bodies(c, GroupOf(g, "fingerprint"), "fingerprint", suspectProfileId, user, sensitive),
                    Bodies(c, GroupOf(g, "voice"), "voice", suspectProfileId, user, sensitive));
  }

  /**
   * The indexer receives exactly one body per file of the folders named `face`,
   * `fingerprint` and `voice`, in that order and in archive order within each; files of
   * any other folder, `finger` included, are never sent.
   */
  lemma DispatchedFiles(c: Codecs, zip: seq<byte>, suspectProfileId: string, user: string, sensitive: bool)
    requires Grouping(c, zip).Ok?
    ensures var es := c.unzip(zip).entries;
      var sent := Dispatched(c, Grouping(c, zip).value, suspectProfileId, user, sensitive);
      && |sent| == |FilesIn(c, es, "face")| + |FilesIn(c, es, "fingerprint")| + |FilesIn(c, es, "voice")|
      && (forall i :: 0 <= i < |sent| ==> sent[i].biometricType in {"image", "fingerprint", "voice"})
  {
    DispatchedEntries(c, c.unzip(zip).entries, suspectProfileId, user, sensitive);
  }

  // ---------------------------------------------------------------------------
  // Storing the encrypted profile.

  /** The multipart upload of `storeSuspectProfile`: the `index` text field and the file field. */
  datatype ProfileUpload = ProfileUpload(url: string, index: string, fileName: string, content: seq<byte>)

  /** The suspects folder of a pod, as an upload target. */
  function SuspectsFolderUrl(api: string, pod: string): string
  {
    api + "/api/resources/" + pod + "%2Fsuspects%2F?toJSONld=true"
  }

  /**
   * `storeSuspectProfile`: a null profile fails when written to disk; otherwise the
   * upload goes to the user's suspects folder with the id as `index` and the file name
   * "<id>.zip.enc", and the answer is false exactly when the upload raises, whatever the
   * status code.
   */
  method StoreSuspectProfile(p: Platform, post: ProfileUpload -> Option<int>, user: string, suspectProfileId: string,
                             resourceFile: Option<seq<byte>>)
    returns (ok: bool, sent: Option<ProfileUpload>)
    ensures resourceFile.None? ==> !ok && sent.None?
    ensures resourceFile.Some? ==>
      && sent == Some(ProfileUpload(SuspectsFolderUrl(p.api, JavaText(p.podOf(user))), suspectProfileId,
                                    suspectProfileId + ".zip.enc", resourceFile.value))
      && (ok <==> post(sent.value).Some?)
  {
    if resourceFile.None? {
      return false, None;   // NullPointerException writing the file, caught
    }
    var userPod := JavaText(p.podOf(user));
    var upload := ProfileUpload(SuspectsFolderUrl(p.api, userPod), suspectProfileId, suspectProfileId + ".zip.enc",
                                resourceFile.value);
    var responseCode := post(upload);
    return responseCode.Some?, Some(upload);
  }

  /**
   * The profile stored for `id` is the one the provider's services fetch back: the
   * suspects folder followed by the stored file name is the download URL.
   */
  lemma StoredWhereFetched(api: string, pod: string, suspectProfileId: string)
    ensures var folder := SuspectsFolderUrl(api, pod);
      var n := |"?toJSONld=true"|;
      SuspectProfileUrl(api, pod, suspectProfileId) == folder[..|folder| - n] + (suspectProfileId + ".zip.enc") + folder[|folder| - n..]
  {
    var folder := SuspectsFolderUrl(api, pod);
    var n := |"?toJSONld=true"|;
    assert folder[..|folder| - n] == api + "/api/resources/" + pod + "%2Fsuspects%2F";
    assert folder[|folder| - n..] == "?toJSONld=true";
  }
}
