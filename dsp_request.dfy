/**
 * The consumer side of an access request (`DspRequestServiceImpl`): the captured
 * evidence is packed as a ZIP bundle, encrypted, described by an access request posted
 * to the data-sharing platform, uploaded to the consumer's pod and shared with the
 * provider. HTTP, the ZIP writer, URL encoding, Base64 decoding and JSON parsing are
 * library services and appear as the functions of a `Services` value.
 */
module DspRequest {
  import opened Wrappers
  import opened Strings
  import opened Octets
  import opened Json
  import opened EvidenceArchive
  import opened EncryptorProtocol
  import opened ConnectorRegistry
  import opened DspRequestDomain
  import DisplayEvidence

  /** The HTTP calls the service makes. */
  datatype HttpCall =
    | KeyRequest(url: string)                                       // POST with an empty body
    | AccessRequest(url: string, body: Json)                        // POST of the request object
    | FileUpload(url: string, index: string, fileName: string, content: seq<byte>)   // multipart POST
    | ReadGrant(url: string)                                        // POST {"read":true}

  datatype Services = Services(
    bytesOf: string -> seq<byte>,                           // String.getBytes
    zip: seq<Entry> -> seq<byte>,                           // ZipOutputStream over the entries in order
    urlEncode: string -> string,                            // URLEncoder.encode(_, "UTF-8")
    decodeBase64: string -> Option<seq<byte>>,              // Base64.getDecoder().decode; None when it raises
    parseJson: string -> Option<Json>,                      // JSONParser.parse; None when it raises
    encryptor: EncryptorCall -> Result<Option<seq<byte>>>, // TensorBE.queryEncryptor
    http: HttpCall -> Option<string>)                       // the reply text; None when the call raises

  // ---------------------------------------------------------------------------
  // File names and the case file.

  /** `hasExtension`: a non-null name with a '.' whose last '.' is not the final character. */
  function HasExtension(fileName: Option<string>): (r: bool)
    ensures r <==> fileName.Some? && '.' in fileName.value && fileName.value[|fileName.value| - 1] != '.'
    ensures r ==> var ext := fileName.value[LastIndexOf(fileName.value, '.') + 1..]; ext != "" && '.' !in ext
  {
    fileName.Some? && '.' in fileName.value && LastIndexOf(fileName.value, '.') < |fileName.value| - 1
  }

  const CaseFilePrefix: string := "{ \"caseDescriptiveText\": \""
  const CaseFileSuffix: string := "\" }"

  /** `createCaseFile`: the description spliced, unescaped, into a one-field JSON text. */
  function CaseFile(caseDescriptiveText: string): string
  {
    CaseFilePrefix + caseDescriptiveText + CaseFileSuffix
  }

  /** Reads the description back from a case file's text. */
  function CaseText(file: string): Option<string>
  {
    if |file| >= |CaseFilePrefix| + |CaseFileSuffix| && StartsWith(file, CaseFilePrefix) && EndsWith(file, CaseFileSuffix)
    then Some(file[|CaseFilePrefix|..|file| - |CaseFileSuffix|])
    else None
  }

  /** The case file carries exactly the text it was made from. */
  lemma CaseFileRoundTrip(caseDescriptiveText: string)
    ensures CaseText(CaseFile(caseDescriptiveText)) == Some(caseDescriptiveText)
  {
    var f := CaseFile(caseDescriptiveText);
    assert f[..|CaseFilePrefix|] == CaseFilePrefix;
    assert f[|f| - |CaseFileSuffix|..] == CaseFileSuffix;
    assert f[|CaseFilePrefix|..|f| - |CaseFileSuffix|] == caseDescriptiveText;
  }

  // ---------------------------------------------------------------------------
  // The bundle.

  /** `convertMultipartFileToBytes`: the bytes of an upload, or null for a null or empty one. */
  function ConvertMultipartFileToBytes(multipartFile: Option<Upload>): (r: Option<seq<byte>>)
    ensures r.None? <==> multipartFile.None? || multipartFile.value.bytes == []
    ensures r.Some? ==> r.value == multipartFile.value.bytes && |r.value| > 0
  {
    if multipartFile.Some? && |multipartFile.value.bytes| > 0 then Some(multipartFile.value.bytes) else None
  }

  /** The entries written so far to a `ZipOutputStream`. */
  class ZipOutput {
    var entries: seq<Entry>

    constructor ()
      ensures entries == []
    {
      entries := [];
    }
  }

  /** `addBytesToZip`: writes one entry, only when both the data and the name are non-null. */
  method AddBytesToZip(fileData: Option<seq<byte>>, fileName: Option<string>, zipOut: ZipOutput)
    modifies zipOut
    ensures fileData.Some? && fileName.Some? ==> zipOut.entries == old(zipOut.entries) + [Entry(fileName.value, fileData.value)]
    ensures fileData.None? || fileName.None? ==> zipOut.entries == old(zipOut.entries)
  {
    if fileData.Some? && fileName.Some? {
      zipOut.entries := zipOut.entries + [Entry(fileName.value, fileData.value)];
    }
  }

  /** The entry an upload contributes to category `k`'s folder: none for a null or empty upload. */
  function BundlePart(k: Category, upload: Option<Upload>): seq<Entry>
  {
    var bytes := ConvertMultipartFileToBytes(upload);
    if bytes.Some? then [Entry(k.Prefix() + JavaText(upload.value.originalFilename), bytes.value)] else []
  }

  /** The bundle's entries: the case file, then the face, voice and fingerprint uploads. */
  function Bundle(s: Services, descriptiveText: Option<string>, faceFile: Option<Upload>, voiceFile: Option<Upload>,
                  fingerprintFile: Option<Upload>): seq<Entry>
  {
    [Entry(DisplayEvidence.CaseInfoName, s.bytesOf(CaseFile(JavaText(descriptiveText))))]
      + BundlePart(Face, faceFile) + BundlePart(Voice, voiceFile) + BundlePart(Finger, fingerprintFile)
  }

  /** Entries written part by part make up the bundle. */
  lemma BundleOf(s: Services, descriptiveText: Option<string>, faceFile: Option<Upload>, voiceFile: Option<Upload>,
                 fingerprintFile: Option<Upload>, w0: seq<Entry>, w1: seq<Entry>, w2: seq<Entry>, w3: seq<Entry>)
    requires w0 == [Entry(DisplayEvidence.CaseInfoName, s.bytesOf(CaseFile(JavaText(descriptiveText))))]
    requires w1 == w0 + BundlePart(Face, faceFile) && w2 == w1 + BundlePart(Voice, voiceFile)
    requires w3 == w2 + BundlePart(Finger, fingerprintFile)
    ensures w3 == Bundle(s, descriptiveText, faceFile, voiceFile, fingerprintFile)
  {
  }

  /** The order of the category folders in a bundle. */
  function Rank(k: Category): nat
  {
    match k
    case Face => 0
    case Voice => 1
    case Finger => 2
  }

  lemma BundlePartFacts(k: Category, upload: Option<Upload>)
    ensures |BundlePart(k, upload)| == if upload.Some? && upload.value.bytes != [] then 1 else 0
    ensures forall e | e in BundlePart(k, upload) :: CategoryOf(e.name) == Some(k) && |e.data| > 0
  {
    if upload.Some? && upload.value.bytes != [] {
      var e := BundlePart(k, upload)[0];
      assert e.name[..|k.Prefix()|] == k.Prefix();
      CategoryUnique(e.name, k);
    }
  }

  lemma CaseInfoHasNoCategory()
    ensures CategoryOf(DisplayEvidence.CaseInfoName).None?
  {
    var n := DisplayEvidence.CaseInfoName;
    assert n[0] == 'i';
    assert !StartsWith(n, "face/") && !StartsWith(n, "voice/") && !StartsWith(n, "finger/") by {
      assert "face/"[0] != n[0] && "voice/"[0] != n[0] && "finger/"[0] != n[0];
    }
  }

  /**
   * The layout the unpackers rely on: the case file first, under a name of no category,
   * then one non-empty entry per non-empty upload, each in its category's folder, in the
   * order face, voice, fingerprint.
   */
  lemma BundleLayout(s: Services, descriptiveText: Option<string>, faceFile: Option<Upload>, voiceFile: Option<Upload>,
                     fingerprintFile: Option<Upload>)
    ensures var b := Bundle(s, descriptiveText, faceFile, voiceFile, fingerprintFile);
      && b[0].name == DisplayEvidence.CaseInfoName && CategoryOf(b[0].name).None?
      && |b| == 1 + (if faceFile.Some? && faceFile.value.bytes != [] then 1 else 0)
                  + (if voiceFile.Some? && voiceFile.value.bytes != [] then 1 else 0)
                  + (if fingerprintFile.Some? && fingerprintFile.value.bytes != [] then 1 else 0)
      && (forall i | 1 <= i < |b| :: CategoryOf(b[i].name).Some? && |b[i].data| > 0)
      && (forall i, j | 1 <= i < j < |b| :: Rank(CategoryOf(b[i].name).value) < Rank(CategoryOf(b[j].name).value))
  {
    var f := BundlePart(Face, faceFile);
    var v := BundlePart(Voice, voiceFile);
    var g := BundlePart(Finger, fingerprintFile);
    BundlePartFacts(Face, faceFile);
    BundlePartFacts(Voice, voiceFile);
    BundlePartFacts(Finger, fingerprintFile);
    CaseInfoHasNoCategory();
    PartsLayout(Entry(DisplayEvidence.CaseInfoName, s.bytesOf(CaseFile(JavaText(descriptiveText)))), f, v, g);
  }

  /** One entry followed by at most one entry of each category, in the order face, voice, fingerprint. */
  lemma PartsLayout(h: Entry, f: seq<Entry>, v: seq<Entry>, g: seq<Entry>)
    requires |f| <= 1 && |v| <= 1 && |g| <= 1
    requires forall e | e in f :: CategoryOf(e.name) == Some(Face) && |e.data| > 0
    requires forall e | e in v :: CategoryOf(e.name) == Some(Voice) && |e.data| > 0
    requires forall e | e in g :: CategoryOf(e.name) == Some(Finger) && |e.data| > 0
    ensures var b := [h] + f + v + g;
      && b[0] == h && |b| == 1 + |f| + |v| + |g|
      && (forall i | 1 <= i < |b| :: CategoryOf(b[i].name).Some? && |b[i].data| > 0)
      && (forall i, j | 1 <= i < j < |b| :: Rank(CategoryOf(b[i].name).value) < Rank(CategoryOf(b[j].name).value))
  {
    var b := [h] + f + v + g;
    forall i | 1 <= i < |b| ensures CategoryOf(b[i].name).Some? && |b[i].data| > 0 && CategoryRankAt(b, i) == RankIn(f, v, i - 1) {
      PartAt(h, f, v, g, i);
    }
  }

  lemma PartAt(h: Entry, f: seq<Entry>, v: seq<Entry>, g: seq<Entry>, i: int)
    requires forall e | e in f :: CategoryOf(e.name) == Some(Face) && |e.data| > 0
    requires forall e | e in v :: CategoryOf(e.name) == Some(Voice) && |e.data| > 0
    requires forall e | e in g :: CategoryOf(e.name) == Some(Finger) && |e.data| > 0
    requires 1 <= i < 1 + |f| + |v| + |g|
    ensures var b := [h] + f + v + g;
      CategoryOf(b[i].name).Some? && |b[i].data| > 0 && CategoryRankAt(b, i) == RankIn(f, v, i - 1)
  {
    var b := [h] + f + v + g;
    if i - 1 < |f| {
      assert b[i] == f[i - 1];
    } else if i - 1 < |f| + |v| {
      assert b[i] == v[i - 1 - |f|];
    } else {
      assert b[i] == g[i - 1 - |f| - |v|];
    }
  }

  function CategoryRankAt(b: seq<Entry>, i: int): nat
    requires 0 <= i < |b| && CategoryOf(b[i].name).Some?
  {
    Rank(CategoryOf(b[i].name).value)
  }

  /** The rank of position `j` of `f + v + g` when `f` and `v` hold at most one entry each. */
  function RankIn(f: seq<Entry>, v: seq<Entry>, j: int): nat
  {
    if j < |f| then 0 else if j < |f| + |v| then 1 else 2
  }

  /**
   * `prepareCapturedData`: the bundle is written entry by entry, zipped and sent to the
   * encryptor under the given name for the consumer; any failure yields null.
   */
  method PrepareCapturedData(s: Services, descriptiveText: Option<string>, faceFile: Option<Upload>,
                             voiceFile: Option<Upload>, fingerprintFile: Option<Upload>,
                             encryptedZipFileName: string, consumerId: Option<string>)
    returns (encryptedZipFile: Option<seq<byte>>, call: EncryptorCall)
    ensures call == EncryptorCall("encrypt", "face",
      Some(s.zip(Bundle(s, descriptiveText, faceFile, voiceFile, fingerprintFile))), encryptedZipFileName, JavaText(consumerId))
    ensures encryptedZipFile == (match s.encryptor(call) case Ok(r) => r case Err(_) => None)
  {
    var caseInfoFileBytes := s.bytesOf(CaseFile(JavaText(descriptiveText)));
    var faceFileBytes := ConvertMultipartFileToBytes(faceFile);
    var voiceFileBytes := ConvertMultipartFileToBytes(voiceFile);
    var fingerprintFileBytes := ConvertMultipartFileToBytes(fingerprintFile);
    var zipOut := new ZipOutput();
    AddBytesToZip(Some(caseInfoFileBytes), Some(DisplayEvidence.CaseInfoName), zipOut);
    ghost var w0 := zipOut.entries;
    if faceFile.Some? {
      AddBytesToZip(faceFileBytes, Some("face/" + JavaText(faceFile.value.originalFilename)), zipOut);
    }
    ghost var w1 := zipOut.entries;
    assert w1 == w0 + BundlePart(Face, faceFile);
    if voiceFile.Some? {
      AddBytesToZip(voiceFileBytes, Some("voice/" + JavaText(voiceFile.value.originalFilename)), zipOut);
    }
    ghost var w2 := zipOut.entries;
    assert w2 == w1 + BundlePart(Voice, voiceFile);
    if fingerprintFile.Some? {
      AddBytesToZip(fingerprintFileBytes, Some("finger/" + JavaText(fingerprintFile.value.originalFilename)), zipOut);
    }
    assert zipOut.entries == w2 + BundlePart(Finger, fingerprintFile);
    BundleOf(s, descriptiveText, faceFile, voiceFile, fingerprintFile, w0, w1, w2, zipOut.entries);
    var zipFile := s.zip(zipOut.entries);
    call := EncryptorCall("encrypt", "face", Some(zipFile), encryptedZipFileName, JavaText(consumerId));
    var reply := s.encryptor(call);
    encryptedZipFile := if reply.Ok? then reply.value else None;
  }

  // ---------------------------------------------------------------------------
  // The wrapped key.

  function HexDigit(d: int): (c: char)
    requires 0 <= d < 16
  {
    if d < 10 then ('0' as int + d) as char else ('a' as int + d - 10) as char
  }

  predicate IsLowerHex(c: char)
  {
    '0' <= c <= '9' || 'a' <= c <= 'f'
  }

  function HexValue(c: char): (d: int)
    requires IsLowerHex(c)
    ensures 0 <= d < 16
  {
    if c <= '9' then c as int - '0' as int else c as int - 'a' as int + 10
  }

  lemma HexDigitValue(d: int)
    requires 0 <= d < 16
    ensures IsLowerHex(HexDigit(d)) && HexValue(HexDigit(d)) == d
  {
  }

  /** `String.format("%02x", b)` for each byte in turn: two lowercase hex digits per byte. */
  function Hex(bs: seq<byte>): (r: string)
    ensures |r| == 2 * |bs|
    ensures forall i | 0 <= i < |r| :: IsLowerHex(r[i])
  {
    if |bs| == 0 then ""
    else
      var b := bs[|bs| - 1];
      HexDigitValue(b / 16);
      HexDigitValue(b % 16);
      Hex(bs[..|bs| - 1]) + [HexDigit(b / 16), HexDigit(b % 16)]
  }

  /** Hex text read back two digits at a time. */
  function Unhex(s: string): seq<byte>
    requires |s| % 2 == 0 && forall i | 0 <= i < |s| :: IsLowerHex(s[i])
  {
    if |s| == 0 then []
    else Unhex(s[..|s| - 2]) + [(16 * HexValue(s[|s| - 2]) + HexValue(s[|s| - 1])) as byte]
  }

  /** The hex rendering loses nothing: reading it back gives the bytes. */
  lemma UnhexSnoc(h0: string, hi: char, lo: char)
    requires |h0| % 2 == 0 && forall i | 0 <= i < |h0| :: IsLowerHex(h0[i])
    requires IsLowerHex(hi) && IsLowerHex(lo)
    ensures var h := h0 + [hi, lo];
      |h| % 2 == 0 && (forall i | 0 <= i < |h| :: IsLowerHex(h[i]))
      && Unhex(h) == Unhex(h0) + [(16 * HexValue(hi) + HexValue(lo)) as byte]
  {
    var h := h0 + [hi, lo];
    assert h[..|h| - 2] == h0;
  }

  lemma {:induction false} HexRoundTrip(bs: seq<byte>)
    ensures Unhex(Hex(bs)) == bs
  {
    if |bs| > 0 {
      var n := |bs| - 1;
      var b := bs[n];
      var h0 := Hex(bs[..n]);
      HexDigitValue(b / 16);
      HexDigitValue(b % 16);
      var hi, lo := HexDigit(b / 16), HexDigit(b % 16);
      assert Hex(bs) == h0 + [hi, lo];
      UnhexSnoc(h0, hi, lo);
      HexRoundTrip(bs[..n]);
      assert bs == bs[..n] + [b];
    }
  }

  /** The StringBuilder loop of `getEncryptedKey`. */
  method HexString(decodedBytes: seq<byte>) returns (hexString: string)
    ensures hexString == Hex(decodedBytes)
  {
    hexString := "";
    var i := 0;
    while i < |decodedBytes|
      invariant 0 <= i <= |decodedBytes|
      invariant hexString == Hex(decodedBytes[..i])
    {
      var b := decodedBytes[i];
      assert decodedBytes[..i + 1][..i] == decodedBytes[..i];
      hexString := hexString + [HexDigit(b / 16), HexDigit(b % 16)];
      i := i + 1;
    }
    assert decodedBytes[..i] == decodedBytes;
  }

  /** A URL-encoded parameter with '+' and an encoded line break each turned into "%20". */
  function SpacesEncoded(urlEncoded: string): string
  {
    ReplaceAll(ReplaceAll(urlEncoded, "+", "%20"), "%0A", "%20")
  }

  lemma SpacesEncodedHasNoPlus(urlEncoded: string)
    ensures '+' !in SpacesEncoded(urlEncoded)
  {
    ReplaceRemovesChar(urlEncoded, '+', "%20");
    ReplaceKeepsAbsentChar(ReplaceAll(urlEncoded, "+", "%20"), "%0A", "%20", '+');
  }

  /** The key endpoint, with the connector's PEM public key as its parameter. */
  function KeyRequestUrl(s: Services, encryptorAPI: string, filename: string, rsaPublicKey: string): string
  {
    encryptorAPI + "/get-encrypted-key/" + filename + "?rsa_public_key=" + SpacesEncoded(s.urlEncode(rsaPublicKey))
  }

  /**
   * What `getEncryptedKey` answers for the endpoint's reply: null when the call raises,
   * the reply is not an object or `encrypted_key` is not a string; "0x" and the hex of the
   * decoded key when it decodes; and the undecoded text when Base64 decoding raises,
   * because the variable already holds it when the exception is caught.
   */
  function EncryptedKey(s: Services, reply: Option<string>): (r: Option<string>)
    ensures r.None? <==> !(reply.Some? && s.parseJson(reply.value).Some? && s.parseJson(reply.value).value.JObj?
                           && Get(s.parseJson(reply.value).value.fields, "encrypted_key").JStr?)
  {
    if reply.None? then None
    else
      match s.parseJson(reply.value)
      case Some(JObj(fields)) =>
        (match Get(fields, "encrypted_key")
         case JStr(k) =>
           (match s.decodeBase64(k)
            case Some(decodedBytes) => Some("0x" + Hex(decodedBytes))
            case None => Some(k))
         case _ => None)
      case _ => None
  }

  /** A decoded key is rendered so that the digits after "0x" read back as the key's bytes. */
  lemma KeyReadsBack(s: Services, reply: string, fields: map<string, Json>, k: string, decodedBytes: seq<byte>)
    requires s.parseJson(reply) == Some(JObj(fields)) && Get(fields, "encrypted_key") == JStr(k)
    requires s.decodeBase64(k) == Some(decodedBytes)
    ensures var r := EncryptedKey(s, Some(reply));
      && r.Some? && |r.value| == 2 + 2 * |decodedBytes| && r.value[..2] == "0x"
      && Unhex(r.value[2..]) == decodedBytes
  {
    var r := EncryptedKey(s, Some(reply));
    assert r == Some("0x" + Hex(decodedBytes));
    assert r.value[2..] == Hex(decodedBytes);
    HexRoundTrip(decodedBytes);
  }

  /** `getEncryptedKey`: asks the key endpoint and renders its reply. */
  method GetEncryptedKey(s: Services, encryptorAPI: string, filename: string, rsaPublicKey: string)
    returns (encryptionKey: Option<string>, call: HttpCall)
    ensures call == KeyRequest(KeyRequestUrl(s, encryptorAPI, filename, rsaPublicKey))
    ensures encryptionKey == EncryptedKey(s, s.http(call))
  {
    call := KeyRequest(KeyRequestUrl(s, encryptorAPI, filename, rsaPublicKey));
    var response := s.http(call);
    encryptionKey := None;
    if response.None? {
      return;
    }
    var jsonResponse := s.parseJson(response.value);
    if !(jsonResponse.Some? && jsonResponse.value.JObj?) {
      return;
    }
    var encrypted := Get(jsonResponse.value.fields, "encrypted_key");
    if !encrypted.JStr? {
      return;
    }
    encryptionKey := Some(encrypted.s);
    var decodedBytes := s.decodeBase64(encrypted.s);
    if decodedBytes.None? {
      return;
    }
    var hexString := HexString(decodedBytes.value);
    encryptionKey := Some("0x" + hexString);
  }

  // ---------------------------------------------------------------------------
  // The access request.

  /** The provider's WebID, as `<solidAPI>/<pod>/profile/card#me`. */
  function WebId(solidAPI: Option<string>, pod: Option<string>): string
  {
    JavaText(solidAPI) + "/" + JavaText(pod) + "/profile/card#me"
  }

  /** The object posted to `/api/requests`. */
  function AccessRequestBody(recipientWebId: string, resIndex: Option<string>, encryptionKey: string,
                             face: Option<string>, fingerprint: Option<string>, voice: Option<string>): Json
  {
    JObj(map["recipientWebId" := JStr(recipientWebId), "resIndex" := JText(resIndex), "duration" := JInt(600),
             "accessType" := JStr("read"), "encryptionKey" := JStr(encryptionKey),
             "scores" := JArr([JText(face), JText(fingerprint), JText(voice)])])
  }

  /** The keys the service writes over in the platform's reply. */
  const AugmentedKeys: set<string> := {"recipientWebId", "resIndex", "duration", "accessType", "encKey"}

  /** The platform's reply with the request's fields and the key written over it. */
  function Augmented(reply: map<string, Json>, recipientWebId: string, resIndex: Option<string>, encKey: string): (r: map<string, Json>)
    ensures r.Keys == reply.Keys + AugmentedKeys
    ensures forall k | k in reply && k !in AugmentedKeys :: r[k] == reply[k]
    ensures r["duration"] == JInt(600) && r["accessType"] == JStr("read") && r["encKey"] == JStr(encKey)
    ensures r["recipientWebId"] == JStr(recipientWebId) && r["resIndex"] == JText(resIndex)
  {
    reply["recipientWebId" := JStr(recipientWebId)]["resIndex" := JText(resIndex)]["duration" := JInt(600)]
      ["accessType" := JStr("read")]["encKey" := JStr(encKey)]
  }

  /** The consumer's request folder in its pod, where the ciphertext is uploaded. */
  function RequestFolderUrl(api: string, pod: string, suspectProfileId: string): string
  {
    api + "/api/resources/" + pod + "%2Fdsp_requests%2F" + suspectProfileId + "%2F"
  }

  /** The upload lands where the provider's evidence display lists and fetches it. */
  lemma UploadedWhereListed(api: string, pod: string, suspectProfileId: string, fileName: string)
    ensures RequestFolderUrl(api, pod, suspectProfileId) + "?toJSONld=true" == EvidenceListUrl(api, pod, suspectProfileId)
    ensures RequestFolderUrl(api, pod, suspectProfileId) + fileName + "?toJSONld=true"
      == EvidenceFileUrl(api, pod, suspectProfileId, fileName)
  {
  }

  /** The provider's read grant on the consumer's request folder. */
  function RequestGrantUrl(api: string, consumerPod: string, suspectProfileId: string, solidPodAPI: string,
                           providerPod: string): string
  {
    api + "/api/access/read/" + consumerPod + "%2Fdsp_requests%2F" + suspectProfileId + "%2F" + solidPodAPI + "%2F"
      + providerPod + "%2Fprofile%2Fcard%23me"
  }

  /** The WebID of the request's provider. */
  function ProviderWebId(registry: TensorConnectorRegistry, request: DspRequestRequest): string
    reads registry, request
  {
    WebId(Lookup(registry, request.providerId, SolidApi), Lookup(registry, request.providerId, Pod))
  }

  /** The request posted for the request's fields and the encoded key. */
  function RequestPost(dataSharingPlatformAPI: string, registry: TensorConnectorRegistry, request: DspRequestRequest,
                       encodedEncryptionKey: string): HttpCall
    reads registry, request
  {
    AccessRequest(dataSharingPlatformAPI + "/api/requests",
      AccessRequestBody(ProviderWebId(registry, request), request.suspectProfileId, encodedEncryptionKey,
                        request.facialImageSimilarityScore, request.fingerprintSimilarityScore,
                        request.voiceprintSimilarityScore))
  }

  /** The platform's reply read as an object: a failed call, unparsable text, null and non-objects raise. */
  function PlatformReply(s: Services, response: Option<string>): (r: Result<map<string, Json>>)
    ensures r.Ok? <==> response.Some? && s.parseJson(response.value).Some? && s.parseJson(response.value).value.JObj?
    ensures r.Ok? ==> r.value == s.parseJson(response.value).value.fields
  {
    if response.None? then Err("IOException")
    else
      match s.parseJson(response.value)
      case None => Err("ParseException")
      case Some(JObj(fields)) => Ok(fields)
      case Some(JNull) => Err("NullPointerException")
      case Some(_) => Err("ClassCastException")
  }

  /** The read grant the provider receives on the request folder. */
  function GrantFor(dataSharingPlatformAPI: string, registry: TensorConnectorRegistry, request: DspRequestRequest): HttpCall
    reads registry, request
  {
    ReadGrant(RequestGrantUrl(dataSharingPlatformAPI, JavaText(Lookup(registry, request.consumerId, Pod)),
                              JavaText(request.suspectProfileId), JavaText(Lookup(registry, request.providerId, SolidApi)),
                              JavaText(Lookup(registry, request.providerId, Pod))))
  }

  /**
   * `createAccessRequest`. The bundle is named "<uuid>.zip" and its ciphertext
   * "<uuid>.zip.enc"; the key is asked for first and a null key ends the request before
   * anything is posted. The request carries the provider's WebID, the profile id, 600
   * seconds of read access, the encoded key and the scores in the order face,
   * fingerprint, voice. Only once the platform's reply is an object are the ciphertext
   * uploaded (when the encryptor produced one) and the read grant given, and the reply
   * is returned with the request's fields and the key written over it.
   */
  /** The encryptor call of the bundle: encrypt the zip under its name for the consumer. */
  function BundleEncryption(s: Services, uuid: string, request: DspRequestRequest): EncryptorCall
    reads request
  {
    EncryptorCall("encrypt", "face",
      Some(s.zip(Bundle(s, request.descriptiveText, request.faceFile, request.voiceFile, request.fingerprintFile))),
      uuid + ".zip", JavaText(request.consumerId))
  }

  /** The requests `createAccessRequest` makes, in order, and what it answers. */
  function AccessRequestRun(s: Services, registry: TensorConnectorRegistry, dataSharingPlatformAPI: string,
                            encryptorAPI: string, rsaPublicKey: string, uuid: string, request: DspRequestRequest)
    : (Result<map<string, Json>>, seq<HttpCall>)
    reads registry, request
  {
    var keyCall := KeyRequest(KeyRequestUrl(s, encryptorAPI, uuid + ".zip", rsaPublicKey));
    var key := EncryptedKey(s, s.http(keyCall));
    if key.None? then (Err("Exception"), [keyCall])
    else
      var encoded := SpacesEncoded(s.urlEncode(key.value));
      var post := RequestPost(dataSharingPlatformAPI, registry, request, encoded);
      var response := PlatformReply(s, s.http(post));
      if response.Err? then (Err(response.error), [keyCall, post])
      else
        var sealed := s.encryptor(BundleEncryption(s, uuid, request));
        var upload := if sealed.Ok? && sealed.value.Some? then
          [FileUpload(RequestFolderUrl(dataSharingPlatformAPI, JavaText(Lookup(registry, request.consumerId, Pod)),
                                       JavaText(request.suspectProfileId)),
                      uuid + ".zip.enc", uuid + ".zip.enc", sealed.value.value)]
        else [];
        (Ok(Augmented(response.value, ProviderWebId(registry, request), request.suspectProfileId, encoded)),
         [keyCall, post] + upload + [GrantFor(dataSharingPlatformAPI, registry, request)])
  }

  /**
   * The key is requested first and a null key stops everything; the request is posted
   * with the encoded key, and a bad reply stops there.
   */
  lemma AccessRequestRunSteps(s: Services, registry: TensorConnectorRegistry, dataSharingPlatformAPI: string,
                              encryptorAPI: string, rsaPublicKey: string, uuid: string, request: DspRequestRequest)
    ensures var (r, calls) := AccessRequestRun(s, registry, dataSharingPlatformAPI, encryptorAPI, rsaPublicKey, uuid, request);
      && |calls| >= 1 && calls[0] == KeyRequest(KeyRequestUrl(s, encryptorAPI, uuid + ".zip", rsaPublicKey))
      && (|calls| == 1 <==> EncryptedKey(s, s.http(calls[0])).None?)
      && (|calls| == 1 ==> r.Err?)
      && (|calls| >= 2 ==>
            calls[1] == RequestPost(dataSharingPlatformAPI, registry, request,
                                    SpacesEncoded(s.urlEncode(EncryptedKey(s, s.http(calls[0])).value))))
      && (|calls| >= 2 ==> (r.Ok? <==> PlatformReply(s, s.http(calls[1])).Ok?))
      && (r.Err? ==> |calls| <= 2)
  {
  }

  /**
   * A successful request answers the augmented platform reply; the encrypted bundle is
   * uploaded to the consumer's folder exactly when the encryptor answered, and access
   * is granted last.
   */
  lemma AccessRequestRunSuccess(s: Services, registry: TensorConnectorRegistry, dataSharingPlatformAPI: string,
                                encryptorAPI: string, rsaPublicKey: string, uuid: string, request: DspRequestRequest)
    requires AccessRequestRun(s, registry, dataSharingPlatformAPI, encryptorAPI, rsaPublicKey, uuid, request).0.Ok?
    ensures var (r, calls) := AccessRequestRun(s, registry, dataSharingPlatformAPI, encryptorAPI, rsaPublicKey, uuid, request);
      var sealed := s.encryptor(BundleEncryption(s, uuid, request));
      && |calls| >= 3
      && r.value == Augmented(PlatformReply(s, s.http(calls[1])).value, ProviderWebId(registry, request),
                              request.suspectProfileId, SpacesEncoded(s.urlEncode(EncryptedKey(s, s.http(calls[0])).value)))
      && calls[|calls| - 1] == GrantFor(dataSharingPlatformAPI, registry, request)
      && (|calls| == 4 <==> sealed.Ok? && sealed.value.Some?)
      && (|calls| == 4 ==> calls[2] == FileUpload(
            RequestFolderUrl(dataSharingPlatformAPI, JavaText(Lookup(registry, request.consumerId, Pod)),
                             JavaText(request.suspectProfileId)),
            uuid + ".zip.enc", uuid + ".zip.enc", sealed.value.value))
  {
  }

  /** `createAccessRequest`: the zip is prepared and encrypted, then the requests of `AccessRequestRun` are made. */
  method CreateAccessRequest(s: Services, registry: TensorConnectorRegistry, dataSharingPlatformAPI: string,
                             encryptorAPI: string, rsaPublicKey: string, uuid: string, request: DspRequestRequest)
    returns (r: Result<map<string, Json>>, encryption: EncryptorCall, calls: seq<HttpCall>)
    ensures encryption == BundleEncryption(s, uuid, request)
    ensures (r, calls) == AccessRequestRun(s, registry, dataSharingPlatformAPI, encryptorAPI, rsaPublicKey, uuid, request)
  {
    var zipFileName := uuid + ".zip";
    var encryptedZipFileName := zipFileName + ".enc";
    var encryptedZipFile;
    encryptedZipFile, encryption := PrepareCapturedData(s, request.descriptiveText, request.faceFile, request.voiceFile,
                                                        request.fingerprintFile, zipFileName, request.consumerId);
    // The null test that follows in the source is on the name, which is never null.
    var encryptionKey, keyCall := GetEncryptedKey(s, encryptorAPI, zipFileName, rsaPublicKey);
    calls := [keyCall];
    if encryptionKey.None? {
      return Err("Exception"), encryption, calls;
    }
    var encodedEncryptionKey := SpacesEncoded(s.urlEncode(encryptionKey.value));
    var post := RequestPost(dataSharingPlatformAPI, registry, request, encodedEncryptionKey);
    calls := [keyCall, post];
    var response := PlatformReply(s, s.http(post));
    if response.Err? {
      return Err(response.error), encryption, calls;
    }
    var jsonObject := Augmented(response.value, ProviderWebId(registry, request), request.suspectProfileId,
                                encodedEncryptionKey);
    var upload: seq<HttpCall> := [];
    assert encryptedZipFileName == uuid + ".zip.enc";
    if encryptedZipFile.Some? {
      // uploadFileToPod; writing a null ciphertext raises inside it before any request
      var consumerPod := Lookup(registry, request.consumerId, Pod);
      upload := [FileUpload(RequestFolderUrl(dataSharingPlatformAPI, JavaText(consumerPod),
                                            JavaText(request.suspectProfileId)),
                            encryptedZipFileName, encryptedZipFileName, encryptedZipFile.value)];
    }
    calls := [keyCall, post] + upload + [GrantFor(dataSharingPlatformAPI, registry, request)];
    return Ok(jsonObject), encryption, calls;
  }

  /** `createDSPAccessRequest`: 200 with the augmented reply, or 500 with the failure message. */
  method CreateDspAccessRequest(s: Services, registry: TensorConnectorRegistry, dataSharingPlatformAPI: string,
                                encryptorAPI: string, rsaPublicKey: string, uuid: string, request: DspRequestRequest)
    returns (reply: Reply)
    ensures reply.status == 200 || reply == Reply(500, ProcessingFailure)
    ensures reply.status == 200 ==>
      (reply.body.JObj? && AugmentedKeys <= reply.body.fields.Keys
       && reply.body.fields["duration"] == JInt(600) && reply.body.fields["accessType"] == JStr("read"))
  {
    var r, _, _ := CreateAccessRequest(s, registry, dataSharingPlatformAPI, encryptorAPI, rsaPublicKey, uuid, request);
    if r.Err? {
      return Reply(500, ProcessingFailure);
    }
    return Reply(200, JObj(r.value));
  }

  /** `parseIncomingDspRequestRequest`: the form holding the arguments (the constructor cannot raise). */
  method ParseIncomingDspRequestRequest(providerId: Option<string>, consumerId: Option<string>,
                                        suspectProfileId: Option<string>, facialImageSimilarityScore: Option<string>,
                                        fingerprintSimilarityScore: Option<string>, voiceprintSimilarityScore: Option<string>,
                                        descriptiveText: Option<string>, faceFile: Option<Upload>, voiceFile: Option<Upload>,
                                        fingerprintFile: Option<Upload>)
    returns (r: DspRequestRequest)
    ensures fresh(r)
    ensures r.providerId == providerId && r.consumerId == consumerId && r.suspectProfileId == suspectProfileId
    ensures r.facialImageSimilarityScore == facialImageSimilarityScore
    ensures r.fingerprintSimilarityScore == fingerprintSimilarityScore
    ensures r.voiceprintSimilarityScore == voiceprintSimilarityScore && r.descriptiveText == descriptiveText
    ensures r.faceFile == faceFile && r.voiceFile == voiceFile && r.fingerprintFile == fingerprintFile
  {
    r := new DspRequestRequest(providerId, consumerId, suspectProfileId, facialImageSimilarityScore,
                               fingerprintSimilarityScore, voiceprintSimilarityScore, descriptiveText,
                               faceFile, voiceFile, fingerprintFile);
  }
}
