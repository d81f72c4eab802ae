/**
 * The evidence container shared by the connector services: a ZIP archive read entry by
 * entry, the three biometric categories it carries, and the `data:` URIs artifacts are
 * returned as. The ZIP reader, MIME sniffing, Base64 and JSON parsing are library
 * services and appear as the functions of a `Codecs` value.
 */
module EvidenceArchive {
  import opened Wrappers
  import opened Strings
  import opened Octets
  import opened Json

  /** One archive entry: its name as stored and its uncompressed bytes. */
  datatype Entry = Entry(name: string, data: seq<byte>)

  /** `ZipEntry.isDirectory`: the stored name ends with a slash. */
  predicate IsDirectory(e: Entry)
  {
    EndsWith(e.name, "/")
  }

  /**
   * What a `ZipInputStream` yields for some bytes: the entries it reads in order and
   * whether reading then fails with an exception instead of reporting the end.
   */
  datatype Listing = Listing(entries: seq<Entry>, endsInError: bool)

  /** The library services the unpackers call. */
  datatype Codecs = Codecs(
    unzip: seq<byte> -> Listing,                  // java.util.zip.ZipInputStream
    sniff: seq<byte> -> Option<string>,          // URLConnection.guessContentTypeFromStream
    base64: seq<byte> -> string,                 // Base64.getEncoder().encodeToString, RFC 4648 section 4
    parseJson: seq<byte> -> Option<Json>)        // JSONParser.parse of the UTF-8 text; None when it raises

  /** The local file header signature "PK\3\4" of section 4.3.7 of PKWARE APPNOTE.TXT. */
  const LocalFileHeaderSignature: seq<byte> := [0x50, 0x4B, 0x03, 0x04]

  /** `isZipFile`: a non-null array of at least four bytes whose first four are the signature. */
  function IsZipFile(fileBytes: Option<seq<byte>>): (r: bool)
    ensures r <==> fileBytes.Some? && StartsWithSignature(fileBytes.value)
  {
    if fileBytes.None? || |fileBytes.value| < 4 then false
    else
      var b := fileBytes.value;
      b[0] == 0x50 && b[1] == 0x4B && b[2] == 0x03 && b[3] == 0x04
  }

  predicate StartsWithSignature(b: seq<byte>)
  {
    |b| >= |LocalFileHeaderSignature| && b[..|LocalFileHeaderSignature|] == LocalFileHeaderSignature
  }

  // ---------------------------------------------------------------------------
  // Categories and data URIs.

  /** The biometric categories, each a top-level folder of the container. */
  datatype Category = Face | Voice | Finger
  {
    /** The folder prefix entries of this category start with. */
    function Prefix(): string
    {
      match this
      case Face => "face/"
      case Voice => "voice/"
      case Finger => "finger/"
    }

    /** The key the category is reported under in the returned JSON object. */
    function Key(): string
    {
      match this
      case Face => "face"
      case Voice => "voice"
      case Finger => "fingerprint"
    }

    /** The MIME type assumed when sniffing fails, in the per-category unpackers. */
    function FallbackMime(): string
    {
      match this
      case Face => "image/png"
      case Voice => "audio/flac"
      case Finger => "image/jpeg"
    }
  }

  /** The category whose prefix the name starts with, tested in the order face, voice, finger. */
  function CategoryOf(name: string): (r: Option<Category>)
    ensures r.Some? ==> StartsWith(name, r.value.Prefix())
    ensures r.None? <==> forall k: Category :: !StartsWith(name, k.Prefix())
  {
    if StartsWith(name, "face/") then Some(Face)
    else if StartsWith(name, "voice/") then Some(Voice)
    else if StartsWith(name, "finger/") then Some(Finger)
    else None
  }

  /** The category prefixes are exclusive: a name starts with at most one of them. */
  lemma CategoryUnique(name: string, k: Category)
    requires StartsWith(name, k.Prefix())
    ensures CategoryOf(name) == Some(k)
  {
    assert name[..|k.Prefix()|] == k.Prefix();
    match k
    case Face =>
    case Voice => assert name[0] == 'v';
    case Finger => assert name[1] == 'i';
  }

  /** A base64 `data:` URI, section 3 of RFC 2397. */
  function DataUri(mime: string, b64: string): string
  {
    "data:" + mime + ";base64," + b64
  }

  /** Reads a `data:<mime>;base64,<payload>` URI back, the media type ending at the first ';'. */
  function ParseDataUri(uri: string): (r: Option<(string, string)>)
  {
    if !StartsWith(uri, "data:") then None
    else
      var rest := uri[5..];
      var semi := IndexOf(rest, ';');
      if semi < 0 || !StartsWith(rest[semi..], ";base64,") then None
      else Some((rest[..semi], rest[semi + 8..]))
  }

  /** A URI built from a media type without ';' reads back as its media type and payload. */
  lemma DataUriRoundTrip(mime: string, b64: string)
    requires ';' !in mime
    ensures ParseDataUri(DataUri(mime, b64)) == Some((mime, b64))
  {
    var uri := DataUri(mime, b64);
    assert uri[..5] == "data:";
    var rest := uri[5..];
    assert rest == mime + ";base64," + b64;
    assert rest[|mime|] == ';';
    assert rest[..|mime|] == mime;
    var semi := IndexOf(rest, ';');
    assert semi == |mime|;
    assert rest[semi..][..8] == ";base64,";
    assert rest[semi + 8..] == b64;
  }

  /** The data URI of a non-empty entry of category `k`, with the category's fallback type. */
  function EntryUri(c: Codecs, e: Entry, k: Category): string
  {
    DataUri(c.sniff(e.data).UnwrapOr(k.FallbackMime()), c.base64(e.data))
  }

  // ---------------------------------------------------------------------------
  // Bundles unpacked into arrays, by the provider's profile services.

  /** The object being filled and the three arrays of data URIs collected so far. */
  datatype Collected = Collected(obj: map<string, Json>, face: seq<string>, voice: seq<string>, finger: seq<string>)

  const NoneCollected := Collected(map[], [], [], [])

  function StrArray(uris: seq<string>): (r: Json)
    ensures r.JArr? && |r.items| == |uris|
    ensures forall i :: 0 <= i < |uris| ==> r.items[i] == JStr(uris[i])
  {
    if |uris| == 0 then JArr([])
    else JArr(StrArray(uris[..|uris| - 1]).items + [JStr(uris[|uris| - 1])])
  }

  /**
   * The object returned after the loop: the three arrays are attached only when the loop
   * ran to the end without an exception.
   */
  function Published(col: Collected, raised: bool): map<string, Json>
  {
    if raised then col.obj
    else col.obj["face" := StrArray(col.face)]["voice" := StrArray(col.voice)]["fingerprint" := StrArray(col.finger)]
  }

  // ---------------------------------------------------------------------------
  // The data sharing platform.

  /** Java's string concatenation writes a null reference as "null". */
  function JavaText(s: Option<string>): string
  {
    if s.Some? then s.value else "null"
  }

  /**
   * The data sharing platform as the connector sees it: its base URL, the registry's map
   * from connector ids to pods (and back), and a GET that yields the body of a 200 answer.
   */
  datatype Platform = Platform(api: string, podOf: string -> Option<string>, idOf: string -> Option<string>,
                               fetch: string -> Option<seq<byte>>)

  /** The encrypted profile of a suspect in a provider's pod. */
  function SuspectProfileUrl(api: string, pod: string, suspectProfileID: string): string
  {
    api + "/api/resources/" + pod + "%2Fsuspects%2F" + suspectProfileID + ".zip.enc?toJSONld=true"
  }

  /** The folder of evidence files answering a request, in the requestor's pod. */
  function EvidenceListUrl(api: string, pod: string, suspectProfileID: string): string
  {
    api + "/api/resources/" + pod + "%2Fdsp_requests%2F" + suspectProfileID + "%2F?toJSONld=true"
  }

  /** One evidence file of that folder. */
  function EvidenceFileUrl(api: string, pod: string, suspectProfileID: string, fileName: string): string
  {
    api + "/api/resources/" + pod + "%2Fdsp_requests%2F" + suspectProfileID + "%2F" + fileName + "?toJSONld=true"
  }
}
