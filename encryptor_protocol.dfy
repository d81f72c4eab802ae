/**
 * The connector's client of the biometric encryptor service (`TensorBE`): the query type
 * selects the endpoint and the two form-field names, the request is a multipart/form-data
 * body (section 4 of RFC 7578) holding the requester's enrolment image and then the
 * payload, and the reply body is the result only on HTTP 200.
 */
module EncryptorProtocol {
  import opened Wrappers
  import opened Strings
  import opened Octets

  const CRLF: string := "\r\n"

  /** The endpoint and form-field names a query type selects. */
  datatype Route = Route(endpoint: string, feFileField: string, fileField: string)

  function RouteFor(queryType: string): (r: Option<Route>)
    ensures r.Some? <==> queryType in {"encrypt", "decrypt"}
  {
    if queryType == "encrypt" then Some(Route("/encrypt", "enroll_image", "file_to_encrypt"))
    else if queryType == "decrypt" then Some(Route("/decrypt", "verify_image", "encrypted_file"))
    else None
  }

  /** The two supported query types never share an endpoint or a field name. */
  lemma RoutesDistinct()
    ensures var e := RouteFor("encrypt").value; var d := RouteFor("decrypt").value;
      e.endpoint != d.endpoint && e.feFileField != d.feFileField && e.fileField != d.fileField
  {
    assert "/encrypt"[1] != "/decrypt"[1];
    assert "enroll_image"[0] != "verify_image"[0];
    assert "file_to_encrypt"[0] != "encrypted_file"[0];
  }

  /** What goes down the connection: text through the `PrintWriter`, bytes straight to the stream. */
  datatype Chunk = Text(s: string) | Raw(b: seq<byte>)

  function DispositionLine(fieldName: string, fileName: string): string
  {
    "Content-Disposition: form-data; name=\"" + fieldName + "\"; filename=\"" + fileName + "\"" + CRLF
  }

  const ContentTypeLine: string := "Content-Type: application/octet-stream" + CRLF

  /** The six writes of one file part. */
  function PartChunks(boundary: string, fieldName: string, fileName: string, content: seq<byte>): seq<Chunk>
  {
    [Text("--" + boundary + CRLF), Text(DispositionLine(fieldName, fileName)), Text(ContentTypeLine),
     Text(CRLF), Raw(content), Text(CRLF)]
  }

  /** The request body being written. */
  class RequestBody {
    var chunks: seq<Chunk>

    constructor ()
      ensures chunks == []
    {
      chunks := [];
    }

    method Append(s: string)
      modifies this
      ensures chunks == old(chunks) + [Text(s)]
    {
      chunks := chunks + [Text(s)];
    }

    method Write(b: seq<byte>)
      modifies this
      ensures chunks == old(chunks) + [Raw(b)]
    {
      chunks := chunks + [Raw(b)];
    }
  }

  /** `addRequestFilePart`: writes one part's header lines, its bytes and the closing CRLF. */
  method AddRequestFilePart(writer: RequestBody, fieldName: string, fileName: string, uploadFile: seq<byte>, boundary: string)
    modifies writer
    ensures writer.chunks == old(writer.chunks) + PartChunks(boundary, fieldName, fileName, uploadFile)
  {
    writer.Append("--" + boundary + CRLF);
    writer.Append(DispositionLine(fieldName, fileName));
    writer.Append(ContentTypeLine);
    writer.Append(CRLF);
    writer.Write(uploadFile);
    writer.Append(CRLF);
  }

  // ---------------------------------------------------------------------------
  // Reading a part back.

  const DispositionPrefix: string := "Content-Disposition: form-data; name=\""
  const FileNameInfix: string := "\"; filename=\""

  /** Reads the field and file name back from a disposition line (names end at the next '"'). */
  function ParseDisposition(line: string): Option<(string, string)>
  {
    if !StartsWith(line, DispositionPrefix) then None
    else
      var rest := line[|DispositionPrefix|..];
      var q := IndexOf(rest, '"');
      if q < 0 || !StartsWith(rest[q..], FileNameInfix) then None
      else
        var tail := rest[q + |FileNameInfix|..];
        var q2 := IndexOf(tail, '"');
        if q2 < 0 || tail[q2..] != "\"" + CRLF then None
        else Some((rest[..q], tail[..q2]))
  }

  /** Reads one part (field name, file name, content) back from its six writes under `boundary`. */
  function ParsePart(boundary: string, cs: seq<Chunk>): Option<(string, string, seq<byte>)>
  {
    if |cs| != 6 || cs[0] != Text("--" + boundary + CRLF) || !cs[1].Text? || cs[2] != Text(ContentTypeLine)
       || cs[3] != Text(CRLF) || !cs[4].Raw? || cs[5] != Text(CRLF) then None
    else
      match ParseDisposition(cs[1].s)
      case None => None
      case Some(names) => Some((names.0, names.1, cs[4].b))
  }

  lemma IndexOfAfterFree(a: string, b: string, c: char)
    requires c !in a && |b| > 0 && b[0] == c
    ensures IndexOf(a + b, c) == |a|
  {
    var s := a + b;
    assert s[|a|] == c;
    assert s[..|a|] == a;
  }

  lemma AfterPrefix(p: string, s: string)
    ensures StartsWith(p + s, p) && (p + s)[|p|..] == s
  {
    assert (p + s)[..|p|] == p;
  }

  /** The file name is read up to the closing quote, which the line's CRLF follows. */
  lemma FileNameRead(fileName: string)
    requires '"' !in fileName
    ensures var tail := fileName + ("\"" + CRLF);
      && IndexOf(tail, '"') == |fileName|
      && tail[|fileName|..] == "\"" + CRLF
      && tail[..|fileName|] == fileName
  {
    IndexOfAfterFree(fileName, "\"" + CRLF, '"');
    AfterPrefix(fileName, "\"" + CRLF);
  }

  /** The field name is read up to its closing quote, which the file-name infix starts. */
  lemma FieldNameRead(fieldName: string, tail: string)
    requires '"' !in fieldName
    ensures var rest := fieldName + (FileNameInfix + tail);
      && IndexOf(rest, '"') == |fieldName|
      && StartsWith(rest[|fieldName|..], FileNameInfix)
      && rest[|fieldName|..][|FileNameInfix|..] == tail
      && rest[..|fieldName|] == fieldName
  {
    IndexOfAfterFree(fieldName, FileNameInfix + tail, '"');
    AfterPrefix(fieldName, FileNameInfix + tail);
    AfterPrefix(FileNameInfix, tail);
  }

  /** A disposition line whose names hold no '"' reads back as those names. */
  lemma DispositionRoundTrip(fieldName: string, fileName: string)
    requires '"' !in fieldName && '"' !in fileName
    ensures ParseDisposition(DispositionLine(fieldName, fileName)) == Some((fieldName, fileName))
  {
    var tail := fileName + ("\"" + CRLF);
    var rest := fieldName + (FileNameInfix + tail);
    assert DispositionLine(fieldName, fileName) == DispositionPrefix + rest;
    AfterPrefix(DispositionPrefix, rest);
    FieldNameRead(fieldName, tail);
    assert rest[|fieldName| + |FileNameInfix|..] == tail;
    FileNameRead(fileName);
  }

  /** A part whose names hold no '"' reads back as its field name, file name and content. */
  lemma PartRoundTrip(boundary: string, fieldName: string, fileName: string, content: seq<byte>)
    requires '"' !in fieldName && '"' !in fileName
    ensures ParsePart(boundary, PartChunks(boundary, fieldName, fileName, content)) == Some((fieldName, fileName, content))
  {
    var cs := PartChunks(boundary, fieldName, fileName, content);
    var line := DispositionLine(fieldName, fileName);
    assert cs == [Text("--" + boundary + CRLF), Text(line), Text(ContentTypeLine), Text(CRLF), Raw(content), Text(CRLF)];
    assert cs[1].s == line && cs[4].b == content;
    DispositionRoundTrip(fieldName, fileName);
  }

  // ---------------------------------------------------------------------------
  // The query.

  /** The HTTP request handed to the connection. */
  datatype Request = Request(url: string, contentType: string, body: seq<Chunk>)

  /** The status code and the body, as the successive reads of the input stream return it. */
  datatype Response = Response(status: int, received: seq<seq<byte>>)

  /** Everything `queryEncryptor` takes from outside its arguments. */
  datatype Environment = Environment(
    encryptorAPI: string,
    millis: nat,                                          // System.currentTimeMillis()
    enrolmentImage: string -> Option<(string, seq<byte>)>, // registry file name and class-path resource of a user
    post: Request -> Response)

  function Boundary(millis: nat): string
  {
    "Boundary-" + Decimal(millis)
  }

  function Concat(received: seq<seq<byte>>): seq<byte>
  {
    if |received| == 0 then [] else Concat(received[..|received| - 1]) + received[|received| - 1]
  }

  /** The buffer loop that drains the response stream. */
  method Drain(received: seq<seq<byte>>) returns (data: seq<byte>)
    ensures data == Concat(received)
  {
    data := [];
    var i := 0;
    while i < |received|
      invariant 0 <= i <= |received|
      invariant data == Concat(received[..i])
    {
      assert received[..i + 1][..i] == received[..i];
      data := data + received[i];
      i := i + 1;
    }
    assert received[..i] == received;
  }

  /**
   * `queryEncryptor`. An unsupported query type yields null before anything is sent. A
   * missing enrolment image or a null payload raises NullPointerException, which the
   * method does not catch. Otherwise the body holds the enrolment-image part, then the
   * payload part, then the closing delimiter, and the result is the reply only on 200.
   */
  method QueryEncryptor(env: Environment, queryType: string, mode: string, file: Option<seq<byte>>, fileName: string, user: string)
    returns (result: Result<Option<seq<byte>>>, sent: Option<Request>)
    ensures RouteFor(queryType).None? ==> result == Ok(None) && sent.None?
    ensures RouteFor(queryType).Some? && (env.enrolmentImage(user).None? || file.None?) ==>
      result == Err("NullPointerException") && sent.None?
    ensures sent.Some? <==> RouteFor(queryType).Some? && env.enrolmentImage(user).Some? && file.Some?
    ensures sent.Some? ==>
      var route := RouteFor(queryType).value;
      var image := env.enrolmentImage(user).value;
      var boundary := Boundary(env.millis);
      && sent.value.url == env.encryptorAPI + route.endpoint + "?mode=" + mode
      && sent.value.contentType == "multipart/form-data; boundary=" + boundary
      && sent.value.body == PartChunks(boundary, route.feFileField, image.0, image.1)
                            + PartChunks(boundary, route.fileField, fileName, file.value)
                            + [Text("--" + boundary + "--" + CRLF)]
      && var response := env.post(sent.value);
         result == Ok(if response.status == 200 then Some(Concat(response.received)) else None)
  {
    sent := None;
    var boundary := Boundary(env.millis);
    var route := RouteFor(queryType);
    if route.None? {
      // the IOException thrown for an unsupported type is caught: the result stays null
      return Ok(None), None;
    }
    var url := env.encryptorAPI + route.value.endpoint + "?mode=" + mode;
    var writer := new RequestBody();
    var image := env.enrolmentImage(user);
    if image.None? {
      return Err("NullPointerException"), None;
    }
    AddRequestFilePart(writer, route.value.feFileField, image.value.0, image.value.1, boundary);
    if file.None? {
      return Err("NullPointerException"), None;
    }
    AddRequestFilePart(writer, route.value.fileField, fileName, file.value, boundary);
    writer.Append("--" + boundary + "--" + CRLF);
    var request := Request(url, "multipart/form-data; boundary=" + boundary, writer.chunks);
    sent := Some(request);
    var response := env.post(request);
    if response.status == 200 {
      var data := Drain(response.received);
      result := Ok(Some(data));
    } else {
      result := Ok(None);
    }
  }

  /** Both parts of a sent request read back as the enrolment image and the payload. */
  lemma SentPartsReadBack(boundary: string, route: Route, image: (string, seq<byte>), fileName: string, payload: seq<byte>)
    requires '"' !in route.feFileField && '"' !in route.fileField && '"' !in image.0 && '"' !in fileName
    ensures var body := PartChunks(boundary, route.feFileField, image.0, image.1)
                        + PartChunks(boundary, route.fileField, fileName, payload);
      ParsePart(boundary, body[..6]) == Some((route.feFileField, image.0, image.1)) &&
      ParsePart(boundary, body[6..]) == Some((route.fileField, fileName, payload))
  {
    var p1 := PartChunks(boundary, route.feFileField, image.0, image.1);
    var p2 := PartChunks(boundary, route.fileField, fileName, payload);
    assert (p1 + p2)[..6] == p1;
    assert (p1 + p2)[6..] == p2;
    PartRoundTrip(boundary, route.feFileField, image.0, image.1);
    PartRoundTrip(boundary, route.fileField, fileName, payload);
  }

  /**
   * The arguments of one `queryEncryptor` call. The services that call it see the call
   * through a function from these arguments to its outcome, which `QueryEncryptor` computes.
   */
  datatype EncryptorCall = EncryptorCall(queryType: string, mode: string, file: Option<seq<byte>>, fileName: string, user: string)
}
