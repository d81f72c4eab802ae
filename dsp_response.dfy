/**
 * The provider side of an access request (`DspResponseServiceImpl`): the response form
 * is parsed, the consumer is granted read access to the stored suspect profile, the
 * response is posted to the data-sharing platform, and the consumer's case-management
 * system is told about the request and the response. HTTP, URL encoding and JSON
 * parsing are library services and appear as the functions of a `Services` value.
 */
module DspResponse {
  import opened Wrappers
  import opened Strings
  import opened Json
  import opened EvidenceArchive
  import opened ConnectorRegistry

  /** The response form (`DspResponseRequest`); `requestId` is a Java `long`, 0 when never set. */
  datatype DspResponseRequest = DspResponseRequest(
    providerId: Option<string>, consumerId: Option<string>, solidPod: Option<string>, requestId: int,
    suspectProfileId: Option<string>, recipientAddress: Option<string>, resUrl: Option<string>,
    duration: Option<string>, accessType: Option<string>, responseType: Option<string>,
    encryptionKey: Option<string>, tos: Option<string>)

  /** The form the no-argument constructor builds. */
  const EmptyRequest: DspResponseRequest :=
    DspResponseRequest(None, None, None, 0, None, None, None, None, None, None, None, None)

  /** The HTTP calls the service makes. */
  datatype HttpCall =
    | IndexUrlGet(url: string)                  // GET of the profile's index URL
    | ReadGrant(url: string)                    // POST {"read":true}
    | ResponsePost(url: string, body: string)   // POST of the response text
    | RequestGet(url: string)                   // GET of the original request
    | CaseUpdate(url: string, notice: Json)      // POST to the consumer's case-management system

  /** What a call gives back: an exception, or a status code and the body's lines joined. */
  datatype HttpReply = Raised | Answered(status: int, body: string)

  datatype Services = Services(
    urlEncode: string -> string,          // URLEncoder.encode(_, "UTF-8")
    parseJson: string -> Option<Json>,    // JSONParser.parse; None when it raises
    http: HttpCall -> HttpReply)

  /** The body `getInputStream` yields: none when the call raised or answered an error status. */
  function InputBody(reply: HttpReply): Option<string>
  {
    if reply.Answered? && reply.status < 400 then Some(reply.body) else None
  }

  // ---------------------------------------------------------------------------
  // Parsing the form.

  /** A `(String) jsonObject.get(key)` read. */
  function StringField(fields: map<string, Json>, key: string): Result<Option<string>>
  {
    AsString(Get(fields, key))
  }

  /** A `(long) jsonObject.get(key)` read: null raises NullPointerException, a non-integer ClassCastException. */
  function LongField(fields: map<string, Json>, key: string): (r: Result<int>)
    ensures r.Ok? <==> Get(fields, key).JInt?
  {
    match Get(fields, key)
    case JInt(i) => Ok(i)
    case JNull => Err("NullPointerException")
    case _ => Err("ClassCastException")
  }

  /** The fields read from the body's object, in the source's order; the first failing read raises. */
  function FormOf(fields: map<string, Json>): (r: Result<DspResponseRequest>)
    ensures r.Ok? ==> r.value.resUrl == r.value.suspectProfileId
    ensures r.Ok? ==> Get(fields, "requestId") == JInt(r.value.requestId)
    ensures r.Ok? ==>
      (&& StringField(fields, "providerId") == Ok(r.value.providerId)
       && StringField(fields, "consumerId") == Ok(r.value.consumerId)
       && StringField(fields, "solidPod") == Ok(r.value.solidPod)
       && StringField(fields, "suspectProfileId") == Ok(r.value.suspectProfileId)
       && StringField(fields, "tos") == Ok(r.value.tos)
       && StringField(fields, "responseType") == Ok(r.value.responseType))
    ensures r.Err? <==>
      (!Get(fields, "requestId").JInt? || exists key | key in FormKeys :: StringField(fields, key).Err?)
  {
    var providerId := StringField(fields, "providerId");
    var consumerId := StringField(fields, "consumerId");
    var solidPod := StringField(fields, "solidPod");
    var requestId := LongField(fields, "requestId");
    var recipientAddress := StringField(fields, "recipientAddress");
    var suspectProfileId := StringField(fields, "suspectProfileId");
    var duration := StringField(fields, "duration");
    var accessType := StringField(fields, "accessType");
    var responseType := StringField(fields, "responseType");
    var encryptionKey := StringField(fields, "encryptionKey");
    var tos := StringField(fields, "tos");
    if providerId.Err? then Err(providerId.error)
    else if consumerId.Err? then Err(consumerId.error)
    else if solidPod.Err? then Err(solidPod.error)
    else if requestId.Err? then Err(requestId.error)
    else if recipientAddress.Err? then Err(recipientAddress.error)
    else if suspectProfileId.Err? then Err(suspectProfileId.error)
    else if duration.Err? then Err(duration.error)
    else if accessType.Err? then Err(accessType.error)
    else if responseType.Err? then Err(responseType.error)
    else if encryptionKey.Err? then Err(encryptionKey.error)
    else if tos.Err? then Err(tos.error)
    else
      // the constructor's resUrl slot receives the suspect profile id
      Ok(DspResponseRequest(providerId.value, consumerId.value, solidPod.value, requestId.value,
                            suspectProfileId.value, recipientAddress.value, suspectProfileId.value,
                            duration.value, accessType.value, responseType.value, encryptionKey.value, tos.value))
  }

  /** The string-valued keys of the form. */
  const FormKeys: set<string> := {"providerId", "consumerId", "solidPod", "recipientAddress", "suspectProfileId",
                                  "duration", "accessType", "responseType", "encryptionKey", "tos"}

  /**
   * `parseIncomingDspResponseRequest`: only a ParseException is caught, giving the empty
   * form; a body that parses to something other than an object, or a field of the wrong
   * type, raises.
   */
  function ParseIncomingDspResponseRequest(s: Services, body: string): (r: Result<DspResponseRequest>)
    ensures s.parseJson(body).None? ==> r == Ok(EmptyRequest)
    ensures s.parseJson(body).Some? && !s.parseJson(body).value.JObj? ==> r.Err?
    ensures s.parseJson(body).Some? && s.parseJson(body).value.JObj? ==> r == FormOf(s.parseJson(body).value.fields)
  {
    match s.parseJson(body)
    case None => Ok(EmptyRequest)
    case Some(JObj(fields)) => FormOf(fields)
    case Some(JNull) => Err("NullPointerException")
    case Some(_) => Err("ClassCastException")
  }

  // ---------------------------------------------------------------------------
  // URLs and bodies.

  /** The URL the profile's index URL is read from. */
  function IndexUrlLocation(api: string, solidPod: Option<string>, suspectProfileId: Option<string>): string
  {
    api + "/api/resources/" + JavaText(solidPod) + "/" + JavaText(suspectProfileId) + "/url"
  }

  /** `retrieveIndexUrl`: the body on HTTP 200, and the empty text on any other status or when the call raises. */
  function RetrieveIndexUrl(reply: HttpReply): (r: string)
    ensures reply.Answered? && reply.status == 200 ==> r == reply.body
    ensures !(reply.Answered? && reply.status == 200) ==> r == ""
  {
    if reply.Answered? && reply.status == 200 then reply.body else ""
  }

  /** The stored suspect profile as a resource path of the platform. */
  function ProfileResource(pod: string, suspectProfileId: string): string
  {
    pod + "%2Fsuspects%2F" + suspectProfileId + ".zip.enc"
  }

  /** The consumer's read grant on the provider's stored profile. */
  function ProfileGrantUrl(api: string, providerPod: string, suspectProfileId: string, encodedSolidAPI: string,
                           consumerPod: string): string
  {
    api + "/api/access/read/" + providerPod + "%2Fsuspects%2F" + suspectProfileId + ".zip.enc/" + encodedSolidAPI
      + "%2F" + consumerPod + "%2Fprofile%2Fcard%23me"
  }

  /** The grant names the very resource the provider's services download the profile from. */
  lemma GrantCoversStoredProfile(api: string, providerPod: string, suspectProfileId: string, encodedSolidAPI: string,
                                 consumerPod: string)
    ensures ProfileGrantUrl(api, providerPod, suspectProfileId, encodedSolidAPI, consumerPod)
      == api + "/api/access/read/" + ProfileResource(providerPod, suspectProfileId) + "/" + encodedSolidAPI
         + "%2F" + consumerPod + "%2Fprofile%2Fcard%23me"
    ensures SuspectProfileUrl(api, providerPod, suspectProfileId)
      == api + "/api/resources/" + ProfileResource(providerPod, suspectProfileId) + "?toJSONld=true"
  {
  }

  /** The text before `resUrl` in the posted body. */
  function ResponseBodyHead(requestId: int, providerEthAddr: Option<string>): string
  {
    "{\"requestId\":" + IntText(requestId) + ",\"recipientAddress\": \"" + JavaText(providerEthAddr) + "\", "
  }

  /** The middle of the posted body: the index URL unquoted, then the fixed duration and access type. */
  function ResponseBodyMiddle(indexUrl: string): string
  {
    "\"resUrl\": " + indexUrl + ", \"duration\": 600,\"accessType\": \"read\""
  }

  /**
   * The response text posted to `/api/responses`: built by concatenation, with the index
   * URL spliced in unquoted, a fixed duration of 600 and access type "read", and the
   * response type and terms spliced in unescaped.
   */
  function ResponseBody(requestId: int, providerEthAddr: Option<string>, indexUrl: string,
                        responseType: Option<string>, tos: Option<string>): string
  {
    (ResponseBodyHead(requestId, providerEthAddr) + ResponseBodyMiddle(indexUrl))
      + (", \"responseType\":\"" + JavaText(responseType) + "\", \"tos\": \"" + JavaText(tos) + "\"}")
  }

  /** Right after the head, the body holds the index URL unquoted, then the fixed duration and access type. */
  lemma ResponseBodyFixedFields(requestId: int, providerEthAddr: Option<string>, indexUrl: string,
                                responseType: Option<string>, tos: Option<string>)
    ensures OccursAt(ResponseBody(requestId, providerEthAddr, indexUrl, responseType, tos),
                     "\"resUrl\": " + indexUrl + ", \"duration\": 600,\"accessType\": \"read\"",
                     |ResponseBodyHead(requestId, providerEthAddr)|)
  {
    var head := ResponseBodyHead(requestId, providerEthAddr);
    var mid := ResponseBodyMiddle(indexUrl);
    var tail := ", \"responseType\":\"" + JavaText(responseType) + "\", \"tos\": \"" + JavaText(tos) + "\"}";
    var body := ResponseBody(requestId, providerEthAddr, indexUrl, responseType, tos);
    assert body == (head + mid) + tail;
    assert (head + mid)[|head|..] == mid;
    assert body[|head|..|head| + |mid|] == mid;
  }

  /** `getDSPRequest`: the parsed request object; an empty object when the call or the parse fails or the reply is not an object. */
  function FetchedRequest(s: Services, reply: HttpReply): (r: Json)
    ensures r.JObj? || r.JNull?
    ensures r.JNull? <==> InputBody(reply).Some? && s.parseJson(InputBody(reply).value) == Some(JNull)
  {
    match InputBody(reply)
    case None => JObj(map[])
    case Some(text) =>
      match s.parseJson(text)
      case Some(JObj(fields)) => JObj(fields)
      case Some(JNull) => JNull
      case _ => JObj(map[])
  }

  /** The platform's reply with the response's own fields written over it. */
  function Overridden(reply: map<string, Json>, requestId: int, responseType: Option<string>, tos: Option<string>)
    : (r: map<string, Json>)
    ensures r.Keys == reply.Keys + {"requestId", "duration", "responseType", "tos"}
    ensures forall k | k in reply && k !in {"requestId", "duration", "responseType", "tos"} :: r[k] == reply[k]
    ensures r["requestId"] == JInt(requestId) && r["duration"] == JInt(600)
    ensures r["responseType"] == JText(responseType) && r["tos"] == JText(tos)
  {
    reply["requestId" := JInt(requestId)]["duration" := JInt(600)]["responseType" := JText(responseType)]["tos" := JText(tos)]
  }

  /**
   * The notification for the case-management system. The source stores the reply object
   * in it before writing over the reply's fields; as both are one object, the
   * notification carries the overwritten reply.
   */
  function Notification(request: Json, response: map<string, Json>): Json
  {
    JObj(map["request" := request, "response" := JObj(response)])
  }

  // ---------------------------------------------------------------------------
  // The flow.

  /** The position of the response post among the calls: after the index read and the grant, when one is made. */
  function PostIndex(registry: TensorConnectorRegistry, form: DspResponseRequest): nat
    reads registry
  {
    if Lookup(registry, form.consumerId, SolidApi).Some? then 2 else 1
  }

  /** The response post the flow makes: the form's answer, carrying the index URL read first. */
  function ResponsePostFor(s: Services, registry: TensorConnectorRegistry, dataSharingPlatformAPI: string,
                           form: DspResponseRequest): HttpCall
    reads registry
  {
    ResponsePost(dataSharingPlatformAPI + "/api/responses",
      ResponseBody(form.requestId, Lookup(registry, form.providerId, EthAddress),
                   RetrieveIndexUrl(s.http(IndexUrlGet(IndexUrlLocation(dataSharingPlatformAPI, form.solidPod, form.suspectProfileId)))),
                   form.responseType, form.tos))
  }

  /** The platform's answer to a post, when it is read and parses to a JSON object: its fields. */
  function ReplyFields(s: Services, post: HttpCall): (r: Option<map<string, Json>>)
    ensures r.Some? <==> (
      && InputBody(s.http(post)).Some?
      && s.parseJson(InputBody(s.http(post)).value).Some?
      && s.parseJson(InputBody(s.http(post)).value).value.JObj?)
    ensures r.Some? ==> r.value == s.parseJson(InputBody(s.http(post)).value).value.fields
  {
    var body := InputBody(s.http(post));
    if body.Some? && s.parseJson(body.value).Some? && s.parseJson(body.value).value.JObj? then
      Some(s.parseJson(body.value).value.fields)
    else None
  }

  /**
   * `createAccessResponse`. The index URL is read, the consumer is granted read access
   * to the stored profile (no grant when its Solid API is unknown, since encoding null
   * raises), and the response is posted whatever duration and access type the form
   * asked for. When the platform answers with an object, the original request is
   * fetched, the case-management system is notified, and the reply is returned with
   * the form's request id, 600, response type and terms written over it.
   */
  method CreateAccessResponse(s: Services, registry: TensorConnectorRegistry, dataSharingPlatformAPI: string,
                              form: DspResponseRequest)
    returns (r: Result<map<string, Json>>, calls: seq<HttpCall>)
    ensures |calls| > PostIndex(registry, form)
    ensures calls[0] == IndexUrlGet(IndexUrlLocation(dataSharingPlatformAPI, form.solidPod, form.suspectProfileId))
    ensures PostIndex(registry, form) == 2 ==>
      calls[1] == ReadGrant(ProfileGrantUrl(dataSharingPlatformAPI, JavaText(Lookup(registry, form.providerId, Pod)),
                                            JavaText(form.suspectProfileId),
                                            s.urlEncode(Lookup(registry, form.consumerId, SolidApi).value),
                                            JavaText(Lookup(registry, form.consumerId, Pod))))
    ensures calls[PostIndex(registry, form)] == ResponsePostFor(s, registry, dataSharingPlatformAPI, form)
    ensures calls[PostIndex(registry, form)] == ResponsePost(dataSharingPlatformAPI + "/api/responses",
      ResponseBody(form.requestId, Lookup(registry, form.providerId, EthAddress), RetrieveIndexUrl(s.http(calls[0])),
                   form.responseType, form.tos))
    ensures r.Ok? ==>
      var p := PostIndex(registry, form);
      && InputBody(s.http(calls[p])).Some?
      && s.parseJson(InputBody(s.http(calls[p])).value).Some?
      && s.parseJson(InputBody(s.http(calls[p])).value).value.JObj?
      && r.value == Overridden(s.parseJson(InputBody(s.http(calls[p])).value).value.fields, form.requestId,
                               form.responseType, form.tos)
      && |calls| == p + 3
      && calls[p + 1] == RequestGet(dataSharingPlatformAPI + "/api/requests/" + IntText(form.requestId))
      && calls[p + 2] == CaseUpdate(JavaText(Lookup(registry, form.consumerId, CmsApi)) + "/cases/receive-dsp-response",
                                    Notification(FetchedRequest(s, s.http(calls[p + 1])), r.value))
    ensures r.Err? ==>
      var p := PostIndex(registry, form);
      var reply := InputBody(s.http(calls[p]));
      !(reply.Some? && s.parseJson(reply.value).Some? && s.parseJson(reply.value).value.JObj?)
  {
    var indexLocation := IndexUrlLocation(dataSharingPlatformAPI, form.solidPod, form.suspectProfileId);
    calls := [IndexUrlGet(indexLocation)];
    var indexUrl := RetrieveIndexUrl(s.http(IndexUrlGet(indexLocation)));

    var providerEthAddr := Lookup(registry, form.providerId, EthAddress);
    var cmsAPI := Lookup(registry, form.consumerId, CmsApi);
    var consumerSolidAPI := Lookup(registry, form.consumerId, SolidApi);
    var consumerPod := Lookup(registry, form.consumerId, Pod);
    var providerPod := Lookup(registry, form.providerId, Pod);

    if consumerSolidAPI.Some? {
      calls := calls + [ReadGrant(ProfileGrantUrl(dataSharingPlatformAPI, JavaText(providerPod), JavaText(form.suspectProfileId),
                                                  s.urlEncode(consumerSolidAPI.value), JavaText(consumerPod)))];
    }
    var post := ResponsePost(dataSharingPlatformAPI + "/api/responses",
                             ResponseBody(form.requestId, providerEthAddr, indexUrl, form.responseType, form.tos));
    calls := calls + [post];
    var response := InputBody(s.http(post));
    if response.None? {
      return Err("IOException"), calls;
    }
    var parsed := s.parseJson(response.value);
    if parsed.None? {
      return Err("ParseException"), calls;
    }
    if parsed.value.JNull? {
      // the request is still fetched before writing into the null reply raises
      calls := calls + [RequestGet(dataSharingPlatformAPI + "/api/requests/" + IntText(form.requestId))];
      return Err("NullPointerException"), calls;
    }
    if !parsed.value.JObj? {
      return Err("ClassCastException"), calls;
    }
    var requestGet := RequestGet(dataSharingPlatformAPI + "/api/requests/" + IntText(form.requestId));
    calls := calls + [requestGet];
    var requestObj := FetchedRequest(s, s.http(requestGet));
    var responseObj := Overridden(parsed.value.fields, form.requestId, form.responseType, form.tos);
    calls := calls + [CaseUpdate(JavaText(cmsAPI) + "/cases/receive-dsp-response", Notification(requestObj, responseObj))];
    return Ok(responseObj), calls;
  }

  /**
   * `createDSPAccessResponse`: 200 with the overridden reply exactly when the platform
   * answers the response post with a JSON object, and 500 with the failure message
   * otherwise.
   */
  method CreateDspAccessResponse(s: Services, registry: TensorConnectorRegistry, dataSharingPlatformAPI: string,
                                 form: DspResponseRequest)
    returns (reply: Reply)
    ensures reply.status == 200 || reply == Reply(500, ProcessingFailure)
    ensures reply.status == 200 ==>
      (reply.body.JObj? && {"duration", "requestId", "tos"} <= reply.body.fields.Keys
       && reply.body.fields["duration"] == JInt(600)
       && reply.body.fields["requestId"] == JInt(form.requestId) && reply.body.fields["tos"] == JText(form.tos))
    ensures var fields := ReplyFields(s, ResponsePostFor(s, registry, dataSharingPlatformAPI, form));
      && (reply.status == 200 <==> fields.Some?)
      && (fields.Some? ==> reply.body == JObj(Overridden(fields.value, form.requestId, form.responseType, form.tos)))
  {
    var r, calls := CreateAccessResponse(s, registry, dataSharingPlatformAPI, form);
    if r.Err? {
      return Reply(500, ProcessingFailure);
    }
    return Reply(200, JObj(r.value));
  }
}
