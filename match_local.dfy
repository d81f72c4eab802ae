/**
 * Local matching on the provider (`MatchLocalServiceImpl`): the sample URLs are sent to
 * the indexer for hashing, the hashes are tagged with the requesting and the answering
 * connector, and the indexer is asked for matches. Both steps swallow their failures,
 * answering what they had built so far.
 */
module MatchLocal {
  import opened Wrappers
  import opened Strings
  import opened Json

  /** The match form (`MatchLocalRequest`). */
  datatype MatchLocalRequest = MatchLocalRequest(providerId: Option<string>, consumerId: Option<string>,
                                                 sampleFaceUrl: Option<string>, sampleFingerprintUrl: Option<string>,
                                                 sampleVoiceUrl: Option<string>)

  /** `parseIncomingMatchLocalRequest`: each argument in its same-named slot (the constructor cannot raise). */
  function ParseIncomingMatchLocalRequest(providerId: Option<string>, consumerId: Option<string>,
                                          sampleFaceUrl: Option<string>, sampleFingerprintUrl: Option<string>,
                                          sampleVoiceUrl: Option<string>): (r: MatchLocalRequest)
    ensures r.providerId == providerId && r.consumerId == consumerId
    ensures r.sampleFaceUrl == sampleFaceUrl && r.sampleFingerprintUrl == sampleFingerprintUrl
    ensures r.sampleVoiceUrl == sampleVoiceUrl
  {
    MatchLocalRequest(providerId, consumerId, sampleFaceUrl, sampleFingerprintUrl, sampleVoiceUrl)
  }

  /** A POST of a JSON object to the indexer. */
  datatype IndexerPost = IndexerPost(url: string, body: Json)

  datatype Services = Services(
    parseJson: string -> Option<Json>,    // JSONParser.parse; None when it raises
    http: IndexerPost -> Option<string>)  // the reply's lines joined; None when the call raises

  /**
   * The hashing request: flags saying which samples are given (a non-empty URL) and the
   * three URLs.
   */
  function HashBody(sampleFaceUrl: string, sampleFingerprintUrl: string, sampleVoiceUrl: string): (r: Json)
    ensures r.JObj? && r.fields.Keys == {"type", "full_facial_image_url", "full_fingerprint_url", "full_voice_url"}
    ensures r.fields["type"] == JObj(map["image" := JBool(sampleFaceUrl != ""),
                                         "fingerprint" := JBool(sampleFingerprintUrl != ""),
                                         "voice" := JBool(sampleVoiceUrl != "")])
    ensures r.fields["full_facial_image_url"] == JStr(sampleFaceUrl)
    ensures r.fields["full_fingerprint_url"] == JStr(sampleFingerprintUrl)
    ensures r.fields["full_voice_url"] == JStr(sampleVoiceUrl)
  {
    var typeObject := map["image" := JBool(|sampleFaceUrl| > 0), "fingerprint" := JBool(|sampleFingerprintUrl| > 0),
                          "voice" := JBool(|sampleVoiceUrl| > 0)];
    JObj(map["type" := JObj(typeObject), "full_facial_image_url" := JStr(sampleFaceUrl),
             "full_fingerprint_url" := JStr(sampleFingerprintUrl), "full_voice_url" := JStr(sampleVoiceUrl)])
  }

  /** What a POST to the indexer parses to: None when the call or the parse raises. */
  function ParsedReply(s: Services, post: IndexerPost): Option<Json>
  {
    var reply := s.http(post);
    if reply.Some? then s.parseJson(reply.value) else None
  }

  /** The hashes `getHashData` answers, or None for a null reply. */
  function HashDataFor(s: Services, indexerAPI: string, providerId: Option<string>, consumerId: Option<string>,
                       sampleFaceUrl: Option<string>, sampleFingerprintUrl: Option<string>, sampleVoiceUrl: Option<string>)
    : Option<map<string, Json>>
  {
    if sampleFaceUrl.None? || sampleFingerprintUrl.None? || sampleVoiceUrl.None? then Some(map[])
    else
      match ParsedReply(s, IndexerPost(indexerAPI + "/calculateHashForSearching",
                                       HashBody(sampleFaceUrl.value, sampleFingerprintUrl.value, sampleVoiceUrl.value)))
      case Some(JNull) => None
      case Some(JObj(fields)) => Some(Tagged(fields, providerId, consumerId))
      case _ => Some(map[])
  }

  /** The matches `getMatchData` answers for the hashes, or None for a null reply. */
  function MatchDataFor(s: Services, indexerAPI: string, hashData: Option<map<string, Json>>): Option<seq<Json>>
  {
    if hashData.None? then Some([])
    else
      match ParsedReply(s, IndexerPost(indexerAPI + "/searchForMatches", JObj(hashData.value)))
      case Some(JArr(items)) => Some(items)
      case Some(JNull) => None
      case _ => Some([])
  }

  /**
   * `getHashData`. A null URL raises before any call and leaves the empty object. The
   * indexer's reply, once parsed, is the answer even if tagging it then raises: it gets
   * `from` (the upper-cased consumer id) and then `to` (the upper-cased provider id) for
   * as long as those ids are non-null. A reply that parses to null makes the answer
   * null; a failed call, unparsable text or a non-object leave the empty object.
   */
  method GetHashData(s: Services, indexerAPI: string, providerId: Option<string>, consumerId: Option<string>,
                     sampleFaceUrl: Option<string>, sampleFingerprintUrl: Option<string>, sampleVoiceUrl: Option<string>)
    returns (hashData: Option<map<string, Json>>, calls: seq<IndexerPost>)
    ensures sampleFaceUrl.None? || sampleFingerprintUrl.None? || sampleVoiceUrl.None? ==>
      hashData == Some(map[]) && calls == []
    ensures sampleFaceUrl.Some? && sampleFingerprintUrl.Some? && sampleVoiceUrl.Some? ==>
      calls == [IndexerPost(indexerAPI + "/calculateHashForSearching",
                            HashBody(sampleFaceUrl.value, sampleFingerprintUrl.value, sampleVoiceUrl.value))]
    ensures |calls| == 1 ==>
      var reply := s.http(calls[0]);
      var parsed := if reply.Some? then s.parseJson(reply.value) else None;
      && (parsed.Some? && parsed.value.JNull? ==> hashData.None?)
      && (parsed.Some? && parsed.value.JObj? ==> hashData == Some(Tagged(parsed.value.fields, providerId, consumerId)))
      && (!(parsed.Some? && (parsed.value.JNull? || parsed.value.JObj?)) ==> hashData == Some(map[]))
    ensures hashData == HashDataFor(s, indexerAPI, providerId, consumerId, sampleFaceUrl, sampleFingerprintUrl, sampleVoiceUrl)
  {
    calls := [];
    if sampleFaceUrl.None? || sampleFingerprintUrl.None? || sampleVoiceUrl.None? {
      return Some(map[]), calls;   // NullPointerException on isEmpty, caught
    }
    var post := IndexerPost(indexerAPI + "/calculateHashForSearching",
                            HashBody(sampleFaceUrl.value, sampleFingerprintUrl.value, sampleVoiceUrl.value));
    calls := [post];
    var response := s.http(post);
    if response.None? {
      return Some(map[]), calls;
    }
    var parsed := s.parseJson(response.value);
    if parsed.None? || !(parsed.value.JNull? || parsed.value.JObj?) {
      return Some(map[]), calls;   // ParseException or ClassCastException, caught
    }
    if parsed.value.JNull? {
      return None, calls;          // the null reply is kept; tagging it raises
    }
    hashData := Some(parsed.value.fields);
    if consumerId.None? {
      return;
    }
    hashData := Some(hashData.value["from" := JStr(Upper(consumerId.value))]);
    if providerId.None? {
      return;
    }
    hashData := Some(hashData.value["to" := JStr(Upper(providerId.value))]);
  }

  /** The reply tagged with the upper-cased ids, as far as the ids are non-null. */
  function Tagged(reply: map<string, Json>, providerId: Option<string>, consumerId: Option<string>): (r: map<string, Json>)
    ensures consumerId.Some? ==> "from" in r && r["from"] == JStr(Upper(consumerId.value))
    ensures consumerId.Some? && providerId.Some? ==> "to" in r && r["to"] == JStr(Upper(providerId.value))
    ensures forall k | k in reply && k !in {"from", "to"} :: k in r && r[k] == reply[k]
    ensures consumerId.None? ==> r == reply
  {
    if consumerId.None? then reply
    else if providerId.None? then reply["from" := JStr(Upper(consumerId.value))]
    else reply["from" := JStr(Upper(consumerId.value))]["to" := JStr(Upper(providerId.value))]
  }

  /**
   * `getMatchData`: the indexer's array of matches for the hashes. Null hashes raise
   * before any call; a failed call, unparsable text or a non-array give the empty
   * array, and a reply that parses to null gives null.
   */
  method GetMatchData(s: Services, indexerAPI: string, hashData: Option<map<string, Json>>)
    returns (matchData: Option<seq<Json>>, calls: seq<IndexerPost>)
    ensures hashData.None? ==> matchData == Some([]) && calls == []
    ensures hashData.Some? ==> calls == [IndexerPost(indexerAPI + "/searchForMatches", JObj(hashData.value))]
    ensures |calls| == 1 ==>
      var reply := s.http(calls[0]);
      var parsed := if reply.Some? then s.parseJson(reply.value) else None;
      && (parsed.Some? && parsed.value.JArr? ==> matchData == Some(parsed.value.items))
      && (parsed.Some? && parsed.value.JNull? ==> matchData.None?)
      && (!(parsed.Some? && (parsed.value.JNull? || parsed.value.JArr?)) ==> matchData == Some([]))
    ensures matchData == MatchDataFor(s, indexerAPI, hashData)
  {
    calls := [];
    if hashData.None? {
      return Some([]), calls;
    }
    var post := IndexerPost(indexerAPI + "/searchForMatches", JObj(hashData.value));
    calls := [post];
    var response := s.http(post);
    if response.None? {
      return Some([]), calls;
    }
    var parsed := s.parseJson(response.value);
    match parsed
    case Some(JArr(items)) => return Some(items), calls;
    case Some(JNull) => return None, calls;
    case _ => return Some([]), calls;
  }

  /**
   * `createMatchLocal`: the matches with status 200, as the indexer answered them for
   * the tagged hashes (null when it answered null). Both steps catch every exception,
   * so the handler's own error path (the one-message array with status 500) is never
   * taken.
   */
  method CreateMatchLocal(s: Services, indexerAPI: string, matchLocalRequest: MatchLocalRequest)
    returns (reply: Reply, calls: seq<IndexerPost>)
    ensures reply.status == 200 && (reply.body.JArr? || reply.body.JNull?)
    ensures reply != Reply(500, ProcessingFailureArray)
    ensures |calls| <= 2
    ensures matchLocalRequest.sampleFaceUrl.None? ==>
      calls == [IndexerPost(indexerAPI + "/searchForMatches", JObj(map[]))]
    ensures var hashData := HashDataFor(s, indexerAPI, matchLocalRequest.providerId, matchLocalRequest.consumerId,
                                        matchLocalRequest.sampleFaceUrl, matchLocalRequest.sampleFingerprintUrl,
                                        matchLocalRequest.sampleVoiceUrl);
      reply.body == (match MatchDataFor(s, indexerAPI, hashData) case None => JNull case Some(matches) => JArr(matches))
  {
    var hashData, hashCalls := GetHashData(s, indexerAPI, matchLocalRequest.providerId, matchLocalRequest.consumerId,
                                           matchLocalRequest.sampleFaceUrl, matchLocalRequest.sampleFingerprintUrl,
                                           matchLocalRequest.sampleVoiceUrl);
    var matchData, matchCalls := GetMatchData(s, indexerAPI, hashData);
    calls := hashCalls + matchCalls;
    if matchData.None? {
      return Reply(200, JNull), calls;
    }
    return Reply(200, JArr(matchData.value)), calls;
  }
}
