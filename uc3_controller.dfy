/**
 * The use-case-3 handlers of the case-management API (`uc3Controller.js`): evidence
 * ids rewritten into evidence URLs, the key a match result is stored under, and the
 * search for the case whose request an incoming response answers.
 */
module Uc3Controller {
  import opened Wrappers
  import opened Json
  import opened Strings
  import opened CmsCommon

  // ---------------------------------------------------------------------------
  // transformIdsToUrls

  /** The query keys that name evidence and are rewritten into URLs. */
  const IdKeys: set<string> := {"faceId", "voiceId", "fingerprintId"}

  /** The URL keys every rewritten query has. */
  const UrlKeys: set<string> := {"sampleFaceUrl", "sampleVoiceUrl", "sampleFingerprintUrl"}

  /** `sample<Modality>Url` for an id key: "Id" dropped and the first letter capitalised. */
  function UrlKey(key: string): (r: string)
    requires key in IdKeys
    ensures r in UrlKeys
  {
    if key == "faceId" then "sampleFaceUrl"
    else if key == "voiceId" then "sampleVoiceUrl"
    else "sampleFingerprintUrl"
  }

  /** The key an entry of the query is written under. */
  function Target(key: string): (r: string)
    ensures r !in IdKeys
  {
    if key in IdKeys then UrlKey(key) else key
  }

  /** The evidence URL of an id, or "" for a falsy id. */
  function EvidenceUrl(hostUrl: string, businessKey: string, id: Json): (r: Json)
    ensures !JsTruthy(id) ==> r == JStr("")
    ensures JsTruthy(id) ==> r == JStr(hostUrl + "/api/cases/" + businessKey + "/evidence/" + JsString(id))
  {
    if JsTruthy(id) then JStr(hostUrl + "/api/cases/" + businessKey + "/evidence/" + JsString(id)) else JStr("")
  }

  /** The value an entry of the query is written with. */
  function Written(hostUrl: string, businessKey: string, key: string, value: Json): Json
  {
    if key in IdKeys then EvidenceUrl(hostUrl, businessKey, value) else value
  }

  const EmptyUrls: map<string, Json> := map["sampleFaceUrl" := JStr(""), "sampleVoiceUrl" := JStr(""), "sampleFingerprintUrl" := JStr("")]

  /** The object the first entries of the query (in `Object.entries` order) rewrite to. */
  function Rewritten(hostUrl: string, businessKey: string, entries: seq<(string, Json)>): map<string, Json>
  {
    if |entries| == 0 then EmptyUrls
    else
      var e := entries[|entries| - 1];
      Rewritten(hostUrl, businessKey, entries[..|entries| - 1])[Target(e.0) := Written(hostUrl, businessKey, e.0, e.1)]
  }

  /**
   * `transformIdsToUrls`: the three URL keys start empty; an id entry sets its URL key,
   * any other entry is copied; later entries overwrite earlier ones.
   */
  method TransformIdsToUrls(entries: seq<(string, Json)>, businessKey: string, hostUrl: string)
    returns (biometricUrls: map<string, Json>)
    ensures biometricUrls == Rewritten(hostUrl, businessKey, entries)
  {
    biometricUrls := EmptyUrls;
    for i := 0 to |entries|
      invariant biometricUrls == Rewritten(hostUrl, businessKey, entries[..i])
    {
      var (key, value) := entries[i];
      if key in IdKeys {
        biometricUrls := biometricUrls[UrlKey(key) := if JsTruthy(value) then JStr(hostUrl + "/api/cases/" + businessKey + "/evidence/" + JsString(value)) else JStr("")];
      } else {
        biometricUrls := biometricUrls[key := value];
      }
      assert entries[..i + 1][..i] == entries[..i];
    }
    assert entries[..|entries|] == entries;
  }

  /** The rewritten query always has the three URL keys, never an id key, and a key for every other entry. */
  lemma {:induction false} RewrittenKeys(hostUrl: string, businessKey: string, entries: seq<(string, Json)>)
    ensures UrlKeys <= Rewritten(hostUrl, businessKey, entries).Keys
    ensures forall k | k in IdKeys :: k !in Rewritten(hostUrl, businessKey, entries)
    ensures forall i | 0 <= i < |entries| :: Target(entries[i].0) in Rewritten(hostUrl, businessKey, entries)
    ensures forall k | k in Rewritten(hostUrl, businessKey, entries) :: k in UrlKeys || exists i | 0 <= i < |entries| :: entries[i].0 == k
  {
    if |entries| > 0 {
      var init := entries[..|entries| - 1];
      RewrittenKeys(hostUrl, businessKey, init);
      forall i | 0 <= i < |init| ensures init[i] == entries[i] { }
    }
  }

  /**
   * An entry with no later entry written under the same key decides that key: an id's
   * URL (or "") under its URL key, any other value as it is.
   */
  lemma {:induction false} RewrittenLast(hostUrl: string, businessKey: string, entries: seq<(string, Json)>, i: nat)
    requires i < |entries|
    requires forall j | i < j < |entries| :: Target(entries[j].0) != Target(entries[i].0)
    ensures Target(entries[i].0) in Rewritten(hostUrl, businessKey, entries)
    ensures Rewritten(hostUrl, businessKey, entries)[Target(entries[i].0)] == Written(hostUrl, businessKey, entries[i].0, entries[i].1)
  {
    var init := entries[..|entries| - 1];
    if i < |init| {
      assert init[i] == entries[i];
      assert forall j | i < j < |init| :: init[j] == entries[j];
      RewrittenLast(hostUrl, businessKey, init, i);
    }
  }

  // ---------------------------------------------------------------------------
  // match

  /** An element of `[faceId, voiceId, fingerprintId]` as `toString` renders it: undefined and null give "". */
  function ElementText(v: Option<Json>): string
  {
    if v.None? || v.value.JNull? then "" else JsString(v.value)
  }

  /** `[query.faceId, query.voiceId, query.fingerprintId].toString()`, the key a match result is stored under. */
  function ResultKey(query: map<string, Json>): string
  {
    Join([ElementText(Prop(query, "faceId")), ElementText(Prop(query, "voiceId")), ElementText(Prop(query, "fingerprintId"))], ',')
  }

  /** Ids without commas can be read back from the key, in face, voice, fingerprint order. */
  lemma ResultKeyReadsBack(query: map<string, Json>)
    requires ',' !in ElementText(Prop(query, "faceId"))
    requires ',' !in ElementText(Prop(query, "voiceId"))
    requires ',' !in ElementText(Prop(query, "fingerprintId"))
    ensures Fields(ResultKey(query), ',') ==
      [ElementText(Prop(query, "faceId")), ElementText(Prop(query, "voiceId")), ElementText(Prop(query, "fingerprintId"))]
  {
    FieldsOfJoin([ElementText(Prop(query, "faceId")), ElementText(Prop(query, "voiceId")), ElementText(Prop(query, "fingerprintId"))], ',');
  }

  /** What `match` hands to the case service: the match result under the ids' key, for the "matching" step. */
  function MatchResults(query: map<string, Json>, matchResult: Json): (r: Json)
    ensures r.JObj? && r.fields.Keys == {ResultKey(query)} && r.fields[ResultKey(query)] == matchResult
  {
    JObj(map[ResultKey(query) := matchResult])
  }

  // ---------------------------------------------------------------------------
  // The handlers

  /** The enumeration order `Object.entries` and `for ... in` give an object's keys. */
  type KeyOrder = map<string, Json> -> seq<string>

  /** An enumeration order lists every key of every object exactly once, and nothing else. */
  ghost predicate EnumeratesKeys(keyOrder: KeyOrder)
  {
    forall fields: map<string, Json> :: multiset(keyOrder(fields)) == multiset(fields.Keys)
  }

  /** The entries of an object whose keys come in the given order. */
  function EntriesOf(fields: map<string, Json>, keys: seq<string>): (r: seq<(string, Json)>)
    ensures forall e | e in r :: e.0 in fields && e.1 == fields[e.0]
    ensures forall k | k in keys && k in fields :: (k, fields[k]) in r
    ensures (forall k | k in keys :: k in fields) ==> |r| == |keys| && forall i | 0 <= i < |r| :: r[i].0 == keys[i]
  {
    if |keys| == 0 then []
    else (if keys[0] in fields then [(keys[0], fields[keys[0]])] else []) + EntriesOf(fields, keys[1..])
  }

  /** The case service's `advanceCase` for use case 3: business key, results and step give whether the task was completed, or the error raised. */
  type AdvanceService = (string, Json, string) -> Result<bool>

  /** The 200 answer of a handler, and the results handed to `insertResults` when the task was not completed. */
  datatype HandlerOutcome = HandlerOutcome(reply: Reply, inserted: Option<(string, Json, string)>)

  /**
   * The end of `match` and `receiveResponse`: the case is advanced with the results;
   * when the task was not at the step and the analysis result is truthy, the results are
   * inserted instead; the result is answered with 200; an error of the case service
   * gives 500.
   */
  function Record(businessKey: string, result: Json, results: Json, step: string, advance: AdvanceService): (r: HandlerOutcome)
    ensures r.reply.status == 200 <==> advance(businessKey, results, step).Ok?
    ensures r.reply.status == 200 ==> r.reply.body == result
    ensures advance(businessKey, results, step).Err? ==> r.reply == ServerError(advance(businessKey, results, step).error)
    ensures r.inserted.Some? <==> advance(businessKey, results, step) == Ok(false) && JsTruthy(result)
    ensures r.inserted.Some? ==> r.inserted.value == (businessKey, results, step)
  {
    match advance(businessKey, results, step)
    case Err(e) => HandlerOutcome(ServerError(e), None)
    case Ok(updated) => HandlerOutcome(Reply(200, result), if !updated && JsTruthy(result) then Some((businessKey, results, step)) else None)
  }

  /**
   * Under an order that lists each key once, `Object.entries` gives every field of the
   * object exactly once.
   */
  lemma EntriesOfEnumerated(fields: map<string, Json>, keyOrder: KeyOrder)
    requires EnumeratesKeys(keyOrder)
    ensures var r := EntriesOf(fields, keyOrder(fields));
      && (set e | e in r :: e.0) == fields.Keys
      && |r| == |fields|
      && forall i, j | 0 <= i < j < |r| :: r[i].0 != r[j].0
  {
    var keys := keyOrder(fields);
    SetOrder(keys, fields.Keys);
    var r := EntriesOf(fields, keys);
    assert forall i | 0 <= i < |r| :: r[i].0 == keys[i];
  }

  /** A sequence with the multiset of a set lists each of its elements exactly once. */
  lemma SetOrder<T>(keys: seq<T>, ks: set<T>)
    requires multiset(keys) == multiset(ks)
    ensures forall k :: k in keys <==> k in ks
    ensures |keys| == |ks|
    ensures forall i, j | 0 <= i < j < |keys| :: keys[i] != keys[j]
  {
    forall k ensures k in keys <==> k in ks {
      assert k in keys <==> k in multiset(keys);
    }
    assert |multiset(keys)| == |keys|;
    forall i, j | 0 <= i < j < |keys| ensures keys[i] != keys[j] {
      if keys[i] == keys[j] {
        MultisetTwice(keys, i, j);
      }
    }
  }

  /** A value at two positions of a sequence occurs at least twice in its multiset. */
  lemma {:induction false} MultisetTwice<T>(s: seq<T>, i: nat, j: nat)
    requires i < j < |s| && s[i] == s[j]
    ensures multiset(s)[s[i]] >= 2
  {
    assert s == s[..i] + [s[i]] + s[i + 1..j] + [s[j]] + s[j + 1..];
  }

  /** The use-case-3 service's `match`: the evidence URLs give the match result, or the error raised. */
  type MatchService = map<string, Json> -> Result<Json>

  /**
   * `match`: the query's ids become evidence URLs, the matching service is called with
   * them, and its result is recorded for the "matching" step under the key of the ids.
   */
  method Match(query: map<string, Json>, businessKey: string, hostUrl: string, keyOrder: KeyOrder,
               matchService: MatchService, advance: AdvanceService)
    returns (r: HandlerOutcome)
    requires EnumeratesKeys(keyOrder)
    ensures var matched := matchService(Rewritten(hostUrl, businessKey, EntriesOf(query, keyOrder(query))));
      && (matched.Err? ==> r == HandlerOutcome(ServerError(matched.error), None))
      && (matched.Ok? ==> r == Record(businessKey, matched.value, MatchResults(query, matched.value), "matching", advance))
  {
    var biometricUrls := TransformIdsToUrls(EntriesOf(query, keyOrder(query)), businessKey, hostUrl);
    var matched := matchService(biometricUrls);
    if matched.Err? {
      return HandlerOutcome(ServerError(matched.error), None);
    }
    var results := JObj(map[ResultKey(query) := matched.value]);
    r := Record(businessKey, matched.value, results, "matching", advance);
  }

  /** `match` records the match result under the ids of the query, for the "matching" step. */
  lemma MatchRecordsUnderIds(query: map<string, Json>, businessKey: string, hostUrl: string, keyOrder: KeyOrder,
                             matchService: MatchService, advance: AdvanceService, r: HandlerOutcome)
    requires matchService(Rewritten(hostUrl, businessKey, EntriesOf(query, keyOrder(query)))).Ok?
    requires r == Record(businessKey, matchService(Rewritten(hostUrl, businessKey, EntriesOf(query, keyOrder(query)))).value,
      MatchResults(query, matchService(Rewritten(hostUrl, businessKey, EntriesOf(query, keyOrder(query)))).value), "matching", advance)
    requires r.inserted.Some?
    ensures r.inserted.value.2 == "matching" && r.inserted.value.1.JObj? && r.inserted.value.1.fields.Keys == {ResultKey(query)}
    ensures r.inserted.value.1.fields[ResultKey(query)] == r.reply.body
  {
  }

  /** `caseVars.uc_template.value == "uc_3"`. */
  predicate IsUc3(c: Case)
  {
    "uc_template" in c.caseVars && c.caseVars["uc_template"].JObj?
    && Prop(c.caseVars["uc_template"].fields, "value") == Some(JStr("uc_3"))
  }

  /** The listed cases of use case 3, in listing order. */
  function Uc3Cases(cases: seq<Case>): (r: seq<Case>)
    ensures forall c | c in r :: c in cases && IsUc3(c)
    ensures forall c | c in cases && IsUc3(c) :: c in r
  {
    if |cases| == 0 then []
    else Uc3Cases(cases[..|cases| - 1]) + (if IsUc3(cases[|cases| - 1]) then [cases[|cases| - 1]] else [])
  }

  /**
   * `intermediate_results.value.request` when both are truthy and its `typeof` is
   * "object" (null included), or None when the case is skipped.
   */
  function RequestGroups(c: Case): (r: Option<Json>)
    ensures r.Some? ==> r.value.JObj? || r.value.JArr? || r.value.JNull?
  {
    var ir := Prop(c.caseVars, "intermediate_results");
    if !Present(ir) || !ir.value.JObj? then None
    else
      var v := Prop(ir.value.fields, "value");
      if !Present(v) || !v.value.JObj? then None
      else
        var request := Prop(v.value.fields, "request");
        if request.Some? && (request.value.JObj? || request.value.JArr? || request.value.JNull?) then request else None
  }

  /** The groups `for (let evidence in evidenceGroups)` visits, with their values: an array's indices, an object's keys, nothing for null. */
  function GroupEntries(groups: Json, keyOrder: KeyOrder): seq<(string, Json)>
  {
    match groups
    case JObj(fields) => EntriesOf(fields, keyOrder(fields))
    case JArr(items) => seq(|items|, i requires 0 <= i < |items| => (Decimal(i), items[i]))
    case _ => []
  }

  /** `v[key].toLowerCase()`, which raises unless the property is a string. */
  function LowerProp(v: Json, key: string): (r: Result<string>)
    ensures r.Ok? <==> v.JObj? && key in v.fields && v.fields[key].JStr?
    ensures r.Ok? ==> r.value == Lower(v.fields[key].s)
  {
    if v.JObj? && key in v.fields && v.fields[key].JStr? then Ok(Lower(v.fields[key].s)) else Err("TypeError")
  }

  /** One comparison of the search: both sides lower-cased, the left one first. */
  function SameLower(left: Result<string>, right: Result<string>): Result<bool>
  {
    if left.Err? then Err(left.error)
    else if right.Err? then Err(right.error)
    else Ok(left.value == right.value)
  }

  /**
   * Whether a stored request is the one answered: its `from`, `recipientWebId` and
   * `resIndex` equal the response's `from`, `toWebId` and `resIndex`, ignoring case,
   * compared left to right and stopping at the first difference.
   */
  function Answers(stored: Json, request: Json): (r: Result<bool>)
    ensures r == Ok(true) <==> (
      && LowerProp(stored, "from").Ok? && LowerProp(request, "from").Ok?
      && LowerProp(stored, "from").value == LowerProp(request, "from").value
      && LowerProp(stored, "recipientWebId").Ok? && LowerProp(request, "toWebId").Ok?
      && LowerProp(stored, "recipientWebId").value == LowerProp(request, "toWebId").value
      && LowerProp(stored, "resIndex").Ok? && LowerProp(request, "resIndex").Ok?
      && LowerProp(stored, "resIndex").value == LowerProp(request, "resIndex").value)
    ensures !LowerProp(stored, "from").Ok? || !LowerProp(request, "from").Ok? ==> r.Err?
  {
    var from := SameLower(LowerProp(stored, "from"), LowerProp(request, "from"));
    if from != Ok(true) then from
    else
      var recipient := SameLower(LowerProp(stored, "recipientWebId"), LowerProp(request, "toWebId"));
      if recipient != Ok(true) then recipient
      else SameLower(LowerProp(stored, "resIndex"), LowerProp(request, "resIndex"))
  }

  /** The request that was found: the business key of its case and the group holding it. */
  datatype Found = Found(businessKey: Option<Json>, evidenceIndex: string)

  /** `currCase.caseVars.businessKey.value`, which raises when the variable is undefined or null. */
  function CaseKey(c: Case): Result<Option<Json>>
  {
    var bk := Prop(c.caseVars, "businessKey");
    if bk.None? || bk.value.JNull? then Err("TypeError")
    else if bk.value.JObj? then Ok(Prop(bk.value.fields, "value"))
    else Ok(None)
  }

  /** The search through one group's requests; reading a field of null raises. */
  function SearchRequests(requests: seq<Json>, request: Json, key: Option<Json>, group: string): Result<Option<Found>>
  {
    if |requests| == 0 then Ok(None)
    else if requests[0].JNull? then Err("TypeError")
    else
      match Answers(requests[0], request)
      case Err(e) => Err(e)
      case Ok(true) => Ok(Some(Found(key, group)))
      case Ok(false) => SearchRequests(requests[1..], request, key, group)
  }

  /** The search through a case's groups; only array-valued groups are searched. */
  function SearchGroups(groups: seq<(string, Json)>, request: Json, key: Option<Json>): Result<Option<Found>>
  {
    if |groups| == 0 then Ok(None)
    else if !groups[0].1.JArr? then SearchGroups(groups[1..], request, key)
    else
      match SearchRequests(groups[0].1.items, request, key, groups[0].0)
      case Ok(None) => SearchGroups(groups[1..], request, key)
      case other => other
  }

  /** The search through the cases, stopping at the first request answered. */
  function SearchCases(cases: seq<Case>, request: Json, keyOrder: KeyOrder): Result<Option<Found>>
  {
    if |cases| == 0 then Ok(None)
    else
      match RequestGroups(cases[0])
      case None => SearchCases(cases[1..], request, keyOrder)
      case Some(groups) =>
        match CaseKey(cases[0])
        case Err(e) => Err(e)
        case Ok(key) =>
          match SearchGroups(GroupEntries(groups, keyOrder), request, key)
          case Ok(None) => SearchCases(cases[1..], request, keyOrder)
          case other => other
  }

  /** The innermost loop of `receiveResponse`'s search: one group's requests, in order. */
  method FindInGroup(items: seq<Json>, request: Json, key: Option<Json>, evidence: string) returns (r: Result<Option<Found>>)
    ensures r == SearchRequests(items, request, key, evidence)
  {
    for k := 0 to |items|
      invariant SearchRequests(items, request, key, evidence) == SearchRequests(items[k..], request, key, evidence)
    {
      assert items[k..][1..] == items[k + 1..];
      var currRequest := items[k];
      if currRequest.JNull? {
        return Err("TypeError");
      }
      var answers := Answers(currRequest, request);
      if answers.Err? {
        return Err(answers.error);
      }
      if answers.value {
        return Ok(Some(Found(key, evidence)));
      }
    }
    assert items[|items|..] == [];
    return Ok(None);
  }

  /** The middle loop of the search: a case's groups, array-valued ones searched. */
  method FindInCase(groups: seq<(string, Json)>, request: Json, key: Option<Json>) returns (r: Result<Option<Found>>)
    ensures r == SearchGroups(groups, request, key)
  {
    for j := 0 to |groups|
      invariant SearchGroups(groups, request, key) == SearchGroups(groups[j..], request, key)
    {
      assert groups[j..][1..] == groups[j + 1..];
      var (evidence, requests) := groups[j];
      if requests.JArr? {
        var inGroup := FindInGroup(requests.items, request, key, evidence);
        if inGroup != Ok(None) {
          return inGroup;
        }
      }
    }
    assert groups[|groups|..] == [];
    return Ok(None);
  }

  /** The search loops of `receiveResponse`: the first request, case by case and group by group, that the response answers. */
  method FindRequest(cases: seq<Case>, request: Json, keyOrder: KeyOrder) returns (r: Result<Option<Found>>)
    requires EnumeratesKeys(keyOrder)
    ensures r == SearchCases(cases, request, keyOrder)
  {
    for i := 0 to |cases|
      invariant SearchCases(cases, request, keyOrder) == SearchCases(cases[i..], request, keyOrder)
    {
      assert cases[i..][1..] == cases[i + 1..];
      var currCase := cases[i];
      var requestGroups := RequestGroups(currCase);
      if requestGroups.Some? {
        var key := CaseKey(currCase);
        if key.Err? {
          return Err(key.error);
        }
        var inCase := FindInCase(GroupEntries(requestGroups.value, keyOrder), request, key.value);
        if inCase != Ok(None) {
          return inCase;
        }
      }
    }
    assert cases[|cases|..] == [];
    return Ok(None);
  }

  /** No request of the list is null, and the response answers none of them. */
  ghost predicate Unanswered(requests: seq<Json>, request: Json)
  {
    forall m | m in requests :: !m.JNull? && Answers(m, request) == Ok(false)
  }

  /** Request `k` is the first of the list the response answers: those before it were read and not answered. */
  ghost predicate FirstAnswered(requests: seq<Json>, request: Json, k: int)
  {
    0 <= k < |requests| && Answers(requests[k], request) == Ok(true) && Unanswered(requests[..k], request)
  }

  /** A group the search passes over: not an array, or an array of requests none of which is answered. */
  ghost predicate GroupPassed(g: (string, Json), request: Json)
  {
    g.1.JArr? ==> Unanswered(g.1.items, request)
  }

  /** A case the search passes over: no request groups, or a business key and every group passed over. */
  ghost predicate CasePassed(c: Case, request: Json, keyOrder: KeyOrder)
  {
    RequestGroups(c).Some? ==>
      && CaseKey(c).Ok?
      && forall g | g in GroupEntries(RequestGroups(c).value, keyOrder) :: GroupPassed(g, request)
  }

  /** Group `i` is the first to hold an answered request, named `name`: the groups before it were passed over. */
  ghost predicate FirstAnsweringGroup(groups: seq<(string, Json)>, request: Json, i: int, name: string)
  {
    && 0 <= i < |groups| && groups[i].0 == name && groups[i].1.JArr?
    && (exists k :: FirstAnswered(groups[i].1.items, request, k))
    && forall j | 0 <= j < i :: GroupPassed(groups[j], request)
  }

  /** A hit in one group is reported with the case's key and that group, and is the first request the response answers. */
  lemma {:induction false} SearchRequestsFound(requests: seq<Json>, request: Json, key: Option<Json>, group: string)
    requires SearchRequests(requests, request, key, group).Ok? && SearchRequests(requests, request, key, group).value.Some?
    ensures SearchRequests(requests, request, key, group).value.value == Found(key, group)
    ensures exists k :: FirstAnswered(requests, request, k)
  {
    if Answers(requests[0], request) == Ok(true) {
      assert requests[..0] == [];
      assert FirstAnswered(requests, request, 0);
    } else {
      SearchRequestsFound(requests[1..], request, key, group);
      var k :| FirstAnswered(requests[1..], request, k);
      assert requests[..k + 1] == [requests[0]] + requests[1..][..k];
      assert FirstAnswered(requests, request, k + 1);
    }
  }

  lemma {:induction false} SearchRequestsNone(requests: seq<Json>, request: Json, key: Option<Json>, group: string)
    requires SearchRequests(requests, request, key, group) == Ok(None)
    ensures forall m | m in requests :: !m.JNull? && Answers(m, request) == Ok(false)
  {
    if |requests| > 0 {
      SearchRequestsNone(requests[1..], request, key, group);
    }
  }

  /** A hit in a case's groups carries the case's key and names the first group holding an answered request. */
  lemma {:induction false} SearchGroupsFound(groups: seq<(string, Json)>, request: Json, key: Option<Json>)
    requires SearchGroups(groups, request, key).Ok? && SearchGroups(groups, request, key).value.Some?
    ensures var f := SearchGroups(groups, request, key).value.value;
      && f.businessKey == key
      && exists i :: FirstAnsweringGroup(groups, request, i, f.evidenceIndex)
  {
    var f := SearchGroups(groups, request, key).value.value;
    if groups[0].1.JArr? && SearchRequests(groups[0].1.items, request, key, groups[0].0) != Ok(None) {
      SearchRequestsFound(groups[0].1.items, request, key, groups[0].0);
      assert FirstAnsweringGroup(groups, request, 0, f.evidenceIndex);
    } else {
      if groups[0].1.JArr? {
        SearchRequestsNone(groups[0].1.items, request, key, groups[0].0);
      }
      SearchGroupsFound(groups[1..], request, key);
      var i :| FirstAnsweringGroup(groups[1..], request, i, f.evidenceIndex);
      assert forall j | 1 <= j < i + 1 :: groups[j] == groups[1..][j - 1];
      assert FirstAnsweringGroup(groups, request, i + 1, f.evidenceIndex);
    }
  }

  lemma {:induction false} SearchGroupsNone(groups: seq<(string, Json)>, request: Json, key: Option<Json>)
    requires SearchGroups(groups, request, key) == Ok(None)
    ensures forall g | g in groups && g.1.JArr? :: forall m | m in g.1.items :: !m.JNull? && Answers(m, request) == Ok(false)
  {
    if |groups| > 0 {
      if groups[0].1.JArr? {
        SearchRequestsNone(groups[0].1.items, request, key, groups[0].0);
      }
      SearchGroupsNone(groups[1..], request, key);
      assert forall g | g in groups :: g == groups[0] || g in groups[1..];
    }
  }

  /**
   * Case `i` is the first, in listing order, holding a request the response answers: it
   * has request groups and the business key `f` reports, the group `f` names is its
   * first holding an answered request, and every earlier case was passed over.
   */
  ghost predicate FirstAnsweringCase(cases: seq<Case>, request: Json, keyOrder: KeyOrder, i: int, f: Found)
  {
    && 0 <= i < |cases|
    && RequestGroups(cases[i]).Some? && CaseKey(cases[i]) == Ok(f.businessKey)
    && (exists g :: FirstAnsweringGroup(GroupEntries(RequestGroups(cases[i]).value, keyOrder), request, g, f.evidenceIndex))
    && forall j | 0 <= j < i :: CasePassed(cases[j], request, keyOrder)
  }

  lemma FirstAnsweringCaseAfter(cases: seq<Case>, request: Json, keyOrder: KeyOrder, i: int, f: Found)
    requires |cases| > 0 && CasePassed(cases[0], request, keyOrder)
    requires FirstAnsweringCase(cases[1..], request, keyOrder, i, f)
    ensures FirstAnsweringCase(cases, request, keyOrder, i + 1, f)
  {
    assert cases[i + 1] == cases[1..][i];
    forall j | 0 <= j < i + 1
      ensures CasePassed(cases[j], request, keyOrder)
    {
      if j > 0 {
        assert cases[j] == cases[1..][j - 1];
      }
    }
  }

  /** A request found by `receiveResponse`'s search lies in the first case holding a request the response answers. */
  lemma {:induction false} SearchCasesFound(cases: seq<Case>, request: Json, keyOrder: KeyOrder)
    requires SearchCases(cases, request, keyOrder).Ok? && SearchCases(cases, request, keyOrder).value.Some?
    ensures exists i :: FirstAnsweringCase(cases, request, keyOrder, i, SearchCases(cases, request, keyOrder).value.value)
  {
    var f := SearchCases(cases, request, keyOrder).value.value;
    var c := cases[0];
    if RequestGroups(c).Some? && CaseKey(c).Ok?
       && SearchGroups(GroupEntries(RequestGroups(c).value, keyOrder), request, CaseKey(c).value) != Ok(None) {
      SearchGroupsFound(GroupEntries(RequestGroups(c).value, keyOrder), request, CaseKey(c).value);
      assert FirstAnsweringCase(cases, request, keyOrder, 0, f);
    } else {
      if RequestGroups(c).Some? {
        SearchGroupsNone(GroupEntries(RequestGroups(c).value, keyOrder), request, CaseKey(c).value);
      }
      assert CasePassed(c, request, keyOrder);
      SearchCasesFound(cases[1..], request, keyOrder);
      var i :| FirstAnsweringCase(cases[1..], request, keyOrder, i, f);
      FirstAnsweringCaseAfter(cases, request, keyOrder, i, f);
    }
  }

  /**
   * When the search finds nothing, every case with request groups has a business key
   * and no request of any array group is null or answered by the response.
   */
  lemma {:induction false} SearchCasesNone(cases: seq<Case>, request: Json, keyOrder: KeyOrder)
    requires SearchCases(cases, request, keyOrder) == Ok(None)
    ensures forall c | c in cases && RequestGroups(c).Some? :: CaseKey(c).Ok?
    ensures forall c, g | c in cases && RequestGroups(c).Some? && g in GroupEntries(RequestGroups(c).value, keyOrder) && g.1.JArr? ::
      forall m | m in g.1.items :: !m.JNull? && Answers(m, request) == Ok(false)
  {
    if |cases| > 0 {
      var c := cases[0];
      if RequestGroups(c).Some? {
        SearchGroupsNone(GroupEntries(RequestGroups(c).value, keyOrder), request, CaseKey(c).value);
      }
      SearchCasesNone(cases[1..], request, keyOrder);
      assert forall c | c in cases :: c == cases[0] || c in cases[1..];
    }
  }

  /** The use-case-3 service's `receiveResponse`: the response and the business key give the result, or the error raised. */
  type ReceiveService = (map<string, Json>, string) -> Result<Json>

  /** The response with the request's `resIndex` copied onto it (an undefined one is dropped when sent). */
  function Copied(response: map<string, Json>, request: Json): (r: map<string, Json>)
    ensures "resIndex" in r <==> request.JObj? && "resIndex" in request.fields
    ensures "resIndex" in r ==> r["resIndex"] == request.fields["resIndex"]
    ensures forall k | k in response && k != "resIndex" :: k in r && r[k] == response[k]
    ensures r.Keys <= response.Keys + {"resIndex"}
  {
    if request.JObj? && "resIndex" in request.fields then response["resIndex" := request.fields["resIndex"]]
    else response - {"resIndex"}
  }

  /** The results of a response: the group's name holding a one-element list with the result. */
  function StoredResponse(evidenceIndex: string, result: Json): Json
  {
    JObj(map[evidenceIndex := JArr([result])])
  }

  /**
   * `receiveResponse`: the request's `resIndex` is copied onto the response; the use
   * case 3 cases are searched for the request the response answers; none found, or a
   * falsy business key, gives 500 "Case containing a matching request not found";
   * otherwise the response is handed to the service, and its result is recorded for the
   * "response" step under the group's name. A missing request or a response that is not
   * an object raises before anything is answered.
   */
  method ReceiveResponse(response: Json, request: Json, listed: seq<Case>, keyOrder: KeyOrder,
                         receive: ReceiveService, advance: AdvanceService)
    returns (r: Result<HandlerOutcome>)
    requires EnumeratesKeys(keyOrder)
    ensures r.Err? <==> !response.JObj? || request.JNull?
    ensures r.Ok? ==>
      var search := SearchCases(Uc3Cases(listed), request, keyOrder);
      && (search.Err? ==> r.value == HandlerOutcome(ServerError(search.error), None))
      && (search.Ok? && (search.value.None? || !Present(search.value.value.businessKey)) ==>
            r.value == HandlerOutcome(Reply(500, ErrorBody("Case containing a matching request not found")), None))
      && (search.Ok? && search.value.Some? && Present(search.value.value.businessKey) ==>
            var businessKey := JsString(search.value.value.businessKey.value);
            var received := receive(Copied(response.fields, request), businessKey);
            && (received.Err? ==> r.value == HandlerOutcome(ServerError(received.error), None))
            && (received.Ok? ==>
                  r.value == Record(businessKey, received.value, StoredResponse(search.value.value.evidenceIndex, received.value), "response", advance)))
  {
    if !response.JObj? || request.JNull? {
      return Err("TypeError");
    }
    var copied := Copied(response.fields, request);
    var cases := Uc3Cases(listed);
    var found := FindRequest(cases, request, keyOrder);
    if found.Err? {
      return Ok(HandlerOutcome(ServerError(found.error), None));
    }
    if found.value.None? || !Present(found.value.value.businessKey) {
      return Ok(HandlerOutcome(Reply(500, ErrorBody("Case containing a matching request not found")), None));
    }
    var businessKey := JsString(found.value.value.businessKey.value);
    var received := receive(copied, businessKey);
    if received.Err? {
      return Ok(HandlerOutcome(ServerError(received.error), None));
    }
    var results := JObj(map[found.value.value.evidenceIndex := JArr([received.value])]);
    return Ok(Record(businessKey, received.value, results, "response", advance));
  }
}
