/**
 * The open-case handlers of the case-management API (`caseController.js`): request
 * validation, the evidence records built from an upload, and what each handler asks of
 * the case service. Services, the uuid generator and the clock are parameters.
 */
module CaseController {
  import opened Wrappers
  import opened Json
  import opened Strings
  import opened CmsCommon
  import opened CaseService

  /** The use-case templates the API knows, and the engine process each starts. */
  const CaseTypes: map<string, string> := map["uc_3" := "process_uc3"]

  /** The names every plain object inherits from `Object.prototype`, which `in` finds as well. */
  const PrototypeKeys: set<string> := {
    "constructor", "__proto__", "toString", "toLocaleString", "valueOf", "hasOwnProperty",
    "isPrototypeOf", "propertyIsEnumerable", "__defineGetter__", "__defineSetter__",
    "__lookupGetter__", "__lookupSetter__"
  }

  /** `key in this.caseTypes`: an own key or an inherited one. */
  predicate InCaseTypes(key: string)
  {
    key in CaseTypes || key in PrototypeKeys
  }

  // ---------------------------------------------------------------------------
  // createCase

  /** The engine call that starts a process: the variables and the process key, or the error it raises. */
  type StartProcess = (map<string, Json>, string) -> Result<Json>

  /** The variables a new case is started with: the body with a fresh business key. */
  function NewCaseVars(newCase: map<string, Json>, uuid: string): (r: map<string, Json>)
    ensures r.Keys == newCase.Keys + {"businessKey"}
    ensures r["businessKey"] == JObj(map["value" := JStr(uuid)])
    ensures forall k | k in newCase && k != "businessKey" :: r[k] == newCase[k]
  {
    newCase["businessKey" := JObj(map["value" := JStr(uuid)])]
  }

  /** The requested template: `newCase.uc_template.value`, which raises when `uc_template` is undefined or null. */
  function RequestedTemplate(newCase: map<string, Json>): (r: Result<string>)
    ensures r.Err? <==> "uc_template" !in newCase || newCase["uc_template"].JNull?
  {
    if "uc_template" !in newCase || newCase["uc_template"].JNull? then Err("TypeError")
    else if newCase["uc_template"].JObj? then Ok(JsText(Prop(newCase["uc_template"].fields, "value")))
    else Ok("undefined")
  }

  /**
   * `createCase`: 400 for a template that is not a key of the case types, otherwise the
   * process of that type is started with a fresh business key, answered by 201 with the
   * business key or by 500. An inherited key passes the check and reaches the engine
   * without a process key of its own (modelled as the key itself).
   */
  function CreateCase(newCase: map<string, Json>, uuid: string, start: StartProcess): (r: Result<Reply>)
    ensures RequestedTemplate(newCase).Err? ==> r == Err("TypeError")
    ensures RequestedTemplate(newCase).Ok? ==> r.Ok?
    ensures r.Ok? ==> (r.value.status == 400 <==> !InCaseTypes(RequestedTemplate(newCase).value))
    ensures r.Ok? && r.value.status == 400 ==>
      r.value.body == ErrorBody("Use case " + RequestedTemplate(newCase).value + " not supported by the CMS")
    ensures r.Ok? && r.value.status == 201 ==> (
      var t := RequestedTemplate(newCase).value;
      && InCaseTypes(t)
      && start(NewCaseVars(newCase, uuid), if t in CaseTypes then CaseTypes[t] else t).Ok?)
    ensures (RequestedTemplate(newCase) == Ok("uc_3")
             && start(NewCaseVars(newCase, uuid), "process_uc3") == Ok(JObj(map["businessKey" := JStr(uuid)])))
      ==> r == Ok(Reply(201, JObj(map["businessKey" := JStr(uuid)])))
  {
    match RequestedTemplate(newCase)
    case Err(e) => Err(e)
    case Ok(t) =>
      if !InCaseTypes(t) then Ok(Reply(400, ErrorBody("Use case " + t + " not supported by the CMS")))
      else
        var caseType := if t in CaseTypes then CaseTypes[t] else t;
        match start(NewCaseVars(newCase, uuid), caseType)
        case Err(e) => Ok(ServerError(e))
        case Ok(process) =>
          var key := if process.JObj? then Prop(process.fields, "businessKey") else None;
          Ok(Reply(201, JObj(if key.Some? then map["businessKey" := key.value] else map[])))
  }

  /** Only `uc_3` is a case type of its own, yet an inherited name such as `toString` is not refused with 400. */
  lemma InheritedTemplateNotRefused(uuid: string, start: StartProcess)
    ensures var newCase := map["uc_template" := JObj(map["value" := JStr("toString")])];
      CreateCase(newCase, uuid, start).Ok? && CreateCase(newCase, uuid, start).value.status != 400
  {
    var newCase := map["uc_template" := JObj(map["value" := JStr("toString")])];
    assert RequestedTemplate(newCase) == Ok("toString");
  }

  // ---------------------------------------------------------------------------
  // addEvidence

  /** A file multer stored for the upload. */
  datatype UploadedFile = UploadedFile(mimetype: string, path: string, size: int)

  /** `field ? field.toString().split(",") : []` on a form field's text (None when absent). */
  function FieldList(field: Option<string>): seq<string>
  {
    if field.None? || field.value == "" then [] else Fields(field.value, ',')
  }

  /** The record with the i-th element of a list under the key, when the list has one; undefined fields are left out of the stored record. */
  function Put(record: map<string, Json>, key: string, list: seq<string>, i: nat): (r: map<string, Json>)
    ensures i < |list| ==> r == record[key := JStr(list[i])]
    ensures i >= |list| ==> r == record
  {
    if i < |list| then record[key := JStr(list[i])] else record
  }

  /** The descriptive lists of an upload, split at commas. */
  datatype Descriptions = Descriptions(
    descriptions: seq<string>, tags: seq<string>, titles: seq<string>,
    sources: seq<string>, comments: seq<string>, datetimes: seq<string>)

  /** The descriptive form fields of an upload, as text (None when absent). */
  datatype EvidenceForm = EvidenceForm(
    descriptions: Option<string>, tags: Option<string>, titles: Option<string>,
    sources: Option<string>, comments: Option<string>, datetimes: Option<string>)

  function Split(form: EvidenceForm): Descriptions
  {
    Descriptions(FieldList(form.descriptions), FieldList(form.tags), FieldList(form.titles),
                 FieldList(form.sources), FieldList(form.comments), FieldList(form.datetimes))
  }

  /** The fields every record has. */
  function FileFields(id: string, createdAt: string, file: UploadedFile): map<string, Json>
  {
    map["id" := JStr(id), "type" := JStr(file.mimetype), "createdAt" := JStr(createdAt),
        "url" := JStr(file.path), "size" := JInt(file.size)]
  }

  /** The evidence record of the i-th uploaded file. */
  function EvidenceRecord(id: string, createdAt: string, file: UploadedFile, d: Descriptions, i: nat): Json
  {
    JObj(PutOptional(Put(Put(FileFields(id, createdAt, file), "description", d.descriptions, i), "tag", d.tags, i), d, i))
  }

  /** The title, source, comment and datetime a record receives when their lists reach position i. */
  function PutOptional(r: map<string, Json>, d: Descriptions, i: nat): map<string, Json>
  {
    var r := Put(Put(r, "title", d.titles, i), "source", d.sources, i);
    Put(Put(r, "comment", d.comments, i), "datetime", d.datetimes, i)
  }

  /** A key other than the one put keeps its presence and its value. */
  lemma PutElsewhere(record: map<string, Json>, key: string, list: seq<string>, i: nat, other: string)
    requires other != key
    ensures other in Put(record, key, list, i) <==> other in record
    ensures other in record ==> Put(record, key, list, i)[other] == record[other]
  {
  }

  /** The optional fields leave every other key as it was. */
  lemma PutOptionalElsewhere(r: map<string, Json>, d: Descriptions, i: nat, other: string)
    requires other != "title" && other != "source" && other != "comment" && other != "datetime"
    requires other in r
    ensures other in PutOptional(r, d, i) && PutOptional(r, d, i)[other] == r[other]
  {
    var r1 := Put(r, "title", d.titles, i);
    PutElsewhere(r, "title", d.titles, i, other);
    var r2 := Put(r1, "source", d.sources, i);
    PutElsewhere(r1, "source", d.sources, i, other);
    var r3 := Put(r2, "comment", d.comments, i);
    PutElsewhere(r2, "comment", d.comments, i, other);
    PutElsewhere(r3, "datetime", d.datetimes, i, other);
  }

  /** The i-th record pairs the i-th file with the i-th description and tag. */
  lemma EvidenceRecordPairs(id: string, createdAt: string, file: UploadedFile, d: Descriptions, i: nat)
    requires i < |d.descriptions| && i < |d.tags|
    ensures var r := EvidenceRecord(id, createdAt, file, d, i).fields;
      && "id" in r && r["id"] == JStr(id) && "url" in r && r["url"] == JStr(file.path)
      && "type" in r && r["type"] == JStr(file.mimetype)
      && "description" in r && r["description"] == JStr(d.descriptions[i]) && "tag" in r && r["tag"] == JStr(d.tags[i])
  {
    var described := FileFields(id, createdAt, file)["description" := JStr(d.descriptions[i])]["tag" := JStr(d.tags[i])];
    assert |"title"| == 5 && |"source"| == 6 && |"comment"| == 7 && |"datetime"| == 8;
    assert "tag" != "title" by { assert "tag"[1] != "title"[1]; }
    PutOptionalElsewhere(described, d, i, "id");
    PutOptionalElsewhere(described, d, i, "url");
    PutOptionalElsewhere(described, d, i, "type");
    PutOptionalElsewhere(described, d, i, "description");
    PutOptionalElsewhere(described, d, i, "tag");
  }

  /** The i-th record holds the i-th title, source, comment and datetime exactly when those lists are long enough. */
  lemma EvidenceRecordOptional(id: string, createdAt: string, file: UploadedFile, d: Descriptions, i: nat)
    ensures var r := EvidenceRecord(id, createdAt, file, d, i).fields;
      && ("title" in r <==> i < |d.titles|) && (i < |d.titles| ==> r["title"] == JStr(d.titles[i]))
      && ("source" in r <==> i < |d.sources|) && (i < |d.sources| ==> r["source"] == JStr(d.sources[i]))
      && ("comment" in r <==> i < |d.comments|) && (i < |d.comments| ==> r["comment"] == JStr(d.comments[i]))
      && ("datetime" in r <==> i < |d.datetimes|) && (i < |d.datetimes| ==> r["datetime"] == JStr(d.datetimes[i]))
  {
  }

  /** The answer of `addEvidence` and the evidence update it asks of the service. */
  datatype AddEvidenceOutcome = AddEvidenceOutcome(reply: Reply, post: Option<EvidencePost>)

  /**
   * `addEvidence`: 404 for an unknown case; 400 when the files are missing or their
   * count differs from the descriptions'; 400 when it differs from the tags'; otherwise
   * one record per file, handed to `addCaseEvidence`, and 204 (500 when that raises).
   * `uuid(i)` and `now(i)` are the id and the time the i-th record receives.
   */
  method AddEvidence(businessKey: string, found: Option<Case>, files: Option<seq<UploadedFile>>, form: EvidenceForm,
                     uuid: nat -> string, now: nat -> string) returns (out: AddEvidenceOutcome)
    ensures found.None? ==> out == AddEvidenceOutcome(Reply(404, NotFoundBody(businessKey)), None)
    ensures found.Some? && (files.None? || |Split(form).descriptions| != |files.value|) ==>
      out == AddEvidenceOutcome(Reply(400, ErrorBody("Evidence files do not match evidence descriptions")), None)
    ensures found.Some? && files.Some? && |Split(form).descriptions| == |files.value| && |Split(form).tags| != |files.value| ==>
      out == AddEvidenceOutcome(Reply(400, ErrorBody("Tags do not match evidence descriptions")), None)
    ensures out.post.Some? <==> out.reply.status == 204
    ensures out.post.Some? ==> (
      && found.Some? && files.Some? && |Split(form).descriptions| == |files.value| && |Split(form).tags| == |files.value|
      && var records := seq(|files.value|, i requires 0 <= i < |files.value| => EvidenceRecord(uuid(i), now(i), files.value[i], Split(form), i));
         AddCaseEvidence(found, records) == Ok(out.post.value))
    ensures out.reply.status in {204, 400, 404, 500}
  {
    var d := Split(form);
    if found.None? {
      return AddEvidenceOutcome(Reply(404, NotFoundBody(businessKey)), None);
    }
    if files.None? || |d.descriptions| != |files.value| {
      return AddEvidenceOutcome(Reply(400, ErrorBody("Evidence files do not match evidence descriptions")), None);
    }
    if |d.tags| != |files.value| {
      return AddEvidenceOutcome(Reply(400, ErrorBody("Tags do not match evidence descriptions")), None);
    }
    var evidence := files.value;
    var evidenceData: seq<Json> := [];
    for i := 0 to |evidence|
      invariant |evidenceData| == i
      invariant forall j | 0 <= j < i :: evidenceData[j] == EvidenceRecord(uuid(j), now(j), evidence[j], d, j)
    {
      evidenceData := evidenceData + [EvidenceRecord(uuid(i), now(i), evidence[i], d, i)];
    }
    assert evidenceData == seq(|evidence|, i requires 0 <= i < |evidence| => EvidenceRecord(uuid(i), now(i), evidence[i], d, i));
    match AddCaseEvidence(found, evidenceData)
    case Err(e) =>
      out := AddEvidenceOutcome(ServerError(e), None);
    case Ok(post) =>
      out := AddEvidenceOutcome(Reply(204, JNull), Some(post));
  }

  // ---------------------------------------------------------------------------
  // updateCase

  /** `Object.keys(v)`: an object's keys, the indices of an array or a string, nothing for other values. */
  function ObjectKeys(v: Json): set<string>
  {
    match v
    case JObj(fields) => fields.Keys
    case JArr(items) => set i | 0 <= i < |items| :: Decimal(i)
    case JStr(s) => set i | 0 <= i < |s| :: Decimal(i)
    case _ => {}
  }

  /** The answer of `updateCase` and the variables it hands to the service. */
  datatype UpdateCaseOutcome = UpdateCaseOutcome(reply: Reply, variables: Option<Json>)

  /**
   * `updateCase`: 404 for an unknown case, 400 for a missing or empty body, 400 when
   * the body would change `businessKey` or `uc_template`; otherwise the body is handed to
   * the service and the answer is 204.
   */
  function UpdateCaseHandler(businessKey: string, found: Option<Case>, variables: Option<Json>): (r: UpdateCaseOutcome)
    ensures found.None? <==> r.reply.status == 404
    ensures found.Some? && (!Present(variables) || ObjectKeys(variables.value) == {}) ==>
      r == UpdateCaseOutcome(Reply(400, ErrorBody("No variables to update")), None)
    ensures r.variables.Some? <==> r.reply.status == 204
    ensures r.variables.Some? ==> (
      && found.Some? && variables == r.variables && Present(variables)
      && ObjectKeys(variables.value) != {}
      && "businessKey" !in ObjectKeys(variables.value) && "uc_template" !in ObjectKeys(variables.value))
    ensures (found.Some? && Present(variables) && ObjectKeys(variables.value) != {}
             && "businessKey" !in ObjectKeys(variables.value) && "uc_template" !in ObjectKeys(variables.value))
      ==> r.variables == variables
  {
    if found.None? then UpdateCaseOutcome(Reply(404, NotFoundBody(businessKey)), None)
    else if !Present(variables) || ObjectKeys(variables.value) == {} then
      UpdateCaseOutcome(Reply(400, ErrorBody("No variables to update")), None)
    else if "businessKey" in ObjectKeys(variables.value) || "uc_template" in ObjectKeys(variables.value) then
      UpdateCaseOutcome(Reply(400, ErrorBody("DO NOT update 'uc_template' or 'businessKey'. Please create a new case")), None)
    else UpdateCaseOutcome(Reply(204, JNull), variables)
  }

  // ---------------------------------------------------------------------------
  // deleteEvidence

  /**
   * `files.filter(item => item.id !== evidenceId)`: the files whose id differs, in order;
   * the filter reads the id of every file, so a null one anywhere raises.
   */
  function WithoutEvidence(files: seq<Json>, evidenceId: string): (r: Result<seq<Json>>)
    ensures r.Err? <==> JNull in files
    ensures r.Ok? ==> |r.value| <= |files|
    ensures r.Ok? ==> forall f | f in r.value :: f in files && !HasId(f, evidenceId)
    ensures r.Ok? ==> forall f | f in files && !HasId(f, evidenceId) :: f in r.value
  {
    if |files| == 0 then Ok([])
    else
      var last := files[|files| - 1];
      var kept := WithoutEvidence(files[..|files| - 1], evidenceId);
      assert files == files[..|files| - 1] + [last];
      if kept.Err? || last.JNull? then Err("TypeError")
      else Ok(kept.value + (if HasId(last, evidenceId) then [] else [last]))
  }

  /** The filter keeps the order of the remaining files, and raises when either part does. */
  lemma {:induction false} WithoutEvidenceConcat(a: seq<Json>, b: seq<Json>, evidenceId: string)
    ensures WithoutEvidence(a + b, evidenceId).Ok? <==> WithoutEvidence(a, evidenceId).Ok? && WithoutEvidence(b, evidenceId).Ok?
    ensures WithoutEvidence(a + b, evidenceId).Ok? ==>
      WithoutEvidence(a + b, evidenceId).value == WithoutEvidence(a, evidenceId).value + WithoutEvidence(b, evidenceId).value
    decreases |b|
  {
    if |b| == 0 {
      assert a + b == a;
    } else {
      var init, last := b[..|b| - 1], b[|b| - 1];
      assert b == init + [last];
      assert a + b == (a + init) + [last];
      WithoutEvidenceConcat(a, init, evidenceId);
      FilterSnoc(a + init, last, evidenceId);
      FilterSnoc(init, last, evidenceId);
      SnocAfterConcat(WithoutEvidence(a, evidenceId), WithoutEvidence(init, evidenceId), WithoutEvidence(a + init, evidenceId),
                      WithoutEvidence(a + b, evidenceId), WithoutEvidence(b, evidenceId), last, evidenceId);
    }
  }

  /** The step of the concatenation proof, on the filter results alone. */
  lemma SnocAfterConcat(left: Result<seq<Json>>, init: Result<seq<Json>>, joined: Result<seq<Json>>,
                        extended: Result<seq<Json>>, right: Result<seq<Json>>, last: Json, evidenceId: string)
    requires joined.Ok? <==> left.Ok? && init.Ok?
    requires joined.Ok? ==> joined.value == left.value + init.value
    requires extended == if joined.Err? || last.JNull? then Err("TypeError")
                         else Ok(joined.value + (if HasId(last, evidenceId) then [] else [last]))
    requires right == if init.Err? || last.JNull? then Err("TypeError")
                      else Ok(init.value + (if HasId(last, evidenceId) then [] else [last]))
    ensures extended.Ok? <==> left.Ok? && right.Ok?
    ensures extended.Ok? ==> extended.value == left.value + right.value
  {
  }

  /** One more file: the filter of the others, then the file unless it has the id; a null file raises. */
  lemma FilterSnoc(files: seq<Json>, last: Json, evidenceId: string)
    ensures WithoutEvidence(files + [last], evidenceId) ==
      if WithoutEvidence(files, evidenceId).Err? || last.JNull? then Err("TypeError")
      else Ok(WithoutEvidence(files, evidenceId).value + (if HasId(last, evidenceId) then [] else [last]))
  {
    assert (files + [last])[..|files + [last]| - 1] == files;
  }

  /**
   * The answer of `deleteEvidence`, the evidence file it removes from disk and the
   * evidence variable it hands to `updateCase`.
   */
  datatype DeleteEvidenceOutcome = DeleteEvidenceOutcome(reply: Reply, removed: Option<Json>, evidence: Option<Json>)

  /**
   * `deleteEvidence`: the `getEvidence` refusals (404 for an unknown case, 400 when it
   * lists no evidence, 404 when no file has the id, 500 when the lookup raises);
   * otherwise the file is removed, and the evidence without every file of that id (and
   * without its stale `type`) is handed to `updateCase` with the answer 205, unless a
   * null file makes the filter raise, which is answered 500 after the removal.
   */
  function DeleteEvidence(businessKey: string, found: Option<Case>, evidenceId: string): (r: DeleteEvidenceOutcome)
    ensures r.reply.status == 205 <==> r.evidence.Some?
    ensures r.removed.Some? <==> GetEvidenceReply(found, businessKey, evidenceId).Streamed?
    ensures r.removed.Some? ==> r.removed.value == GetEvidenceReply(found, businessKey, evidenceId).file
    ensures r.evidence.Some? ==> (
      && found.Some? && Present(Prop(found.value.caseVars, "evidence"))
      && var files := EvidenceFiles(found.value.caseVars["evidence"]);
      && files.Ok? && GetCaseEvidence(files.value, evidenceId).Ok? && GetCaseEvidence(files.value, evidenceId).value.Some?
      && WithoutEvidence(files.value, evidenceId).Ok?
      && r.evidence.value == JObj((found.value.caseVars["evidence"].fields - {"type"})["value" := JArr(WithoutEvidence(files.value, evidenceId).value)]))
    ensures GetEvidenceReply(found, businessKey, evidenceId).Refused? ==>
      r.reply == EvidenceRefusal(GetEvidenceReply(found, businessKey, evidenceId))
    ensures GetEvidenceReply(found, businessKey, evidenceId).Streamed? ==>
      var files := found.value.caseVars["evidence"].fields["value"].items;
      && (WithoutEvidence(files, evidenceId).Err? ==>
            r.reply == Reply(500, ErrorBody(WithoutEvidence(files, evidenceId).error)) && r.evidence.None?)
      && (WithoutEvidence(files, evidenceId).Ok? ==> r.reply.status == 205)
  {
    match GetEvidenceReply(found, businessKey, evidenceId)
    case Refused(status, error) => DeleteEvidenceOutcome(Reply(status, ErrorBody(error)), None, None)
    case Streamed(file) =>
      var evidence := found.value.caseVars["evidence"].fields;
      var files := evidence["value"].items;
      match WithoutEvidence(files, evidenceId)
      case Err(e) => DeleteEvidenceOutcome(Reply(500, ErrorBody(e)), Some(file), None)
      case Ok(kept) =>
        DeleteEvidenceOutcome(Reply(205, JNull), Some(file), Some(JObj((evidence - {"type"})["value" := JArr(kept)])))
  }

  /** The reply of a refused evidence request. */
  function EvidenceRefusal(e: EvidenceReply): Reply
  {
    if e.Refused? then Reply(e.status, ErrorBody(e.error)) else Reply(205, JNull)
  }

  /** After deletion no file with the id remains, and every other file does. */
  lemma DeletedEvidenceGone(businessKey: string, found: Option<Case>, evidenceId: string)
    requires DeleteEvidence(businessKey, found, evidenceId).evidence.Some?
    ensures var e := DeleteEvidence(businessKey, found, evidenceId).evidence.value;
      var files := found.value.caseVars["evidence"].fields["value"].items;
      && e.JObj? && "value" in e.fields && e.fields["value"].JArr?
      && (forall f | f in e.fields["value"].items :: !HasId(f, evidenceId))
      && (forall f | f in files && !HasId(f, evidenceId) :: f in e.fields["value"].items)
      && |e.fields["value"].items| < |files|
  {
    var files := found.value.caseVars["evidence"].fields["value"].items;
    var k := FirstStop(files, evidenceId);
    RemovesOne(files, evidenceId, k);
  }

  /** Removing the files of an id that occurs shortens the list. */
  lemma {:induction false} RemovesOne(files: seq<Json>, evidenceId: string, k: nat)
    requires k < |files| && HasId(files[k], evidenceId)
    ensures WithoutEvidence(files, evidenceId).Ok? ==> |WithoutEvidence(files, evidenceId).value| < |files|
  {
    var init := files[..|files| - 1];
    if k < |init| {
      assert init[k] == files[k];
      assert files == init + [files[|files| - 1]];
      RemovesOne(init, evidenceId, k);
    }
  }

  // ---------------------------------------------------------------------------
  // advanceCase

  /** The answer of `advanceCase`, the task completion the service made and the results inserted instead. */
  datatype AdvanceOutcome = AdvanceOutcome(reply: Reply, completed: Option<(string, map<string, Json>)>, inserted: Option<map<string, Json>>)

  /** `(req.query.step?.toString() || "").toLowerCase()`. */
  function QueryStep(step: Option<string>): string
  {
    Lower(if step.Some? then step.value else "")
  }

  /**
   * The handler of `advanceCase` with the step it forwards to the service as a
   * parameter: 400 for a step not among the analysis steps; a missing template raises
   * before anything is answered; otherwise the service advances the case (500 when it
   * raises), results it did not complete the task with are inserted instead when the
   * body is truthy, and the answer is 200.
   */
  function AdvanceHandler(businessKey: string, queryStep: Option<string>, template: Option<string>,
                          forwardedStep: Option<string>, results: Json, task: Option<map<string, Json>>,
                          caseVars: map<string, Json>, current: Option<Case>, merge: DeepMerge): (r: Result<AdvanceOutcome>)
    ensures QueryStep(queryStep) !in AnalysisParams ==>
      r == Ok(AdvanceOutcome(Reply(400, JStr(QueryStep(queryStep) + " is not a recognised analysis step to advance")), None, None))
    ensures QueryStep(queryStep) in AnalysisParams && template.None? ==> r == Err("TypeError")
    ensures r.Ok? && r.value.completed.Some? ==> (
      && template.Some? && r.value.reply.status == 200
      && var a := AdvanceCase(businessKey, task, caseVars, results, template.value, forwardedStep, merge);
         a == Ok(Completed(r.value.completed.value.0, r.value.completed.value.1)))
    ensures r.Ok? && r.value.inserted.Some? ==> (
      && template.Some? && JsTruthy(results) && r.value.completed.None?
      && InsertResults(current, results, QueryStep(queryStep), merge) == Ok(r.value.inserted))
  {
    var step := QueryStep(queryStep);
    if step !in AnalysisParams then
      Ok(AdvanceOutcome(Reply(400, JStr(step + " is not a recognised analysis step to advance")), None, None))
    else if template.None? then Err("TypeError")
    else
      match AdvanceCase(businessKey, task, caseVars, results, template.value, forwardedStep, merge)
      case Err(e) => Ok(AdvanceOutcome(ServerError(e), None, None))
      case Ok(Completed(taskId, ir)) => Ok(AdvanceOutcome(Reply(200, JNull), Some((taskId, ir)), None))
      case Ok(_) =>
        var inserted := if JsTruthy(results) then InsertResults(current, results, step, merge) else Ok(None);
        Ok(AdvanceOutcome(Reply(200, JNull), None, if inserted.Ok? then inserted.value else None))
  }

  /**
   * `advanceCase` as written: the service receives `req.params.step`, which the
   * `/:businessKey/advance` route never defines, so it receives undefined.
   */
  function AdvanceCaseAsWritten(businessKey: string, queryStep: Option<string>, template: Option<string>,
                                results: Json, task: Option<map<string, Json>>, caseVars: map<string, Json>,
                                current: Option<Case>, merge: DeepMerge): Result<AdvanceOutcome>
  {
    AdvanceHandler(businessKey, queryStep, template, None, results, task, caseVars, current, merge)
  }

  /** `advanceCase` as intended: the service receives the validated query step. */
  function AdvanceCaseCorrected(businessKey: string, queryStep: Option<string>, template: Option<string>,
                                results: Json, task: Option<map<string, Json>>, caseVars: map<string, Json>,
                                current: Option<Case>, merge: DeepMerge): Result<AdvanceOutcome>
  {
    AdvanceHandler(businessKey, queryStep, template, Some(QueryStep(queryStep)), results, task, caseVars, current, merge)
  }

  /**
   * As written, the route completes no task whose name lacks the text "undefined",
   * whatever step the query validates.
   */
  lemma AsWrittenNeverCompletes(businessKey: string, queryStep: Option<string>, template: Option<string>,
                                results: Json, task: Option<map<string, Json>>, caseVars: map<string, Json>,
                                current: Option<Case>, merge: DeepMerge)
    requires task.Some? && "name" in task.value && task.value["name"].JStr?
    requires !Contains(Lower(task.value["name"].s), "undefined")
    ensures var r := AdvanceCaseAsWritten(businessKey, queryStep, template, results, task, caseVars, current, merge);
      r.Ok? ==> r.value.completed.None?
  {
  }

  /**
   * As intended, a recognised step whose name the task's lower-cased name contains
   * completes the task with the results merged into that step.
   */
  lemma CorrectedCompletesAtStep(businessKey: string, queryStep: Option<string>, template: string,
                                 results: Json, task: map<string, Json>, caseVars: map<string, Json>,
                                 current: Option<Case>, merge: DeepMerge)
    requires QueryStep(queryStep) in AnalysisParams
    requires TemplateMatches(caseVars, template) && ResultsObject(caseVars).Ok?
    requires "name" in task && task["name"].JStr? && Contains(Lower(task["name"].s), QueryStep(queryStep))
    ensures var r := AdvanceCaseCorrected(businessKey, queryStep, Some(template), results, Some(task), caseVars, current, merge);
      && r.Ok? && r.value.reply.status == 200 && r.value.completed.Some?
      && r.value.completed.value.1 == WithStep(ResultsObject(caseVars).value, QueryStep(queryStep), results, merge)
  {
  }
}
