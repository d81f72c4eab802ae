/**
 * What the case-management API's two services (`caseService.js` for open cases,
 * `historyService.js` for closed ones) and their controllers share: JavaScript
 * truthiness on JSON values, case objects, the evidence lookup, the count fallback,
 * pagination and the per-case replies.
 */
module CmsCommon {
  import opened Wrappers
  import opened Json
  import opened Strings

  /** JavaScript truthiness of a JSON value (NaN is not modelled). */
  predicate JsTruthy(v: Json)
  {
    match v
    case JNull => false
    case JBool(b) => b
    case JInt(i) => i != 0
    case JReal(r) => r != 0.0
    case JStr(s) => s != ""
    case _ => true
  }

  /** Truthiness of a property that may be undefined (None). */
  predicate Present(v: Option<Json>)
  {
    v.Some? && JsTruthy(v.value)
  }

  /** `obj[key]`: the property of an object, or undefined. */
  function Prop(obj: map<string, Json>, key: string): (r: Option<Json>)
    ensures r.Some? <==> key in obj
    ensures r.Some? ==> r.value == obj[key]
  {
    if key in obj then Some(obj[key]) else None
  }

  /**
   * `String(v)`: the text JavaScript makes of a value in a template literal, a property
   * key or `toString`. Arrays join their elements' texts with commas, null elements
   * giving the empty text; numbers are rendered by their integer part.
   */
  function JsString(v: Json): string
  {
    match v
    case JNull => "null"
    case JBool(b) => if b then "true" else "false"
    case JInt(i) => IntText(i)
    case JReal(r) => IntText(r.Floor)
    case JStr(s) => s
    case JArr(items) =>
      Join(seq(|items|, i requires 0 <= i < |items| => if items[i].JNull? then "" else JsString(items[i])), ',')
    case JObj(_) => "[object Object]"
  }

  /** The text of a value that may be undefined. */
  function JsText(v: Option<Json>): (r: string)
    ensures v.None? ==> r == "undefined"
    ensures v.Some? && v.value.JStr? ==> r == v.value.s
  {
    if v.Some? then JsString(v.value) else "undefined"
  }

  /** `{ a, b, ... } = obj` followed by an object literal: the named fields the object has. */
  function Pick(obj: map<string, Json>, keys: set<string>): (r: map<string, Json>)
    ensures r.Keys == obj.Keys * keys
    ensures forall k | k in r :: r[k] == obj[k]
  {
    map k | k in obj.Keys * keys :: obj[k]
  }

  /** A case as the services list it: the task (or process) fields and the case variables. */
  datatype Case = Case(task: map<string, Json>, caseVars: map<string, Json>)

  /** Only cases that carry a (truthy) `uc_template` variable belong to a use case. */
  predicate IsUseCase(c: Case)
  {
    Present(Prop(c.caseVars, "uc_template"))
  }

  /** The use-case cases among those the engine lists, in listing order. */
  function UseCases(cases: seq<Case>): (r: seq<Case>)
    ensures |r| <= |cases|
    ensures forall c | c in r :: c in cases && IsUseCase(c)
  {
    if |cases| == 0 then []
    else
      var last := cases[|cases| - 1];
      UseCases(cases[..|cases| - 1]) + (if IsUseCase(last) then [last] else [])
  }

  /** Every use-case case is listed. */
  lemma {:induction false} UseCasesComplete(cases: seq<Case>)
    ensures forall c | c in cases && IsUseCase(c) :: c in UseCases(cases)
  {
    if |cases| > 0 {
      var init := cases[..|cases| - 1];
      UseCasesComplete(init);
      assert cases == init + [cases[|cases| - 1]];
    }
  }

  /** Filtering keeps the order: the listing of a concatenation is the concatenation of the listings. */
  lemma {:induction false} UseCasesConcat(a: seq<Case>, b: seq<Case>)
    ensures UseCases(a + b) == UseCases(a) + UseCases(b)
    decreases |b|
  {
    if |b| == 0 {
      assert a + b == a;
    } else {
      var b' := b[..|b| - 1];
      assert (a + b)[..|a + b| - 1] == a + b';
      UseCasesConcat(a, b');
    }
  }

  /** The case the loop of `getCase` keeps: the last use-case case, or undefined. */
  function LastUseCase(cases: seq<Case>): (r: Option<Case>)
    ensures r.Some? ==> r.value in cases && IsUseCase(r.value)
  {
    if |cases| == 0 then None
    else if IsUseCase(cases[|cases| - 1]) then Some(cases[|cases| - 1])
    else LastUseCase(cases[..|cases| - 1])
  }

  /** `getCase` answers with the last case `getAllCases` would list, and with undefined exactly when it lists none. */
  lemma {:induction false} LastUseCaseIsLastListed(cases: seq<Case>)
    ensures var listed := UseCases(cases);
      LastUseCase(cases) == if |listed| == 0 then None else Some(listed[|listed| - 1])
  {
    if |cases| > 0 && !IsUseCase(cases[|cases| - 1]) {
      LastUseCaseIsLastListed(cases[..|cases| - 1]);
    }
  }

  /** `file.id == evidenceId` for evidence ids, which are strings. */
  predicate HasId(file: Json, evidenceId: string)
  {
    file.JObj? && "id" in file.fields && file.fields["id"] == JStr(evidenceId)
  }

  /**
   * Where the `for...of` over the files stops: the first file that has the id, or the
   * first null one, whose `file.id` raises; |files| when it meets neither.
   */
  function FirstStop(files: seq<Json>, evidenceId: string): (k: nat)
    ensures k <= |files|
    ensures k < |files| ==> files[k].JNull? || HasId(files[k], evidenceId)
    ensures forall j | 0 <= j < k :: !files[j].JNull? && !HasId(files[j], evidenceId)
  {
    if |files| == 0 then 0
    else if files[0].JNull? || HasId(files[0], evidenceId) then 0
    else 1 + FirstStop(files[1..], evidenceId)
  }

  /**
   * `getCaseEvidence`: the first evidence file whose id equals the one asked for, or
   * undefined when none does; reading the id of a null file met before it raises.
   */
  function GetCaseEvidence(files: seq<Json>, evidenceId: string): (r: Result<Option<Json>>)
    ensures r.Err? <==> exists k | 0 <= k < |files| ::
      files[k].JNull? && forall j | 0 <= j < k :: !HasId(files[j], evidenceId)
    ensures r == Ok(None) <==> forall j | 0 <= j < |files| :: !files[j].JNull? && !HasId(files[j], evidenceId)
    ensures r.Ok? && r.value.Some? ==> exists k | 0 <= k < |files| ::
      && files[k] == r.value.value && HasId(files[k], evidenceId)
      && forall j | 0 <= j < k :: !files[j].JNull? && !HasId(files[j], evidenceId)
  {
    var k := FirstStop(files, evidenceId);
    if k == |files| then Ok(None)
    else if files[k].JNull? then Err("TypeError")
    else Ok(Some(files[k]))
  }

  /** `taskNum.count || 0`: the count the engine reports, or 0 when it is missing or falsy. */
  function CountOrZero(count: Option<Json>): (r: Json)
    ensures Present(count) ==> r == count.value
    ensures !Present(count) ==> r == JInt(0)
    ensures JsTruthy(r) || r == JInt(0)
  {
    if Present(count) then count.value else JInt(0)
  }

  // ---------------------------------------------------------------------------
  // Pagination of the case listings.

  /** `Number(param) || fallback`, the number a query parameter gives (None for NaN). */
  function NumberOr(param: Option<real>, fallback: real): (r: real)
    ensures param.None? || param == Some(0.0) ==> r == fallback
    ensures param.Some? && param.value != 0.0 ==> r == param.value
  {
    if param.None? || param.value == 0.0 then fallback else param.value
  }

  /** `Math.ceil`. */
  function Ceil(x: real): (c: int)
    ensures c as real >= x && x > c as real - 1.0
  {
    -((-x).Floor)
  }

  const DefaultItemsPerPage: real := 100000.0

  /** The listing's page metadata. */
  datatype Page = Page(page: real, startItem: real, itemsPerPage: real, hasNextPage: bool, totalPages: int)

  /**
   * `getCases`' arithmetic: page and page size from the query (0 and 100000 when
   * missing, zero or not a number), the first item of the page, the page count
   * `ceil(total / itemsPerPage)` and whether a page follows.
   */
  function Paginate(pageParam: Option<real>, itemsParam: Option<real>, total: real): (p: Page)
    ensures p.itemsPerPage != 0.0
    ensures p.startItem == p.page * p.itemsPerPage
    ensures p.hasNextPage <==> p.totalPages as real > p.page + 1.0
  {
    var page := NumberOr(pageParam, 0.0);
    var itemsPerPage := NumberOr(itemsParam, DefaultItemsPerPage);
    var totalPages := Ceil(total / itemsPerPage);
    Page(page, page * itemsPerPage, itemsPerPage, totalPages as real > page + 1.0, totalPages)
  }

  /**
   * For a whole page number, a positive whole page size and a whole total, the page
   * count is the ceiling of total over size, and a next page is announced exactly when
   * items remain after this page.
   */
  lemma PaginateMeaning(page: nat, itemsPerPage: nat, total: nat)
    requires itemsPerPage > 0
    ensures var p := Paginate(Some(page as real), Some(itemsPerPage as real), total as real);
      && p.totalPages == (total + itemsPerPage - 1) / itemsPerPage
      && (p.hasNextPage <==> (page + 1) * itemsPerPage < total)
  {
    var p := Paginate(Some(page as real), Some(itemsPerPage as real), total as real);
    CeilDiv(total, itemsPerPage);
    CeilAbove(total, itemsPerPage, page + 1);
    assert p.hasNextPage <==> p.totalPages > page + 1;
  }

  /** The rounded-up quotient exceeds m exactly when m whole pages do not reach the total. */
  lemma CeilAbove(total: nat, k: nat, m: nat)
    requires k > 0
    ensures (total + k - 1) / k > m <==> m * k < total
  {
    var c := (total + k - 1) / k;
    assert c * k <= total + k - 1 < c * k + k;
    if m * k < total {
      if c <= m {
        MulMonotone(c, m, k);
      }
    }
    if c > m {
      MulMonotone(m + 1, c + 1, k);
      assert c * k >= (m + 1) * k == m * k + k;
    }
  }

  /** Multiplying by a positive factor keeps the order. */
  lemma MulMonotone(a: int, b: int, k: nat)
    requires k > 0
    ensures a <= b ==> a * k <= b * k
    ensures a < b ==> a * k < b * k
  {
  }

  /** The ceiling of a quotient of whole numbers, as integer division computes it. */
  lemma CeilDiv(total: nat, itemsPerPage: nat)
    requires itemsPerPage > 0
    ensures Ceil(total as real / itemsPerPage as real) == (total + itemsPerPage - 1) / itemsPerPage
  {
    var k := itemsPerPage;
    var c := (total + k - 1) / k;
    var x := total as real / k as real;
    assert c * k <= total + k - 1 < c * k + k;
    assert (c - 1) * k < total <= c * k;
    assert x * k as real == total as real;
    assert x <= c as real;
    assert x > (c - 1) as real;
    var d := Ceil(x);
    assert d as real >= x && x > d as real - 1.0;
  }

  /** One listed case as `getCases` returns it: without `intermediate_results` when that is truthy. */
  function Stripped(c: Case): Case
  {
    if Present(Prop(c.caseVars, "intermediate_results")) then c.(caseVars := c.caseVars - {"intermediate_results"}) else c
  }

  /**
   * The loop of `getCases` over the listed cases: `intermediate_results` is deleted
   * from every case whose value for it is truthy; nothing else changes.
   */
  method StripIntermediateResults(cases: seq<Case>) returns (r: seq<Case>)
    ensures |r| == |cases|
    ensures forall i | 0 <= i < |r| :: r[i] == Stripped(cases[i])
    ensures forall i | 0 <= i < |r| :: r[i].task == cases[i].task
    ensures forall i | 0 <= i < |r| :: r[i].caseVars.Keys <= cases[i].caseVars.Keys
    ensures forall i, k | 0 <= i < |r| && k in r[i].caseVars :: r[i].caseVars[k] == cases[i].caseVars[k]
    ensures forall i, k | 0 <= i < |r| && k in cases[i].caseVars && k !in r[i].caseVars ::
      k == "intermediate_results" && JsTruthy(cases[i].caseVars[k])
    ensures forall i | 0 <= i < |r| :: !Present(Prop(r[i].caseVars, "intermediate_results"))
  {
    r := [];
    for i := 0 to |cases|
      invariant |r| == i
      invariant forall j | 0 <= j < i :: r[j].task == cases[j].task
      invariant forall j | 0 <= j < i :: r[j].caseVars.Keys <= cases[j].caseVars.Keys
      invariant forall j, k | 0 <= j < i && k in r[j].caseVars :: r[j].caseVars[k] == cases[j].caseVars[k]
      invariant forall j, k | 0 <= j < i && k in cases[j].caseVars && k !in r[j].caseVars ::
        k == "intermediate_results" && JsTruthy(cases[j].caseVars[k])
      invariant forall j | 0 <= j < i :: !Present(Prop(r[j].caseVars, "intermediate_results"))
      invariant forall j | 0 <= j < i :: r[j] == Stripped(cases[j])
    {
      var task := cases[i];
      if Present(Prop(task.caseVars, "intermediate_results")) {
        task := task.(caseVars := task.caseVars - {"intermediate_results"});
      }
      r := r + [task];
    }
  }

  /** The listing reply: status 200 with the page metadata, the total and the cases. */
  datatype Listing = Listing(page: Page, totalItems: Json, data: seq<Case>)

  /**
   * `getCases` of either controller: the page of cases the service lists from the
   * page's first item, stripped of their intermediate results, with the total count.
   */
  method GetCases(pageParam: Option<real>, itemsParam: Option<real>, listCases: (real, real) -> seq<Case>,
                  count: Option<Json>) returns (listing: Listing)
    ensures listing.page == Paginate(pageParam, itemsParam, if CountOrZero(count).JInt? then CountOrZero(count).i as real else 0.0)
    ensures var p := listing.page; var listed := listCases(p.startItem, p.itemsPerPage);
      && |listing.data| == |listed|
      && forall i | 0 <= i < |listed| :: listing.data[i] == Stripped(listed[i])
    ensures forall i | 0 <= i < |listing.data| :: !Present(Prop(listing.data[i].caseVars, "intermediate_results"))
    ensures listing.totalItems == CountOrZero(count)
  {
    var page := NumberOr(pageParam, 0.0);
    var itemsPerPage := NumberOr(itemsParam, DefaultItemsPerPage);
    var startItem := page * itemsPerPage;
    var tasks := listCases(startItem, itemsPerPage);
    tasks := StripIntermediateResults(tasks);
    var totalCaseNum := CountOrZero(count);
    var total := if totalCaseNum.JInt? then totalCaseNum.i as real else 0.0;
    assert Paginate(pageParam, itemsParam, total).startItem == startItem;
    listing := Listing(Paginate(pageParam, itemsParam, total), totalCaseNum, tasks);
  }

  // ---------------------------------------------------------------------------
  // Replies about one case.

  /** The 500 reply of every handler's catch: the error's message, or a generic text when it has none. */
  function ServerError(message: string): (r: Reply)
    ensures r.status == 500
    ensures r.body.JObj? && "error" in r.body.fields
    ensures message != "" ==> r.body.fields["error"] == JStr(message)
    ensures message == "" ==> r.body.fields["error"] == JStr("Internal Server error")
  {
    Reply(500, JObj(map["error" := JStr(if message == "" then "Internal Server error" else message)]))
  }

  function ErrorBody(message: string): Json
  {
    JObj(map["error" := JStr(message)])
  }

  function NotFoundBody(businessKey: string): Json
  {
    ErrorBody("Case with businessKey " + businessKey + " not found")
  }

  /** `getCase` of either controller: the case with 200, or 404 when the service finds none. */
  function GetCaseReply(found: Option<Case>, businessKey: string): (r: Reply)
    ensures found.None? <==> r.status == 404
    ensures found.None? ==> r.body == NotFoundBody(businessKey)
    ensures found.Some? ==> r.status == 200 && r.body == CaseJson(found.value)
  {
    if found.Some? then Reply(200, CaseJson(found.value)) else Reply(404, NotFoundBody(businessKey))
  }

  function CaseJson(c: Case): Json
  {
    JObj(map["task" := JObj(c.task), "caseVars" := JObj(c.caseVars)])
  }

  /** A string as `for...of` iterates it: its characters, each a one-character string. */
  function Chars(s: string): (r: seq<Json>)
    ensures |r| == |s| && forall j | 0 <= j < |r| :: r[j] == JStr([s[j]])
  {
    seq(|s|, j requires 0 <= j < |s| => JStr([s[j]]))
  }

  /**
   * The evidence files a case lists (`caseVars.evidence.value`) as `for...of` iterates
   * them: an array's items, or a string's characters (none of which is a file); iterating
   * anything else raises.
   */
  function EvidenceFiles(evidence: Json): (r: Result<seq<Json>>)
    ensures r.Ok? <==>
      evidence.JObj? && "value" in evidence.fields && (evidence.fields["value"].JArr? || evidence.fields["value"].JStr?)
    ensures r.Ok? && evidence.fields["value"].JArr? ==> r.value == evidence.fields["value"].items
    ensures r.Ok? && evidence.fields["value"].JStr? ==>
      |r.value| == |evidence.fields["value"].s| && forall j | 0 <= j < |r.value| :: !r.value[j].JObj?
  {
    if evidence.JObj? && "value" in evidence.fields && evidence.fields["value"].JArr? then Ok(evidence.fields["value"].items)
    else if evidence.JObj? && "value" in evidence.fields && evidence.fields["value"].JStr? then Ok(Chars(evidence.fields["value"].s))
    else Err("TypeError")
  }

  /** What a `getEvidence` answers: an error status with its message, or the file streamed back. */
  datatype EvidenceReply = Refused(status: int, error: string) | Streamed(file: Json)

  /**
   * `getEvidence` of either controller: 404 when the case is absent, 400 when it lists
   * no evidence, 404 when no file has the id, and otherwise the first file with the id,
   * streamed with its MIME type (500 when the evidence cannot be iterated, or when a
   * null file met before it raises).
   */
  function GetEvidenceReply(found: Option<Case>, businessKey: string, evidenceId: string): (r: EvidenceReply)
    ensures found.None? ==> r == Refused(404, "Case with businessKey " + businessKey + " not found")
    ensures found.Some? && !Present(Prop(found.value.caseVars, "evidence")) ==>
      r == Refused(400, "Case " + businessKey + " does not contain any evidence files")
    ensures r.Streamed? ==> (
      && found.Some? && Present(Prop(found.value.caseVars, "evidence"))
      && var files := EvidenceFiles(found.value.caseVars["evidence"]);
         files.Ok? && GetCaseEvidence(files.value, evidenceId) == Ok(Some(r.file)))
    ensures found.Some? && r.Refused? && r.status == 404 <==> (
      && found.Some? && Present(Prop(found.value.caseVars, "evidence"))
      && var files := EvidenceFiles(found.value.caseVars["evidence"]);
         files.Ok? && GetCaseEvidence(files.value, evidenceId) == Ok(None))
    ensures found.Some? && Present(Prop(found.value.caseVars, "evidence")) ==>
      var files := EvidenceFiles(found.value.caseVars["evidence"]);
      && (files.Err? ==> r == Refused(500, files.error))
      && (files.Ok? && GetCaseEvidence(files.value, evidenceId).Err? ==>
            r == Refused(500, GetCaseEvidence(files.value, evidenceId).error))
      && (files.Ok? && GetCaseEvidence(files.value, evidenceId).Ok? && GetCaseEvidence(files.value, evidenceId).value.Some? ==>
            r == Streamed(GetCaseEvidence(files.value, evidenceId).value.value))
  {
    if found.None? then Refused(404, "Case with businessKey " + businessKey + " not found")
    else if !Present(Prop(found.value.caseVars, "evidence")) then
      Refused(400, "Case " + businessKey + " does not contain any evidence files")
    else
      match EvidenceFiles(found.value.caseVars["evidence"])
      case Err(e) => Refused(500, e)
      case Ok(files) =>
        match GetCaseEvidence(files, evidenceId)
        case Err(e) => Refused(500, e)
        case Ok(Some(file)) => Streamed(file)
        case Ok(None) => Refused(404, "Case with businessKey " + businessKey + " does not contain evidence with id " + evidenceId)
  }
}
